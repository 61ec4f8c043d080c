/** The checks the booking and inquiry dialogs share: a required text field and the e-mail
    pattern `\S+@\S+\.\S+`, tested anywhere in the text. */
module FormRules {
  import opened Common

  /** `!value.trim()`: the field counts as not filled in. */
  predicate Missing(value: string)
  {
    Trim(value) == ""
  }

  /** The pattern matches with its `@` at `at` and its `.` at `dot`: a non-space before the
      `@`, one or more non-spaces between the two, and a non-space after the `.`. */
  predicate EmailMatchAt(s: string, at: nat, dot: nat)
  {
    && 0 < at && at + 1 < dot && dot + 1 < |s|
    && !IsSpace(s[at - 1]) && s[at] == '@'
    && (forall k :: at < k < dot ==> !IsSpace(s[k]))
    && s[dot] == '.' && !IsSpace(s[dot + 1])
  }

  /** `/\S+@\S+\.\S+/.test(s)`: the pattern matches somewhere in `s`. The surrounding `\S+`
      runs can always be shortened to one character, so a match is fixed by the positions of
      its `@` and `.`. */
  predicate LooksLikeEmail(s: string)
  {
    exists at: nat, dot: nat :: at < dot < |s| && EmailMatchAt(s, at, dot)
  }

  /** The e-mail field's error, if any: "Email is required" for a blank value, otherwise
      "Please enter a valid email" when the pattern does not match. */
  function EmailError(email: string): (e: Option<string>)
    ensures e.None? <==> !IsBlank(email) && LooksLikeEmail(email)
    ensures e.Some? && IsBlank(email) ==> e.value == "Email is required"
    ensures e.Some? && !IsBlank(email) ==> e.value == "Please enter a valid email"
  {
    TrimEmptyIffBlank(email);
    if Missing(email) then Some("Email is required")
    else if !LooksLikeEmail(email) then Some("Please enter a valid email")
    else None
  }

  /** An error shown for the field is blanked once the field is edited; a field without a
      shown error, and every other field, keeps its entry. */
  function ClearError<F>(errors: map<F, string>, field: F): (r: map<F, string>)
    ensures r.Keys == errors.Keys
    ensures forall g :: g in errors && g != field ==> r[g] == errors[g]
    ensures field in r ==> r[field] == ""
  {
    if field in errors && errors[field] != "" then errors[field := ""] else errors
  }

  /** One step of `validateForm`: records `message` for `field` when `failed`. */
  function AddError<F>(errors: map<F, string>, failed: bool, field: F, message: string): (r: map<F, string>)
    ensures failed ==> r == errors[field := message]
    ensures !failed ==> r == errors
  {
    if failed then errors[field := message] else errors
  }

  /** Any text of the form name@domain.tld with non-empty, space-free parts passes. */
  lemma {:induction false} WellFormedAddressMatches(name: string, domain: string, tld: string)
    requires |name| > 0 && |domain| > 0 && |tld| > 0
    requires !IsSpace(name[|name| - 1])
    requires forall k :: 0 <= k < |domain| ==> !IsSpace(domain[k])
    requires !IsSpace(tld[0])
    ensures LooksLikeEmail(name + "@" + domain + "." + tld)
  {
    var s := name + "@" + domain + "." + tld;
    var at := |name|;
    var dot := |name| + 1 + |domain|;
    assert s[at - 1] == name[|name| - 1];
    assert s[at] == '@';
    forall k | at < k < dot
      ensures !IsSpace(s[k])
    {
      assert s[k] == domain[k - at - 1];
    }
    assert s[dot] == '.';
    assert s[dot + 1] == tld[0];
    assert EmailMatchAt(s, at, dot);
  }

  /** A text the pattern accepts holds an `@` followed later by a `.`, and has at least five
      characters. */
  lemma EmailNeedsAtAndDot(s: string)
    requires LooksLikeEmail(s)
    ensures exists i, j :: 0 < i < j < |s| - 1 && s[i] == '@' && s[j] == '.'
    ensures |s| >= 5
  {
    var at: nat, dot: nat :| at < dot < |s| && EmailMatchAt(s, at, dot);
    assert 0 < at < dot < |s| - 1 && s[at] == '@' && s[dot] == '.';
  }

  /** A space right before the only `@` defeats the pattern: "a @b.c" is rejected, while
      "a@b.c" is accepted. */
  lemma EmailExamples()
    ensures LooksLikeEmail("a@b.c")
    ensures !LooksLikeEmail("a @b.c")
  {
    WellFormedAddressMatches("a", "b", "c");
    assert "a" + "@" + "b" + "." + "c" == "a@b.c";
  }
}
