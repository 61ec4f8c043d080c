/** The admin page that lists, creates, edits and deletes packages: its form with three
    editable lists, the edit that fills the form from a package, and the submit that
    creates or updates. */
module AdminPackages {
  import opened Common
  import opened Numbers
  import opened Records
  import opened FormRules
  import opened PackageService

  datatype ListField = Images | Inclusions | Exclusions

  /** The form's state. Price and party size are kept as the text the inputs show. */
  datatype PackageForm = PackageForm(
    title: string,
    description: string,
    price: string,
    duration: string,
    destination: string,
    maxTravelers: string,
    images: seq<string>,
    itinerary: string,
    inclusions: seq<string>,
    exclusions: seq<string>,
    rating: int,
    featured: bool)

  /** The rating a new package gets, 4.5, kept in tenths. */
  const DefaultRating := 45

  /** The empty form: blank texts, one blank entry in each list, not featured. */
  const DefaultForm := PackageForm("", "", "", "", "", "", [""], "", [""], [""], DefaultRating, false)

  function ListOf(form: PackageForm, field: ListField): seq<string>
  {
    match field
    case Images => form.images
    case Inclusions => form.inclusions
    case Exclusions => form.exclusions
  }

  /** Every list of the form has at least one entry, so each shows at least one input. */
  predicate ListsNonEmpty(form: PackageForm)
  {
    forall field :: |ListOf(form, field)| >= 1
  }

  /** `{ ...prev, [field]: entries }`: the named list is replaced and nothing else changes. */
  function WithList(form: PackageForm, field: ListField, entries: seq<string>): (r: PackageForm)
    ensures ListOf(r, field) == entries
    ensures forall g :: g != field ==> ListOf(r, g) == ListOf(form, g)
    ensures r.title == form.title && r.price == form.price && r.maxTravelers == form.maxTravelers
    ensures r.description == form.description && r.duration == form.duration
    ensures r.destination == form.destination && r.itinerary == form.itinerary
    ensures r.rating == form.rating && r.featured == form.featured
  {
    match field
    case Images => form.(images := entries)
    case Inclusions => form.(inclusions := entries)
    case Exclusions => form.(exclusions := entries)
  }

  /** `list.map((item, i) => i === index ? value : item)`, position by position. */
  function SetEntry(list: seq<string>, index: int, value: string): (r: seq<string>)
    ensures |r| == |list|
    ensures forall i :: 0 <= i < |r| ==> r[i] == if i == index then value else list[i]
    decreases |list|
  {
    if list == [] then []
    else [if index == 0 then value else list[0]] + SetEntry(list[1..], index - 1, value)
  }

  /** A position outside the list leaves it as it is. */
  lemma SetEntryOutOfRange(list: seq<string>, index: int, value: string)
    requires index < 0 || index >= |list|
    ensures SetEntry(list, index, value) == list
  {
    var r := SetEntry(list, index, value);
    assert forall i :: 0 <= i < |r| ==> r[i] == list[i];
  }

  /** `[...list, '']`: one blank entry more at the end. */
  function AppendBlank(list: seq<string>): (r: seq<string>)
    ensures |r| == |list| + 1 && r[..|list|] == list && r[|list|] == ""
  {
    list + [""]
  }

  /** `list.filter((_, i) => i !== index)`, position by position. */
  function RemoveEntry(list: seq<string>, index: int): (r: seq<string>)
    ensures 0 <= index < |list| ==> r == list[..index] + list[index + 1..]
    ensures index < 0 || index >= |list| ==> r == list
    decreases |list|
  {
    if list == [] then []
    else
      var rest := RemoveEntry(list[1..], index - 1);
      assert 0 < index < |list| ==> list[1..][..index - 1] + list[1..][index..] == list[1..index] + list[index + 1..];
      assert 0 < index < |list| ==> list[..index] == [list[0]] + list[1..index];
      assert list == [list[0]] + list[1..];
      (if index == 0 then [] else [list[0]]) + rest
  }

  /** Removing an entry that exists shortens the list by one and keeps the others in order. */
  lemma RemoveEntryShape(list: seq<string>, index: int)
    requires 0 <= index < |list|
    ensures |RemoveEntry(list, index)| == |list| - 1
    ensures forall i :: 0 <= i < index ==> RemoveEntry(list, index)[i] == list[i]
    ensures forall i :: index <= i < |list| - 1 ==> RemoveEntry(list, index)[i] == list[i + 1]
  {
  }

  predicate Filled(entry: string)
  {
    !Missing(entry)
  }

  /** `list.filter(e => e.trim())`: the entries that are not blank, in their order. */
  function KeepFilled(list: seq<string>): seq<string>
  {
    Filter(list, Filled)
  }

  /** Submitting keeps exactly the entries that are not blank, in their order. */
  lemma KeepFilledExactly(list: seq<string>)
    ensures IsSubseq(KeepFilled(list), list)
    ensures forall i :: 0 <= i < |KeepFilled(list)| ==> !IsBlank(KeepFilled(list)[i])
    ensures forall e :: e in list && !IsBlank(e) ==> e in KeepFilled(list)
    ensures (forall i :: 0 <= i < |list| ==> !IsBlank(list[i])) ==> KeepFilled(list) == list
  {
    FilterIsSubseq(list, Filled);
    var r := KeepFilled(list);
    forall i | 0 <= i < |r|
      ensures !IsBlank(r[i])
    {
      assert Filled(r[i]);
      TrimEmptyIffBlank(r[i]);
    }
    forall e | e in list && !IsBlank(e)
      ensures e in r
    {
      TrimEmptyIffBlank(e);
      assert Filled(e);
    }
    if forall i :: 0 <= i < |list| ==> !IsBlank(list[i]) {
      forall i | 0 <= i < |list|
        ensures Filled(list[i])
      {
        TrimEmptyIffBlank(list[i]);
      }
      FilterAll(list, Filled);
    }
  }

  /** The entries `handleEdit` puts in the form for a list field: text is split at each
      newline, an array is taken as it is. */
  function ListEntries(v: ListValue): (r: seq<string>)
    ensures v.Entries? ==> r == v.items
    ensures v.Lines? ==> |r| >= 1 && Join(r, '\n') == v.text
  {
    match v
    case Lines(t) => JoinSplit(t, '\n'); Split(t, '\n')
    case Entries(xs) => xs
  }

  /** A numeric property of a package read by name, as `pkg[name]` would; None for a name
      the record does not carry (JavaScript's undefined). */
  function NumberProperty(f: PackageFields, name: string): (r: Option<int>)
    ensures name == "price" ==> r == Some(f.price)
    ensures name == "maxTravelers" ==> r == Some(f.maxTravelers)
    ensures name == "rating" ==> r == Some(f.rating)
    ensures name != "price" && name != "maxTravelers" && name != "rating" ==> r.None?
  {
    if name == "price" then Some(f.price)
    else if name == "maxTravelers" then Some(f.maxTravelers)
    else if name == "rating" then Some(f.rating)
    else None
  }

  /** `handleEdit` as written: it reads `pkg.max_travelers`, which no record has, and calls
      `toString()` on the undefined result, so it throws for every package. */
  function HandleEditAsWritten(pkg: Package): (r: Result<PackageForm>)
    ensures r.Failure? <==> NumberProperty(pkg.fields, "max_travelers").None?
    ensures r.Success? ==>
      r.value == EditForm(pkg).(maxTravelers := IntToString(NumberProperty(pkg.fields, "max_travelers").value))
  {
    var f := pkg.fields;
    match NumberProperty(f, "max_travelers")
    case None => Failure("TypeError: Cannot read properties of undefined (reading 'toString')")
    case Some(m) =>
      Success(PackageForm(f.title, f.description, IntToString(f.price), f.duration, f.destination,
        IntToString(m), ListEntries(f.images), f.itinerary, ListEntries(f.inclusions),
        ListEntries(f.exclusions), f.rating, f.featured))
  }

  /** Clicking Edit on any package throws instead of filling the form. */
  lemma EditAsWrittenAlwaysThrows(pkg: Package)
    ensures HandleEditAsWritten(pkg).Failure?
  {
  }

  /** `handleEdit` reading `maxTravelers`, the name every record carries: the form shows the
      package's fields, its numbers as text and its lists as entries. */
  function EditForm(pkg: Package): (form: PackageForm)
    ensures form.title == pkg.fields.title && form.destination == pkg.fields.destination
    ensures DecimalValue(form.price) == Some(pkg.fields.price)
    ensures DecimalValue(form.maxTravelers) == Some(pkg.fields.maxTravelers)
    ensures form.images == ListEntries(pkg.fields.images)
    ensures form.inclusions == ListEntries(pkg.fields.inclusions)
    ensures form.exclusions == ListEntries(pkg.fields.exclusions)
  {
    var f := pkg.fields;
    IntToStringRoundTrip(f.price);
    IntToStringRoundTrip(f.maxTravelers);
    PackageForm(f.title, f.description, IntToString(f.price), f.duration, f.destination,
      IntToString(f.maxTravelers), ListEntries(f.images), f.itinerary, ListEntries(f.inclusions),
      ListEntries(f.exclusions), f.rating, f.featured)
  }

  /** The package `handleSubmit` sends: the form's fields with the numbers read from their
      text and each list without its blank entries. None when a number does not read. */
  function SubmittedFields(form: PackageForm): (r: Option<PackageFields>)
    ensures r.None? <==> DecimalValue(form.price).None? || DecimalValue(form.maxTravelers).None?
    ensures r.Some? ==>
      && Some(r.value.price) == DecimalValue(form.price)
      && Some(r.value.maxTravelers) == DecimalValue(form.maxTravelers)
    ensures r.Some? ==>
      && r.value.images == Entries(KeepFilled(form.images))
      && r.value.inclusions == Entries(KeepFilled(form.inclusions))
      && r.value.exclusions == Entries(KeepFilled(form.exclusions))
    ensures r.Some? ==>
      && r.value.title == form.title && r.value.description == form.description
      && r.value.duration == form.duration && r.value.destination == form.destination
      && r.value.itinerary == form.itinerary && r.value.rating == form.rating
      && r.value.featured == form.featured
  {
    var price := DecimalValue(form.price);
    var max := DecimalValue(form.maxTravelers);
    if price.None? || max.None? then None
    else Some(PackageFields(form.title, form.description, price.value, form.duration,
      form.destination, max.value, Entries(KeepFilled(form.images)), form.itinerary,
      Entries(KeepFilled(form.inclusions)), Entries(KeepFilled(form.exclusions)),
      form.rating, form.featured))
  }

  /** An entry list that the editor leaves as it is on submit: every entry is filled. */
  predicate AllFilled(v: ListValue)
  {
    v.Entries? && forall i :: 0 <= i < |v.items| ==> !IsBlank(v.items[i])
  }

  /** Editing a package whose lists are arrays of filled entries, then submitting without
      changes, sends back exactly the package's fields. */
  lemma EditThenSubmitRoundTrip(pkg: Package)
    requires AllFilled(pkg.fields.images)
    requires AllFilled(pkg.fields.inclusions)
    requires AllFilled(pkg.fields.exclusions)
    ensures SubmittedFields(EditForm(pkg)) == Some(pkg.fields)
  {
    KeepFilledExactly(pkg.fields.images.items);
    KeepFilledExactly(pkg.fields.inclusions.items);
    KeepFilledExactly(pkg.fields.exclusions.items);
  }

  /** Editing a package that keeps a list as text, then submitting, stores that list as the
      array of its non-blank lines. */
  lemma EditThenSubmitLines(pkg: Package)
    requires pkg.fields.images.Lines?
    ensures var s := SubmittedFields(EditForm(pkg));
      s.Some? && s.value.images == Entries(KeepFilled(Split(pkg.fields.images.text, '\n')))
  {
  }

  /** The admin page's state: the package list it shows, the package being edited, whether
      the form is open, and the form. */
  class Page {
    var packages: seq<Package>
    var editing: Option<Package>
    var showForm: bool
    var form: PackageForm

    constructor ()
      ensures packages == [] && editing.None? && !showForm && form == DefaultForm
    {
      packages := [];
      editing := None;
      showForm := false;
      form := DefaultForm;
    }

    /** `loadPackages`: shows the whole table. */
    method LoadPackages(store: PackageStore)
      modifies this
      ensures packages == store.packages
      ensures editing == old(editing) && showForm == old(showForm) && form == old(form)
    {
      packages := store.GetAll();
    }

    /** `resetForm`: the default form, nothing being edited, the form closed. */
    method ResetForm()
      modifies this
      ensures form == DefaultForm && editing.None? && !showForm
      ensures ListsNonEmpty(form)
      ensures packages == old(packages)
    {
      form := DefaultForm;
      editing := None;
      showForm := false;
    }

    /** The Add Package button: opens the form as it is. */
    method OpenForm()
      modifies this
      ensures showForm
      ensures packages == old(packages) && editing == old(editing) && form == old(form)
    {
      showForm := true;
    }

    /** `handleEdit`: remembers the package, fills the form from it and opens it. */
    method HandleEdit(pkg: Package)
      modifies this
      ensures editing == Some(pkg) && form == EditForm(pkg) && showForm
      ensures packages == old(packages)
    {
      editing := Some(pkg);
      form := EditForm(pkg);
      showForm := true;
    }

    /** `handleArrayFieldChange`: one entry of one list takes the typed text. */
    method HandleArrayFieldChange(field: ListField, index: int, value: string)
      modifies this
      ensures form == WithList(old(form), field, SetEntry(ListOf(old(form), field), index, value))
      ensures ListsNonEmpty(old(form)) ==> ListsNonEmpty(form)
      ensures packages == old(packages) && editing == old(editing) && showForm == old(showForm)
    {
      form := WithList(form, field, SetEntry(ListOf(form, field), index, value));
    }

    /** `addArrayField`: one blank entry more at the end of one list. */
    method AddArrayField(field: ListField)
      modifies this
      ensures form == WithList(old(form), field, AppendBlank(ListOf(old(form), field)))
      ensures ListsNonEmpty(old(form)) ==> ListsNonEmpty(form)
      ensures packages == old(packages) && editing == old(editing) && showForm == old(showForm)
    {
      form := WithList(form, field, AppendBlank(ListOf(form, field)));
    }

    /** `removeArrayField`, from a row's remove button: the button is disabled while the list
        has a single entry, so a list the user shortens keeps at least one entry. */
    method RemoveArrayField(field: ListField, index: int)
      requires |ListOf(form, field)| > 1 && 0 <= index < |ListOf(form, field)|
      modifies this
      ensures form == WithList(old(form), field, RemoveEntry(ListOf(old(form), field), index))
      ensures |ListOf(form, field)| == |ListOf(old(form), field)| - 1 >= 1
      ensures ListsNonEmpty(old(form)) ==> ListsNonEmpty(form)
      ensures packages == old(packages) && editing == old(editing) && showForm == old(showForm)
    {
      RemoveEntryShape(ListOf(form, field), index);
      form := WithList(form, field, RemoveEntry(ListOf(form, field), index));
    }

    /** `handleDelete`: after a confirmed, successful delete the list is reloaded; otherwise
        the page is left as it is. */
    method HandleDelete(store: PackageStore, id: int, confirmed: bool) returns (r: Result<bool>)
      modifies this, store
      ensures !confirmed ==> r == Success(false) && store.packages == old(store.packages)
      ensures !confirmed || r.Failure? ==> packages == old(packages)
      ensures confirmed ==> match IndexOf(old(store.packages), PackageId, id)
        case None => r.Failure? && store.packages == old(store.packages)
        case Some(i) => r == Success(true) && store.packages == RemoveAt(old(store.packages), i)
      ensures confirmed && r.Success? ==> packages == store.packages
      ensures editing == old(editing) && showForm == old(showForm) && form == old(form)
    {
      if !confirmed {
        return Success(false);
      }
      r := store.Delete(id);
      if r.Success? {
        LoadPackages(store);
      }
    }

    /** `handleSubmit`: sends the form to `update` of the edited package's Id, or to `create`
        when nothing is being edited. A success resets the form and reloads the list; a
        failure keeps the form. */
    method HandleSubmit(store: PackageStore, now: int) returns (r: Result<Package>)
      modifies this, store
      ensures var sent := SubmittedFields(old(form));
        if sent.None? then
          r.Failure? && store.packages == old(store.packages)
        else if old(editing).Some? then
          var i := IndexOf(old(store.packages), PackageId, old(editing).value.Id);
          && (i.None? ==> r.Failure? && store.packages == old(store.packages))
          && (i.Some? ==> r.Success? && r.value.fields == sent.value
                           && r.value.Id == old(editing).value.Id
                           && r.value.createdAt == old(store.packages)[i.value].createdAt
                           && r.value.updatedAt == Some(now)
                           && store.packages == old(store.packages)[i.value := r.value])
        else
          && r == Success(Package(NextKey(old(store.packages), PackageId), sent.value, Some(now), None))
          && store.packages == old(store.packages) + [r.value]
      ensures r.Success? ==> form == DefaultForm && editing.None? && !showForm && packages == store.packages
      ensures r.Failure? ==>
        form == old(form) && editing == old(editing) && showForm == old(showForm) && packages == old(packages)
    {
      var sent := SubmittedFields(form);
      if sent.None? {
        return Failure("Failed to save package");
      }
      if editing.Some? {
        MergeFullPatch(editing.value.fields, sent.value);
        r := store.Update(editing.value.Id, FullPatch(sent.value), now);
        if r.Success? {
          MergeFullPatch(old(store.packages)[IndexOf(old(store.packages), PackageId, old(editing).value.Id).value].fields, sent.value);
        }
      } else {
        var p := store.Create(sent.value, now);
        r := Success(p);
      }
      if r.Success? {
        ResetForm();
        LoadPackages(store);
      }
    }
  }
}
