/** The table logic the three in-memory stores share: records kept in an array, each with a
    numeric `Id` read through `key`. */
module Records {
  import opened Common

  /** The Id `create` hands out: one more than the largest Id in the table, or 1 when the
      table is empty. It is larger than every Id present, so it is fresh. */
  function NextKey<R>(rows: seq<R>, key: R -> int): (k: int)
    ensures forall i :: 0 <= i < |rows| ==> key(rows[i]) < k
    ensures |rows| == 0 ==> k == 1
    ensures |rows| > 0 ==> exists i :: 0 <= i < |rows| && key(rows[i]) == k - 1
  {
    if |rows| == 0 then 1 else MaxKey(rows, key) + 1
  }

  /** `Math.max(...rows.map(key))` on a non-empty table. */
  function MaxKey<R>(rows: seq<R>, key: R -> int): (m: int)
    requires |rows| > 0
    ensures forall i :: 0 <= i < |rows| ==> key(rows[i]) <= m
    ensures exists i :: 0 <= i < |rows| && key(rows[i]) == m
  {
    if |rows| == 1 then key(rows[0])
    else
      var m := MaxKey(rows[1..], key);
      var j :| 0 <= j < |rows[1..]| && key(rows[1..][j]) == m;
      assert key(rows[j + 1]) == m;
      if key(rows[0]) >= m then key(rows[0]) else m
  }

  /** `rows.findIndex(r => key(r) === id)`: the first position holding `id`, or None for -1. */
  function IndexOf<R>(rows: seq<R>, key: R -> int, id: int): (r: Option<nat>)
    ensures r.Some? ==> r.value < |rows| && key(rows[r.value]) == id
    ensures r.Some? ==> forall j :: 0 <= j < r.value ==> key(rows[j]) != id
    ensures r.None? <==> forall j :: 0 <= j < |rows| ==> key(rows[j]) != id
  {
    if |rows| == 0 then None
    else if key(rows[0]) == id then Some(0)
    else
      match IndexOf(rows[1..], key, id)
      case None => assert forall j :: 1 <= j < |rows| ==> rows[j] == rows[1..][j - 1]; None
      case Some(i) => Some(i + 1)
  }

  /** No two records of the table share an Id. */
  predicate DistinctKeys<R>(rows: seq<R>, key: R -> int)
  {
    forall i, j :: 0 <= i < j < |rows| ==> key(rows[i]) != key(rows[j])
  }

  /** `rows.splice(i, 1)`: the table without position `i`, the others in their order. */
  function RemoveAt<R>(rows: seq<R>, i: nat): (r: seq<R>)
    requires i < |rows|
    ensures |r| == |rows| - 1
    ensures forall j :: 0 <= j < i ==> r[j] == rows[j]
    ensures forall j :: i <= j < |r| ==> r[j] == rows[j + 1]
  {
    rows[..i] + rows[i + 1..]
  }

  /** Appending a record with the next Id keeps the Ids distinct. */
  lemma AppendNextKeepsDistinct<R>(rows: seq<R>, key: R -> int, x: R)
    requires DistinctKeys(rows, key)
    requires key(x) == NextKey(rows, key)
    ensures DistinctKeys(rows + [x], key)
  {
    var t := rows + [x];
    forall i, j | 0 <= i < j < |t| ensures key(t[i]) != key(t[j]) {
      if j == |rows| {
        assert key(t[i]) == key(rows[i]) < NextKey(rows, key);
      } else {
        assert key(t[i]) == key(rows[i]) && key(t[j]) == key(rows[j]);
      }
    }
  }

  /** Replacing a record by one with the same Id keeps the Ids distinct. */
  lemma ReplaceKeepsDistinct<R>(rows: seq<R>, key: R -> int, i: nat, x: R)
    requires DistinctKeys(rows, key)
    requires i < |rows| && key(x) == key(rows[i])
    ensures DistinctKeys(rows[i := x], key)
  {
    var t := rows[i := x];
    forall a, b | 0 <= a < b < |t| ensures key(t[a]) != key(t[b]) {
      assert key(t[a]) == key(rows[a]) && key(t[b]) == key(rows[b]);
    }
  }

  /** Removing a record keeps the Ids distinct. */
  lemma RemoveKeepsDistinct<R>(rows: seq<R>, key: R -> int, i: nat)
    requires DistinctKeys(rows, key)
    requires i < |rows|
    ensures DistinctKeys(RemoveAt(rows, i), key)
  {
    var t := RemoveAt(rows, i);
    forall a, b | 0 <= a < b < |t| ensures key(t[a]) != key(t[b]) {
      var a' := if a < i then a else a + 1;
      var b' := if b < i then b else b + 1;
      assert t[a] == rows[a'] && t[b] == rows[b'] && a' < b';
    }
  }

  /** `s.filter(p)`. */
  function Filter<R>(s: seq<R>, p: R -> bool): (r: seq<R>)
    ensures |r| <= |s|
    ensures forall i :: 0 <= i < |r| ==> p(r[i])
    ensures forall x :: x in r ==> x in s
    ensures forall x :: x in s && p(x) ==> x in r
  {
    if s == [] then []
    else
      var rest := Filter(s[1..], p);
      assert forall x :: x in s ==> x == s[0] || x in s[1..];
      if p(s[0]) then [s[0]] + rest else rest
  }

  /** The filter keeps every copy of a passing record and no copy of a failing one: each
      record occurs in the result as often as in the list when it passes, and never otherwise. */
  lemma {:induction false} FilterMultiset<R>(s: seq<R>, p: R -> bool)
    ensures forall x :: x in s ==> multiset(Filter(s, p))[x] == if p(x) then multiset(s)[x] else 0
  {
    if s != [] {
      FilterMultiset(s[1..], p);
      assert s == [s[0]] + s[1..];
      assert multiset(s) == multiset{s[0]} + multiset(s[1..]);
      forall x | x in s
        ensures multiset(Filter(s, p))[x] == if p(x) then multiset(s)[x] else 0
      {
        if x !in s[1..] {
          assert multiset(s[1..])[x] == 0;
          assert x !in Filter(s[1..], p);
          assert multiset(Filter(s[1..], p))[x] == 0;
        }
      }
    }
  }

  /** `a` is `b` with some elements left out, the rest in their order. */
  ghost predicate IsSubseq<R>(a: seq<R>, b: seq<R>)
    decreases |b|
  {
    if a == [] then true
    else if b == [] then false
    else (a[0] == b[0] && IsSubseq(a[1..], b[1..])) || IsSubseq(a, b[1..])
  }

  /** A filtered list is a subsequence of the list. */
  lemma {:induction false} FilterIsSubseq<R>(s: seq<R>, p: R -> bool)
    ensures IsSubseq(Filter(s, p), s)
  {
    if s != [] {
      FilterIsSubseq(s[1..], p);
      if p(s[0]) {
        assert Filter(s, p)[1..] == Filter(s[1..], p);
      } else {
        if Filter(s, p) != [] {
          assert Filter(s, p) == Filter(s[1..], p);
        }
      }
    }
  }

  /** Every list is a subsequence of itself. */
  lemma {:induction false} SubseqRefl<R>(s: seq<R>)
    ensures IsSubseq(s, s)
  {
    if s != [] {
      SubseqRefl(s[1..]);
    }
  }

  /** A subsequence of a subsequence is a subsequence. */
  lemma {:induction false} SubseqTrans<R>(a: seq<R>, b: seq<R>, c: seq<R>)
    requires IsSubseq(a, b) && IsSubseq(b, c)
    ensures IsSubseq(a, c)
    decreases |c|
  {
    if a != [] {
      assert b != [] && c != [];
      if b[0] == c[0] && IsSubseq(b[1..], c[1..]) {
        if a[0] == b[0] && IsSubseq(a[1..], b[1..]) {
          SubseqTrans(a[1..], b[1..], c[1..]);
        } else {
          SubseqTrans(a, b[1..], c[1..]);
        }
      } else {
        SubseqTrans(a, b, c[1..]);
      }
    }
  }

  /** Filtering twice keeps what satisfies both tests, in order: the step-by-step narrowing
      of a search equals one filter by the conjunction. */
  lemma {:induction false} FilterFilter<R>(s: seq<R>, p: R -> bool, q: R -> bool)
    ensures Filter(Filter(s, p), q) == Filter(s, x => p(x) && q(x))
  {
    if s != [] {
      FilterFilter(s[1..], p, q);
      if p(s[0]) {
        assert Filter(s, p) == [s[0]] + Filter(s[1..], p);
        assert ([s[0]] + Filter(s[1..], p))[1..] == Filter(s[1..], p);
      }
    }
  }

  /** Filtering by a test every element passes changes nothing. */
  lemma {:induction false} FilterAll<R>(s: seq<R>, p: R -> bool)
    requires forall i :: 0 <= i < |s| ==> p(s[i])
    ensures Filter(s, p) == s
  {
    if s != [] {
      FilterAll(s[1..], p);
    }
  }

  /** Filtering depends only on which elements pass the test. */
  lemma {:induction false} FilterExt<R>(s: seq<R>, p: R -> bool, q: R -> bool)
    requires forall x :: p(x) == q(x)
    ensures Filter(s, p) == Filter(s, q)
  {
    if s != [] {
      FilterExt(s[1..], p, q);
    }
  }

  /** Each record passes `p` or its complement `q`: the two filtered lists together are as
      long as the list. */
  lemma {:induction false} FilterSplit<R>(s: seq<R>, p: R -> bool, q: R -> bool)
    requires forall x :: q(x) == !p(x)
    ensures |Filter(s, p)| + |Filter(s, q)| == |s|
  {
    if s != [] {
      FilterSplit(s[1..], p, q);
    }
  }

  /** One step of a search: a list already filtered by `p` is narrowed by `t` when that
      criterion is active and left alone otherwise; either way it is the filter by `u`. */
  lemma NarrowStep<R>(s: seq<R>, p: R -> bool, t: R -> bool, active: bool, u: R -> bool)
    requires forall x :: u(x) == (p(x) && (!active || t(x)))
    ensures (if active then Filter(Filter(s, p), t) else Filter(s, p)) == Filter(s, u)
  {
    if active {
      FilterFilter(s, p, t);
      FilterExt(s, x => p(x) && t(x), u);
    } else {
      FilterExt(s, p, u);
    }
  }

  /** A prefix is a subsequence. */
  lemma {:induction false} PrefixIsSubseq<R>(s: seq<R>, end: int)
    ensures IsSubseq(Prefix(s, end), s)
  {
    var k := SliceEnd(|s|, end);
    TakeIsSubseq(s, k);
  }

  lemma {:induction false} TakeIsSubseq<R>(s: seq<R>, k: nat)
    requires k <= |s|
    ensures IsSubseq(s[..k], s)
  {
    if k > 0 {
      TakeIsSubseq(s[1..], k - 1);
      assert s[..k][1..] == s[1..][..k - 1];
    }
  }

  /** The end position of `s.slice(0, end)`: a negative `end` counts back from the length. */
  function SliceEnd(len: nat, end: int): (k: nat)
    ensures k <= len
    ensures end >= 0 ==> k == if end < len then end else len
    ensures end < 0 ==> k == if len + end < 0 then 0 else len + end
  {
    if end < 0 then (if len + end < 0 then 0 else len + end)
    else if end > len then len
    else end
  }

  /** `s.slice(0, end)`. */
  function Prefix<R>(s: seq<R>, end: int): (r: seq<R>)
    ensures |r| <= |s| && r == s[..|r|]
    ensures end >= 0 ==> |r| == if end < |s| then end else |s|
    ensures end < 0 ==> |r| == if |s| + end < 0 then 0 else |s| + end
  {
    s[..SliceEnd(|s|, end)]
  }

  /** Consecutive keys never increase. */
  predicate NewestFirst<R>(s: seq<R>, key: R -> int)
  {
    forall i :: 0 < i < |s| ==> key(s[i - 1]) >= key(s[i])
  }

  /** Puts `x` into a newest-first list ahead of every record whose key is not larger, so
      records with equal keys keep their relative order. */
  function InsertNewest<R>(x: R, t: seq<R>, key: R -> int): (r: seq<R>)
    requires NewestFirst(t, key)
    ensures NewestFirst(r, key)
    ensures |r| == |t| + 1
    ensures r[0] == x || (|t| > 0 && r[0] == t[0])
    ensures multiset(r) == multiset{x} + multiset(t)
  {
    if t == [] || key(x) >= key(t[0]) then [x] + t
    else
      var rest := InsertNewest(x, t[1..], key);
      assert t == [t[0]] + t[1..];
      [t[0]] + rest
  }

  /** `s.sort((a, b) => key(b) - key(a))`: a stable sort, largest key first. */
  function SortNewest<R>(s: seq<R>, key: R -> int): (r: seq<R>)
    ensures NewestFirst(r, key)
    ensures multiset(r) == multiset(s)
  {
    if s == [] then []
    else
      assert s == [s[0]] + s[1..];
      InsertNewest(s[0], SortNewest(s[1..], key), key)
  }

  /** In a newest-first list every earlier record is at least as new as every later one. */
  lemma {:induction false} NewestFirstOrdered<R>(s: seq<R>, key: R -> int, i: nat, j: nat)
    requires NewestFirst(s, key)
    requires i <= j < |s|
    ensures key(s[i]) >= key(s[j])
    decreases j - i
  {
    if i < j {
      NewestFirstOrdered(s, key, i + 1, j);
    }
  }

  /** A prefix of a newest-first list is newest-first. */
  lemma PrefixNewestFirst<R>(s: seq<R>, key: R -> int, end: int)
    requires NewestFirst(s, key)
    ensures NewestFirst(Prefix(s, end), key)
  {
    var r := Prefix(s, end);
    forall i | 0 < i < |r| ensures key(r[i - 1]) >= key(r[i]) {
      assert r[i - 1] == s[i - 1] && r[i] == s[i];
    }
  }
}
