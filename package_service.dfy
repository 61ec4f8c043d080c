/** The package service: an in-memory table of travel packages with lookup, create, update,
    delete, the featured list and the search behind the catalogue page. */
module PackageService {
  import opened Common
  import opened Records
  import Numbers

  /** A list-valued field as a record may hold it: newline-separated text, or an array of
      entries. */
  datatype ListValue = Lines(text: string) | Entries(items: seq<string>)

  /** Everything a package carries besides its Id and timestamps. `price` is a whole amount,
      `rating` an opaque score. */
  datatype PackageFields = PackageFields(
    title: string,
    description: string,
    price: int,
    duration: string,
    destination: string,
    maxTravelers: int,
    images: ListValue,
    itinerary: string,
    inclusions: ListValue,
    exclusions: ListValue,
    rating: int,
    featured: bool)

  datatype Package = Package(Id: int, fields: PackageFields, createdAt: Option<int>, updatedAt: Option<int>)

  function PackageId(p: Package): int
  {
    p.Id
  }

  /** The fields an `update` call supplies; None is a field the caller's object leaves out. */
  datatype PackagePatch = PackagePatch(
    title: Option<string>,
    description: Option<string>,
    price: Option<int>,
    duration: Option<string>,
    destination: Option<string>,
    maxTravelers: Option<int>,
    images: Option<ListValue>,
    itinerary: Option<string>,
    inclusions: Option<ListValue>,
    exclusions: Option<ListValue>,
    rating: Option<int>,
    featured: Option<bool>)

  /** One property of `{ ...current, ...patch }`. */
  function Override<T>(current: T, supplied: Option<T>): T
  {
    if supplied.Some? then supplied.value else current
  }

  /** The fields of `{ ...current, ...patch }`. */
  function MergeFields(f: PackageFields, p: PackagePatch): (r: PackageFields)
    ensures Spread(r.title, f.title, p.title) && Spread(r.description, f.description, p.description)
    ensures Spread(r.price, f.price, p.price) && Spread(r.duration, f.duration, p.duration)
    ensures Spread(r.destination, f.destination, p.destination)
    ensures Spread(r.maxTravelers, f.maxTravelers, p.maxTravelers)
    ensures Spread(r.images, f.images, p.images) && Spread(r.itinerary, f.itinerary, p.itinerary)
    ensures Spread(r.inclusions, f.inclusions, p.inclusions)
    ensures Spread(r.exclusions, f.exclusions, p.exclusions)
    ensures Spread(r.rating, f.rating, p.rating) && Spread(r.featured, f.featured, p.featured)
  {
    PackageFields(
      Override(f.title, p.title), Override(f.description, p.description),
      Override(f.price, p.price), Override(f.duration, p.duration),
      Override(f.destination, p.destination), Override(f.maxTravelers, p.maxTravelers),
      Override(f.images, p.images), Override(f.itinerary, p.itinerary),
      Override(f.inclusions, p.inclusions), Override(f.exclusions, p.exclusions),
      Override(f.rating, p.rating), Override(f.featured, p.featured))
  }

  /** A patch that supplies every field, as the admin form submits. */
  function FullPatch(f: PackageFields): PackagePatch
  {
    PackagePatch(
      Some(f.title), Some(f.description), Some(f.price), Some(f.duration),
      Some(f.destination), Some(f.maxTravelers), Some(f.images), Some(f.itinerary),
      Some(f.inclusions), Some(f.exclusions), Some(f.rating), Some(f.featured))
  }

  /** A patch that supplies no field. */
  const EmptyPatch := PackagePatch(None, None, None, None, None, None, None, None, None, None, None, None)

  /** A patch that supplies no field keeps every stored field. */
  lemma MergeEmptyPatch(f: PackageFields)
    ensures MergeFields(f, EmptyPatch) == f
  {
  }

  /** Applying the same patch a second time changes nothing more. */
  lemma MergeIdempotent(f: PackageFields, p: PackagePatch)
    ensures MergeFields(MergeFields(f, p), p) == MergeFields(f, p)
  {
  }

  /** A patch that supplies every field replaces all of them, whatever was stored. */
  lemma MergeFullPatch(f: PackageFields, g: PackageFields)
    ensures MergeFields(f, FullPatch(g)) == g
  {
  }

  /** The search page's four filter values, as the filter sidebar keeps them: text, with ""
      meaning "not set". */
  datatype Filters = Filters(destination: string, minPrice: string, maxPrice: string, duration: string)

  const NoFilters := Filters("", "", "", "")

  /** The free-text query matches title, destination or description, ignoring case. */
  predicate MatchesQuery(p: Package, query: string)
  {
    IncludesIgnoringCase(p.fields.title, query)
    || IncludesIgnoringCase(p.fields.destination, query)
    || IncludesIgnoringCase(p.fields.description, query)
  }

  /** `price >= bound` with the bound text read as a number; a bound that is not a number
      (NaN) fails every comparison. */
  predicate PriceAtLeast(price: int, bound: string)
  {
    var v := Numbers.DecimalValue(bound);
    v.Some? && price >= v.value
  }

  predicate PriceAtMost(price: int, bound: string)
  {
    var v := Numbers.DecimalValue(bound);
    v.Some? && price <= v.value
  }

  /** A package passes a search: every criterion that is set (a non-empty text) holds. */
  predicate Matches(p: Package, query: string, f: Filters)
  {
    && (query == "" || MatchesQuery(p, query))
    && (f.destination == "" || IncludesIgnoringCase(p.fields.destination, f.destination))
    && (f.minPrice == "" || PriceAtLeast(p.fields.price, f.minPrice))
    && (f.maxPrice == "" || PriceAtMost(p.fields.price, f.maxPrice))
    && (f.duration == "" || IncludesIgnoringCase(p.fields.duration, f.duration))
  }

  /** The criteria of a search applied so far: the first `n` of the five, in the order the
      search applies them, each one holding or not set. */
  predicate PassesFirst(p: Package, query: string, f: Filters, n: nat)
  {
    && (n > 0 ==> query == "" || MatchesQuery(p, query))
    && (n > 1 ==> f.destination == "" || IncludesIgnoringCase(p.fields.destination, f.destination))
    && (n > 2 ==> f.minPrice == "" || PriceAtLeast(p.fields.price, f.minPrice))
    && (n > 3 ==> f.maxPrice == "" || PriceAtMost(p.fields.price, f.maxPrice))
    && (n > 4 ==> f.duration == "" || IncludesIgnoringCase(p.fields.duration, f.duration))
  }

  /** What the search result is: the matching packages, in table order, and all of them when
      no criterion is set. */
  lemma SearchResultFacts(s: seq<Package>, query: string, filters: Filters)
    ensures var r := Filter(s, p => Matches(p, query, filters));
      && IsSubseq(r, s)
      && (forall i :: 0 <= i < |r| ==> Matches(r[i], query, filters))
      && (forall p :: p in s && Matches(p, query, filters) ==> p in r)
      && (forall p :: p in s ==> multiset(r)[p] == if Matches(p, query, filters) then multiset(s)[p] else 0)
      && (query == "" && filters == NoFilters ==> r == s)
  {
    var m := (p: Package) => Matches(p, query, filters);
    var r := Filter(s, m);
    FilterIsSubseq(s, m);
    FilterMultiset(s, m);
    forall p | p in s
      ensures multiset(r)[p] == if Matches(p, query, filters) then multiset(s)[p] else 0
    {
      assert m(p) == Matches(p, query, filters);
    }
    forall i | 0 <= i < |r|
      ensures Matches(r[i], query, filters)
    {
      assert m(r[i]);
    }
    forall p | p in s && Matches(p, query, filters)
      ensures p in r
    {
      assert m(p);
    }
    if query == "" && filters == NoFilters {
      FilterAll(s, m);
    }
  }

  /** A price bound typed as the text of a number compares the price with that number. */
  lemma NumericBounds(price: int, lo: int, hi: int)
    ensures PriceAtLeast(price, Numbers.IntToString(lo)) <==> price >= lo
    ensures PriceAtMost(price, Numbers.IntToString(hi)) <==> price <= hi
  {
    Numbers.IntToStringRoundTrip(lo);
    Numbers.IntToStringRoundTrip(hi);
  }

  /** A price bound that is set but is not a number (NaN) lets no package through. */
  lemma NonNumericBoundExcludes(p: Package, query: string, f: Filters)
    requires || (f.minPrice != "" && Numbers.DecimalValue(f.minPrice).None?)
             || (f.maxPrice != "" && Numbers.DecimalValue(f.maxPrice).None?)
    ensures !Matches(p, query, f)
  {
  }

  /** A query that occurs as it is in the title, the destination or the description finds
      the package. */
  lemma QueryFindsExactText(p: Package, query: string)
    requires Includes(p.fields.title, query) || Includes(p.fields.destination, query)
             || Includes(p.fields.description, query)
    ensures MatchesQuery(p, query)
  {
    if Includes(p.fields.title, query) {
      IncludesIgnoringCaseOfIncludes(p.fields.title, query);
    } else if Includes(p.fields.destination, query) {
      IncludesIgnoringCaseOfIncludes(p.fields.destination, query);
    } else {
      IncludesIgnoringCaseOfIncludes(p.fields.description, query);
    }
  }

  /** The case of the query does not matter: its lower-case form finds the same packages. */
  lemma QueryCaseDoesNotMatter(p: Package, query: string)
    ensures MatchesQuery(p, Lower(query)) <==> MatchesQuery(p, query)
  {
    LowerIdempotent(query);
  }

  function IsFeatured(p: Package): bool
  {
    p.fields.featured
  }

  /** The title the admin lists show for a package Id, as `packages.find(p => p.Id === id)`
      gives it: the first package with the Id, else "Unknown Package". */
  function PackageTitle(packages: seq<Package>, id: int): (t: string)
    ensures (forall p :: p in packages ==> p.Id != id) ==> t == "Unknown Package"
    ensures forall i ::
      (0 <= i < |packages| && packages[i].Id == id && forall j :: 0 <= j < i ==> packages[j].Id != id)
      ==> t == packages[i].fields.title
  {
    var i := IndexOf(packages, PackageId, id);
    if i.Some? then packages[i.value].fields.title else "Unknown Package"
  }

  /** The module-level `packages` array and the service object over it. */
  class PackageStore {
    var packages: seq<Package>

    constructor (initial: seq<Package>)
      ensures packages == initial
    {
      packages := initial;
    }

    /** `getAll`: a copy of the whole table. */
    method GetAll() returns (r: seq<Package>)
      ensures r == packages
    {
      r := packages;
    }

    /** `getById`: the first package with the Id, or the error "Package not found". */
    method GetById(id: int) returns (r: Result<Package>)
      ensures r.Success? <==> exists i :: 0 <= i < |packages| && packages[i].Id == id
      ensures r.Success? ==> r.value in packages && r.value.Id == id
      ensures r.Success? ==> r.value == packages[IndexOf(packages, PackageId, id).value]
      ensures r.Failure? ==> r.error == "Package not found"
    {
      var i := IndexOf(packages, PackageId, id);
      if i.None? {
        r := Failure("Package not found");
      } else {
        r := Success(packages[i.value]);
      }
    }

    /** `create`: the new package gets the next Id and the creation time, and is appended. */
    method Create(data: PackageFields, now: int) returns (p: Package)
      modifies this
      ensures p == Package(NextKey(old(packages), PackageId), data, Some(now), None)
      ensures forall q :: q in old(packages) ==> q.Id < p.Id
      ensures packages == old(packages) + [p]
      ensures DistinctKeys(old(packages), PackageId) ==> DistinctKeys(packages, PackageId)
    {
      p := Package(NextKey(packages, PackageId), data, Some(now), None);
      if DistinctKeys(packages, PackageId) {
        AppendNextKeepsDistinct(packages, PackageId, p);
      }
      packages := packages + [p];
    }

    /** `update`: merges the patch into the first package with the Id, keeps that Id and
        stamps the update time; a missing Id throws and changes nothing. */
    method Update(id: int, patch: PackagePatch, now: int) returns (r: Result<Package>)
      modifies this
      ensures var i := IndexOf(old(packages), PackageId, id);
        if i.None? then
          r == Failure("Package not found") && packages == old(packages)
        else
          var was := old(packages)[i.value];
          && r == Success(Package(id, MergeFields(was.fields, patch), was.createdAt, Some(now)))
          && packages == old(packages)[i.value := r.value]
      ensures |packages| == |old(packages)|
      ensures DistinctKeys(old(packages), PackageId) ==> DistinctKeys(packages, PackageId)
    {
      var i := IndexOf(packages, PackageId, id);
      if i.None? {
        r := Failure("Package not found");
        return;
      }
      var was := packages[i.value];
      var updated := Package(id, MergeFields(was.fields, patch), was.createdAt, Some(now));
      if DistinctKeys(packages, PackageId) {
        ReplaceKeepsDistinct(packages, PackageId, i.value, updated);
      }
      packages := packages[i.value := updated];
      r := Success(updated);
    }

    /** `delete`: removes the first package with the Id, keeping the others in order; a
        missing Id throws and changes nothing. */
    method Delete(id: int) returns (r: Result<bool>)
      modifies this
      ensures var i := IndexOf(old(packages), PackageId, id);
        if i.None? then
          r == Failure("Package not found") && packages == old(packages)
        else
          r == Success(true) && packages == RemoveAt(old(packages), i.value)
      ensures r.Success? ==> |packages| == |old(packages)| - 1
      ensures DistinctKeys(old(packages), PackageId) ==> DistinctKeys(packages, PackageId)
    {
      var i := IndexOf(packages, PackageId, id);
      if i.None? {
        r := Failure("Package not found");
        return;
      }
      if DistinctKeys(packages, PackageId) {
        RemoveKeepsDistinct(packages, PackageId, i.value);
      }
      packages := RemoveAt(packages, i.value);
      r := Success(true);
    }

    /** `getFeatured`: the first six featured packages, in table order. */
    method GetFeatured() returns (r: seq<Package>)
      ensures |r| <= 6
      ensures forall i :: 0 <= i < |r| ==> r[i].fields.featured
      ensures var all := Filter(packages, IsFeatured);
        |r| == (if |all| < 6 then |all| else 6) && r == all[..|r|]
      ensures IsSubseq(r, packages)
    {
      var featured := Filter(packages, IsFeatured);
      r := Prefix(featured, 6);
      FilterIsSubseq(packages, IsFeatured);
      PrefixIsSubseq(featured, 6);
      SubseqTrans(r, featured, packages);
    }

    /** `searchPackages`: narrows a copy of the table by each criterion that is set, in
        turn. The result is exactly the matching packages in table order. */
    method SearchPackages(query: string, filters: Filters) returns (r: seq<Package>)
      ensures r == Filter(packages, p => Matches(p, query, filters))
      ensures IsSubseq(r, packages)
      ensures forall i :: 0 <= i < |r| ==> Matches(r[i], query, filters)
      ensures forall p :: p in packages && Matches(p, query, filters) ==> p in r
      ensures query == "" && filters == NoFilters ==> r == packages
    {
      var t0 := (p: Package) => MatchesQuery(p, query);
      var t1 := (p: Package) => IncludesIgnoringCase(p.fields.destination, filters.destination);
      var t2 := (p: Package) => PriceAtLeast(p.fields.price, filters.minPrice);
      var t3 := (p: Package) => PriceAtMost(p.fields.price, filters.maxPrice);
      var t4 := (p: Package) => IncludesIgnoringCase(p.fields.duration, filters.duration);

      var filteredPackages := packages;
      assert filteredPackages == Filter(packages, p => PassesFirst(p, query, filters, 0)) by {
        FilterAll(packages, p => PassesFirst(p, query, filters, 0));
      }
      if query != "" {
        filteredPackages := Filter(filteredPackages, t0);
      }
      assert filteredPackages == Filter(packages, p => PassesFirst(p, query, filters, 1)) by {
        NarrowStep(packages, p => PassesFirst(p, query, filters, 0), t0, query != "",
          p => PassesFirst(p, query, filters, 1));
      }
      if filters.destination != "" {
        filteredPackages := Filter(filteredPackages, t1);
      }
      assert filteredPackages == Filter(packages, p => PassesFirst(p, query, filters, 2)) by {
        NarrowStep(packages, p => PassesFirst(p, query, filters, 1), t1, filters.destination != "",
          p => PassesFirst(p, query, filters, 2));
      }
      if filters.minPrice != "" {
        filteredPackages := Filter(filteredPackages, t2);
      }
      assert filteredPackages == Filter(packages, p => PassesFirst(p, query, filters, 3)) by {
        NarrowStep(packages, p => PassesFirst(p, query, filters, 2), t2, filters.minPrice != "",
          p => PassesFirst(p, query, filters, 3));
      }
      if filters.maxPrice != "" {
        filteredPackages := Filter(filteredPackages, t3);
      }
      assert filteredPackages == Filter(packages, p => PassesFirst(p, query, filters, 4)) by {
        NarrowStep(packages, p => PassesFirst(p, query, filters, 3), t3, filters.maxPrice != "",
          p => PassesFirst(p, query, filters, 4));
      }
      if filters.duration != "" {
        filteredPackages := Filter(filteredPackages, t4);
      }
      assert filteredPackages == Filter(packages, p => Matches(p, query, filters)) by {
        NarrowStep(packages, p => PassesFirst(p, query, filters, 4), t4, filters.duration != "",
          p => Matches(p, query, filters));
      }
      r := filteredPackages;
      SearchResultFacts(packages, query, filters);
    }
  }
}
