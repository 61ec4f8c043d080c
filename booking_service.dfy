/** The booking service: an in-memory table of bookings with lookup, create, update, delete,
    the per-status query and the recent-bookings list. */
module BookingService {
  import opened Common
  import opened Records

  /** What the booking form sends: the package booked, the customer's contact details, the
      travel date, the party size and the price charged. */
  datatype BookingDetails = BookingDetails(
    packageId: int,
    customerName: string,
    customerEmail: string,
    customerPhone: string,
    travelDate: string,
    travelerCount: int,
    totalPrice: int)

  /** A stored booking. `status` is one of "pending", "confirmed" or "cancelled" in practice,
      but the table accepts any text an update supplies. */
  datatype Booking = Booking(
    Id: int,
    details: BookingDetails,
    status: string,
    createdAt: int,
    updatedAt: Option<int>)

  function BookingId(b: Booking): int
  {
    b.Id
  }

  function CreatedAt(b: Booking): int
  {
    b.createdAt
  }

  /** The fields an `update` call supplies; None is a field the caller's object leaves out. */
  datatype BookingPatch = BookingPatch(
    packageId: Option<int>,
    customerName: Option<string>,
    customerEmail: Option<string>,
    customerPhone: Option<string>,
    travelDate: Option<string>,
    travelerCount: Option<int>,
    totalPrice: Option<int>,
    status: Option<string>)

  /** A patch that changes the status and nothing else, as the admin list sends. */
  function StatusPatch(status: string): BookingPatch
  {
    BookingPatch(None, None, None, None, None, None, None, Some(status))
  }

  /** `{ ...current, ...patch, Id: id, updatedAt: now }`. */
  function MergeBooking(current: Booking, patch: BookingPatch, id: int, now: int): (r: Booking)
    ensures r.Id == id && r.createdAt == current.createdAt && r.updatedAt == Some(now)
    ensures Spread(r.status, current.status, patch.status)
    ensures var d := current.details;
      && Spread(r.details.packageId, d.packageId, patch.packageId)
      && Spread(r.details.customerName, d.customerName, patch.customerName)
      && Spread(r.details.customerEmail, d.customerEmail, patch.customerEmail)
      && Spread(r.details.customerPhone, d.customerPhone, patch.customerPhone)
      && Spread(r.details.travelDate, d.travelDate, patch.travelDate)
      && Spread(r.details.travelerCount, d.travelerCount, patch.travelerCount)
      && Spread(r.details.totalPrice, d.totalPrice, patch.totalPrice)
  {
    var d := current.details;
    Booking(
      id,
      BookingDetails(
        if patch.packageId.Some? then patch.packageId.value else d.packageId,
        if patch.customerName.Some? then patch.customerName.value else d.customerName,
        if patch.customerEmail.Some? then patch.customerEmail.value else d.customerEmail,
        if patch.customerPhone.Some? then patch.customerPhone.value else d.customerPhone,
        if patch.travelDate.Some? then patch.travelDate.value else d.travelDate,
        if patch.travelerCount.Some? then patch.travelerCount.value else d.travelerCount,
        if patch.totalPrice.Some? then patch.totalPrice.value else d.totalPrice),
      if patch.status.Some? then patch.status.value else current.status,
      current.createdAt,
      Some(now))
  }

  /** A patch that supplies no field keeps the booking and moves only its update time. */
  lemma MergeEmptyBookingPatch(b: Booking, now: int)
    ensures MergeBooking(b, BookingPatch(None, None, None, None, None, None, None, None), b.Id, now)
      == b.(updatedAt := Some(now))
  {
  }

  /** A status-only patch changes the status and the update time and keeps everything else. */
  lemma StatusPatchKeepsDetails(b: Booking, status: string, now: int)
    ensures var r := MergeBooking(b, StatusPatch(status), b.Id, now);
      r == b.(status := status, updatedAt := Some(now))
  {
  }

  predicate HasStatus(b: Booking, status: string)
  {
    b.status == status
  }

  /** The module-level `bookings` array and the service object over it. */
  class BookingStore {
    var bookings: seq<Booking>

    constructor (initial: seq<Booking>)
      ensures bookings == initial
    {
      bookings := initial;
    }

    /** `getAll`: a copy of the whole table. */
    method GetAll() returns (r: seq<Booking>)
      ensures r == bookings
    {
      r := bookings;
    }

    /** `getById`: the first booking with the Id, or the error "Booking not found". */
    method GetById(id: int) returns (r: Result<Booking>)
      ensures r.Success? <==> exists i :: 0 <= i < |bookings| && bookings[i].Id == id
      ensures r.Success? ==> r.value in bookings && r.value.Id == id
      ensures r.Success? ==> r.value == bookings[IndexOf(bookings, BookingId, id).value]
      ensures r.Failure? ==> r.error == "Booking not found"
    {
      var i := IndexOf(bookings, BookingId, id);
      if i.None? {
        r := Failure("Booking not found");
      } else {
        r := Success(bookings[i.value]);
      }
    }

    /** `create`: the next Id, the status "pending" whatever the caller wanted, the creation
        time; the booking is appended. */
    method Create(data: BookingDetails, now: int) returns (b: Booking)
      modifies this
      ensures b == Booking(NextKey(old(bookings), BookingId), data, "pending", now, None)
      ensures forall q :: q in old(bookings) ==> q.Id < b.Id
      ensures bookings == old(bookings) + [b]
      ensures DistinctKeys(old(bookings), BookingId) ==> DistinctKeys(bookings, BookingId)
    {
      b := Booking(NextKey(bookings, BookingId), data, "pending", now, None);
      if DistinctKeys(bookings, BookingId) {
        AppendNextKeepsDistinct(bookings, BookingId, b);
      }
      bookings := bookings + [b];
    }

    /** `update`: merges the patch into the first booking with the Id, keeps that Id and stamps
        the update time; a missing Id throws and changes nothing. */
    method Update(id: int, patch: BookingPatch, now: int) returns (r: Result<Booking>)
      modifies this
      ensures var i := IndexOf(old(bookings), BookingId, id);
        if i.None? then
          r == Failure("Booking not found") && bookings == old(bookings)
        else
          && r == Success(MergeBooking(old(bookings)[i.value], patch, id, now))
          && bookings == old(bookings)[i.value := r.value]
      ensures |bookings| == |old(bookings)|
      ensures DistinctKeys(old(bookings), BookingId) ==> DistinctKeys(bookings, BookingId)
    {
      var i := IndexOf(bookings, BookingId, id);
      if i.None? {
        r := Failure("Booking not found");
        return;
      }
      var updated := MergeBooking(bookings[i.value], patch, id, now);
      if DistinctKeys(bookings, BookingId) {
        ReplaceKeepsDistinct(bookings, BookingId, i.value, updated);
      }
      bookings := bookings[i.value := updated];
      r := Success(updated);
    }

    /** `delete`: removes the first booking with the Id, keeping the others in order; a missing
        Id throws and changes nothing. */
    method Delete(id: int) returns (r: Result<bool>)
      modifies this
      ensures var i := IndexOf(old(bookings), BookingId, id);
        if i.None? then
          r == Failure("Booking not found") && bookings == old(bookings)
        else
          r == Success(true) && bookings == RemoveAt(old(bookings), i.value)
      ensures r.Success? ==> |bookings| == |old(bookings)| - 1
      ensures DistinctKeys(old(bookings), BookingId) ==> DistinctKeys(bookings, BookingId)
    {
      var i := IndexOf(bookings, BookingId, id);
      if i.None? {
        r := Failure("Booking not found");
        return;
      }
      if DistinctKeys(bookings, BookingId) {
        RemoveKeepsDistinct(bookings, BookingId, i.value);
      }
      bookings := RemoveAt(bookings, i.value);
      r := Success(true);
    }

    /** `getByStatus`: exactly the bookings with the status, in table order. */
    method GetByStatus(status: string) returns (r: seq<Booking>)
      ensures r == Filter(bookings, b => HasStatus(b, status))
      ensures forall i :: 0 <= i < |r| ==> r[i].status == status
      ensures forall b :: b in bookings && b.status == status ==> b in r
      ensures forall b :: b in r ==> b in bookings
      ensures IsSubseq(r, bookings)
    {
      r := Filter(bookings, b => HasStatus(b, status));
      StatusFilterFacts(bookings, status);
    }

    /** `getRecentBookings`: sorts the table itself newest first (a stable sort on
        `createdAt`), then returns the first `limit` bookings. */
    method GetRecentBookings(limit: int := 5) returns (r: seq<Booking>)
      modifies this
      ensures bookings == SortNewest(old(bookings), CreatedAt)
      ensures r == Prefix(bookings, limit)
      ensures multiset(bookings) == multiset(old(bookings))
      ensures NewestFirst(bookings, CreatedAt) && NewestFirst(r, CreatedAt)
      ensures limit >= 0 ==> |r| == if limit < |bookings| then limit else |bookings|
      ensures forall i, j :: 0 <= i < |r| && 0 <= j < |bookings| && j >= |r| ==>
        r[i].createdAt >= bookings[j].createdAt
    {
      bookings := SortNewest(bookings, CreatedAt);
      r := Prefix(bookings, limit);
      PrefixNewestFirst(bookings, CreatedAt, limit);
      forall i, j | 0 <= i < |r| && 0 <= j < |bookings| && j >= |r|
        ensures r[i].createdAt >= bookings[j].createdAt
      {
        NewestFirstOrdered(bookings, CreatedAt, i, j);
      }
    }
  }

  /** The status query: every booking it returns has the status, every booking with the
      status is returned, and the order is the table's. */
  lemma StatusFilterFacts(s: seq<Booking>, status: string)
    ensures var r := Filter(s, b => HasStatus(b, status));
      && IsSubseq(r, s)
      && (forall i :: 0 <= i < |r| ==> r[i].status == status)
      && (forall b :: b in s && b.status == status ==> b in r)
      && (forall b :: b in s ==> multiset(r)[b] == if b.status == status then multiset(s)[b] else 0)
  {
    var m := (b: Booking) => HasStatus(b, status);
    var r := Filter(s, m);
    FilterIsSubseq(s, m);
    FilterMultiset(s, m);
    forall b | b in s
      ensures multiset(r)[b] == if b.status == status then multiset(s)[b] else 0
    {
      assert m(b) == (b.status == status);
    }
    forall i | 0 <= i < |r|
      ensures r[i].status == status
    {
      assert m(r[i]);
    }
    forall b | b in s && b.status == status
      ensures b in r
    {
      assert m(b);
    }
  }
}
