/** The admin bookings list: the status filter, the package title and badge of each row, and
    the status change and delete actions, which forward to the booking service. */
module AdminBookings {
  import opened Common
  import opened Records
  import opened PackageService
  import opened BookingService

  /** The filter value that shows every booking. */
  const All := "all"

  /** `filteredBookings`: every booking for "all", otherwise those with the chosen status. */
  function FilteredBookings(bookings: seq<Booking>, statusFilter: string): seq<Booking>
  {
    Filter(bookings, b => statusFilter == All || HasStatus(b, statusFilter))
  }

  /** The filter keeps the table's order; "all" keeps the whole list, and any other choice
      keeps exactly the bookings with that status. */
  lemma FilteredBookingsFacts(bookings: seq<Booking>, statusFilter: string)
    ensures IsSubseq(FilteredBookings(bookings, statusFilter), bookings)
    ensures statusFilter == All ==> FilteredBookings(bookings, statusFilter) == bookings
    ensures statusFilter != All ==> FilteredBookings(bookings, statusFilter) == Filter(bookings, b => HasStatus(b, statusFilter))
    ensures statusFilter != All ==> forall b :: b in FilteredBookings(bookings, statusFilter) <==> b in bookings && b.status == statusFilter
    ensures statusFilter != All ==> forall b :: b in bookings ==>
      multiset(FilteredBookings(bookings, statusFilter))[b] == if b.status == statusFilter then multiset(bookings)[b] else 0
  {
    var m := (b: Booking) => statusFilter == All || HasStatus(b, statusFilter);
    FilterIsSubseq(bookings, m);
    if statusFilter == All {
      FilterAll(bookings, m);
    } else {
      FilterExt(bookings, m, b => HasStatus(b, statusFilter));
      StatusFilterFacts(bookings, statusFilter);
    }
  }

  /** Two different status choices show no booking in common. */
  lemma FilteredBookingsDisjoint(bookings: seq<Booking>, s1: string, s2: string)
    requires s1 != All && s2 != All && s1 != s2
    ensures forall b :: b in FilteredBookings(bookings, s1) ==> b !in FilteredBookings(bookings, s2)
  {
    FilteredBookingsFacts(bookings, s1);
    FilteredBookingsFacts(bookings, s2);
  }

  /** The booking statuses the list gives a colour. */
  const BookingStatuses: set<string> := {"pending", "confirmed", "cancelled"}

  /** `getStatusBadge`: pending is a warning, confirmed a success, cancelled an error, and any
      other status the default colour. */
  function BookingBadge(status: string): (v: string)
    ensures status == "pending" ==> v == "warning"
    ensures status == "confirmed" ==> v == "success"
    ensures status == "cancelled" ==> v == "error"
    ensures v == "default" <==> status !in BookingStatuses
  {
    if status == "pending" then "warning"
    else if status == "confirmed" then "success"
    else if status == "cancelled" then "error"
    else "default"
  }

  /** The page's state: the two lists it shows and the chosen status. */
  class Page {
    var bookings: seq<Booking>
    var packages: seq<Package>
    var statusFilter: string

    constructor ()
      ensures bookings == [] && packages == [] && statusFilter == All
    {
      bookings := [];
      packages := [];
      statusFilter := All;
    }

    /** `loadData`: both tables as they are now. */
    method LoadData(store: BookingStore, packageStore: PackageStore)
      modifies this
      ensures bookings == store.bookings && packages == packageStore.packages
      ensures statusFilter == old(statusFilter)
    {
      bookings := store.GetAll();
      packages := packageStore.GetAll();
    }

    /** The status select. */
    method SetStatusFilter(status: string)
      modifies this
      ensures statusFilter == status
      ensures bookings == old(bookings) && packages == old(packages)
    {
      statusFilter := status;
    }

    /** `handleStatusChange`: the service is sent a change of the status alone, so only that
        booking's status and update time move; after a success both lists are reloaded. */
    method HandleStatusChange(store: BookingStore, packageStore: PackageStore, id: int, status: string, now: int)
      returns (r: Result<Booking>)
      modifies this, store
      ensures var i := IndexOf(old(store.bookings), BookingId, id);
        if i.None? then
          r.Failure? && store.bookings == old(store.bookings)
        else
          && r == Success(old(store.bookings)[i.value].(status := status, updatedAt := Some(now)))
          && store.bookings == old(store.bookings)[i.value := r.value]
      ensures r.Success? ==> bookings == store.bookings && packages == packageStore.packages
      ensures r.Failure? ==> bookings == old(bookings) && packages == old(packages)
      ensures statusFilter == old(statusFilter)
    {
      var i := IndexOf(store.bookings, BookingId, id);
      if i.Some? {
        StatusPatchKeepsDetails(store.bookings[i.value], status, now);
      }
      r := store.Update(id, StatusPatch(status), now);
      if r.Success? {
        LoadData(store, packageStore);
      }
    }

    /** `handleDelete`: without confirmation nothing happens; with it the booking is removed
        and both lists are reloaded, or the table is left as it is when the Id is missing. */
    method HandleDelete(store: BookingStore, packageStore: PackageStore, id: int, confirmed: bool)
      returns (r: Result<bool>)
      modifies this, store
      ensures !confirmed ==> r == Success(false) && store.bookings == old(store.bookings)
      ensures confirmed ==> match IndexOf(old(store.bookings), BookingId, id)
        case None => r.Failure? && store.bookings == old(store.bookings)
        case Some(i) => r == Success(true) && store.bookings == RemoveAt(old(store.bookings), i)
      ensures r.Success? && confirmed ==> bookings == store.bookings && packages == packageStore.packages
      ensures !confirmed || r.Failure? ==> bookings == old(bookings) && packages == old(packages)
      ensures statusFilter == old(statusFilter)
    {
      if !confirmed {
        return Success(false);
      }
      r := store.Delete(id);
      if r.Success? {
        LoadData(store, packageStore);
      }
    }
  }
}
