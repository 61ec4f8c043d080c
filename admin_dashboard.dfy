/** The admin dashboard: four counters over the three tables, the first five bookings and
    inquiries, and the badge colour of a status. */
module AdminDashboard {
  import opened Records
  import opened PackageService
  import opened BookingService
  import opened InquiryService

  datatype Stats = Stats(
    totalPackages: nat,
    totalBookings: nat,
    pendingInquiries: nat,
    confirmedBookings: nat)

  /** How many records of a list pass `p`, counted one record at a time. */
  function Count<R>(s: seq<R>, p: R -> bool): nat
  {
    if s == [] then 0 else (if p(s[0]) then 1 else 0) + Count(s[1..], p)
  }

  /** The length of a filtered list is the count of the records that pass. */
  lemma {:induction false} FilterLengthIsCount<R>(s: seq<R>, p: R -> bool)
    ensures |Filter(s, p)| == Count(s, p)
  {
    if s != [] {
      FilterLengthIsCount(s[1..], p);
    }
  }

  /** `loadDashboardData`'s counters: the table sizes, the inquiries still "pending" and the
      bookings "confirmed". */
  function DashboardStats(packages: seq<Package>, bookings: seq<Booking>, inquiries: seq<Inquiry>)
    : (s: Stats)
    ensures s.totalPackages == |packages| && s.totalBookings == |bookings|
    ensures s.pendingInquiries <= |inquiries|
    ensures s.confirmedBookings <= s.totalBookings
  {
    Stats(|packages|, |bookings|,
      |Filter(inquiries, q => InquiryService.HasStatus(q, "pending"))|,
      |Filter(bookings, b => BookingService.HasStatus(b, "confirmed"))|)
  }

  /** Each counter is the number of records with the status, and it is what the status
      queries of the services return. */
  lemma StatsCountStatuses(packages: seq<Package>, bookings: seq<Booking>, inquiries: seq<Inquiry>)
    ensures var s := DashboardStats(packages, bookings, inquiries);
      && s.pendingInquiries == Count(inquiries, (q: Inquiry) => q.status == "pending")
      && s.confirmedBookings == Count(bookings, (b: Booking) => b.status == "confirmed")
  {
    var pi := (q: Inquiry) => InquiryService.HasStatus(q, "pending");
    var pc := (q: Inquiry) => q.status == "pending";
    FilterExt(inquiries, pi, pc);
    FilterLengthIsCount(inquiries, pc);
    var bi := (b: Booking) => BookingService.HasStatus(b, "confirmed");
    var bc := (b: Booking) => b.status == "confirmed";
    FilterExt(bookings, bi, bc);
    FilterLengthIsCount(bookings, bc);
  }

  /** The confirmed bookings and those with any other status make up all the bookings. */
  lemma ConfirmedAndOthers(bookings: seq<Booking>)
    ensures DashboardStats([], bookings, []).confirmedBookings
      + |Filter(bookings, (b: Booking) => b.status != "confirmed")| == |bookings|
  {
    var bi := (b: Booking) => BookingService.HasStatus(b, "confirmed");
    FilterSplit(bookings, bi, (b: Booking) => b.status != "confirmed");
  }

  /** `slice(0, 5)`: the first five records in table order, or all of them when fewer. */
  function Recent<R>(s: seq<R>): (r: seq<R>)
    ensures |r| == if |s| < 5 then |s| else 5
    ensures r == s[..|r|]
    ensures IsSubseq(r, s)
  {
    PrefixIsSubseq(s, 5);
    Prefix(s, 5)
  }

  /** The statuses the dashboard gives a colour. */
  const DashboardStatuses: set<string> := {"pending", "confirmed", "cancelled", "responded"}

  /** `getStatusBadge`: pending is a warning, confirmed a success, cancelled an error,
      responded information, and every other status the default colour. */
  function DashboardBadge(status: string): (v: string)
    ensures status == "pending" ==> v == "warning"
    ensures status == "confirmed" ==> v == "success"
    ensures status == "cancelled" ==> v == "error"
    ensures status == "responded" ==> v == "info"
    ensures v == "default" <==> status !in DashboardStatuses
  {
    if status == "pending" then "warning"
    else if status == "confirmed" then "success"
    else if status == "cancelled" then "error"
    else if status == "responded" then "info"
    else "default"
  }
}
