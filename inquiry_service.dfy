/** The inquiry service: an in-memory table of customer inquiries with lookup, create, update,
    delete, the per-package and per-status queries, and the admin's response. */
module InquiryService {
  import opened Common
  import opened Records

  /** What the inquiry form sends. */
  datatype InquiryDetails = InquiryDetails(
    packageId: int,
    customerName: string,
    customerEmail: string,
    message: string)

  /** A stored inquiry. `status` is "pending" until the admin responds, then "responded". */
  datatype Inquiry = Inquiry(
    Id: int,
    details: InquiryDetails,
    status: string,
    adminResponse: string,
    createdAt: int,
    updatedAt: Option<int>,
    respondedAt: Option<int>)

  function InquiryId(q: Inquiry): int
  {
    q.Id
  }

  /** The fields an `update` call supplies; None is a field the caller's object leaves out. */
  datatype InquiryPatch = InquiryPatch(
    packageId: Option<int>,
    customerName: Option<string>,
    customerEmail: Option<string>,
    message: Option<string>,
    status: Option<string>,
    adminResponse: Option<string>)

  /** `{ ...current, ...patch, Id: id, updatedAt: now }`. */
  function MergeInquiry(current: Inquiry, patch: InquiryPatch, id: int, now: int): (r: Inquiry)
    ensures r.Id == id && r.updatedAt == Some(now)
    ensures r.createdAt == current.createdAt && r.respondedAt == current.respondedAt
    ensures Spread(r.status, current.status, patch.status)
    ensures Spread(r.adminResponse, current.adminResponse, patch.adminResponse)
    ensures var d := current.details;
      && Spread(r.details.packageId, d.packageId, patch.packageId)
      && Spread(r.details.customerName, d.customerName, patch.customerName)
      && Spread(r.details.customerEmail, d.customerEmail, patch.customerEmail)
      && Spread(r.details.message, d.message, patch.message)
  {
    var d := current.details;
    Inquiry(
      id,
      InquiryDetails(
        if patch.packageId.Some? then patch.packageId.value else d.packageId,
        if patch.customerName.Some? then patch.customerName.value else d.customerName,
        if patch.customerEmail.Some? then patch.customerEmail.value else d.customerEmail,
        if patch.message.Some? then patch.message.value else d.message),
      if patch.status.Some? then patch.status.value else current.status,
      if patch.adminResponse.Some? then patch.adminResponse.value else current.adminResponse,
      current.createdAt,
      Some(now),
      current.respondedAt)
  }

  /** A patch that supplies no field keeps the inquiry and moves only its update time. */
  lemma MergeEmptyInquiryPatch(q: Inquiry, now: int)
    ensures MergeInquiry(q, InquiryPatch(None, None, None, None, None, None), q.Id, now)
      == q.(updatedAt := Some(now))
  {
  }

  /** The record `respond` stores: the response text, the status "responded" and the response
      time; the Id, the customer's details, the creation and update times are kept. */
  function Responded(q: Inquiry, response: string, now: int): (r: Inquiry)
    ensures r.Id == q.Id && r.details == q.details
    ensures r.createdAt == q.createdAt && r.updatedAt == q.updatedAt
    ensures r.status == "responded" && r.adminResponse == response
    ensures r.respondedAt == Some(now)
  {
    q.(adminResponse := response, status := "responded", respondedAt := Some(now))
  }

  /** Responding twice with the same text ends in the same status and response as responding
      once; only the response time moves. */
  lemma RespondTwice(q: Inquiry, response: string, t1: int, t2: int)
    ensures var once := Responded(q, response, t1);
      var twice := Responded(once, response, t2);
      && twice.status == once.status && twice.adminResponse == once.adminResponse
      && twice == once.(respondedAt := Some(t2))
  {
  }

  predicate HasStatus(q: Inquiry, status: string)
  {
    q.status == status
  }

  predicate ForPackage(q: Inquiry, packageId: int)
  {
    q.details.packageId == packageId
  }

  /** The module-level `inquiries` array and the service object over it. */
  class InquiryStore {
    var inquiries: seq<Inquiry>

    constructor (initial: seq<Inquiry>)
      ensures inquiries == initial
    {
      inquiries := initial;
    }

    /** `getAll`: a copy of the whole table. */
    method GetAll() returns (r: seq<Inquiry>)
      ensures r == inquiries
    {
      r := inquiries;
    }

    /** `getById`: the first inquiry with the Id, or the error "Inquiry not found". */
    method GetById(id: int) returns (r: Result<Inquiry>)
      ensures r.Success? <==> exists i :: 0 <= i < |inquiries| && inquiries[i].Id == id
      ensures r.Success? ==> r.value in inquiries && r.value.Id == id
      ensures r.Success? ==> r.value == inquiries[IndexOf(inquiries, InquiryId, id).value]
      ensures r.Failure? ==> r.error == "Inquiry not found"
    {
      var i := IndexOf(inquiries, InquiryId, id);
      if i.None? {
        r := Failure("Inquiry not found");
      } else {
        r := Success(inquiries[i.value]);
      }
    }

    /** `create`: the next Id, the status "pending" and an empty response whatever the caller
        wanted, the creation time; the inquiry is appended. */
    method Create(data: InquiryDetails, now: int) returns (q: Inquiry)
      modifies this
      ensures q == Inquiry(NextKey(old(inquiries), InquiryId), data, "pending", "", now, None, None)
      ensures forall p :: p in old(inquiries) ==> p.Id < q.Id
      ensures inquiries == old(inquiries) + [q]
      ensures DistinctKeys(old(inquiries), InquiryId) ==> DistinctKeys(inquiries, InquiryId)
    {
      q := Inquiry(NextKey(inquiries, InquiryId), data, "pending", "", now, None, None);
      if DistinctKeys(inquiries, InquiryId) {
        AppendNextKeepsDistinct(inquiries, InquiryId, q);
      }
      inquiries := inquiries + [q];
    }

    /** `update`: merges the patch into the first inquiry with the Id, puts the Id back and
        stamps the update time; a missing Id throws and changes nothing. */
    method Update(id: int, patch: InquiryPatch, now: int) returns (r: Result<Inquiry>)
      modifies this
      ensures var i := IndexOf(old(inquiries), InquiryId, id);
        if i.None? then
          r == Failure("Inquiry not found") && inquiries == old(inquiries)
        else
          && r == Success(MergeInquiry(old(inquiries)[i.value], patch, id, now))
          && inquiries == old(inquiries)[i.value := r.value]
      ensures |inquiries| == |old(inquiries)|
      ensures DistinctKeys(old(inquiries), InquiryId) ==> DistinctKeys(inquiries, InquiryId)
    {
      var i := IndexOf(inquiries, InquiryId, id);
      if i.None? {
        r := Failure("Inquiry not found");
        return;
      }
      var updated := MergeInquiry(inquiries[i.value], patch, id, now);
      if DistinctKeys(inquiries, InquiryId) {
        ReplaceKeepsDistinct(inquiries, InquiryId, i.value, updated);
      }
      inquiries := inquiries[i.value := updated];
      r := Success(updated);
    }

    /** `delete`: removes the first inquiry with the Id, keeping the others in order; a missing
        Id throws and changes nothing. */
    method Delete(id: int) returns (r: Result<bool>)
      modifies this
      ensures var i := IndexOf(old(inquiries), InquiryId, id);
        if i.None? then
          r == Failure("Inquiry not found") && inquiries == old(inquiries)
        else
          r == Success(true) && inquiries == RemoveAt(old(inquiries), i.value)
      ensures r.Success? ==> |inquiries| == |old(inquiries)| - 1
      ensures DistinctKeys(old(inquiries), InquiryId) ==> DistinctKeys(inquiries, InquiryId)
    {
      var i := IndexOf(inquiries, InquiryId, id);
      if i.None? {
        r := Failure("Inquiry not found");
        return;
      }
      if DistinctKeys(inquiries, InquiryId) {
        RemoveKeepsDistinct(inquiries, InquiryId, i.value);
      }
      inquiries := RemoveAt(inquiries, i.value);
      r := Success(true);
    }

    /** `getByPackageId`: exactly the inquiries about the package, in table order. */
    method GetByPackageId(packageId: int) returns (r: seq<Inquiry>)
      ensures r == Filter(inquiries, q => ForPackage(q, packageId))
      ensures forall i :: 0 <= i < |r| ==> r[i].details.packageId == packageId
      ensures forall q :: q in inquiries && q.details.packageId == packageId ==> q in r
      ensures IsSubseq(r, inquiries)
    {
      r := Filter(inquiries, q => ForPackage(q, packageId));
      var m := (q: Inquiry) => ForPackage(q, packageId);
      FilterIsSubseq(inquiries, m);
      forall i | 0 <= i < |r|
        ensures r[i].details.packageId == packageId
      {
        assert m(r[i]);
      }
      forall q | q in inquiries && q.details.packageId == packageId
        ensures q in r
      {
        assert m(q);
      }
    }

    /** `getByStatus`: exactly the inquiries with the status, in table order. */
    method GetByStatus(status: string) returns (r: seq<Inquiry>)
      ensures r == Filter(inquiries, q => HasStatus(q, status))
      ensures forall i :: 0 <= i < |r| ==> r[i].status == status
      ensures forall q :: q in inquiries && q.status == status ==> q in r
      ensures IsSubseq(r, inquiries)
    {
      r := Filter(inquiries, q => HasStatus(q, status));
      StatusFilterFacts(inquiries, status);
    }

    /** `respond`: the first inquiry with the Id gets the response, the status "responded"
        and the response time; the others are untouched. A missing Id throws and changes
        nothing. */
    method Respond(id: int, response: string, now: int) returns (r: Result<Inquiry>)
      modifies this
      ensures var i := IndexOf(old(inquiries), InquiryId, id);
        if i.None? then
          r == Failure("Inquiry not found") && inquiries == old(inquiries)
        else
          && r == Success(Responded(old(inquiries)[i.value], response, now))
          && inquiries == old(inquiries)[i.value := r.value]
      ensures |inquiries| == |old(inquiries)|
      ensures DistinctKeys(old(inquiries), InquiryId) ==> DistinctKeys(inquiries, InquiryId)
    {
      var i := IndexOf(inquiries, InquiryId, id);
      if i.None? {
        r := Failure("Inquiry not found");
        return;
      }
      var updated := Responded(inquiries[i.value], response, now);
      if DistinctKeys(inquiries, InquiryId) {
        ReplaceKeepsDistinct(inquiries, InquiryId, i.value, updated);
      }
      inquiries := inquiries[i.value := updated];
      r := Success(updated);
    }
  }

  /** The status query: every inquiry it returns has the status, every inquiry with the
      status is returned, and the order is the table's. */
  lemma StatusFilterFacts(s: seq<Inquiry>, status: string)
    ensures var r := Filter(s, q => HasStatus(q, status));
      && IsSubseq(r, s)
      && (forall i :: 0 <= i < |r| ==> r[i].status == status)
      && (forall q :: q in s && q.status == status ==> q in r)
      && (forall q :: q in s ==> multiset(r)[q] == if q.status == status then multiset(s)[q] else 0)
  {
    var m := (q: Inquiry) => HasStatus(q, status);
    var r := Filter(s, m);
    FilterIsSubseq(s, m);
    FilterMultiset(s, m);
    forall q | q in s
      ensures multiset(r)[q] == if q.status == status then multiset(s)[q] else 0
    {
      assert m(q) == (q.status == status);
    }
    forall i | 0 <= i < |r|
      ensures r[i].status == status
    {
      assert m(r[i]);
    }
    forall q | q in s && q.status == status
      ensures q in r
    {
      assert m(q);
    }
  }
}
