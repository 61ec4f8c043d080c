/** The admin inquiries list: the status filter, the badge of each row, the response form
    that opens under one pending inquiry, and the respond and delete actions. */
module AdminInquiries {
  import opened Common
  import opened Records
  import opened FormRules
  import opened PackageService
  import opened InquiryService

  /** The filter value that shows every inquiry. */
  const All := "all"

  /** `filteredInquiries`: every inquiry for "all", otherwise those with the chosen status. */
  function FilteredInquiries(inquiries: seq<Inquiry>, statusFilter: string): seq<Inquiry>
  {
    Filter(inquiries, q => statusFilter == All || HasStatus(q, statusFilter))
  }

  /** The filter keeps the table's order; "all" keeps the whole list, and any other choice
      keeps exactly the inquiries with that status. */
  lemma FilteredInquiriesFacts(inquiries: seq<Inquiry>, statusFilter: string)
    ensures IsSubseq(FilteredInquiries(inquiries, statusFilter), inquiries)
    ensures statusFilter == All ==> FilteredInquiries(inquiries, statusFilter) == inquiries
    ensures statusFilter != All ==>
      FilteredInquiries(inquiries, statusFilter) == Filter(inquiries, q => HasStatus(q, statusFilter))
    ensures statusFilter != All ==> forall q ::
      q in FilteredInquiries(inquiries, statusFilter) <==> q in inquiries && q.status == statusFilter
    ensures statusFilter != All ==> forall q :: q in inquiries ==>
      multiset(FilteredInquiries(inquiries, statusFilter))[q] == if q.status == statusFilter then multiset(inquiries)[q] else 0
  {
    var m := (q: Inquiry) => statusFilter == All || HasStatus(q, statusFilter);
    FilterIsSubseq(inquiries, m);
    if statusFilter == All {
      FilterAll(inquiries, m);
    } else {
      FilterExt(inquiries, m, q => HasStatus(q, statusFilter));
      StatusFilterFacts(inquiries, statusFilter);
    }
  }

  /** The inquiry statuses the list gives a colour. */
  const InquiryStatuses: set<string> := {"pending", "responded"}

  /** `getStatusBadge`: pending is a warning, responded a success, and any other status the
      default colour. */
  function InquiryBadge(status: string): (v: string)
    ensures status == "pending" ==> v == "warning"
    ensures status == "responded" ==> v == "success"
    ensures v == "default" <==> status !in InquiryStatuses
  {
    if status == "pending" then "warning"
    else if status == "responded" then "success"
    else "default"
  }

  /** The row of an inquiry offers the Respond button: the response form is not open under
      it and the inquiry is still pending. */
  predicate RespondOffered(q: Inquiry, respondingTo: Option<int>)
  {
    respondingTo != Some(q.Id) && q.status == "pending"
  }

  /** Once answered, an inquiry is never offered the Respond button again. */
  lemma RespondedNotOffered(q: Inquiry, response: string, now: int, respondingTo: Option<int>)
    ensures !RespondOffered(Responded(q, response, now), respondingTo)
  {
  }

  /** The page's state: the two lists it shows, the chosen status, the Id whose response form
      is open, and the text typed into it. */
  class Page {
    var inquiries: seq<Inquiry>
    var packages: seq<Package>
    var statusFilter: string
    var respondingTo: Option<int>
    var responseText: string

    constructor ()
      ensures inquiries == [] && packages == [] && statusFilter == All
      ensures respondingTo.None? && responseText == ""
    {
      inquiries := [];
      packages := [];
      statusFilter := All;
      respondingTo := None;
      responseText := "";
    }

    /** `loadData`: both tables as they are now. */
    method LoadData(store: InquiryStore, packageStore: PackageStore)
      modifies this
      ensures inquiries == store.inquiries && packages == packageStore.packages
      ensures statusFilter == old(statusFilter)
      ensures respondingTo == old(respondingTo) && responseText == old(responseText)
    {
      inquiries := store.GetAll();
      packages := packageStore.GetAll();
    }

    /** The status select. */
    method SetStatusFilter(status: string)
      modifies this
      ensures statusFilter == status
      ensures inquiries == old(inquiries) && packages == old(packages)
      ensures respondingTo == old(respondingTo) && responseText == old(responseText)
    {
      statusFilter := status;
    }

    /** The Respond button: opens the form under the inquiry; a text typed earlier stays. */
    method StartResponding(id: int)
      modifies this
      ensures respondingTo == Some(id) && responseText == old(responseText)
      ensures inquiries == old(inquiries) && packages == old(packages) && statusFilter == old(statusFilter)
    {
      respondingTo := Some(id);
    }

    /** Typing into the response form. */
    method EditResponse(text: string)
      modifies this
      ensures responseText == text && respondingTo == old(respondingTo)
      ensures inquiries == old(inquiries) && packages == old(packages) && statusFilter == old(statusFilter)
    {
      responseText := text;
    }

    /** The Cancel button: closes the form and drops its text. */
    method Cancel()
      modifies this
      ensures respondingTo.None? && responseText == ""
      ensures inquiries == old(inquiries) && packages == old(packages) && statusFilter == old(statusFilter)
    {
      respondingTo := None;
      responseText := "";
    }

    /** `handleRespond`: a blank response calls nothing and changes nothing. Otherwise the
        service records the response; on success the form closes, its text is dropped and
        both lists are reloaded, so the answered inquiry no longer offers the Respond button. */
    method HandleRespond(store: InquiryStore, packageStore: PackageStore, id: int, now: int)
      returns (r: Result<Inquiry>)
      modifies this, store
      ensures IsBlank(old(responseText)) ==> r == Failure("Please enter a response")
      ensures IsBlank(old(responseText)) || r.Failure? ==>
        && store.inquiries == old(store.inquiries)
        && inquiries == old(inquiries) && packages == old(packages)
        && respondingTo == old(respondingTo) && responseText == old(responseText)
      ensures !IsBlank(old(responseText)) ==> var i := IndexOf(old(store.inquiries), InquiryId, id);
        if i.None? then
          r.Failure?
        else
          && r == Success(Responded(old(store.inquiries)[i.value], old(responseText), now))
          && store.inquiries == old(store.inquiries)[i.value := r.value]
      ensures r.Success? ==>
        && respondingTo.None? && responseText == ""
        && inquiries == store.inquiries && packages == packageStore.packages
        && r.value in inquiries && !RespondOffered(r.value, respondingTo)
      ensures statusFilter == old(statusFilter)
    {
      TrimEmptyIffBlank(responseText);
      if Missing(responseText) {
        return Failure("Please enter a response");
      }
      r := store.Respond(id, responseText, now);
      if r.Success? {
        var i := IndexOf(old(store.inquiries), InquiryId, id);
        assert store.inquiries[i.value] == r.value;
        respondingTo := None;
        responseText := "";
        LoadData(store, packageStore);
      }
    }

    /** `handleDelete`: after a confirmed, successful delete both lists are reloaded; otherwise
        the page is left as it is. */
    method HandleDelete(store: InquiryStore, packageStore: PackageStore, id: int, confirmed: bool)
      returns (r: Result<bool>)
      modifies this, store
      ensures !confirmed ==> r == Success(false) && store.inquiries == old(store.inquiries)
      ensures confirmed ==> match IndexOf(old(store.inquiries), InquiryId, id)
        case None => r.Failure? && store.inquiries == old(store.inquiries)
        case Some(i) => r == Success(true) && store.inquiries == RemoveAt(old(store.inquiries), i)
      ensures r.Success? && confirmed ==> inquiries == store.inquiries && packages == packageStore.packages
      ensures !confirmed || r.Failure? ==> inquiries == old(inquiries) && packages == old(packages)
      ensures statusFilter == old(statusFilter)
      ensures respondingTo == old(respondingTo) && responseText == old(responseText)
    {
      if !confirmed {
        return Success(false);
      }
      r := store.Delete(id);
      if r.Success? {
        LoadData(store, packageStore);
      }
    }
  }
}
