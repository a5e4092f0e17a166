/** The older in-memory lead store of src/services/leadsService.js. Leads are keyed by
    string ids; the store and each lead's activity list are changed in place. Ids and
    timestamps (`Date.now().toString()`, `new Date().toISOString()`) are passed in. */
module LeadsService {
  import opened Wrappers
  import opened Strings
  import opened LegacyTypes
  import Seqs

  const LEAD_NOT_FOUND := "Lead not found"

  /** The query parameters `getLeads` reads. */
  datatype LeadQuery = LeadQuery(status: Option<string>, assignedUserId: Option<string>,
                                 search: Option<string>, page: Option<nat>, limit: Option<nat>)

  /** `{ data: { leads, total, page, limit } }`. */
  datatype LeadList = LeadList(leads: seq<Lead>, total: nat, page: nat, limit: nat)

  predicate Truthy(v: Option<string>) {
    v.Some? && v.value != ""
  }

  /** Title, customer name or company contains the term, all compared lower-cased. */
  predicate MatchesSearch(l: Lead, term: string) {
    var t := Lower(term);
    Contains(Lower(l.title), t) || Contains(Lower(l.customerName), t) || Contains(Lower(l.customerCompany), t)
  }

  /** The three filters, each applied only when its parameter is truthy. */
  predicate Selected(l: Lead, q: LeadQuery) {
    && (Truthy(q.status) ==> l.status == q.status.value)
    && (Truthy(q.assignedUserId) ==> l.assignedUserId == q.assignedUserId.value)
    && (Truthy(q.search) ==> MatchesSearch(l, q.search.value))
  }

  /** The leads `getLeads` returns: status, then assignee, then search. */
  function Filtered(leads: seq<Lead>, q: LeadQuery): (r: seq<Lead>)
    ensures |r| <= |leads|
    ensures forall x :: x in r <==> x in leads && Selected(x, q)
  {
    var a := Seqs.FilterIf(leads, Truthy(q.status), (l: Lead) => l.status == q.status.GetOr(""));
    var b := Seqs.FilterIf(a, Truthy(q.assignedUserId), (l: Lead) => l.assignedUserId == q.assignedUserId.GetOr(""));
    var r := Seqs.FilterIf(b, Truthy(q.search), (l: Lead) => MatchesSearch(l, q.search.GetOr("")));
    r
  }

  /** The lead `find` and `findIndex` pick: the first one with the id. */
  function IndexOf(leads: seq<Lead>, id: string): (r: int)
    ensures -1 <= r < |leads|
    ensures r == -1 <==> forall i :: 0 <= i < |leads| ==> leads[i].id != id
    ensures r >= 0 ==> leads[r].id == id && forall i :: 0 <= i < r ==> leads[i].id != id
  {
    Seqs.FindIndex(leads, (l: Lead) => l.id == id)
  }

  /** `{ ...lead, ...leadData }`: every field the update carries replaces the stored one. */
  function ApplyPatch(l: Lead, p: LeadPatch): (r: Lead)
    ensures r.id == l.id && r.activities == l.activities && r.createdAt == l.createdAt
    ensures r.updatedAt == l.updatedAt
    ensures r.title == p.title.GetOr(l.title) && r.status == p.status.GetOr(l.status)
    ensures r.description == p.description.GetOr(l.description)
    ensures r.priority == p.priority.GetOr(l.priority)
    ensures r.estimatedValue == p.estimatedValue.GetOr(l.estimatedValue)
    ensures r.customerName == p.customerName.GetOr(l.customerName)
    ensures r.customerEmail == p.customerEmail.GetOr(l.customerEmail)
    ensures r.customerPhone == p.customerPhone.GetOr(l.customerPhone)
    ensures r.customerCompany == p.customerCompany.GetOr(l.customerCompany)
    ensures r.assignedUserId == p.assignedUserId.GetOr(l.assignedUserId)
    ensures r.vendorId == p.vendorId.GetOr(l.vendorId)
    ensures r.tireCategory == p.tireCategory.GetOr(l.tireCategory)
    ensures r.quantity == p.quantity.GetOr(l.quantity) && r.notes == p.notes.GetOr(l.notes)
  {
    l.(title := p.title.GetOr(l.title), description := p.description.GetOr(l.description),
       status := p.status.GetOr(l.status), priority := p.priority.GetOr(l.priority),
       estimatedValue := p.estimatedValue.GetOr(l.estimatedValue),
       customerName := p.customerName.GetOr(l.customerName),
       customerEmail := p.customerEmail.GetOr(l.customerEmail),
       customerPhone := p.customerPhone.GetOr(l.customerPhone),
       customerCompany := p.customerCompany.GetOr(l.customerCompany),
       assignedUserId := p.assignedUserId.GetOr(l.assignedUserId),
       vendorId := p.vendorId.GetOr(l.vendorId),
       tireCategory := p.tireCategory.GetOr(l.tireCategory),
       quantity := p.quantity.GetOr(l.quantity), notes := p.notes.GetOr(l.notes))
  }

  /** The update carrying only a status is what `updateLeadStatus` does in place. */
  function StatusPatch(status: string): LeadPatch {
    LeadPatch(None, None, Some(status), None, None, None, None, None, None, None, None, None, None, None)
  }

  /** Applying the same update twice is applying it once. */
  lemma ApplyPatchIdempotent(l: Lead, p: LeadPatch)
    ensures ApplyPatch(ApplyPatch(l, p), p) == ApplyPatch(l, p)
  {
  }

  class LeadsStore {
    var leads: seq<Lead>

    constructor(initial: seq<Lead>)
      ensures leads == initial
    {
      leads := initial;
    }

    /** `getLeads`: every lead passing the filters, with no slicing; the page and limit
      are echoed back with their defaults. */
    method GetLeads(q: LeadQuery) returns (r: LeadList)
      ensures r.leads == Filtered(leads, q) && r.total == |r.leads|
      ensures r.page == OrDefault(q.page, 1) && r.limit == OrDefault(q.limit, 10)
    {
      var found := Filtered(leads, q);
      r := LeadList(found, |found|, OrDefault(q.page, 1), OrDefault(q.limit, 10));
    }

    /** `getLead`. */
    method GetLead(id: string) returns (r: Result<Lead, string>)
      ensures r.Success? <==> exists i :: 0 <= i < |leads| && leads[i].id == id
      ensures r.Success? ==> r.value == leads[IndexOf(leads, id)]
      ensures r.Failure? ==> r.error == LEAD_NOT_FOUND
    {
      var i := IndexOf(leads, id);
      if i == -1 {
        return Failure(LEAD_NOT_FOUND);
      }
      return Success(leads[i]);
    }

    /** `createLead`: the form with a new id, both timestamps and no activity, at the
      front of the store. */
    method CreateLead(data: Lead, id: string, now: string) returns (lead: Lead)
      modifies this
      ensures lead == data.(id := id, createdAt := now, updatedAt := now, activities := [])
      ensures leads == [lead] + old(leads)
    {
      lead := data.(id := id, createdAt := now, updatedAt := now, activities := []);
      leads := [lead] + leads;
    }

    /** `updateLead`. */
    method UpdateLead(id: string, p: LeadPatch, now: string) returns (r: Result<Lead, string>)
      modifies this
      ensures var i := IndexOf(old(leads), id);
        && (i == -1 ==> r == Failure(LEAD_NOT_FOUND) && leads == old(leads))
        && (i >= 0 ==> r == Success(ApplyPatch(old(leads)[i], p).(updatedAt := now))
                       && leads == old(leads)[i := r.value])
    {
      var i := IndexOf(leads, id);
      if i == -1 {
        return Failure(LEAD_NOT_FOUND);
      }
      var updated := ApplyPatch(leads[i], p).(updatedAt := now);
      leads := leads[i := updated];
      return Success(updated);
    }

    /** `deleteLead`. */
    method DeleteLead(id: string) returns (r: Result<(), string>)
      modifies this
      ensures var i := IndexOf(old(leads), id);
        && (i == -1 ==> r == Failure(LEAD_NOT_FOUND) && leads == old(leads))
        && (i >= 0 ==> r == Success(()) && leads == Seqs.RemoveAt(old(leads), i))
    {
      var i := IndexOf(leads, id);
      if i == -1 {
        return Failure(LEAD_NOT_FOUND);
      }
      leads := Seqs.RemoveAt(leads, i);
      return Success(());
    }

    /** `updateLeadStatus`: only the status and the update time of that lead change. */
    method UpdateLeadStatus(id: string, status: string, now: string) returns (r: Result<Lead, string>)
      modifies this
      ensures var i := IndexOf(old(leads), id);
        && (i == -1 ==> r == Failure(LEAD_NOT_FOUND) && leads == old(leads))
        && (i >= 0 ==> r == Success(old(leads)[i].(status := status, updatedAt := now))
                       && leads == old(leads)[i := r.value])
    {
      var i := IndexOf(leads, id);
      if i == -1 {
        return Failure(LEAD_NOT_FOUND);
      }
      var updated := leads[i].(status := status, updatedAt := now);
      leads := leads[i := updated];
      return Success(updated);
    }

    /** `assignLead`: only the assignee and the update time of that lead change. */
    method AssignLead(id: string, userId: string, now: string) returns (r: Result<Lead, string>)
      modifies this
      ensures var i := IndexOf(old(leads), id);
        && (i == -1 ==> r == Failure(LEAD_NOT_FOUND) && leads == old(leads))
        && (i >= 0 ==> r == Success(old(leads)[i].(assignedUserId := userId, updatedAt := now))
                       && leads == old(leads)[i := r.value])
    {
      var i := IndexOf(leads, id);
      if i == -1 {
        return Failure(LEAD_NOT_FOUND);
      }
      var updated := leads[i].(assignedUserId := userId, updatedAt := now);
      leads := leads[i := updated];
      return Success(updated);
    }

    /** `addActivity`: the activity, with a new id and time, goes to the front of that
      lead's activities. */
    method AddActivity(leadId: string, activity: Activity, id: string, now: string)
      returns (r: Result<Activity, string>)
      modifies this
      ensures var i := IndexOf(old(leads), leadId);
        && (i == -1 ==> r == Failure(LEAD_NOT_FOUND) && leads == old(leads))
        && (i >= 0 ==> r == Success(activity.(id := id, createdAt := now))
                       && leads == old(leads)[i := old(leads)[i].(
                            activities := [r.value] + old(leads)[i].activities, updatedAt := now)])
    {
      var i := IndexOf(leads, leadId);
      if i == -1 {
        return Failure(LEAD_NOT_FOUND);
      }
      var added := activity.(id := id, createdAt := now);
      leads := leads[i := leads[i].(activities := [added] + leads[i].activities, updatedAt := now)];
      return Success(added);
    }
  }

  /** `updateLeadStatus` is `updateLead` with an update that carries only the status. */
  lemma UpdateStatusIsPatch(l: Lead, status: string, now: string)
    ensures ApplyPatch(l, StatusPatch(status)).(updatedAt := now) == l.(status := status, updatedAt := now)
  {
  }

  /** With no filter set, `getLeads` returns the whole store. */
  lemma NoFilterReturnsAll(leads: seq<Lead>, page: Option<nat>, limit: Option<nat>)
    ensures Filtered(leads, LeadQuery(None, None, None, page, limit)) == leads
  {
  }
}
