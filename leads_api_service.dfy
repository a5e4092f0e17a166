/** The in-memory lead store of src/services/leadsApiService.js (`mockLeadsService`),
    the implementation the client runs with `USE_MOCK_DATA === 'true'`. The store is
    an array the operations change in place; ids and timestamps (`Date.now()`,
    `new Date().toISOString()`) are passed in. */
module LeadsApiService {
  import opened Wrappers
  import opened Strings
  import opened ApiTypes
  import Seqs
  import MockPaging

  const LEAD_NOT_FOUND := "Lead not found"

  /** The query parameters `getLeads` reads. */
  datatype LeadQuery = LeadQuery(status: Option<string>, search: Option<string>,
                                 page: Option<nat>, size: Option<nat>)

  predicate Truthy(v: Option<string>) {
    v.Some? && v.value != ""
  }

  /** The search test: business name or notes contain the term ignoring case; the
      phone number must contain the lower-cased term as it is. */
  predicate MatchesSearch(l: Lead, term: string) {
    var t := Lower(term);
    Contains(Lower(l.businessName), t) || Contains(l.phoneNumber, t) || Contains(Lower(l.notes), t)
  }

  /** `filter(lead => lead.status === params.status)` when a status is given. */
  function FilterStatus(leads: seq<Lead>, status: Option<string>): (r: seq<Lead>)
    ensures !Truthy(status) ==> r == leads
    ensures Truthy(status) ==> forall i :: 0 <= i < |r| ==> r[i] in leads && r[i].status == status.value
    ensures Truthy(status) ==> forall i :: 0 <= i < |leads| && leads[i].status == status.value ==> leads[i] in r
  {
    if Truthy(status) then Seqs.Filter(leads, (l: Lead) => l.status == status.value) else leads
  }

  /** The search filter when a term is given. */
  function FilterSearch(leads: seq<Lead>, search: Option<string>): (r: seq<Lead>)
    ensures !Truthy(search) ==> r == leads
    ensures Truthy(search) ==> forall i :: 0 <= i < |r| ==> r[i] in leads && MatchesSearch(r[i], search.value)
    ensures Truthy(search) ==> forall i :: 0 <= i < |leads| && MatchesSearch(leads[i], search.value) ==> leads[i] in r
  {
    if Truthy(search) then Seqs.Filter(leads, (l: Lead) => MatchesSearch(l, search.value)) else leads
  }

  /** The test both filters apply together. */
  predicate Selected(l: Lead, q: LeadQuery) {
    && (Truthy(q.status) ==> l.status == q.status.value)
    && (Truthy(q.search) ==> MatchesSearch(l, q.search.value))
  }

  /** The leads `getLeads` pages over: the status filter, then the search filter. */
  function Filtered(leads: seq<Lead>, q: LeadQuery): (r: seq<Lead>)
    ensures |r| <= |leads|
    ensures forall i :: 0 <= i < |r| ==> r[i] in leads && Selected(r[i], q)
    ensures forall i :: 0 <= i < |leads| && Selected(leads[i], q) ==> leads[i] in r
  {
    var s := FilterStatus(leads, q.status);
    var r := FilterSearch(s, q.search);
    assert forall i :: 0 <= i < |r| ==> r[i] in s;
    forall i | 0 <= i < |leads| && Selected(leads[i], q)
      ensures leads[i] in r
    {
      var j :| 0 <= j < |s| && s[j] == leads[i];
    }
    r
  }

  /** `{ status, ...params }`: a status among the parameters wins. */
  function WithStatus(status: string, q: LeadQuery): LeadQuery {
    if q.status.Some? then q else q.(status := Some(status))
  }

  /** The lead `find` and `findIndex` pick: the first one with the id. */
  function IndexOf(leads: seq<Lead>, id: int): (r: int)
    ensures -1 <= r < |leads|
    ensures r == -1 <==> forall i :: 0 <= i < |leads| ==> leads[i].id != id
    ensures r >= 0 ==> leads[r].id == id && forall i :: 0 <= i < r ==> leads[i].id != id
  {
    Seqs.FindIndex(leads, (l: Lead) => l.id == id)
  }

  /** Every field of the form, other than the file, as written into the lead. */
  predicate CarriesForm(r: Lead, data: LeadRequest) {
    && r.businessName == data.businessName && r.phoneNumber == data.phoneNumber
    && r.streetNumber == data.streetNumber && r.streetName == data.streetName
    && r.aptUnitBldg == data.aptUnitBldg && r.postalCode == data.postalCode
    && r.source == data.source && r.sourceUrl == data.sourceUrl
    && r.status == data.status && r.notes == data.notes && r.vendorId == data.vendorId
  }

  /** A lead nobody has validated, contacted or taken yet. */
  predicate Unprocessed(r: Lead) {
    && r.validatedAt == None && r.validatedBy == None
    && r.validatedByFirstName == None && r.validatedByLastName == None
    && r.contactMethod == None && r.contactMethodDetails == None
    && r.extensionNumber == None && r.contactName == None && r.position == None
    && r.assignedTo == None
  }

  /** The lead `createLead` stores: the form, the new id and time, the file's name. */
  function NewLead(data: LeadRequest, id: int, now: string, fileName: Option<string>): (r: Lead)
    ensures r.id == id && r.createdAt == r.updatedAt == DateIso(now) && r.uploadedFile == fileName
    ensures CarriesForm(r, data)
    ensures Unprocessed(r)
  {
    Lead(id, data.businessName, data.phoneNumber, data.streetNumber, data.streetName,
         data.aptUnitBldg, data.postalCode, data.source, data.sourceUrl, fileName,
         data.status, data.notes, data.vendorId, DateIso(now), DateIso(now),
         None, None, None, None, None, None, None, None, None, None)
  }

  /** `{ ...lead, ...leadData, updatedAt, uploadedFile: file ? file.name : lead.uploadedFile }`:
      the form's fields replace the lead's, and nothing else but the time and file changes. */
  function MergeLead(l: Lead, data: LeadRequest, now: string, fileName: Option<string>): (r: Lead)
    ensures r.id == l.id && r.createdAt == l.createdAt && r.updatedAt == DateIso(now)
    ensures r.uploadedFile == if fileName.Some? then fileName else l.uploadedFile
    ensures CarriesForm(r, data)
    ensures r == l.(businessName := r.businessName, phoneNumber := r.phoneNumber,
                    streetNumber := r.streetNumber, streetName := r.streetName,
                    aptUnitBldg := r.aptUnitBldg, postalCode := r.postalCode,
                    source := r.source, sourceUrl := r.sourceUrl, status := r.status,
                    notes := r.notes, vendorId := r.vendorId, updatedAt := r.updatedAt,
                    uploadedFile := r.uploadedFile)
  {
    l.(businessName := data.businessName, phoneNumber := data.phoneNumber,
       streetNumber := data.streetNumber, streetName := data.streetName,
       aptUnitBldg := data.aptUnitBldg, postalCode := data.postalCode, source := data.source,
       sourceUrl := data.sourceUrl, status := data.status, notes := data.notes,
       vendorId := data.vendorId, updatedAt := DateIso(now),
       uploadedFile := if fileName.Some? then fileName else l.uploadedFile)
  }

  /** The reviewer `validateLead` records. */
  const VALIDATOR_ID := 1

  /** `validateLead`'s new record: any requested status is written, whatever the
      current one; empty or absent notes keep the old notes. */
  function ValidatedLead(l: Lead, v: ValidationRequest, now: string): (r: Lead)
    ensures r.status == v.status
    ensures r.notes == if Truthy(v.notes) then v.notes.value else l.notes
    ensures r.validatedAt == Some(DateIso(now)) && r.updatedAt == DateIso(now)
    ensures r.validatedBy == Some(VALIDATOR_ID)
    ensures r.validatedByFirstName == Some("Admin") && r.validatedByLastName == Some("User")
    ensures r == l.(status := r.status, notes := r.notes, updatedAt := r.updatedAt,
                    validatedAt := r.validatedAt, validatedBy := r.validatedBy,
                    validatedByFirstName := r.validatedByFirstName,
                    validatedByLastName := r.validatedByLastName)
  {
    l.(status := v.status, notes := if Truthy(v.notes) then v.notes.value else l.notes,
       updatedAt := DateIso(now), validatedAt := Some(DateIso(now)),
       validatedBy := Some(VALIDATOR_ID), validatedByFirstName := Some("Admin"),
       validatedByLastName := Some("User"))
  }

  /** `initiateContact`'s new record: CONTACTED and the five contact fields, whatever
      the current status. */
  function ContactedLead(l: Lead, c: ContactRequest, now: string): (r: Lead)
    ensures r.status == CONTACTED && r.contactMethod == Some(c.contactMethod)
    ensures r.contactMethodDetails == Some(c.contactMethodDetails)
    ensures r.extensionNumber == Some(c.extensionNumber)
    ensures r.contactName == Some(c.contactName) && r.position == Some(c.position)
    ensures r.updatedAt == DateIso(now)
    ensures r == l.(status := r.status, contactMethod := r.contactMethod,
                    contactMethodDetails := r.contactMethodDetails,
                    extensionNumber := r.extensionNumber, contactName := r.contactName,
                    position := r.position, updatedAt := r.updatedAt)
  {
    l.(status := CONTACTED, contactMethod := Some(c.contactMethod),
       contactMethodDetails := Some(c.contactMethodDetails),
       extensionNumber := Some(c.extensionNumber), contactName := Some(c.contactName),
       position := Some(c.position), updatedAt := DateIso(now))
  }

  /** The placeholder assignee `takeLead` writes. */
  const CURRENT_USER_ID := "current-user-id"

  /** The leads service picks its in-memory implementation when the flag is the
      string `'true'`. */
  predicate LeadsUseMock(flag: string) {
    flag == "true"
  }

  /** `getFilePreviewUrl`: a fragment link, `#preview-` and the id. */
  function FilePreviewUrl(id: nat): (r: string)
    ensures |r| > 9 && r[..9] == "#preview-" && AllDigits(r[9..])
  {
    "#preview-" + NatToString(id)
  }

  /** `getFileDownloadUrl`: a fragment link, `#download-` and the id. */
  function FileDownloadUrl(id: nat): (r: string)
    ensures |r| > 10 && r[..10] == "#download-" && AllDigits(r[10..])
  {
    "#download-" + NatToString(id)
  }

  /** The preview and download links of a lead never coincide, and neither does the
      preview link of two different leads. */
  lemma FileUrlsDistinct(id: nat, other: nat)
    ensures FilePreviewUrl(id) != FileDownloadUrl(other)
    ensures FilePreviewUrl(id) == FilePreviewUrl(other) ==> id == other
  {
    assert FilePreviewUrl(id)[1] == 'p' && FileDownloadUrl(other)[1] == 'd';
    if FilePreviewUrl(id) == FilePreviewUrl(other) {
      assert FilePreviewUrl(id)[9..] == NatToString(id);
      assert FilePreviewUrl(other)[9..] == NatToString(other);
      NatToStringInjective(id, other);
    }
  }

  class LeadsApiStore {
    var leads: seq<Lead>

    constructor(initial: seq<Lead>)
      ensures leads == initial
    {
      leads := initial;
    }

    /** `getLeads`: the requested page of the filtered leads. */
    method GetLeads(q: LeadQuery) returns (page: Page<Lead>)
      ensures page == MockPaging.PageOf(Filtered(leads, q), q.page, q.size)
    {
      page := MockPaging.PageOf(Filtered(leads, q), q.page, q.size);
    }

    /** `getLeadsByStatus`. */
    method GetLeadsByStatus(status: string, q: LeadQuery) returns (page: Page<Lead>)
      ensures page == MockPaging.PageOf(Filtered(leads, WithStatus(status, q)), q.page, q.size)
    {
      page := GetLeads(WithStatus(status, q));
    }

    /** `getMyLeads`: the in-memory store does not filter by owner. */
    method GetMyLeads(q: LeadQuery) returns (page: Page<Lead>)
      ensures page == MockPaging.PageOf(Filtered(leads, q), q.page, q.size)
    {
      page := GetLeads(q);
    }

    /** `getLead`: the first lead with the id, or "Lead not found". */
    method GetLead(id: int) returns (r: Result<Lead, string>)
      ensures r.Success? <==> exists i :: 0 <= i < |leads| && leads[i].id == id
      ensures r.Success? ==> r.value == leads[IndexOf(leads, id)]
      ensures r.Failure? ==> r.error == LEAD_NOT_FOUND
    {
      var i := IndexOf(leads, id);
      if i == -1 {
        return Failure(LEAD_NOT_FOUND);
      }
      return Success(leads[i]);
    }

    /** `createLead`: the new lead goes to the front. */
    method CreateLead(data: LeadRequest, fileName: Option<string>, id: int, now: string)
      returns (lead: Lead)
      modifies this
      ensures lead == NewLead(data, id, now, fileName)
      ensures leads == [lead] + old(leads)
    {
      lead := NewLead(data, id, now, fileName);
      leads := [lead] + leads;
    }

    /** `updateLead` (and `updateLeadPartial`): the form merged into the lead at its
      place; every other lead unchanged. */
    method UpdateLead(id: int, data: LeadRequest, fileName: Option<string>, now: string)
      returns (r: Result<Lead, string>)
      modifies this
      ensures var i := IndexOf(old(leads), id);
        && (i == -1 ==> r == Failure(LEAD_NOT_FOUND) && leads == old(leads))
        && (i >= 0 ==> r == Success(MergeLead(old(leads)[i], data, now, fileName))
                       && leads == old(leads)[i := r.value])
    {
      var i := IndexOf(leads, id);
      if i == -1 {
        return Failure(LEAD_NOT_FOUND);
      }
      var updated := MergeLead(leads[i], data, now, fileName);
      leads := leads[i := updated];
      return Success(updated);
    }

    /** `deleteLead`: `splice(index, 1)`. */
    method DeleteLead(id: int) returns (r: Result<(), string>)
      modifies this
      ensures var i := IndexOf(old(leads), id);
        && (i == -1 ==> r == Failure(LEAD_NOT_FOUND) && leads == old(leads))
        && (i >= 0 ==> r == Success(()) && leads == Seqs.RemoveAt(old(leads), i))
    {
      var i := IndexOf(leads, id);
      if i == -1 {
        return Failure(LEAD_NOT_FOUND);
      }
      leads := Seqs.RemoveAt(leads, i);
      return Success(());
    }

    /** `validateLead`. */
    method ValidateLead(id: int, v: ValidationRequest, now: string) returns (r: Result<Lead, string>)
      modifies this
      ensures var i := IndexOf(old(leads), id);
        && (i == -1 ==> r == Failure(LEAD_NOT_FOUND) && leads == old(leads))
        && (i >= 0 ==> r == Success(ValidatedLead(old(leads)[i], v, now))
                       && leads == old(leads)[i := r.value])
    {
      var i := IndexOf(leads, id);
      if i == -1 {
        return Failure(LEAD_NOT_FOUND);
      }
      var updated := ValidatedLead(leads[i], v, now);
      leads := leads[i := updated];
      return Success(updated);
    }

    /** `initiateContact`. */
    method InitiateContact(id: int, c: ContactRequest, now: string) returns (r: Result<Lead, string>)
      modifies this
      ensures var i := IndexOf(old(leads), id);
        && (i == -1 ==> r == Failure(LEAD_NOT_FOUND) && leads == old(leads))
        && (i >= 0 ==> r == Success(ContactedLead(old(leads)[i], c, now))
                       && leads == old(leads)[i := r.value])
    {
      var i := IndexOf(leads, id);
      if i == -1 {
        return Failure(LEAD_NOT_FOUND);
      }
      var updated := ContactedLead(leads[i], c, now);
      leads := leads[i := updated];
      return Success(updated);
    }

    /** `takeLead`: the assignee is overwritten even when the lead is already taken. */
    method TakeLead(id: int, now: string) returns (r: Result<Lead, string>)
      modifies this
      ensures var i := IndexOf(old(leads), id);
        && (i == -1 ==> r == Failure(LEAD_NOT_FOUND) && leads == old(leads))
        && (i >= 0 ==> r == Success(old(leads)[i].(assignedTo := Some(CURRENT_USER_ID), updatedAt := DateIso(now)))
                       && leads == old(leads)[i := r.value])
    {
      var i := IndexOf(leads, id);
      if i == -1 {
        return Failure(LEAD_NOT_FOUND);
      }
      var updated := leads[i].(assignedTo := Some(CURRENT_USER_ID), updatedAt := DateIso(now));
      leads := leads[i := updated];
      return Success(updated);
    }
  }

  /** Deleting a lead whose id is unique leaves no lead with that id, and the others in
      their order. */
  lemma DeleteUniqueRemovesId(leads: seq<Lead>, id: int)
    requires forall i, j :: 0 <= i < j < |leads| && leads[i].id == id ==> leads[j].id != id
    requires IndexOf(leads, id) >= 0
    ensures var rest := Seqs.RemoveAt(leads, IndexOf(leads, id));
      IndexOf(rest, id) == -1 && |rest| == |leads| - 1
  {
    var k := IndexOf(leads, id);
    var rest := Seqs.RemoveAt(leads, k);
    forall j | 0 <= j < |rest|
      ensures rest[j].id != id
    {
      if j >= k {
        assert rest[j] == leads[j + 1];
      }
    }
  }

  /** An update keeps the lead where it was: reading the id back finds the merged
      lead. */
  lemma UpdateThenGet(leads: seq<Lead>, id: int, data: LeadRequest, now: string, fileName: Option<string>)
    requires IndexOf(leads, id) >= 0
    ensures var i := IndexOf(leads, id);
      var after := leads[i := MergeLead(leads[i], data, now, fileName)];
      IndexOf(after, id) == i && after[i].status == data.status
  {
  }

  /** A created lead is the first with its id: it goes to the front of the store. */
  lemma CreateThenGet(leads: seq<Lead>, data: LeadRequest, id: int, now: string, fileName: Option<string>)
    ensures var l := NewLead(data, id, now, fileName);
      IndexOf([l] + leads, id) == 0
  {
  }

  /** Every lead on a status page has that status. */
  lemma ByStatusPageHasStatus(leads: seq<Lead>, status: string, q: LeadQuery, k: int)
    requires status != "" && q.status.None?
    requires 0 <= k < |MockPaging.PageOf(Filtered(leads, WithStatus(status, q)), q.page, q.size).content|
    ensures MockPaging.PageOf(Filtered(leads, WithStatus(status, q)), q.page, q.size).content[k].status == status
  {
    var wq := WithStatus(status, q);
    assert wq.status == Some(status);
    var f := Filtered(leads, wq);
    var c := MockPaging.PageOf(f, q.page, q.size).content;
    MockPaging.ContentFromItems(f, q.page, q.size);
    assert c[k] in f;
    var i :| 0 <= i < |f| && f[i] == c[k];
    assert Selected(f[i], wq);
  }
}
