/** The in-memory vendor store of src/services/vendorsApiService.js
    (`mockVendorsService`). The store is an array the operations change in place; the
    creation time (`Date.now()`) is passed in. */
module VendorsApiService {
  import opened Wrappers
  import opened Strings
  import opened ApiTypes
  import Seqs
  import MockPaging
  import ApiClient
  import LeadsApiService

  const VENDOR_NOT_FOUND := "Vendor not found"

  /** The query parameters `getVendors` reads. */
  datatype VendorQuery = VendorQuery(status: Option<string>, search: Option<string>,
                                     page: Option<nat>, size: Option<nat>)

  predicate Truthy(v: Option<string>) {
    v.Some? && v.value != ""
  }

  /** The search test: legal name, business name, e-mail or phone number contains the
      term, all compared lower-cased. */
  predicate MatchesSearch(v: Vendor, term: string) {
    var t := Lower(term);
    || Contains(Lower(v.legalName), t) || Contains(Lower(v.businessName), t)
    || Contains(Lower(v.email), t) || Contains(Lower(v.phoneNumber), t)
  }

  /** The test both filters apply together. */
  predicate Selected(v: Vendor, q: VendorQuery) {
    && (Truthy(q.status) ==> v.status == q.status.value)
    && (Truthy(q.search) ==> MatchesSearch(v, q.search.value))
  }

  function FilterStatus(vendors: seq<Vendor>, status: Option<string>): (r: seq<Vendor>)
    ensures !Truthy(status) ==> r == vendors
    ensures Truthy(status) ==> forall i :: 0 <= i < |r| ==> r[i] in vendors && r[i].status == status.value
    ensures Truthy(status) ==> forall i :: 0 <= i < |vendors| && vendors[i].status == status.value ==> vendors[i] in r
  {
    if Truthy(status) then Seqs.Filter(vendors, (v: Vendor) => v.status == status.value) else vendors
  }

  function FilterSearch(vendors: seq<Vendor>, search: Option<string>): (r: seq<Vendor>)
    ensures !Truthy(search) ==> r == vendors
    ensures Truthy(search) ==> forall i :: 0 <= i < |r| ==> r[i] in vendors && MatchesSearch(r[i], search.value)
    ensures Truthy(search) ==> forall i :: 0 <= i < |vendors| && MatchesSearch(vendors[i], search.value) ==> vendors[i] in r
  {
    if Truthy(search) then Seqs.Filter(vendors, (v: Vendor) => MatchesSearch(v, search.value)) else vendors
  }

  /** The vendors `getVendors` pages over: the status filter, then the search filter. */
  function Filtered(vendors: seq<Vendor>, q: VendorQuery): (r: seq<Vendor>)
    ensures |r| <= |vendors|
    ensures forall x :: x in r <==> x in vendors && Selected(x, q)
  {
    var s := FilterStatus(vendors, q.status);
    var r := FilterSearch(s, q.search);
    assert forall x :: x in r ==> x in s;
    r
  }

  /** `{ status, ...params }`: a status among the parameters wins. */
  function WithStatus(status: string, q: VendorQuery): VendorQuery {
    if q.status.Some? then q else q.(status := Some(status))
  }

  /** `{ search: query, ...params }`: a search among the parameters wins. */
  function WithSearch(query: string, q: VendorQuery): VendorQuery {
    if q.search.Some? then q else q.(search := Some(query))
  }

  /** The vendor `find` and `findIndex` pick: the first one with the id. */
  function IndexOf(vendors: seq<Vendor>, id: int): (r: int)
    ensures -1 <= r < |vendors|
    ensures r == -1 <==> forall i :: 0 <= i < |vendors| ==> vendors[i].id != id
    ensures r >= 0 ==> vendors[r].id == id && forall i :: 0 <= i < r ==> vendors[i].id != id
  {
    Seqs.FindIndex(vendors, (v: Vendor) => v.id == id)
  }

  /** `VND-` and the creation time in decimal. */
  function UniqueId(now: nat): (r: string)
    ensures |r| > 4 && r[..4] == "VND-" && AllDigits(r[4..])
  {
    "VND-" + NatToString(now)
  }

  /** Vendors created at different times get different unique ids. */
  lemma UniqueIdInjective(now: nat, other: nat)
    requires UniqueId(now) == UniqueId(other)
    ensures now == other
  {
    assert UniqueId(now)[4..] == NatToString(now);
    assert UniqueId(other)[4..] == NatToString(other);
    NatToStringInjective(now, other);
  }

  /** The vendor `createVendor` stores: the form, with the creation time as both the id
      and the digits of the unique id. */
  function NewVendor(data: VendorRequest, now: nat): (r: Vendor)
    ensures r.id == now && r.vendorUniqueId == UniqueId(now)
    ensures r.leadId == data.leadId && r.legalName == data.legalName
    ensures r.businessName == data.businessName && r.email == data.email
    ensures r.phoneNumber == data.phoneNumber && r.status == data.status
    ensures r.streetNumber == data.streetNumber && r.streetName == data.streetName
    ensures r.aptUnitBldg == data.aptUnitBldg && r.postalCode == data.postalCode
  {
    Vendor(now, data.leadId, data.legalName, data.businessName, data.email, data.phoneNumber,
           UniqueId(now), data.status, data.streetNumber, data.streetName, data.aptUnitBldg,
           data.postalCode)
  }

  /** `{ ...vendor, ...vendorData }`: every field the update carries replaces the stored
      one. */
  function ApplyPatch(v: Vendor, p: VendorPatch): (r: Vendor)
    ensures r.id == v.id && r.vendorUniqueId == v.vendorUniqueId
    ensures r.legalName == p.legalName.GetOr(v.legalName)
    ensures r.businessName == p.businessName.GetOr(v.businessName)
    ensures r.email == p.email.GetOr(v.email) && r.phoneNumber == p.phoneNumber.GetOr(v.phoneNumber)
    ensures r.status == p.status.GetOr(v.status) && r.leadId == p.leadId.GetOr(v.leadId)
    ensures r.streetNumber == p.streetNumber.GetOr(v.streetNumber)
    ensures r.streetName == p.streetName.GetOr(v.streetName)
    ensures r.aptUnitBldg == p.aptUnitBldg.GetOr(v.aptUnitBldg)
    ensures r.postalCode == p.postalCode.GetOr(v.postalCode)
  {
    v.(leadId := p.leadId.GetOr(v.leadId), legalName := p.legalName.GetOr(v.legalName),
       businessName := p.businessName.GetOr(v.businessName), email := p.email.GetOr(v.email),
       phoneNumber := p.phoneNumber.GetOr(v.phoneNumber), status := p.status.GetOr(v.status),
       streetNumber := p.streetNumber.GetOr(v.streetNumber),
       streetName := p.streetName.GetOr(v.streetName),
       aptUnitBldg := p.aptUnitBldg.GetOr(v.aptUnitBldg),
       postalCode := p.postalCode.GetOr(v.postalCode))
  }

  /** An update carrying no field changes nothing. */
  function EmptyPatch(): VendorPatch {
    VendorPatch(None, None, None, None, None, None, None, None, None, None)
  }

  /** Applying the same update twice is applying it once, and the empty update is the
      identity. */
  lemma ApplyPatchIdempotent(v: Vendor, p: VendorPatch)
    ensures ApplyPatch(ApplyPatch(v, p), p) == ApplyPatch(v, p)
    ensures ApplyPatch(v, EmptyPatch()) == v
  {
  }

  /** A later update overrides an earlier one field by field. */
  lemma ApplyPatchCompose(v: Vendor, p: VendorPatch, q: VendorPatch)
    ensures ApplyPatch(ApplyPatch(v, p), q) == ApplyPatch(v, VendorPatch(
      if q.leadId.Some? then q.leadId else p.leadId,
      if q.legalName.Some? then q.legalName else p.legalName,
      if q.businessName.Some? then q.businessName else p.businessName,
      if q.email.Some? then q.email else p.email,
      if q.phoneNumber.Some? then q.phoneNumber else p.phoneNumber,
      if q.status.Some? then q.status else p.status,
      if q.streetNumber.Some? then q.streetNumber else p.streetNumber,
      if q.streetName.Some? then q.streetName else p.streetName,
      if q.aptUnitBldg.Some? then q.aptUnitBldg else p.aptUnitBldg,
      if q.postalCode.Some? then q.postalCode else p.postalCode))
  {
  }

  class VendorsApiStore {
    var vendors: seq<Vendor>

    constructor(initial: seq<Vendor>)
      ensures vendors == initial
    {
      vendors := initial;
    }

    /** `getVendors`: the requested page of the filtered vendors. */
    method GetVendors(q: VendorQuery) returns (page: Page<Vendor>)
      ensures page == MockPaging.PageOf(Filtered(vendors, q), q.page, q.size)
    {
      page := MockPaging.PageOf(Filtered(vendors, q), q.page, q.size);
    }

    /** `getVendorsByStatus`. */
    method GetVendorsByStatus(status: string, q: VendorQuery) returns (page: Page<Vendor>)
      ensures page == MockPaging.PageOf(Filtered(vendors, WithStatus(status, q)), q.page, q.size)
    {
      page := GetVendors(WithStatus(status, q));
    }

    /** `searchVendors`. */
    method SearchVendors(query: string, q: VendorQuery) returns (page: Page<Vendor>)
      ensures page == MockPaging.PageOf(Filtered(vendors, WithSearch(query, q)), q.page, q.size)
    {
      page := GetVendors(WithSearch(query, q));
    }

    /** `getVendor`: the first vendor with the id, or "Vendor not found". */
    method GetVendor(id: int) returns (r: Result<Vendor, string>)
      ensures r.Success? <==> exists i :: 0 <= i < |vendors| && vendors[i].id == id
      ensures r.Success? ==> r.value == vendors[IndexOf(vendors, id)]
      ensures r.Failure? ==> r.error == VENDOR_NOT_FOUND
    {
      var i := IndexOf(vendors, id);
      if i == -1 {
        return Failure(VENDOR_NOT_FOUND);
      }
      return Success(vendors[i]);
    }

    /** `createVendor`: the new vendor goes to the front. */
    method CreateVendor(data: VendorRequest, now: nat) returns (vendor: Vendor)
      modifies this
      ensures vendor == NewVendor(data, now)
      ensures vendors == [vendor] + old(vendors)
    {
      vendor := NewVendor(data, now);
      vendors := [vendor] + vendors;
    }

    /** `updateVendor` (and `updateVendorPartial`): the update merged into the vendor at
      its place; every other vendor unchanged. */
    method UpdateVendor(id: int, p: VendorPatch) returns (r: Result<Vendor, string>)
      modifies this
      ensures var i := IndexOf(old(vendors), id);
        && (i == -1 ==> r == Failure(VENDOR_NOT_FOUND) && vendors == old(vendors))
        && (i >= 0 ==> r == Success(ApplyPatch(old(vendors)[i], p))
                       && vendors == old(vendors)[i := r.value])
    {
      var i := IndexOf(vendors, id);
      if i == -1 {
        return Failure(VENDOR_NOT_FOUND);
      }
      var updated := ApplyPatch(vendors[i], p);
      vendors := vendors[i := updated];
      return Success(updated);
    }

    /** `deleteVendor`: `splice(index, 1)`. */
    method DeleteVendor(id: int) returns (r: Result<(), string>)
      modifies this
      ensures var i := IndexOf(old(vendors), id);
        && (i == -1 ==> r == Failure(VENDOR_NOT_FOUND) && vendors == old(vendors))
        && (i >= 0 ==> r == Success(()) && vendors == Seqs.RemoveAt(old(vendors), i))
    {
      var i := IndexOf(vendors, id);
      if i == -1 {
        return Failure(VENDOR_NOT_FOUND);
      }
      vendors := Seqs.RemoveAt(vendors, i);
      return Success(());
    }
  }

  /** Every vendor a search returns matches the search term. */
  lemma SearchPageMatches(vendors: seq<Vendor>, query: string, q: VendorQuery, k: int)
    requires query != "" && q.search.None?
    requires 0 <= k < |MockPaging.PageOf(Filtered(vendors, WithSearch(query, q)), q.page, q.size).content|
    ensures MatchesSearch(MockPaging.PageOf(Filtered(vendors, WithSearch(query, q)), q.page, q.size).content[k], query)
  {
    var f := Filtered(vendors, WithSearch(query, q));
    MockPaging.ContentFromItems(f, q.page, q.size);
  }

  // ---------------------------------------------------------------- mock switch

  /** The vendors service picks its in-memory implementation when the flag is truthy,
      as written. */
  predicate VendorsUseMockAsWritten(flag: string) {
    flag != ""
  }

  /** The vendors service picks its in-memory implementation exactly when the leads
      service does: when the flag is `'true'`. */
  predicate VendorsUseMock(flag: string) {
    flag == "true"
  }

  /** As written, setting the flag to `'false'` sends leads to the server and keeps
      vendors in memory. */
  lemma MockSwitchDisagrees()
    ensures !LeadsApiService.LeadsUseMock("false") && VendorsUseMockAsWritten("false")
  {
  }

  /** With the comparison both services make the same choice for every flag, and with
      the shipped flag both run in memory. */
  lemma MockSwitchAgrees(flag: string)
    ensures VendorsUseMock(flag) <==> LeadsApiService.LeadsUseMock(flag)
    ensures VendorsUseMock(ApiClient.USE_MOCK_DATA) && VendorsUseMockAsWritten(ApiClient.USE_MOCK_DATA)
  {
  }
}
