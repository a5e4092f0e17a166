/** The older in-memory vendor store of src/services/vendorsService.js. Vendors are
    keyed by string ids and own a list of contacts; the store and each contact list are
    changed in place. Ids and timestamps are passed in. */
module VendorsService {
  import opened Wrappers
  import opened Strings
  import opened LegacyTypes
  import Seqs

  const VENDOR_NOT_FOUND := "Vendor not found"
  const CONTACT_NOT_FOUND := "Contact not found"

  /** The query parameters `getVendors` reads; `isActive` is absent when undefined. */
  datatype VendorQuery = VendorQuery(vendorType: Option<string>, isActive: Option<bool>,
                                     search: Option<string>, page: Option<nat>, limit: Option<nat>)

  /** `{ data: { vendors, total, page, limit } }`. */
  datatype VendorList = VendorList(vendors: seq<Vendor>, total: nat, page: nat, limit: nat)

  predicate Truthy(v: Option<string>) {
    v.Some? && v.value != ""
  }

  /** Name, e-mail or description contains the term, all compared lower-cased. */
  predicate MatchesSearch(v: Vendor, term: string) {
    var t := Lower(term);
    Contains(Lower(v.name), t) || Contains(Lower(v.email), t) || Contains(Lower(v.description), t)
  }

  /** The three filters: the type and the search when truthy, the active flag whenever
      it is given, `false` included. */
  predicate Selected(v: Vendor, q: VendorQuery) {
    && (Truthy(q.vendorType) ==> v.vendorType == q.vendorType.value)
    && (q.isActive.Some? ==> v.isActive == q.isActive.value)
    && (Truthy(q.search) ==> MatchesSearch(v, q.search.value))
  }

  /** The vendors `getVendors` returns: type, then active flag, then search. */
  function Filtered(vendors: seq<Vendor>, q: VendorQuery): (r: seq<Vendor>)
    ensures |r| <= |vendors|
    ensures forall x :: x in r <==> x in vendors && Selected(x, q)
  {
    var a := Seqs.FilterIf(vendors, Truthy(q.vendorType), (v: Vendor) => v.vendorType == q.vendorType.GetOr(""));
    var b := Seqs.FilterIf(a, q.isActive.Some?, (v: Vendor) => v.isActive == q.isActive.GetOr(false));
    var r := Seqs.FilterIf(b, Truthy(q.search), (v: Vendor) => MatchesSearch(v, q.search.GetOr("")));
    r
  }

  /** The vendor `find` and `findIndex` pick: the first one with the id. */
  function IndexOf(vendors: seq<Vendor>, id: string): (r: int)
    ensures -1 <= r < |vendors|
    ensures r == -1 <==> forall i :: 0 <= i < |vendors| ==> vendors[i].id != id
    ensures r >= 0 ==> vendors[r].id == id && forall i :: 0 <= i < r ==> vendors[i].id != id
  {
    Seqs.FindIndex(vendors, (v: Vendor) => v.id == id)
  }

  /** The contact `findIndex` picks within one vendor. */
  function ContactIndex(contacts: seq<Contact>, id: string): (r: int)
    ensures -1 <= r < |contacts|
    ensures r == -1 <==> forall i :: 0 <= i < |contacts| ==> contacts[i].id != id
    ensures r >= 0 ==> contacts[r].id == id && forall i :: 0 <= i < r ==> contacts[i].id != id
  {
    Seqs.FindIndex(contacts, (c: Contact) => c.id == id)
  }

  /** `{ ...vendor, ...vendorData }`: every field the update carries replaces the stored
      one; the contacts, leads and id stay. */
  function ApplyPatch(v: Vendor, p: VendorPatch): (r: Vendor)
    ensures r.id == v.id && r.contacts == v.contacts && r.leads == v.leads
    ensures r.createdAt == v.createdAt && r.updatedAt == v.updatedAt
    ensures r.name == p.name.GetOr(v.name) && r.vendorType == p.vendorType.GetOr(v.vendorType)
    ensures r.email == p.email.GetOr(v.email) && r.phone == p.phone.GetOr(v.phone)
    ensures r.address == p.address.GetOr(v.address) && r.website == p.website.GetOr(v.website)
    ensures r.description == p.description.GetOr(v.description)
    ensures r.isActive == p.isActive.GetOr(v.isActive)
  {
    v.(name := p.name.GetOr(v.name), vendorType := p.vendorType.GetOr(v.vendorType),
       email := p.email.GetOr(v.email), phone := p.phone.GetOr(v.phone),
       address := p.address.GetOr(v.address), website := p.website.GetOr(v.website),
       description := p.description.GetOr(v.description),
       isActive := p.isActive.GetOr(v.isActive))
  }

  /** `{ ...contact, ...contactData }`. */
  function ApplyContactPatch(c: Contact, p: ContactPatch): (r: Contact)
    ensures r.id == c.id && r.vendorId == c.vendorId
    ensures r.firstName == p.firstName.GetOr(c.firstName) && r.lastName == p.lastName.GetOr(c.lastName)
    ensures r.email == p.email.GetOr(c.email) && r.phone == p.phone.GetOr(c.phone)
    ensures r.position == p.position.GetOr(c.position) && r.isPrimary == p.isPrimary.GetOr(c.isPrimary)
  {
    c.(firstName := p.firstName.GetOr(c.firstName), lastName := p.lastName.GetOr(c.lastName),
       email := p.email.GetOr(c.email), phone := p.phone.GetOr(c.phone),
       position := p.position.GetOr(c.position), isPrimary := p.isPrimary.GetOr(c.isPrimary))
  }

  /** A vendor after one of its contact lists changed: the list and the update time. */
  function WithContacts(v: Vendor, contacts: seq<Contact>, now: string): (r: Vendor)
    ensures r.contacts == contacts && r.updatedAt == now
    ensures r == v.(contacts := r.contacts, updatedAt := r.updatedAt)
  {
    v.(contacts := contacts, updatedAt := now)
  }

  class VendorsStore {
    var vendors: seq<Vendor>

    constructor(initial: seq<Vendor>)
      ensures vendors == initial
    {
      vendors := initial;
    }

    /** `getVendors`: every vendor passing the filters, with no slicing. */
    method GetVendors(q: VendorQuery) returns (r: VendorList)
      ensures r.vendors == Filtered(vendors, q) && r.total == |r.vendors|
      ensures r.page == OrDefault(q.page, 1) && r.limit == OrDefault(q.limit, 10)
    {
      var found := Filtered(vendors, q);
      r := VendorList(found, |found|, OrDefault(q.page, 1), OrDefault(q.limit, 10));
    }

    /** `getVendor`. */
    method GetVendor(id: string) returns (r: Result<Vendor, string>)
      ensures r.Success? <==> exists i :: 0 <= i < |vendors| && vendors[i].id == id
      ensures r.Success? ==> r.value == vendors[IndexOf(vendors, id)]
      ensures r.Failure? ==> r.error == VENDOR_NOT_FOUND
    {
      var i := IndexOf(vendors, id);
      if i == -1 {
        return Failure(VENDOR_NOT_FOUND);
      }
      return Success(vendors[i]);
    }

    /** `createVendor`: the form with a new id, no contact, no lead and both timestamps,
      at the front of the store. */
    method CreateVendor(data: Vendor, id: string, now: string) returns (vendor: Vendor)
      modifies this
      ensures vendor == data.(id := id, contacts := [], leads := [], createdAt := now, updatedAt := now)
      ensures vendors == [vendor] + old(vendors)
    {
      vendor := data.(id := id, contacts := [], leads := [], createdAt := now, updatedAt := now);
      vendors := [vendor] + vendors;
    }

    /** `updateVendor`. */
    method UpdateVendor(id: string, p: VendorPatch, now: string) returns (r: Result<Vendor, string>)
      modifies this
      ensures var i := IndexOf(old(vendors), id);
        && (i == -1 ==> r == Failure(VENDOR_NOT_FOUND) && vendors == old(vendors))
        && (i >= 0 ==> r == Success(ApplyPatch(old(vendors)[i], p).(updatedAt := now))
                       && vendors == old(vendors)[i := r.value])
    {
      var i := IndexOf(vendors, id);
      if i == -1 {
        return Failure(VENDOR_NOT_FOUND);
      }
      var updated := ApplyPatch(vendors[i], p).(updatedAt := now);
      vendors := vendors[i := updated];
      return Success(updated);
    }

    /** `deleteVendor`. */
    method DeleteVendor(id: string) returns (r: Result<(), string>)
      modifies this
      ensures var i := IndexOf(old(vendors), id);
        && (i == -1 ==> r == Failure(VENDOR_NOT_FOUND) && vendors == old(vendors))
        && (i >= 0 ==> r == Success(()) && vendors == Seqs.RemoveAt(old(vendors), i))
    {
      var i := IndexOf(vendors, id);
      if i == -1 {
        return Failure(VENDOR_NOT_FOUND);
      }
      vendors := Seqs.RemoveAt(vendors, i);
      return Success(());
    }

    /** `addContact`: the contact, with a new id and its owner's id, goes to the end of
      that vendor's contacts. */
    method AddContact(vendorId: string, data: Contact, id: string, now: string)
      returns (r: Result<Contact, string>)
      modifies this
      ensures var i := IndexOf(old(vendors), vendorId);
        && (i == -1 ==> r == Failure(VENDOR_NOT_FOUND) && vendors == old(vendors))
        && (i >= 0 ==> r == Success(data.(id := id, vendorId := vendorId))
                       && vendors == old(vendors)[i := WithContacts(old(vendors)[i],
                            old(vendors)[i].contacts + [r.value], now)])
    {
      var i := IndexOf(vendors, vendorId);
      if i == -1 {
        return Failure(VENDOR_NOT_FOUND);
      }
      var added := data.(id := id, vendorId := vendorId);
      vendors := vendors[i := WithContacts(vendors[i], vendors[i].contacts + [added], now)];
      return Success(added);
    }

    /** `updateContact`: a missing vendor and a missing contact are told apart. */
    method UpdateContact(vendorId: string, contactId: string, p: ContactPatch, now: string)
      returns (r: Result<Contact, string>)
      modifies this
      ensures var i := IndexOf(old(vendors), vendorId);
        && (i == -1 ==> r == Failure(VENDOR_NOT_FOUND) && vendors == old(vendors))
        && (i >= 0 ==>
              var cs := old(vendors)[i].contacts;
              var k := ContactIndex(cs, contactId);
              && (k == -1 ==> r == Failure(CONTACT_NOT_FOUND) && vendors == old(vendors))
              && (k >= 0 ==> r == Success(ApplyContactPatch(cs[k], p))
                             && vendors == old(vendors)[i := WithContacts(old(vendors)[i], cs[k := r.value], now)]))
    {
      var i := IndexOf(vendors, vendorId);
      if i == -1 {
        return Failure(VENDOR_NOT_FOUND);
      }
      var k := ContactIndex(vendors[i].contacts, contactId);
      if k == -1 {
        return Failure(CONTACT_NOT_FOUND);
      }
      var updated := ApplyContactPatch(vendors[i].contacts[k], p);
      vendors := vendors[i := WithContacts(vendors[i], vendors[i].contacts[k := updated], now)];
      return Success(updated);
    }

    /** `deleteContact`: `splice(contactIndex, 1)` in that vendor's contacts. */
    method DeleteContact(vendorId: string, contactId: string, now: string)
      returns (r: Result<(), string>)
      modifies this
      ensures var i := IndexOf(old(vendors), vendorId);
        && (i == -1 ==> r == Failure(VENDOR_NOT_FOUND) && vendors == old(vendors))
        && (i >= 0 ==>
              var cs := old(vendors)[i].contacts;
              var k := ContactIndex(cs, contactId);
              && (k == -1 ==> r == Failure(CONTACT_NOT_FOUND) && vendors == old(vendors))
              && (k >= 0 ==> r == Success(())
                             && vendors == old(vendors)[i := WithContacts(old(vendors)[i], Seqs.RemoveAt(cs, k), now)]))
    {
      var i := IndexOf(vendors, vendorId);
      if i == -1 {
        return Failure(VENDOR_NOT_FOUND);
      }
      var k := ContactIndex(vendors[i].contacts, contactId);
      if k == -1 {
        return Failure(CONTACT_NOT_FOUND);
      }
      vendors := vendors[i := WithContacts(vendors[i], Seqs.RemoveAt(vendors[i].contacts, k), now)];
      return Success(());
    }
  }

  /** After `addContact` the new contact is found by its id under its vendor, unless an
      older contact of that vendor already had the id. */
  lemma AddedContactFound(cs: seq<Contact>, c: Contact)
    requires ContactIndex(cs, c.id) == -1
    ensures ContactIndex(cs + [c], c.id) == |cs|
  {
    var all := cs + [c];
    assert all[|cs|].id == c.id;
    assert forall i :: 0 <= i < |cs| ==> all[i] == cs[i];
  }

  /** Deleting a contact whose id is unique under its vendor leaves no contact with
      that id there. */
  lemma DeleteContactRemovesId(cs: seq<Contact>, id: string)
    requires forall i, j :: 0 <= i < j < |cs| && cs[i].id == id ==> cs[j].id != id
    requires ContactIndex(cs, id) >= 0
    ensures ContactIndex(Seqs.RemoveAt(cs, ContactIndex(cs, id)), id) == -1
  {
    var k := ContactIndex(cs, id);
    var rest := Seqs.RemoveAt(cs, k);
    forall j | 0 <= j < |rest|
      ensures rest[j].id != id
    {
      if j >= k {
        assert rest[j] == cs[j + 1];
      }
    }
  }

  /** An inactive-vendor query returns only vendors whose flag is off: the `false`
      filter is not skipped. */
  lemma InactiveFilterApplies(vendors: seq<Vendor>, k: int)
    requires 0 <= k < |Filtered(vendors, VendorQuery(None, Some(false), None, None, None))|
    ensures !Filtered(vendors, VendorQuery(None, Some(false), None, None, None))[k].isActive
  {
  }
}
