/** The vendor list page of src/pages/vendors/VendorsList.jsx: who may add, edit and
    delete vendors, the badge of each vendor type, the query the filters send to the
    in-memory vendor store, and deleting a vendor after confirmation. */
module VendorsList {
  import opened Wrappers
  import opened Strings
  import ApiTypes
  import Seqs
  import opened LegacyTypes
  import AuthContext
  import VendorsService

  // ---------------------------------------------------------------- permissions

  const CAN_MANAGE: seq<string> := [LegacyTypes.ADMIN, LegacyTypes.MANAGER]
  const CAN_EDIT: seq<string> := [LegacyTypes.ADMIN, LegacyTypes.MANAGER, LegacyTypes.SALES_REP]

  predicate CanManageVendors(s: AuthContext.AuthState) {
    AuthContext.HasAnyRole(s, AuthContext.Lift(CAN_MANAGE))
  }

  predicate CanEditVendors(s: AuthContext.AuthState) {
    AuthContext.HasAnyRole(s, AuthContext.Lift(CAN_EDIT))
  }

  /** "New Vendor" in the header and "Add Vendor" in the empty list. */
  predicate ShowsNewVendor(s: AuthContext.AuthState) { CanEditVendors(s) }

  /** The Delete item sits inside the menu only editors get. */
  predicate ShowsDelete(s: AuthContext.AuthState) { CanEditVendors(s) && CanManageVendors(s) }

  /** Only the legacy role names open the vendor actions: the legacy admin and manager
      manage, and the legacy sales rep edits too. The platform admin, sales manager and
      sales agent get neither. */
  lemma VendorPermissions(s: AuthContext.AuthState)
    ensures CanManageVendors(s) <==>
      AuthContext.HasRole(s, LegacyTypes.ADMIN) || AuthContext.HasRole(s, LegacyTypes.MANAGER)
    ensures CanEditVendors(s) <==> CanManageVendors(s) || AuthContext.HasRole(s, LegacyTypes.SALES_REP)
    ensures AuthContext.HasRole(s, ApiTypes.PLATFORM_ADMIN) || AuthContext.HasRole(s, ApiTypes.SALES_MANAGER)
            || AuthContext.HasRole(s, ApiTypes.SALES_AGENT) ==>
      !CanEditVendors(s) && !CanManageVendors(s)
  {
    AuthContext.HasAnyRoleIsSomeHasRole(s, CAN_MANAGE);
    AuthContext.HasAnyRoleIsSomeHasRole(s, CAN_EDIT);
    if AuthContext.HasRole(s, LegacyTypes.ADMIN) {
      assert AuthContext.HasRole(s, CAN_MANAGE[0]) && AuthContext.HasRole(s, CAN_EDIT[0]);
    } else if AuthContext.HasRole(s, LegacyTypes.MANAGER) {
      assert AuthContext.HasRole(s, CAN_MANAGE[1]) && AuthContext.HasRole(s, CAN_EDIT[1]);
    } else if AuthContext.HasRole(s, LegacyTypes.SALES_REP) {
      assert AuthContext.HasRole(s, CAN_EDIT[2]);
    }
  }

  /** Deleting is shown exactly to those who manage vendors. */
  lemma ShowsDeleteIff(s: AuthContext.AuthState)
    ensures ShowsDelete(s) <==> CanManageVendors(s)
    ensures ShowsDelete(s) ==> ShowsNewVendor(s)
  {
    VendorPermissions(s);
  }

  // ---------------------------------------------------------------- type badge

  datatype Badge = Badge(caption: string, variant: string)

  /** `getVendorTypeBadge`: a fixed badge per known type, the type itself on a
      secondary badge otherwise. */
  function VendorTypeBadge(vendorType: string): (r: Badge)
    ensures vendorType == LegacyTypes.TIRE_MANUFACTURER ==> r == Badge("Manufacturer", "default")
    ensures vendorType == LegacyTypes.TIRE_DISTRIBUTOR ==> r == Badge("Distributor", "secondary")
    ensures vendorType == LegacyTypes.EQUIPMENT_SUPPLIER ==> r == Badge("Equipment", "outline")
    ensures vendorType == LegacyTypes.SERVICE_PROVIDER ==> r == Badge("Service", "destructive")
    ensures !IsVendorType(vendorType) ==> r == Badge(vendorType, "secondary")
  {
    if vendorType == LegacyTypes.TIRE_MANUFACTURER then Badge("Manufacturer", "default")
    else if vendorType == LegacyTypes.TIRE_DISTRIBUTOR then Badge("Distributor", "secondary")
    else if vendorType == LegacyTypes.EQUIPMENT_SUPPLIER then Badge("Equipment", "outline")
    else if vendorType == LegacyTypes.SERVICE_PROVIDER then Badge("Service", "destructive")
    else Badge(vendorType, "secondary")
  }

  predicate IsVendorType(t: string) {
    t == LegacyTypes.TIRE_MANUFACTURER || t == LegacyTypes.TIRE_DISTRIBUTOR
    || t == LegacyTypes.EQUIPMENT_SUPPLIER || t == LegacyTypes.SERVICE_PROVIDER
  }

  /** The four known types get four different variants; a badge is secondary exactly
      for distributors and unknown types. */
  lemma BadgeVariants(t: string, u: string)
    requires IsVendorType(t) && IsVendorType(u) && t != u
    ensures VendorTypeBadge(t).variant != VendorTypeBadge(u).variant
    ensures VendorTypeBadge(t).variant == "secondary" <==> t == LegacyTypes.TIRE_DISTRIBUTOR
  {
  }

  // ---------------------------------------------------------------- loading

  /** `{ search: searchTerm, type: typeFilter }`: an empty box or "All Types" is falsy,
      so it filters nothing. */
  function ListQuery(searchTerm: string, typeFilter: string): VendorsService.VendorQuery {
    VendorsService.VendorQuery(Some(typeFilter), None, Some(searchTerm), None, None)
  }

  /** With both filters cleared, the page lists every vendor in store order. */
  lemma ClearedFiltersListAll(vendors: seq<Vendor>)
    ensures VendorsService.Filtered(vendors, ListQuery("", "")) == vendors
  {
  }

  /** A vendor is listed exactly when it has the chosen type (if one is chosen) and
      matches the search (if one is typed). */
  lemma ListedIff(vendors: seq<Vendor>, searchTerm: string, typeFilter: string, v: Vendor)
    requires v in vendors
    ensures v in VendorsService.Filtered(vendors, ListQuery(searchTerm, typeFilter)) <==>
      && (typeFilter != "" ==> v.vendorType == typeFilter)
      && (searchTerm != "" ==> VendorsService.MatchesSearch(v, searchTerm))
  {
    var k :| 0 <= k < |vendors| && vendors[k] == v;
  }

  /** The empty-list hint: adjust the filters when one is set, else add a first
      vendor. */
  function EmptyHint(searchTerm: string, typeFilter: string): (r: string)
    ensures r == "Try adjusting your filters to see more results." <==> searchTerm != "" || typeFilter != ""
  {
    if searchTerm != "" || typeFilter != "" then "Try adjusting your filters to see more results."
    else "Get started by adding your first vendor."
  }

  class Page {
    var vendors: seq<Vendor>
    var loading: bool
    var searchTerm: string
    var typeFilter: string

    constructor()
      ensures vendors == [] && loading && searchTerm == "" && typeFilter == ""
    {
      vendors := [];
      loading := true;
      searchTerm := "";
      typeFilter := "";
    }

    /** `loadVendors`: the vendors the store returns for the current filters. */
    method LoadVendors(store: VendorsService.VendorsStore)
      modifies this`vendors, this`loading
      ensures vendors == VendorsService.Filtered(store.vendors, ListQuery(searchTerm, typeFilter))
      ensures !loading
    {
      loading := true;
      var response := store.GetVendors(ListQuery(searchTerm, typeFilter));
      vendors := response.vendors;
      loading := false;
    }

    /** `handleDeleteVendor`: nothing unless confirmed; a confirmed delete of a known
      vendor reloads the list, one of an unknown vendor only logs. */
    method HandleDeleteVendor(store: VendorsService.VendorsStore, id: string, confirmed: bool)
      modifies this`vendors, this`loading, store
      ensures !confirmed || VendorsService.IndexOf(old(store.vendors), id) == -1 ==>
        store.vendors == old(store.vendors) && vendors == old(vendors) && loading == old(loading)
      ensures confirmed && VendorsService.IndexOf(old(store.vendors), id) >= 0 ==>
        store.vendors == Seqs.RemoveAt(old(store.vendors), VendorsService.IndexOf(old(store.vendors), id))
        && vendors == VendorsService.Filtered(store.vendors, ListQuery(searchTerm, typeFilter))
        && !loading
    {
      if confirmed {
        ghost var i := VendorsService.IndexOf(store.vendors, id);
        ghost var removed := if i >= 0 then Seqs.RemoveAt(store.vendors, i) else store.vendors;
        var r := store.DeleteVendor(id);
        assert store.vendors == removed;
        if r.Success? {
          LoadVendors(store);
        }
        assert store.vendors == removed;
      }
    }
  }
}
