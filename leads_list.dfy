/** The lead list page of src/pages/leads/LeadsList.jsx: who may create, edit, delete
    and validate, the status counters, the client-side search and source filter over
    the loaded page, the server query it sends, and the page navigation. */
module LeadsList {
  import opened Wrappers
  import opened Strings
  import opened ApiTypes
  import Seqs
  import MockPaging
  import LegacyTypes
  import AuthContext
  import LeadsApiService

  // ---------------------------------------------------------------- permissions

  /** The role lists as written. The create, edit and delete lists have an empty slot
      between `'SALES_AGENT'` and `'admin'`; `includes` reads it as `undefined`. */
  const CAN_CREATE_AS_WRITTEN: seq<Option<string>> :=
    [Some(PLATFORM_ADMIN), Some(SALES_MANAGER), Some(SALES_AGENT), None,
     Some(LegacyTypes.ADMIN), Some(LegacyTypes.MANAGER), Some(LegacyTypes.SALES_REP)]
  const CAN_EDIT_AS_WRITTEN: seq<Option<string>> := CAN_CREATE_AS_WRITTEN
  const CAN_DELETE_AS_WRITTEN: seq<Option<string>> :=
    [Some(PLATFORM_ADMIN), Some(SALES_MANAGER), Some(SALES_AGENT), None,
     Some(LegacyTypes.ADMIN), Some(LegacyTypes.MANAGER)]

  /** The lists without the empty slot. */
  const CAN_CREATE: seq<string> :=
    [PLATFORM_ADMIN, SALES_MANAGER, SALES_AGENT, LegacyTypes.ADMIN, LegacyTypes.MANAGER, LegacyTypes.SALES_REP]
  const CAN_EDIT: seq<string> := CAN_CREATE
  const CAN_DELETE: seq<string> :=
    [PLATFORM_ADMIN, SALES_MANAGER, SALES_AGENT, LegacyTypes.ADMIN, LegacyTypes.MANAGER]
  const CAN_VALIDATE: seq<string> := [PLATFORM_ADMIN, SALES_MANAGER, LegacyTypes.ADMIN, LegacyTypes.MANAGER]

  /** A signed-in user whose profile carries no role. */
  function RolelessSession(u: AuthContext.User): AuthContext.AuthState {
    AuthContext.AuthState(true, Some(u.(role := AuthContext.NoRole, roleName := None)), None, false, None)
  }

  /** As written, a signed-in user without a role may create, edit and delete leads,
      but not validate them. */
  lemma RoleHoleAdmitsRoleless(u: AuthContext.User)
    ensures var s := RolelessSession(u);
      && AuthContext.HasAnyRole(s, CAN_CREATE_AS_WRITTEN)
      && AuthContext.HasAnyRole(s, CAN_EDIT_AS_WRITTEN)
      && AuthContext.HasAnyRole(s, CAN_DELETE_AS_WRITTEN)
      && !AuthContext.HasAnyRole(s, AuthContext.Lift(CAN_VALIDATE))
  {
    var s := RolelessSession(u);
    assert CAN_CREATE_AS_WRITTEN[3] == AuthContext.CurrentRoleName(s);
    assert CAN_DELETE_AS_WRITTEN[3] == AuthContext.CurrentRoleName(s);
  }

  /** Without the slot, a user without a role name gets none of the permissions, and
      every user with a role name gets the same answer as before. */
  lemma RoleListsWithoutHole(s: AuthContext.AuthState)
    ensures AuthContext.CurrentRoleName(s).None? ==>
      !AuthContext.HasAnyRole(s, AuthContext.Lift(CAN_CREATE))
      && !AuthContext.HasAnyRole(s, AuthContext.Lift(CAN_DELETE))
    ensures AuthContext.CurrentRoleName(s).Some? ==>
      (AuthContext.HasAnyRole(s, AuthContext.Lift(CAN_CREATE)) <==> AuthContext.HasAnyRole(s, CAN_CREATE_AS_WRITTEN))
      && (AuthContext.HasAnyRole(s, AuthContext.Lift(CAN_DELETE)) <==> AuthContext.HasAnyRole(s, CAN_DELETE_AS_WRITTEN))
  {
    var lc, ld := AuthContext.Lift(CAN_CREATE), AuthContext.Lift(CAN_DELETE);
    assert lc == [Some(PLATFORM_ADMIN), Some(SALES_MANAGER), Some(SALES_AGENT),
                  Some(LegacyTypes.ADMIN), Some(LegacyTypes.MANAGER), Some(LegacyTypes.SALES_REP)];
    assert ld == [Some(PLATFORM_ADMIN), Some(SALES_MANAGER), Some(SALES_AGENT),
                  Some(LegacyTypes.ADMIN), Some(LegacyTypes.MANAGER)];
    assert CAN_CREATE_AS_WRITTEN == lc[..3] + [None] + lc[3..];
    assert CAN_DELETE_AS_WRITTEN == ld[..3] + [None] + ld[3..];
  }

  /** Deleting is open to the sales agent but not to the legacy sales rep; validating is
      open to exactly the two admin and the two manager roles. */
  lemma PermissionMembership(s: AuthContext.AuthState)
    ensures AuthContext.HasRole(s, SALES_AGENT) ==> AuthContext.HasAnyRole(s, AuthContext.Lift(CAN_DELETE))
    ensures AuthContext.HasRole(s, LegacyTypes.SALES_REP) ==> !AuthContext.HasAnyRole(s, AuthContext.Lift(CAN_DELETE))
    ensures AuthContext.HasAnyRole(s, AuthContext.Lift(CAN_VALIDATE)) <==>
      AuthContext.HasRole(s, PLATFORM_ADMIN) || AuthContext.HasRole(s, SALES_MANAGER)
      || AuthContext.HasRole(s, LegacyTypes.ADMIN) || AuthContext.HasRole(s, LegacyTypes.MANAGER)
  {
    AuthContext.HasAnyRoleIsSomeHasRole(s, CAN_DELETE);
    AuthContext.HasAnyRoleIsSomeHasRole(s, CAN_VALIDATE);
    if AuthContext.HasRole(s, SALES_AGENT) {
      assert AuthContext.HasRole(s, CAN_DELETE[2]);
    }
    if AuthContext.HasRole(s, PLATFORM_ADMIN) {
      assert AuthContext.HasRole(s, CAN_VALIDATE[0]);
    } else if AuthContext.HasRole(s, SALES_MANAGER) {
      assert AuthContext.HasRole(s, CAN_VALIDATE[1]);
    } else if AuthContext.HasRole(s, LegacyTypes.ADMIN) {
      assert AuthContext.HasRole(s, CAN_VALIDATE[2]);
    } else if AuthContext.HasRole(s, LegacyTypes.MANAGER) {
      assert AuthContext.HasRole(s, CAN_VALIDATE[3]);
    }
  }

  // ---------------------------------------------------------------- counters

  datatype Stats = Stats(total: int, pending: nat, approved: nat, contacted: nat, denied: nat)

  /** How many of `leads` have the status. */
  function Count(leads: seq<Lead>, status: string): (r: nat)
    ensures r <= |leads|
  {
    if leads == [] then 0
    else Count(leads[..|leads| - 1], status) + (if leads[|leads| - 1].status == status then 1 else 0)
  }

  /** The four counters over a list; the total is the server's count, not the list's. */
  function StatusStats(leads: seq<Lead>, totalElements: int): Stats {
    Stats(totalElements, Count(leads, PENDING), Count(leads, APPROVED), Count(leads, CONTACTED), Count(leads, DENIED))
  }

  /** The counters never exceed the loaded page: onboarded and done leads are counted
      nowhere. */
  lemma {:induction false} StatsWithinPage(leads: seq<Lead>, totalElements: int)
    ensures var st := StatusStats(leads, totalElements);
      st.pending + st.approved + st.contacted + st.denied
        == |leads| - Count(leads, ONBOARDED) - Count(leads, DONE) - CountOther(leads)
  {
    if leads != [] {
      StatsWithinPage(leads[..|leads| - 1], totalElements);
    }
  }

  /** The leads whose status is none of the six. */
  function CountOther(leads: seq<Lead>): nat {
    if leads == [] then 0
    else CountOther(leads[..|leads| - 1]) + (if IsLeadStatus(leads[|leads| - 1].status) then 0 else 1)
  }

  // ---------------------------------------------------------------- client filter

  /** A text field read with `&&`: absent and empty both count as false. */
  predicate SearchMatches(l: Lead, term: string) {
    || term == ""
    || Contains(Lower(l.businessName), Lower(term))
    || Contains(l.phoneNumber, term)
    || (l.notes != "" && Contains(Lower(l.notes), Lower(term)))
  }

  predicate Kept(l: Lead, term: string, sourceFilter: string) {
    SearchMatches(l, term) && (sourceFilter == "all" || l.source == sourceFilter)
  }

  /** `filteredLeads`: the loaded leads passing both tests, in their order. */
  function FilteredLeads(leads: seq<Lead>, term: string, sourceFilter: string): (r: seq<Lead>)
    ensures |r| <= |leads|
    ensures forall i :: 0 <= i < |r| ==> r[i] in leads && Kept(r[i], term, sourceFilter)
    ensures forall i :: 0 <= i < |leads| && Kept(leads[i], term, sourceFilter) ==> leads[i] in r
  {
    Seqs.Filter(leads, (l: Lead) => Kept(l, term, sourceFilter))
  }

  /** With no search and every source, the page is shown whole. */
  lemma FilteredLeadsAll(leads: seq<Lead>)
    ensures FilteredLeads(leads, "", "all") == leads
  {
    Seqs.FilterAll(leads, (l: Lead) => Kept(l, "", "all"));
  }

  // ---------------------------------------------------------------- navigation

  /** The "Showing a to b" range of a page. */
  function DisplayedRange(page: nat, size: nat, totalElements: nat): (int, int) {
    (page * size + 1, MockPaging.Min((page + 1) * size, totalElements))
  }

  /** For a page that starts inside the list the range covers exactly the leads the
      store put on it. */
  lemma DisplayedRangeMatchesPage(items: seq<Lead>, page: nat, size: nat)
    requires size >= 1 && page * size < |items|
    ensures var (a, b) := DisplayedRange(page, size, |items|);
      b - a + 1 == |MockPaging.PageOf(items, Some(page), Some(size)).content|
  {
    MockPaging.PageContent(items, Some(page), Some(size));
    assert (page + 1) * size == page * size + size;
  }

  /** `value.split('-')` of a sort choice, as the pair it is destructured into. */
  function SplitSort(value: string): (string, Option<string>) {
    var parts := Split(value, '-');
    (parts[0], if |parts| > 1 then Some(parts[1]) else None)
  }

  /** A sort choice `field-direction` splits back into its field and direction. */
  lemma SortValueRoundTrip(field: string, direction: string)
    requires '-' !in field && '-' !in direction
    ensures SplitSort(field + "-" + direction) == (field, Some(direction))
  {
    SplitTwo(field, direction, '-');
    assert field + "-" + direction == field + ['-'] + direction;
  }

  // ---------------------------------------------------------------- page

  const PAGE_SIZE: nat := 10

  /** The query `loadLeads` sends; the sort fields are ignored by the in-memory store. */
  function ListQuery(currentPage: nat): LeadsApiService.LeadQuery {
    LeadsApiService.LeadQuery(None, None, Some(currentPage), Some(PAGE_SIZE))
  }

  class Page {
    var leads: seq<Lead>
    var statusFilter: string
    var currentPage: nat
    var totalPages: nat
    var totalElements: nat

    constructor()
      ensures leads == [] && statusFilter == "all" && currentPage == 0 && totalPages == 0
    {
      leads := [];
      statusFilter := "all";
      currentPage := 0;
      totalPages := 0;
      totalElements := 0;
    }

    /** `loadLeads`: every status through `getLeads`, one status through
      `getLeadsByStatus`. */
    method LoadLeads(store: LeadsApiService.LeadsApiStore)
      modifies this`leads, this`totalPages, this`totalElements
      ensures var q := if statusFilter == "all" then ListQuery(currentPage)
                       else LeadsApiService.WithStatus(statusFilter, ListQuery(currentPage));
        var page := MockPaging.PageOf(LeadsApiService.Filtered(store.leads, q), Some(currentPage), Some(PAGE_SIZE));
        leads == page.content && totalPages == page.totalPages && totalElements == page.totalElements
    {
      var page;
      if statusFilter != "all" {
        page := store.GetLeadsByStatus(statusFilter, ListQuery(currentPage));
      } else {
        page := store.GetLeads(ListQuery(currentPage));
      }
      leads := page.content;
      totalPages := page.totalPages;
      totalElements := page.totalElements;
    }

    /** `getStatusStats`: one pass over the loaded page with four counters. */
    method GetStatusStats() returns (stats: Stats)
      ensures stats == StatusStats(leads, totalElements)
    {
      stats := Stats(totalElements, 0, 0, 0, 0);
      var i := 0;
      while i < |leads|
        invariant 0 <= i <= |leads|
        invariant stats == StatusStats(leads[..i], totalElements)
      {
        assert leads[..i + 1][..i] == leads[..i];
        var st := leads[i].status;
        if st == PENDING {
          stats := stats.(pending := stats.pending + 1);
        } else if st == APPROVED {
          stats := stats.(approved := stats.approved + 1);
        } else if st == CONTACTED {
          stats := stats.(contacted := stats.contacted + 1);
        } else if st == DENIED {
          stats := stats.(denied := stats.denied + 1);
        }
        i := i + 1;
      }
      assert leads[..i] == leads;
    }

    /** Previous: one page back, never below 0. */
    method PreviousPage()
      modifies this`currentPage
      ensures currentPage == if old(currentPage) == 0 then 0 else old(currentPage) - 1
    {
      if currentPage > 0 {
        currentPage := currentPage - 1;
      }
    }

    /** Next, shown only when there is more than one page: one page on, never past the
      last. */
    method NextPage()
      requires totalPages > 1
      modifies this`currentPage
      ensures currentPage == MockPaging.Min(totalPages - 1, old(currentPage) + 1)
      ensures currentPage <= totalPages - 1
    {
      currentPage := MockPaging.Min(totalPages - 1, currentPage + 1);
    }
  }
}
