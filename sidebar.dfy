/** The navigation sidebar of src/components/layout/Sidebar.jsx: the menu entries a
    role sees, which entry is highlighted for the current path, and the signed-in
    user's initials and role caption. */
module Sidebar {
  import opened Wrappers
  import opened Strings
  import opened ApiTypes
  import Seqs
  import LegacyTypes
  import AuthContext

  datatype NavItem = NavItem(name: string, href: string, roles: seq<string>)

  const DASHBOARD_HREF := "/dashboard"

  /** The menu, in its declared order. */
  const NAVIGATION: seq<NavItem> := [
    NavItem("Dashboard", DASHBOARD_HREF,
            [PLATFORM_ADMIN, SALES_MANAGER, SALES_AGENT, LegacyTypes.ADMIN, LegacyTypes.MANAGER,
             LegacyTypes.SALES_REP, LegacyTypes.MECHANIC]),
    NavItem("Leads", "/leads",
            [PLATFORM_ADMIN, SALES_MANAGER, SALES_AGENT, LegacyTypes.ADMIN, LegacyTypes.MANAGER, LegacyTypes.SALES_REP]),
    NavItem("Vendors", "/vendors",
            [PLATFORM_ADMIN, SALES_MANAGER, SALES_AGENT, LegacyTypes.ADMIN, LegacyTypes.MANAGER, LegacyTypes.SALES_REP]),
    NavItem("Tire Inventory", "/inventory",
            [PLATFORM_ADMIN, SALES_MANAGER, LegacyTypes.ADMIN, LegacyTypes.MANAGER, LegacyTypes.MECHANIC]),
    NavItem("Reports", "/reports", [PLATFORM_ADMIN, LegacyTypes.ADMIN, LegacyTypes.MANAGER]),
    NavItem("Settings", "/settings", [PLATFORM_ADMIN, LegacyTypes.ADMIN]),
    NavItem("Approve Leads", "/leads/approval", [PLATFORM_ADMIN, LegacyTypes.ADMIN, LegacyTypes.MANAGER])
  ]

  const REPORTS := NAVIGATION[4]
  const SETTINGS := NAVIGATION[5]
  const APPROVE_LEADS := NAVIGATION[6]

  predicate Visible(s: AuthContext.AuthState, item: NavItem) {
    AuthContext.HasAnyRole(s, AuthContext.Lift(item.roles))
  }

  /** `filteredNavigation`: the entries whose roles include the user's role name, in
      menu order. */
  function VisibleNavigation(s: AuthContext.AuthState): (r: seq<NavItem>)
    ensures forall i :: 0 <= i < |r| ==> r[i] in NAVIGATION && Visible(s, r[i])
    ensures forall i :: 0 <= i < |NAVIGATION| && Visible(s, NAVIGATION[i]) ==> NAVIGATION[i] in r
  {
    Seqs.Filter(NAVIGATION, (item: NavItem) => Visible(s, item))
  }

  /** An entry is visible exactly when the user holds one of its roles. */
  lemma VisibleIffRole(s: AuthContext.AuthState, item: NavItem)
    requires item in NAVIGATION
    ensures item in VisibleNavigation(s) <==> exists i :: 0 <= i < |item.roles| && AuthContext.HasRole(s, item.roles[i])
  {
    AuthContext.HasAnyRoleIsSomeHasRole(s, item.roles);
  }

  /** Settings is for the platform admin and the legacy admin only. */
  lemma SettingsVisibleIff(s: AuthContext.AuthState)
    ensures SETTINGS in VisibleNavigation(s) <==>
      AuthContext.HasRole(s, PLATFORM_ADMIN) || AuthContext.HasRole(s, LegacyTypes.ADMIN)
  {
    VisibleIffRole(s, SETTINGS);
    if AuthContext.HasRole(s, PLATFORM_ADMIN) {
      assert AuthContext.HasRole(s, SETTINGS.roles[0]);
    } else if AuthContext.HasRole(s, LegacyTypes.ADMIN) {
      assert AuthContext.HasRole(s, SETTINGS.roles[1]);
    }
  }

  /** Reports and Approve Leads are for the two admins and the legacy manager; the sales
      manager sees neither. */
  lemma ReportsAndApprovalVisibleIff(s: AuthContext.AuthState)
    ensures REPORTS in VisibleNavigation(s) <==>
      AuthContext.HasRole(s, PLATFORM_ADMIN) || AuthContext.HasRole(s, LegacyTypes.ADMIN)
      || AuthContext.HasRole(s, LegacyTypes.MANAGER)
    ensures APPROVE_LEADS in VisibleNavigation(s) <==> REPORTS in VisibleNavigation(s)
    ensures AuthContext.HasRole(s, SALES_MANAGER) ==> APPROVE_LEADS !in VisibleNavigation(s)
  {
    VisibleIffRole(s, REPORTS);
    VisibleIffRole(s, APPROVE_LEADS);
    if AuthContext.HasRole(s, PLATFORM_ADMIN) {
      assert AuthContext.HasRole(s, REPORTS.roles[0]);
      assert AuthContext.HasRole(s, APPROVE_LEADS.roles[0]);
    } else if AuthContext.HasRole(s, LegacyTypes.ADMIN) {
      assert AuthContext.HasRole(s, REPORTS.roles[1]);
      assert AuthContext.HasRole(s, APPROVE_LEADS.roles[1]);
    } else if AuthContext.HasRole(s, LegacyTypes.MANAGER) {
      assert AuthContext.HasRole(s, REPORTS.roles[2]);
      assert AuthContext.HasRole(s, APPROVE_LEADS.roles[2]);
    }
  }

  /** The platform admin sees the whole menu, in order. */
  lemma PlatformAdminSeesAll(s: AuthContext.AuthState)
    requires AuthContext.HasRole(s, PLATFORM_ADMIN)
    ensures VisibleNavigation(s) == NAVIGATION
  {
    forall i | 0 <= i < |NAVIGATION|
      ensures Visible(s, NAVIGATION[i])
    {
      assert AuthContext.Lift(NAVIGATION[i].roles)[0] == Some(PLATFORM_ADMIN);
    }
    Seqs.FilterAll(NAVIGATION, (item: NavItem) => Visible(s, item));
  }

  // ---------------------------------------------------------------- highlighting

  predicate StartsWith(s: string, prefix: string) {
    |prefix| <= |s| && s[..|prefix|] == prefix
  }

  /** An entry is highlighted on its own path and, except the dashboard, on any path
      beginning with its `href`. */
  predicate IsActive(pathname: string, href: string) {
    pathname == href || (href != DASHBOARD_HREF && StartsWith(pathname, href))
  }

  /** The dashboard is highlighted only on its own path; every other entry exactly on
      the paths it prefixes. */
  lemma ActiveIff(pathname: string, href: string)
    ensures href == DASHBOARD_HREF ==> (IsActive(pathname, href) <==> pathname == href)
    ensures href != DASHBOARD_HREF ==> (IsActive(pathname, href) <==> StartsWith(pathname, href))
  {
    if pathname == href {
      assert pathname[..|href|] == href;
    }
  }

  /** On the approval page both Leads and Approve Leads are highlighted, and nothing
      else. */
  lemma ApprovalPathHighlightsTwo()
    ensures forall i :: 0 <= i < |NAVIGATION| ==>
      (IsActive(APPROVE_LEADS.href, NAVIGATION[i].href) <==> i == 1 || i == 6)
  {
    var p := APPROVE_LEADS.href;
    assert p[..6] == "/leads";
    forall i | 0 <= i < |NAVIGATION| && i != 1 && i != 6
      ensures !IsActive(p, NAVIGATION[i].href)
    {
      var h := NAVIGATION[i].href;
      assert |h| >= 2 && h[1] != p[1];
    }
  }

  // ---------------------------------------------------------------- user box

  /** `name?.[0]`: nothing for an absent or empty name. */
  function FirstLetter(name: Option<string>): (r: string)
    ensures |r| <= 1
    ensures r != [] <==> name.Some? && name.value != []
  {
    if name.Some? && name.value != [] then [name.value[0]] else []
  }

  /** The avatar text: the first letters of the first and last names. */
  function UserInitials(firstName: Option<string>, lastName: Option<string>): (r: string)
    ensures |r| <= 2
    ensures firstName.Some? && firstName.value != [] ==> |r| >= 1 && r[0] == firstName.value[0]
    ensures lastName.Some? && lastName.value != [] ==> |r| >= 1 && r[|r| - 1] == lastName.value[0]
  {
    FirstLetter(firstName) + FirstLetter(lastName)
  }

  /** `roleName?.replace('_', ' ')`: only the first underscore becomes a space. */
  function RoleCaption(roleName: Option<string>): (r: Option<string>)
    ensures r.Some? <==> roleName.Some?
  {
    if roleName.Some? then Some(ReplaceFirst(roleName.value, '_', ' ')) else None
  }

  /** The caption turns the first underscore into a space and keeps everything after
      it, later underscores included. */
  lemma CaptionReplacesFirstUnderscore(a: string, b: string)
    requires '_' !in a
    ensures RoleCaption(Some(a + "_" + b)) == Some(a + " " + b)
  {
    ReplaceFirstAfter(a, b, '_', ' ');
  }

  /** The two-word role names read as two words. */
  lemma SalesManagerCaption()
    ensures RoleCaption(Some(SALES_MANAGER)) == Some("SALES MANAGER")
  {
    TwoWords("SALES", "MANAGER", SALES_MANAGER, "SALES MANAGER");
  }

  lemma SalesRepCaption()
    ensures RoleCaption(Some(LegacyTypes.SALES_REP)) == Some("sales rep")
  {
    TwoWords("sales", "rep", LegacyTypes.SALES_REP, "sales rep");
  }

  /** A role name made of two words joined by an underscore reads as the two words
      joined by a space. */
  lemma TwoWords(a: string, b: string, roleName: string, caption: string)
    requires '_' !in a && roleName == a + "_" + b && caption == a + " " + b
    ensures RoleCaption(Some(roleName)) == Some(caption)
  {
    CaptionReplacesFirstUnderscore(a, b);
  }
}
