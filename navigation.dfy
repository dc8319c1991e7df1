/** Role gating of the navigation tabs: which tabs the session may see and
    which tab stays active. The tab list itself (`sidebarNavigation`) is an
    input: it is declared in the navigation bar, which is not part of this
    model. */
module Navigation {
  import opened Optional
  import opened Roles

  type TabId = string

  /** A `SidebarItem`: its id and its optional `requiredRoles`. */
  datatype SidebarItem = SidebarItem(id: TabId, requiredRoles: Option<seq<RoleKey>>)

  /** `roles.some((role) => roleStatus[role])` */
  function AnyHeld(roles: seq<RoleKey>, st: RoleStatus): bool {
    roles != [] && (st.Get(roles[0]) || AnyHeld(roles[1..], st))
  }

  /** `some` holds exactly when one of the listed roles is held. */
  lemma {:induction false} AnyHeldIff(roles: seq<RoleKey>, st: RoleStatus)
    ensures AnyHeld(roles, st) <==> exists i :: 0 <= i < |roles| && st.Get(roles[i])
  {
    if roles != [] {
      AnyHeldIff(roles[1..], st);
      if !st.Get(roles[0]) && exists i :: 0 <= i < |roles| && st.Get(roles[i]) {
        var i :| 0 <= i < |roles| && st.Get(roles[i]);
        assert i > 0 && roles[1..][i - 1] == roles[i];
      }
    }
  }

  /** The filter's test: no role list, an empty one, or a held role. */
  predicate IsAvailable(item: SidebarItem, st: RoleStatus) {
    match item.requiredRoles
    case None => true
    case Some(roles) => roles == [] || AnyHeld(roles, st)
  }

  /** `availableTabs`: the tabs that pass the test, in their order. */
  function AvailableTabs(items: seq<SidebarItem>, st: RoleStatus): (tabs: seq<SidebarItem>)
    ensures |tabs| <= |items|
  {
    if items == [] then []
    else (if IsAvailable(items[0], st) then [items[0]] else []) + AvailableTabs(items[1..], st)
  }

  /** `sub` can be obtained from `s` by deleting elements: each element of
      `s` is either skipped or matched with the next element of `sub`. */
  predicate IsSubsequence<T(==)>(sub: seq<T>, s: seq<T>) {
    if s == [] then sub == []
    else IsSubsequence(sub, s[1..]) || (sub != [] && sub[0] == s[0] && IsSubsequence(sub[1..], s[1..]))
  }

  /** A tab is shown iff it is in the list and its required roles are absent,
      empty, or include one the session holds. */
  lemma {:induction false} AvailableTabsMembers(items: seq<SidebarItem>, st: RoleStatus, t: SidebarItem)
    ensures t in AvailableTabs(items, st) <==>
            t in items && (t.requiredRoles.None? || t.requiredRoles.value == [] ||
                           exists i :: 0 <= i < |t.requiredRoles.value| && st.Get(t.requiredRoles.value[i]))
  {
    if t.requiredRoles.Some? {
      AnyHeldIff(t.requiredRoles.value, st);
    }
    if items != [] {
      AvailableTabsMembers(items[1..], st, t);
      assert items == [items[0]] + items[1..];
    }
  }

  /** The filter keeps the tabs in their original order. */
  lemma {:induction false} AvailableTabsInOrder(items: seq<SidebarItem>, st: RoleStatus)
    ensures IsSubsequence(AvailableTabs(items, st), items)
  {
    if items != [] {
      AvailableTabsInOrder(items[1..], st);
      var rest := AvailableTabs(items[1..], st);
      if IsAvailable(items[0], st) {
        assert ([items[0]] + rest)[1..] == rest;
      } else {
        assert AvailableTabs(items, st) == rest;
      }
    }
  }

  /** With no role held (the state after a reset) only the ungated tabs are
      shown. */
  lemma NoRolesShowsOnlyUngated(items: seq<SidebarItem>, t: SidebarItem)
    ensures t in AvailableTabs(items, NoRoles()) <==>
            t in items && (t.requiredRoles.None? || t.requiredRoles.value == [])
  {
    AvailableTabsMembers(items, NoRoles(), t);
  }

  /** Holding more roles never hides a tab. */
  lemma {:induction false} MoreRolesMoreTabs(items: seq<SidebarItem>, st1: RoleStatus, st2: RoleStatus, t: SidebarItem)
    requires forall role :: st1.Get(role) ==> st2.Get(role)
    requires t in AvailableTabs(items, st1)
    ensures t in AvailableTabs(items, st2)
  {
    AvailableTabsMembers(items, st1, t);
    AvailableTabsMembers(items, st2, t);
  }

  /** `availableTabs.some((item) => item.id === activeTab)` */
  predicate IsActiveAvailable(tabs: seq<SidebarItem>, active: Option<TabId>) {
    active.Some? && exists i :: 0 <= i < |tabs| && tabs[i].id == active.value
  }

  /** The active-tab effect: keep an available tab, otherwise the first
      available one, otherwise none. */
  function FallbackTab(available: seq<SidebarItem>, active: Option<TabId>): (r: Option<TabId>)
    ensures r.None? <==> available == []
    ensures r.Some? ==> IsActiveAvailable(available, r)
    ensures IsActiveAvailable(available, active) ==> r == active
    ensures !IsActiveAvailable(available, active) && available != [] ==> r == Some(available[0].id)
  {
    if available == [] then None
    else if IsActiveAvailable(available, active) then active
    else Some(available[0].id)
  }

  /** The effect reaches its fixed point in one step. */
  lemma FallbackIdempotent(available: seq<SidebarItem>, active: Option<TabId>)
    ensures FallbackTab(available, FallbackTab(available, active)) == FallbackTab(available, active)
  {
  }

  /** The example of a session holding only the administrator role: of tabs
      requiring {admin}, {manufacturer} and {admin, pharmacy}, the first and
      third are shown. */
  lemma GatingExample(a: TabId, b: TabId, c: TabId)
    ensures var st := RoleTable(true, false, false, false);
            var ta := SidebarItem(a, Some([AdminRole]));
            var tb := SidebarItem(b, Some([FabricanteRole]));
            var tc := SidebarItem(c, Some([AdminRole, FarmaciaRole]));
            AvailableTabs([ta, tb, tc], st) == [ta, tc]
  {
    var st := RoleTable(true, false, false, false);
    var ta := SidebarItem(a, Some([AdminRole]));
    var tb := SidebarItem(b, Some([FabricanteRole]));
    var tc := SidebarItem(c, Some([AdminRole, FarmaciaRole]));
    assert [ta, tb, tc][1..] == [tb, tc] && [tb, tc][1..] == [tc] && [tc][1..] == [];
    assert IsAvailable(tc, st) && AvailableTabs([tc], st) == [tc];
    assert !AnyHeld([FabricanteRole], st);
    assert AvailableTabs([tb, tc], st) == [tc];
  }
}
