/**
 * The panel state of the main screen: on a phone at most one sheet (profile or
 * matches) is shown at a time, on a desktop each side panel is expanded or
 * collapsed on its own, and a counter tells the matches list to reload.
 *
 * Every handler of the hook is a function from the previous state to the next
 * (`PanelsAfter…`); the class applies them to its `state` field. The window
 * width is a parameter.
 */
module MainView {
  import opened Wrappers
  import opened Dtos

  const MobileBreakpoint := 768

  datatype PanelType = ProfilePanel | MatchesPanel | MapPanel

  datatype PanelState = PanelState(isOpen: bool, isCollapsed: bool)

  datatype MainViewState = MainViewState(
    profile: PanelState,
    matches: PanelState,
    activeMobilePanel: Option<PanelType>,
    matchesRefreshTrigger: int)

  /** `ProfileDataUpdates`: `None` is a property the caller left out. */
  datatype ProfileDataUpdates = ProfileDataUpdates(
    location: Option<Option<GeoPoint>>,
    defaultRangeKm: Option<int>,
    sportsChanged: Option<bool>)

  /** `{ sportsChanged: true }`, what the profile screens report after a sport changes. */
  const SportsChanged := ProfileDataUpdates(None, None, Some(true))

  /** The state of one side panel. */
  function Panel(s: MainViewState, p: PanelType): PanelState
    requires p != MapPanel
  {
    if p == ProfilePanel then s.profile else s.matches
  }

  /** `{ ...s, [p]: panel }` */
  function WithPanel(s: MainViewState, p: PanelType, panel: PanelState): (r: MainViewState)
    requires p != MapPanel
    ensures Panel(r, p) == panel
    ensures p == ProfilePanel ==> r.matches == s.matches
    ensures p == MatchesPanel ==> r.profile == s.profile
    ensures r.activeMobilePanel == s.activeMobilePanel && r.matchesRefreshTrigger == s.matchesRefreshTrigger
  {
    if p == ProfilePanel then s.(profile := panel) else s.(matches := panel)
  }

  /** The other side panel. */
  function Other(p: PanelType): (q: PanelType)
    requires p != MapPanel
    ensures q != MapPanel && q != p
  {
    if p == ProfilePanel then MatchesPanel else ProfilePanel
  }

  /** The state before the first render: closed and collapsed below the breakpoint, open and expanded above. */
  function InitialState(isMobile: bool): (r: MainViewState)
    ensures r.activeMobilePanel.None? && r.matchesRefreshTrigger == 0
    ensures isMobile ==> r.profile == PanelState(false, true) && r.matches == PanelState(false, true)
    ensures !isMobile ==> r.profile == PanelState(true, false) && r.matches == PanelState(true, false)
  {
    var panel := if isMobile then PanelState(false, true) else PanelState(true, false);
    MainViewState(panel, panel, None, 0)
  }

  /** `typeof window !== "undefined" ? window.innerWidth < MOBILE_BREAKPOINT : false` */
  function IsMobileWidth(innerWidth: Option<int>): (r: bool)
    ensures r <==> innerWidth.Some? && innerWidth.value < MobileBreakpoint
  {
    innerWidth.Some? && innerWidth.value < MobileBreakpoint
  }

  /** The updater of `toggleMobilePanel(p)`. */
  function PanelsAfterMobileToggle(prev: MainViewState, p: PanelType): (r: MainViewState)
    ensures r.matchesRefreshTrigger == prev.matchesRefreshTrigger
    ensures r.profile.isCollapsed == prev.profile.isCollapsed && r.matches.isCollapsed == prev.matches.isCollapsed
    ensures !(r.profile.isOpen && r.matches.isOpen)
    ensures p == MapPanel ==> r.activeMobilePanel.None? && !r.profile.isOpen && !r.matches.isOpen
    ensures p != MapPanel && prev.activeMobilePanel == Some(p) ==>
      r.activeMobilePanel.None? && !Panel(r, p).isOpen && Panel(r, Other(p)) == Panel(prev, Other(p))
    ensures p != MapPanel && prev.activeMobilePanel != Some(p) ==>
      r.activeMobilePanel == Some(p) && Panel(r, p).isOpen && !Panel(r, Other(p)).isOpen
  {
    if p == MapPanel then
      prev.(activeMobilePanel := None, profile := prev.profile.(isOpen := false), matches := prev.matches.(isOpen := false))
    else if prev.activeMobilePanel == Some(p) then
      WithPanel(prev, p, Panel(prev, p).(isOpen := false)).(activeMobilePanel := None)
    else
      prev.(activeMobilePanel := Some(p),
            profile := prev.profile.(isOpen := p == ProfilePanel),
            matches := prev.matches.(isOpen := p == MatchesPanel))
  }

  /** The updater of `toggleDesktopPanel(p)`: collapsing closes, expanding opens. */
  function PanelsAfterDesktopToggle(prev: MainViewState, p: PanelType): (r: MainViewState)
    requires p != MapPanel
    ensures Panel(r, p).isCollapsed == !Panel(prev, p).isCollapsed
    ensures Panel(r, p).isOpen == !Panel(r, p).isCollapsed
    ensures Panel(r, Other(p)) == Panel(prev, Other(p))
    ensures r.activeMobilePanel == prev.activeMobilePanel && r.matchesRefreshTrigger == prev.matchesRefreshTrigger
  {
    var panel := Panel(prev, p);
    WithPanel(prev, p, PanelState(panel.isCollapsed, !panel.isCollapsed))
  }

  /** Whether `handleProfileDataChange(updates)` asks for a reload of the matches. */
  predicate ChangesMatches(updates: ProfileDataUpdates) {
    updates.location.Some? || updates.defaultRangeKm.Some? || updates.sportsChanged == Some(true)
  }

  /** The updater of `handleProfileDataChange(updates)`. */
  function PanelsAfterProfileDataChange(prev: MainViewState, updates: ProfileDataUpdates): (r: MainViewState)
    ensures ChangesMatches(updates) ==> r == prev.(matchesRefreshTrigger := prev.matchesRefreshTrigger + 1)
    ensures !ChangesMatches(updates) ==> r == prev
  {
    if ChangesMatches(updates) then prev.(matchesRefreshTrigger := prev.matchesRefreshTrigger + 1) else prev
  }

  /** The updater of `handleLocationUpdate`: the location itself is passed on elsewhere. */
  function PanelsAfterLocationUpdate(prev: MainViewState): (r: MainViewState)
    ensures r.matchesRefreshTrigger == prev.matchesRefreshTrigger + 1
    ensures r.(matchesRefreshTrigger := prev.matchesRefreshTrigger) == prev
  {
    prev.(matchesRefreshTrigger := prev.matchesRefreshTrigger + 1)
  }

  /** The updater of `closeMobilePanel(p)`. */
  function PanelsAfterClose(prev: MainViewState, p: PanelType): (r: MainViewState)
    requires p != MapPanel
    ensures !Panel(r, p).isOpen && Panel(r, p).isCollapsed == Panel(prev, p).isCollapsed
    ensures Panel(r, Other(p)) == Panel(prev, Other(p))
    ensures prev.activeMobilePanel == Some(p) ==> r.activeMobilePanel.None?
    ensures prev.activeMobilePanel != Some(p) ==> r.activeMobilePanel == prev.activeMobilePanel
    ensures r.matchesRefreshTrigger == prev.matchesRefreshTrigger
  {
    WithPanel(prev, p, Panel(prev, p).(isOpen := false))
      .(activeMobilePanel := if prev.activeMobilePanel == Some(p) then None else prev.activeMobilePanel)
  }

  /** The updater of the resize listener when the width crosses the breakpoint towards the desktop. */
  function PanelsOnDesktop(prev: MainViewState): (r: MainViewState)
    ensures r.activeMobilePanel.None? && r.profile == PanelState(false, true) && r.matches == PanelState(false, true)
    ensures r.matchesRefreshTrigger == prev.matchesRefreshTrigger
  {
    prev.(activeMobilePanel := None, profile := PanelState(false, true), matches := PanelState(false, true))
  }

  // ---------------------------------------------------------------------------
  // The hook's state
  // ---------------------------------------------------------------------------

  /**
   * What the mobile sheets promise: when a panel is active it is the only open
   * one, and the map is never the active panel.
   */
  predicate SheetsConsistent(s: MainViewState) {
    s.activeMobilePanel != Some(MapPanel) &&
    (s.activeMobilePanel.Some? ==>
      Panel(s, s.activeMobilePanel.value).isOpen && !Panel(s, Other(s.activeMobilePanel.value)).isOpen)
  }

  class MainViewHook {
    var state: MainViewState
    var isMobile: bool

    /** `useMainView()` on first render, with `innerWidth` absent during server rendering. */
    constructor(innerWidth: Option<int>)
      ensures isMobile == IsMobileWidth(innerWidth)
      ensures state == InitialState(isMobile)
    {
      isMobile := IsMobileWidth(innerWidth);
      state := InitialState(IsMobileWidth(innerWidth));
    }

    /** `handleResize`: only a crossing of the breakpoint changes anything. */
    method HandleResize(innerWidth: int)
      modifies this
      ensures isMobile == (innerWidth < MobileBreakpoint)
      ensures old(isMobile) == isMobile ==> state == old(state)
      ensures old(isMobile) && !isMobile ==> state == PanelsOnDesktop(old(state))
      ensures !old(isMobile) && isMobile ==> state == old(state)
    {
      var nowMobile := innerWidth < MobileBreakpoint;
      if isMobile != nowMobile {
        isMobile := nowMobile;
        if !nowMobile {
          state := PanelsOnDesktop(state);
        }
      }
    }

    method ToggleMobilePanel(p: PanelType)
      modifies this
      ensures state == PanelsAfterMobileToggle(old(state), p) && isMobile == old(isMobile)
    {
      state := PanelsAfterMobileToggle(state, p);
    }

    method ToggleDesktopPanel(p: PanelType)
      requires p != MapPanel
      modifies this
      ensures state == PanelsAfterDesktopToggle(old(state), p) && isMobile == old(isMobile)
    {
      state := PanelsAfterDesktopToggle(state, p);
    }

    method HandleProfileDataChange(updates: ProfileDataUpdates)
      modifies this
      ensures state == PanelsAfterProfileDataChange(old(state), updates) && isMobile == old(isMobile)
      ensures state.matchesRefreshTrigger >= old(state.matchesRefreshTrigger)
    {
      state := PanelsAfterProfileDataChange(state, updates);
    }

    method HandleLocationUpdate()
      modifies this
      ensures state == PanelsAfterLocationUpdate(old(state)) && isMobile == old(isMobile)
    {
      state := PanelsAfterLocationUpdate(state);
    }

    method CloseMobilePanel(p: PanelType)
      requires p != MapPanel
      modifies this
      ensures state == PanelsAfterClose(old(state), p) && isMobile == old(isMobile)
    {
      state := PanelsAfterClose(state, p);
    }
  }

  // ---------------------------------------------------------------------------
  // Properties
  // ---------------------------------------------------------------------------

  /** The initial state, mobile or not, and every mobile-sheet handler keep the sheets consistent. */
  lemma {:induction false} MobileHandlersKeepSheetsConsistent(s: MainViewState, p: PanelType, q: PanelType)
    requires SheetsConsistent(s) && q != MapPanel
    ensures SheetsConsistent(InitialState(true)) && SheetsConsistent(InitialState(false))
    ensures SheetsConsistent(PanelsAfterMobileToggle(s, p))
    ensures SheetsConsistent(PanelsAfterClose(s, q))
    ensures SheetsConsistent(PanelsOnDesktop(s))
  {
    var c := PanelsAfterClose(s, q);
    if s.activeMobilePanel.Some? && s.activeMobilePanel.value != q {
      assert s.activeMobilePanel.value == Other(q);
      assert Panel(c, Other(q)) == Panel(s, Other(q));
    }
  }

  /** A desktop toggle can open the second panel while a sheet is active: it is not a mobile handler. */
  lemma {:induction false} DesktopToggleCanOpenBoth()
    ensures var s := MainViewState(PanelState(true, false), PanelState(false, true), Some(ProfilePanel), 0);
      SheetsConsistent(s) && !SheetsConsistent(PanelsAfterDesktopToggle(s, MatchesPanel))
  {
  }

  /** Toggling a desktop panel twice restores its collapsed flag and leaves it open exactly when expanded. */
  lemma {:induction false} DesktopToggleTwice(s: MainViewState, p: PanelType)
    requires p != MapPanel
    ensures var t := PanelsAfterDesktopToggle(PanelsAfterDesktopToggle(s, p), p);
      Panel(t, p) == PanelState(!Panel(s, p).isCollapsed, Panel(s, p).isCollapsed) && Panel(t, Other(p)) == Panel(s, Other(p))
  {
    var once := PanelsAfterDesktopToggle(s, p);
    assert Panel(once, p).isCollapsed == !Panel(s, p).isCollapsed;
  }

  /** Selecting a sheet twice closes it again and leaves the other sheet closed. */
  lemma {:induction false} MobileToggleTwiceCloses(s: MainViewState, p: PanelType)
    requires p != MapPanel && s.activeMobilePanel != Some(p)
    ensures var t := PanelsAfterMobileToggle(PanelsAfterMobileToggle(s, p), p);
      t.activeMobilePanel.None? && !t.profile.isOpen && !t.matches.isOpen
  {
    var once := PanelsAfterMobileToggle(s, p);
    assert once.activeMobilePanel == Some(p) && !Panel(once, Other(p)).isOpen;
  }

  /** The reload counter never goes down, and every sport change reported by the profile screens raises it. */
  lemma {:induction false} TriggerMonotone(s: MainViewState, updates: ProfileDataUpdates, p: PanelType)
    ensures PanelsAfterProfileDataChange(s, updates).matchesRefreshTrigger >= s.matchesRefreshTrigger
    ensures PanelsAfterProfileDataChange(s, SportsChanged).matchesRefreshTrigger == s.matchesRefreshTrigger + 1
    ensures PanelsAfterMobileToggle(s, p).matchesRefreshTrigger == s.matchesRefreshTrigger
    ensures p != MapPanel ==> PanelsAfterDesktopToggle(s, p).matchesRefreshTrigger == s.matchesRefreshTrigger
  {
  }

  /** An update that carries nothing relevant, such as a change of display name, reloads nothing. */
  lemma {:induction false} IrrelevantUpdateIgnored(s: MainViewState)
    ensures PanelsAfterProfileDataChange(s, ProfileDataUpdates(None, None, None)) == s
    ensures PanelsAfterProfileDataChange(s, ProfileDataUpdates(None, None, Some(false))) == s
    ensures PanelsAfterProfileDataChange(s, ProfileDataUpdates(Some(None), None, None)).matchesRefreshTrigger
         == s.matchesRefreshTrigger + 1
  {
  }
}
