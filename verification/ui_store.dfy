/** The interface state container (src/store/ui-store.ts): panel and list
    flags, the toast, the loading indicator, and the theme with the dark
    mode it resolves to. The system colour-scheme preference is a
    parameter. */
module UiStore {
  import opened Optional
  import opened Interfaces

  datatype ToastType = Success | Error | Info

  datatype Toast = Toast(message: string, toastType: ToastType)

  /** `UIState`. */
  datatype State = State(
    isFilterPanelOpen: bool,
    isSettingsOpen: bool,
    isPaywallOpen: bool,
    isPoiListExpanded: bool,
    isSearchRadiusVisible: bool,
    shouldCenterOnUser: bool,
    toast: Option<Toast>,
    isLoading: bool,
    loadingMessage: string,
    theme: ThemeMode,
    isDarkMode: bool)

  /** `resolveDarkMode`: the system preference for the system theme,
      otherwise whether the theme is dark. */
  function ResolveDarkMode(theme: ThemeMode, systemDark: bool): (dark: bool)
    ensures theme != System ==> (dark <==> theme == Dark)
    ensures theme == System ==> dark == systemDark
  {
    if theme == System then systemDark else theme == Dark
  }

  /** `initialState`: everything closed, the system theme. */
  function Initial(systemDark: bool): (s: State)
    ensures s.theme == System && s.isDarkMode == systemDark
    ensures !s.isFilterPanelOpen && !s.isSettingsOpen && !s.isPaywallOpen && !s.isPoiListExpanded
    ensures s.toast.None? && !s.isLoading
  {
    State(false, false, false, false, false, false, None, false, "", System, systemDark)
  }

  /** The dark-mode flag agrees with the theme. */
  predicate DarkModeResolved(s: State, systemDark: bool) {
    s.isDarkMode == ResolveDarkMode(s.theme, systemDark)
  }

  /** `toggleFilterPanel`. */
  function ToggleFilterPanel(s: State): State {
    s.(isFilterPanelOpen := !s.isFilterPanelOpen)
  }

  /** `setFilterPanelOpen`: only the filter panel flag changes. */
  function SetFilterPanelOpen(s: State, open: bool): (r: State)
    ensures r.isFilterPanelOpen == open
    ensures r.(isFilterPanelOpen := s.isFilterPanelOpen) == s
  {
    s.(isFilterPanelOpen := open)
  }

  /** `toggleSettings`. */
  function ToggleSettings(s: State): State {
    s.(isSettingsOpen := !s.isSettingsOpen)
  }

  /** `setSettingsOpen`: only the settings flag changes. */
  function SetSettingsOpen(s: State, open: bool): (r: State)
    ensures r.isSettingsOpen == open
    ensures r.(isSettingsOpen := s.isSettingsOpen) == s
  {
    s.(isSettingsOpen := open)
  }

  /** `setPaywallOpen`: only the paywall flag changes. */
  function SetPaywallOpen(s: State, open: bool): (r: State)
    ensures r.isPaywallOpen == open
    ensures r.(isPaywallOpen := s.isPaywallOpen) == s
  {
    s.(isPaywallOpen := open)
  }

  /** `toggleSearchRadiusVisible`. */
  function ToggleSearchRadiusVisible(s: State): State {
    s.(isSearchRadiusVisible := !s.isSearchRadiusVisible)
  }

  /** Each toggle flips its own flag and nothing else, and is its own
      inverse. */
  lemma TogglesAreInvolutions(s: State)
    ensures ToggleFilterPanel(ToggleFilterPanel(s)) == s
    ensures ToggleSettings(ToggleSettings(s)) == s
    ensures ToggleSearchRadiusVisible(ToggleSearchRadiusVisible(s)) == s
    ensures ToggleFilterPanel(s).isFilterPanelOpen != s.isFilterPanelOpen
      && ToggleFilterPanel(s).(isFilterPanelOpen := s.isFilterPanelOpen) == s
    ensures ToggleSettings(s).isSettingsOpen != s.isSettingsOpen
      && ToggleSettings(s).(isSettingsOpen := s.isSettingsOpen) == s
    ensures ToggleSearchRadiusVisible(s).isSearchRadiusVisible != s.isSearchRadiusVisible
      && ToggleSearchRadiusVisible(s).(isSearchRadiusVisible := s.isSearchRadiusVisible) == s
  {
  }

  /** `togglePOIListExpanded`: collapsing asks the map to centre on the
      user, expanding does not. */
  function TogglePoiListExpanded(s: State): (r: State)
    ensures r.isPoiListExpanded == !s.isPoiListExpanded
    ensures r.shouldCenterOnUser <==> !r.isPoiListExpanded
    ensures r.(isPoiListExpanded := s.isPoiListExpanded, shouldCenterOnUser := s.shouldCenterOnUser) == s
  {
    s.(isPoiListExpanded := !s.isPoiListExpanded, shouldCenterOnUser := s.isPoiListExpanded)
  }

  /** `setPOIListExpanded`: only the list flag changes; unlike the toggle
      and the collapse, it never asks the map to centre. */
  function SetPoiListExpanded(s: State, expanded: bool): (r: State)
    ensures r.isPoiListExpanded == expanded
    ensures r.(isPoiListExpanded := s.isPoiListExpanded) == s
  {
    s.(isPoiListExpanded := expanded)
  }

  /** `collapsePOIList`. */
  function CollapsePoiList(s: State): (r: State)
    ensures !r.isPoiListExpanded && r.shouldCenterOnUser
    ensures r.(isPoiListExpanded := s.isPoiListExpanded, shouldCenterOnUser := s.shouldCenterOnUser) == s
  {
    s.(isPoiListExpanded := false, shouldCenterOnUser := true)
  }

  /** Collapsing an expanded list by toggling is the same as collapsing it. */
  lemma ToggleCollapsesLikeCollapse(s: State)
    requires s.isPoiListExpanded
    ensures TogglePoiListExpanded(s) == CollapsePoiList(s)
  {
  }

  /** `setShouldCenterOnUser`: only the centring request changes. */
  function SetShouldCenterOnUser(s: State, value: bool): (r: State)
    ensures r.shouldCenterOnUser == value
    ensures r.(shouldCenterOnUser := s.shouldCenterOnUser) == s
  {
    s.(shouldCenterOnUser := value)
  }

  /** Each toggle is its setter applied to the negated flag, and toggling
      and collapsing the list are the two list setters applied together. */
  lemma TogglesAreSetters(s: State)
    ensures ToggleFilterPanel(s) == SetFilterPanelOpen(s, !s.isFilterPanelOpen)
    ensures ToggleSettings(s) == SetSettingsOpen(s, !s.isSettingsOpen)
    ensures TogglePoiListExpanded(s)
         == SetShouldCenterOnUser(SetPoiListExpanded(s, !s.isPoiListExpanded), s.isPoiListExpanded)
    ensures CollapsePoiList(s) == SetShouldCenterOnUser(SetPoiListExpanded(s, false), true)
  {
  }

  /** `showToast`, with the type defaulting to info. */
  function ShowToast(s: State, message: string, toastType: Option<ToastType>): (r: State)
    ensures r.toast == Some(Toast(message, toastType.GetOr(Info)))
    ensures r.(toast := s.toast) == s
  {
    s.(toast := Some(Toast(message, toastType.GetOr(Info))))
  }

  /** `hideToast`. */
  function HideToast(s: State): (r: State)
    ensures r.toast.None? && r.(toast := s.toast) == s
  {
    s.(toast := None)
  }

  /** `setLoading`, with the message defaulting to empty. */
  function SetLoading(s: State, loading: bool, message: Option<string>): (r: State)
    ensures r.isLoading == loading && r.loadingMessage == message.GetOr("")
    ensures r.(isLoading := s.isLoading, loadingMessage := s.loadingMessage) == s
  {
    s.(isLoading := loading, loadingMessage := message.GetOr(""))
  }

  /** A toast shown then hidden leaves the state as it was without a toast,
      and an untyped toast is an info toast. */
  lemma ToastLifecycle(s: State, message: string)
    ensures HideToast(ShowToast(s, message, None)) == HideToast(s)
    ensures ShowToast(s, message, None) == ShowToast(s, message, Some(Info))
    ensures SetLoading(s, true, None).loadingMessage == ""
  {
  }

  /** `setTheme`. */
  function SetTheme(s: State, theme: ThemeMode, systemDark: bool): (r: State)
    ensures r.theme == theme && DarkModeResolved(r, systemDark)
    ensures r.(theme := s.theme, isDarkMode := s.isDarkMode) == s
  {
    s.(theme := theme, isDarkMode := ResolveDarkMode(theme, systemDark))
  }

  /** The theme after the current one in the cycle system, light, dark. */
  function NextTheme(t: ThemeMode): ThemeMode {
    match t
    case System => Light
    case Light => Dark
    case Dark => System
  }

  /** `toggleTheme`. */
  function ToggleTheme(s: State, systemDark: bool): (r: State)
    ensures r.theme != s.theme && DarkModeResolved(r, systemDark)
    ensures r.(theme := s.theme, isDarkMode := s.isDarkMode) == s
  {
    SetTheme(s, NextTheme(s.theme), systemDark)
  }

  /** Toggling visits every theme and three toggles bring the theme back,
      with the dark-mode flag resolved after each. */
  lemma ThemeCycle(s: State, systemDark: bool)
    ensures ToggleTheme(ToggleTheme(ToggleTheme(s, systemDark), systemDark), systemDark).theme == s.theme
    ensures s.theme == System ==> ToggleTheme(s, systemDark).theme == Light && !ToggleTheme(s, systemDark).isDarkMode
    ensures s.theme == Light ==> ToggleTheme(s, systemDark).theme == Dark && ToggleTheme(s, systemDark).isDarkMode
    ensures s.theme == Dark ==> ToggleTheme(s, systemDark).theme == System && ToggleTheme(s, systemDark).isDarkMode == systemDark
    ensures DarkModeResolved(s, systemDark) ==>
      ToggleTheme(ToggleTheme(ToggleTheme(s, systemDark), systemDark), systemDark) == s
  {
  }
}
