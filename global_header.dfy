/** The header bar shown on every page: its title, back button, logo link,
    search toggle and profile menu. */
module GlobalHeader {
  import opened JsText
  import opened AppRoutes

  /** A router call: go to a path, or one step back in the history. */
  datatype Navigation = NavigateTo(path: string) | NavigateBack

  /** `getPageTitle`. */
  function PageTitle(pathname: string): (title: string)
  {
    if pathname == DashboardPath then "My Collection"
    else if pathname == AddEditPath then "Add Coin"
    else if pathname == CoinDetailPath then "Coin Details"
    else "RareRupees"
  }

  /** Only the three titled pages get a title of their own; every other path
      shows the application's name. */
  lemma TitleIsDefaultIffUntitled(pathname: string)
    ensures PageTitle(pathname) == "RareRupees" <==> pathname !in {DashboardPath, AddEditPath, CoinDetailPath}
  {
  }

  /** `handleBack`: the detail and add-edit pages return to the dashboard,
      every other page goes back in the history. */
  function BackTarget(pathname: string): (n: Navigation)
    ensures n.NavigateTo? <==> pathname == CoinDetailPath || pathname == AddEditPath
    ensures n.NavigateTo? ==> n.path == DashboardPath
  {
    if pathname == CoinDetailPath then NavigateTo(DashboardPath)
    else if pathname == AddEditPath then NavigateTo(DashboardPath)
    else NavigateBack
  }

  /** The back button is shown on the private pages other than the
      dashboard. */
  predicate ShowsBackButton(pathname: string)
  {
    IsAuthenticated(pathname) && pathname != DashboardPath
  }

  /** Where the back button leads from the pages that show it: the two
      coin pages lead to the dashboard, and the profile and settings pages
      go back in the history. */
  lemma BackFromPrivatePages(pathname: string)
    requires pathname in [UserProfilePath, SettingsPath, CoinDetailPath, AddEditPath]
    ensures ShowsBackButton(pathname)
    ensures BackTarget(pathname) == if pathname in [CoinDetailPath, AddEditPath] then NavigateTo(DashboardPath) else NavigateBack
  {
    PrivatePagesAreAuthenticated(pathname);
  }

  /** The logo leads to the dashboard from a private page and to the
      landing page from a public one. */
  function LogoTarget(pathname: string): (path: string)
    ensures IsDeclared(path)
    ensures path == DashboardPath <==> IsAuthenticated(pathname)
  {
    if IsAuthenticated(pathname) then DashboardPath else LandingPath
  }

  /** The route each menu entry opens; an unknown action opens nothing.
      'logout' only navigates: it does not end the session. */
  function ProfileActionTarget(action: string): (target: Option<string>)
    ensures target.Some? <==> action in {"profile", "settings", "logout"}
    ensures target.Some? ==> IsDeclared(target.value)
    ensures action == "logout" ==> target == Some(LandingPath)
  {
    if action == "profile" then Some(UserProfilePath)
    else if action == "settings" then Some(SettingsPath)
    else if action == "logout" then Some(LandingPath)
    else None
  }

  class Header {
    const pathname: string
    var searchQuery: string
    var showSearch: bool
    var showProfileMenu: bool
    /** The router calls made so far. */
    var navigations: seq<Navigation>

    constructor (pathname: string)
      ensures this.pathname == pathname
      ensures searchQuery == "" && !showSearch && !showProfileMenu && navigations == []
    {
      this.pathname := pathname;
      searchQuery := "";
      showSearch := false;
      showProfileMenu := false;
      navigations := [];
    }

    /** The search bar is drawn only when it is open and the page is
        private. */
    function SearchBarVisible(): (visible: bool)
      reads this
      ensures visible <==> showSearch && IsAuthenticated(pathname)
    {
      showSearch && IsAuthenticated(pathname)
    }

    method HandleBack()
      modifies this
      ensures navigations == old(navigations) + [BackTarget(pathname)]
      ensures searchQuery == old(searchQuery) && showSearch == old(showSearch) && showProfileMenu == old(showProfileMenu)
    {
      if pathname == CoinDetailPath {
        navigations := navigations + [NavigateTo(DashboardPath)];
      } else if pathname == AddEditPath {
        navigations := navigations + [NavigateTo(DashboardPath)];
      } else {
        navigations := navigations + [NavigateBack];
      }
    }

    method PressLogo()
      modifies this
      ensures navigations == old(navigations) + [NavigateTo(LogoTarget(pathname))]
      ensures searchQuery == old(searchQuery) && showSearch == old(showSearch) && showProfileMenu == old(showProfileMenu)
    {
      navigations := navigations + [NavigateTo(if IsAuthenticated(pathname) then DashboardPath else LandingPath)];
    }

    /** `handleProfileAction`: the menu closes first, whatever the action,
        and a known action opens its route. */
    method HandleProfileAction(action: string)
      modifies this
      ensures !showProfileMenu
      ensures ProfileActionTarget(action).Some? ==> navigations == old(navigations) + [NavigateTo(ProfileActionTarget(action).value)]
      ensures ProfileActionTarget(action).None? ==> navigations == old(navigations)
      ensures searchQuery == old(searchQuery) && showSearch == old(showSearch)
    {
      showProfileMenu := false;
      if action == "profile" {
        navigations := navigations + [NavigateTo(UserProfilePath)];
      } else if action == "settings" {
        navigations := navigations + [NavigateTo(SettingsPath)];
      } else if action == "logout" {
        navigations := navigations + [NavigateTo(LandingPath)];
      }
    }

    method ToggleSearch()
      modifies this
      ensures showSearch == !old(showSearch)
      ensures searchQuery == old(searchQuery) && showProfileMenu == old(showProfileMenu) && navigations == old(navigations)
    {
      showSearch := !showSearch;
    }

    method ToggleProfileMenu()
      modifies this
      ensures showProfileMenu == !old(showProfileMenu)
      ensures searchQuery == old(searchQuery) && showSearch == old(showSearch) && navigations == old(navigations)
    {
      showProfileMenu := !showProfileMenu;
    }

    method SetSearchQuery(q: string)
      modifies this
      ensures searchQuery == q
      ensures showSearch == old(showSearch) && showProfileMenu == old(showProfileMenu) && navigations == old(navigations)
    {
      searchQuery := q;
    }

    /** Submitting or cancelling the search closes the bar and keeps the
        query; submitting searches nothing. */
    method CloseSearch()
      modifies this
      ensures !showSearch
      ensures searchQuery == old(searchQuery) && showProfileMenu == old(showProfileMenu) && navigations == old(navigations)
    {
      showSearch := false;
    }

    /** A click on the backdrop closes the menu. */
    method CloseProfileMenu()
      modifies this
      ensures !showProfileMenu
      ensures searchQuery == old(searchQuery) && showSearch == old(showSearch) && navigations == old(navigations)
    {
      showProfileMenu := false;
    }
  }
}
