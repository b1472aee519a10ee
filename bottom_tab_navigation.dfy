/** The tab bar of the private pages: three tabs, the one whose path is the
    current path marked active, each opening its path when pressed. */
module BottomTabNavigation {
  import opened JsText
  import opened AppRoutes

  datatype Tab = Tab(id: string, caption: string, icon: string, path: string, isActive: bool)

  /** The tabs as they are written: the Profile tab opens '/profile'. */
  function TabsAsWritten(pathname: string): (tabs: seq<Tab>)
    ensures |tabs| == 3
  {
    [ Tab("collection", "Collection", "Grid3X3", DashboardPath, pathname == DashboardPath),
      Tab("add", "Add Coin", "Plus", AddEditPath, pathname == AddEditPath),
      Tab("profile", "Profile", "User", "/profile", pathname == "/profile") ]
  }

  /** The router declares no '/profile' route: the Profile tab as written
      leads to the not-found page, and is never active on the profile page
      itself. */
  lemma ProfileTabIsUndeclared(pathname: string)
    ensures !IsDeclared(TabsAsWritten(pathname)[2].path)
    ensures !TabsAsWritten(UserProfilePath)[2].isActive
  {
    var p := "/profile";
    forall r | r in DeclaredRoutes ensures r != p {
      assert |r| != |p|;
    }
  }

  /** The tabs with the Profile tab on the declared profile route. */
  function Tabs(pathname: string): (tabs: seq<Tab>)
    ensures |tabs| == 3
  {
    [ Tab("collection", "Collection", "Grid3X3", DashboardPath, pathname == DashboardPath),
      Tab("add", "Add Coin", "Plus", AddEditPath, pathname == AddEditPath),
      Tab("profile", "Profile", "User", UserProfilePath, pathname == UserProfilePath) ]
  }

  /** Every tab opens a declared route, the three paths are different, and
      a tab is active exactly when the current path is its path. */
  lemma TabsAreSound(pathname: string)
    ensures forall i :: 0 <= i < 3 ==> IsDeclared(Tabs(pathname)[i].path)
    ensures forall i, j :: 0 <= i < j < 3 ==> Tabs(pathname)[i].path != Tabs(pathname)[j].path
    ensures forall i :: 0 <= i < 3 ==> (Tabs(pathname)[i].isActive <==> pathname == Tabs(pathname)[i].path)
  {
    var tabs := Tabs(pathname);
    forall i, j | 0 <= i < j < 3 ensures tabs[i].path != tabs[j].path {
      assert tabs[i].path[1] != tabs[j].path[1];
    }
  }

  /** Since the paths are different, at most one tab is active. */
  lemma AtMostOneActive(pathname: string, i: int, j: int)
    requires 0 <= i < 3 && 0 <= j < 3
    requires Tabs(pathname)[i].isActive && Tabs(pathname)[j].isActive
    ensures i == j
  {
    TabsAreSound(pathname);
  }

  /** The bar: nothing on the public pages, the tabs elsewhere. */
  function Render(pathname: string): (r: Option<seq<Tab>>)
    ensures r.None? <==> !IsAuthenticated(pathname)
    ensures r.Some? ==> r.value == Tabs(pathname)
  {
    if !IsAuthenticated(pathname) then None else Some(Tabs(pathname))
  }

  /** `handleTabPress`: the path a press navigates to. */
  function Press(tab: Tab): (path: string)
  {
    tab.path
  }

  /** Pressing a shown tab opens a declared route, and pressing it on its
      own path marks that same tab active. */
  lemma PressOpensItsTab(pathname: string, i: int)
    requires Render(pathname).Some? && 0 <= i < 3
    ensures IsDeclared(Press(Render(pathname).value[i]))
    ensures Tabs(Press(Render(pathname).value[i]))[i].isActive
  {
    TabsAreSound(pathname);
  }
}
