/** The application's route table and the public-page test that both
    navigation bars make. */
module AppRoutes {
  import opened JsText

  const LandingPath: string := "/landing-page"
  const AuthPath: string := "/authentication-login-register"
  const DashboardPath: string := "/collection-dashboard"
  const UserProfilePath: string := "/user-profile"
  const SettingsPath: string := "/settings-preferences"
  const CoinDetailPath: string := "/coin-detail-view"
  const AddEditPath: string := "/add-edit-coin"

  /** The paths the router declares; any other path shows the not-found
      page. */
  const DeclaredRoutes: seq<string> :=
    ["/", LandingPath, AuthPath, DashboardPath, UserProfilePath, SettingsPath, CoinDetailPath, AddEditPath]

  predicate IsDeclared(path: string)
  {
    path in DeclaredRoutes
  }

  /** The bars' `isAuthenticated`: it only asks whether the path mentions
      one of the two public pages, anywhere in it. */
  predicate IsAuthenticated(pathname: string)
  {
    !Includes(pathname, LandingPath) && !Includes(pathname, AuthPath)
  }

  /** A path whose only '/' is its first character contains a
      '/'-prefixed string only as its prefix. */
  lemma OnlyPrefixIncludes(s: string, sub: string)
    requires |sub| > 0 && sub[0] == '/'
    requires forall k :: 0 < k < |s| ==> s[k] != '/'
    ensures Includes(s, sub) ==> |sub| <= |s| && s[..|sub|] == sub
  {
    if Includes(s, sub) {
      var i :| OccursAt(s, sub, i);
      assert s[i] == s[i..i + |sub|][0];
      assert i == 0;
    }
  }

  /** The five private pages count as authenticated. */
  lemma PrivatePagesAreAuthenticated(path: string)
    requires path in [DashboardPath, UserProfilePath, SettingsPath, CoinDetailPath, AddEditPath]
    ensures IsAuthenticated(path)
  {
    assert path[1] != LandingPath[1] && |path| < |AuthPath|;
    assert forall k :: 0 < k < |path| ==> path[k] != '/';
    OnlyPrefixIncludes(path, LandingPath);
    OnlyPrefixIncludes(path, AuthPath);
  }

  /** A path that contains a public page's path, at any position, counts as
      public: the test is a substring test, not a comparison. */
  lemma PublicPagesAreNotAuthenticated(prefix: string, suffix: string)
    ensures !IsAuthenticated(prefix + LandingPath + suffix)
    ensures !IsAuthenticated(prefix + AuthPath + suffix)
  {
    assert OccursAt(prefix + LandingPath + suffix, LandingPath, |prefix|) by {
      assert (prefix + LandingPath + suffix)[|prefix|..|prefix| + |LandingPath|] == LandingPath;
    }
    assert OccursAt(prefix + AuthPath + suffix, AuthPath, |prefix|) by {
      assert (prefix + AuthPath + suffix)[|prefix|..|prefix| + |AuthPath|] == AuthPath;
    }
  }
}
