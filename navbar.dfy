/** The navigation bar: the logout button and the highlighted menu link.
    The home page's own logout button does the same as this one. */
module Navbar {
  import opened Types
  import Browser
  import AuthGuard

  /** Where logout sends the browser. */
  const LogoutTarget := "/login"

  /** The storage keys logout removes. */
  const SessionKeys: set<string> := {"token", "refresh_token"}

  /** `handleLogout`: drop the two session keys, then load the logout target. */
  method HandleLogout(b: Browser.Browser)
    modifies b
    ensures b.storage == old(b.storage) - SessionKeys
    ensures forall k :: k in old(b.storage) && k !in SessionKeys ==> k in b.storage && b.storage[k] == old(b.storage)[k]
    ensures b.href == LogoutTarget && b.pushed == old(b.pushed)
  {
    b.RemoveItem("token");
    b.RemoveItem("refresh_token");
    b.Assign(LogoutTarget);
  }

  /** Logging out twice leaves the storage as logging out once. */
  lemma LogoutIdempotent(storage: map<string, string>)
    ensures (storage - SessionKeys) - SessionKeys == storage - SessionKeys
  {
  }

  /** Logout does not remove "accessToken", which the guard still accepts:
      after logout the guard sees exactly what that key holds. */
  lemma AccessTokenSurvivesLogout(storage: map<string, string>)
    ensures AuthGuard.GetStoredToken(storage - SessionKeys) ==
      (if "accessToken" in storage then Some(storage["accessToken"]) else None)
  {
    var after := storage - SessionKeys;
    assert "token" !in after;
    assert "accessToken" !in SessionKeys by {
      assert |"accessToken"| != |"token"| && |"accessToken"| != |"refresh_token"|;
    }
  }

  /** The logout target is not one of the guard's public paths. */
  lemma LogoutTargetGuarded()
    ensures !AuthGuard.IsPublicPage(LogoutTarget)
  {
    AuthGuard.PublicPaths();
  }

  /** The Main link is highlighted on the home path, a public one. */
  predicate MainActive(pathname: string)
    ensures MainActive(pathname) ==> AuthGuard.IsPublicPage(pathname)
  {
    pathname == "/"
  }

  /** The Saved link is highlighted on "/saved", which is not public. */
  predicate SavedActive(pathname: string)
    ensures SavedActive(pathname) ==> !AuthGuard.IsPublicPage(pathname)
  {
    AuthGuard.PublicPaths();
    pathname == "/saved"
  }

  /** At most one menu link is highlighted, whatever the path. */
  lemma AtMostOneActive(pathname: string)
    ensures !(MainActive(pathname) && SavedActive(pathname))
    ensures MainActive("/") && SavedActive("/saved")
  {
  }
}
