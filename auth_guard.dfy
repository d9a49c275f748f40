/** The session guard mounted by the home, reports and detail pages: where
    the token is read from, which paths are public, the mount-time check,
    what is rendered, and the create-once handling of the shared real-time
    connection. */
module AuthGuard {
  import opened Types
  import opened Text

  /** Where an unauthenticated visitor is sent. */
  const LoginRoute := "/auth/login"

  /** A JavaScript string or null used as a condition. */
  predicate Truthy(t: Option<string>)
  {
    t.Some? && t.value != ""
  }

  predicate StoredNonEmpty(storage: map<string, string>, key: string)
  {
    key in storage && storage[key] != ""
  }

  /** `getStoredToken`: `getItem("token") || getItem("accessToken")`. The
      first value wins when it is non-empty; otherwise the second is returned
      as it is, which may be the empty string. */
  function GetStoredToken(storage: map<string, string>): (t: Option<string>)
    ensures Truthy(t) <==> StoredNonEmpty(storage, "token") || StoredNonEmpty(storage, "accessToken")
    ensures StoredNonEmpty(storage, "token") ==> t == Some(storage["token"])
    ensures !StoredNonEmpty(storage, "token") && Truthy(t) ==> t == Some(storage["accessToken"])
    ensures t.None? <==> !StoredNonEmpty(storage, "token") && "accessToken" !in storage
  {
    if StoredNonEmpty(storage, "token") then Some(storage["token"])
    else if "accessToken" in storage then Some(storage["accessToken"])
    else None
  }

  /** `pathname.startsWith("/auth") || pathname === "/"`. Every public path
      is rooted. */
  predicate IsPublicPage(pathname: string)
    ensures IsPublicPage(pathname) ==> |pathname| >= 1 && pathname[0] == '/'
  {
    StartsWith(pathname, "/auth") || pathname == "/"
  }

  /** The prefix test is textual: any path beginning with "/auth" is public,
      "/authors" included, while the application pages are guarded. */
  lemma PublicPaths()
    ensures IsPublicPage("/") && IsPublicPage(LoginRoute) && IsPublicPage("/authors")
    ensures !IsPublicPage("/saved") && !IsPublicPage("/reports") && !IsPublicPage("/stats")
    ensures !IsPublicPage("/login")
  {
    assert LoginRoute[..5] == "/auth";
    assert "/authors"[..5] == "/auth";
    DiffersAt("/saved", "/auth", 1);
    DiffersAt("/reports", "/auth", 1);
    DiffersAt("/stats", "/auth", 1);
    DiffersAt("/login", "/auth", 1);
    assert |"/saved"| != 1 && |"/reports"| != 1 && |"/stats"| != 1 && |"/login"| != 1;
  }

  /** What the guard renders. */
  datatype View =
    | Children                                  // the page alone
    | CheckingScreen                            // "checking authentication"
    | Blank                                     // nothing
    | ChildrenWithRealtime(token: Option<string>) // the page inside the real-time provider

  /** The render decision, first match wins: public, loading, not
      authenticated, authenticated. */
  function Render(isPublic: bool, isLoading: bool, isAuthenticated: bool, token: Option<string>): (v: View)
    ensures v == Children <==> isPublic
    ensures v == CheckingScreen <==> !isPublic && isLoading
    ensures v == Blank <==> !isPublic && !isLoading && !isAuthenticated
    ensures v.ChildrenWithRealtime? <==> !isPublic && !isLoading && isAuthenticated
    ensures v.ChildrenWithRealtime? ==> v.token == token
  {
    if isPublic then Children
    else if isLoading then CheckingScreen
    else if !isAuthenticated then Blank
    else ChildrenWithRealtime(token)
  }

  class Guard {
    var isLoading: bool
    var isAuthenticated: bool
    var token: Option<string>

    constructor ()
      ensures isLoading && !isAuthenticated && token == None
    {
      isLoading := true;
      isAuthenticated := false;
      token := None;
    }

    /** What the guard renders on `pathname` in its current state. */
    function CurrentView(pathname: string): (v: View)
      reads this
      ensures v == Children <==> IsPublicPage(pathname)
      ensures v.ChildrenWithRealtime? ==> isAuthenticated && !isLoading && v.token == token
    {
      Render(IsPublicPage(pathname), isLoading, isAuthenticated, token)
    }

    /** `checkAuth`: returns the path it asks the router to push, if any. */
    method CheckAuth(pathname: string, storage: map<string, string>) returns (redirect: Option<string>)
      modifies this
      ensures IsPublicPage(pathname) ==>
        redirect == None && !isLoading && isAuthenticated == old(isAuthenticated) && token == old(token)
      ensures !IsPublicPage(pathname) && !Truthy(GetStoredToken(storage)) ==>
        redirect == Some(LoginRoute)
        && isLoading == old(isLoading) && isAuthenticated == old(isAuthenticated) && token == old(token)
      ensures !IsPublicPage(pathname) && Truthy(GetStoredToken(storage)) ==>
        redirect == None && token == GetStoredToken(storage) && isAuthenticated && !isLoading
    {
      redirect := None;
      if IsPublicPage(pathname) {
        isLoading := false;
        return;
      }
      var storedToken := GetStoredToken(storage);
      if !Truthy(storedToken) {
        redirect := Some(LoginRoute);
      } else {
        token := storedToken;
        isAuthenticated := true;
        isLoading := false;
      }
    }
  }

  /** A freshly mounted guard once its check has run: public pages show
      alone, a stored token unlocks the page inside the real-time provider,
      and without one the visitor waits on the checking screen while being
      sent to the login route. The page is never shown on a guarded path
      without a token. */
  method SettledView(pathname: string, storage: map<string, string>) returns (view: View, redirect: Option<string>)
    ensures IsPublicPage(pathname) ==> view == Children && redirect == None
    ensures !IsPublicPage(pathname) && Truthy(GetStoredToken(storage)) ==>
      view == ChildrenWithRealtime(GetStoredToken(storage)) && redirect == None
    ensures !IsPublicPage(pathname) && !Truthy(GetStoredToken(storage)) ==>
      view == CheckingScreen && redirect == Some(LoginRoute)
  {
    var guard := new Guard();
    redirect := guard.CheckAuth(pathname, storage);
    view := guard.CurrentView(pathname);
  }

  /** States of a hub connection, as the real-time library reports them. */
  datatype HubState = Disconnected | Connecting | Connected | Disconnecting | Reconnecting

  /** A built connection: the hub address and the token its access-token
      factory returns. */
  datatype HubConnection = HubConnection(hubUrl: string, accessToken: string)

  /** What one run of the manager's effect did. */
  datatype EffectStep = NoToken | StartAttempted | Republished | LeftAlone

  const DefaultHubUrl := "http://localhost:7002/hubs/surveillance"

  /** `process.env.NEXT_PUBLIC_WEBSOCKETS_URL ?? <default>`: only an unset
      variable falls back, so a variable set to the empty string is kept. */
  function HubUrl(configured: Option<string>): (url: string)
    ensures configured.Some? ==> url == configured.value
    ensures url == "" <==> configured == Some("")
  {
    configured.GetOr(DefaultHubUrl)
  }

  /** The connection manager mounted under an authenticated guard. */
  class SignalRManager {
    var connection: Option<HubConnection>   // the ref's current value
    var published: Option<HubConnection>    // what the provider hands to consumers
    var startAttempts: nat
    ghost var built: nat                    // connections built so far

    /** A mounted manager builds at most one connection, and publishes only
        that one. Each mounted guard has its own manager. */
    ghost predicate Valid()
      reads this
    {
      built == (if connection.Some? then 1 else 0)
      && (published.Some? ==> published == connection)
    }

    constructor ()
      ensures Valid()
      ensures connection == None && published == None && startAttempts == 0
    {
      connection := None;
      published := None;
      startAttempts := 0;
      built := 0;
    }

    /** One run of the effect for the current token. `observed` is the state
        the library reports for the held connection (a newly built one is
        disconnected) and `startSucceeds` the fate of `start()`. */
    method RunEffect(configuredUrl: Option<string>, token: Option<string>, observed: HubState, startSucceeds: bool)
      returns (step: EffectStep)
      requires Valid()
      requires connection.None? ==> observed == Disconnected
      modifies this
      ensures Valid()
      ensures !Truthy(token) ==>
        step == NoToken && connection == old(connection) && published == old(published)
      ensures Truthy(token) ==>
        connection == (if old(connection).None? then Some(HubConnection(HubUrl(configuredUrl), token.value)) else old(connection))
      ensures Truthy(token) ==>
        step == (if observed == Disconnected then StartAttempted else if observed == Connected then Republished else LeftAlone)
      ensures startAttempts == old(startAttempts) + (if step == StartAttempted then 1 else 0)
      ensures published ==
        (if step == Republished || (step == StartAttempted && startSucceeds) then connection else old(published))
    {
      if !Truthy(token) {
        return NoToken;
      }
      if connection.None? {
        connection := Some(HubConnection(HubUrl(configuredUrl), token.value));
        built := built + 1;
      }
      var conn := connection.value;
      if observed == Disconnected {
        startAttempts := startAttempts + 1;
        step := StartAttempted;
        if startSucceeds {
          published := Some(conn);
        }
      } else if observed == Connected {
        step := Republished;
        published := Some(conn);
      } else {
        step := LeftAlone;
      }
    }
  }
}
