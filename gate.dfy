/** The root routing decision (App.tsx, `Gate`) on the session's `loading` and `token`. */
module Gate {
  import opened Js
  import opened Auth
  import opened Client

  /** What the root renders. */
  datatype Screen = Nothing | MainNavigator | AuthStack(screens: seq<string>)

  /** The auth stack's screens, in declaration order; the first is the initial route. */
  const AuthScreens: seq<string> := ["Login", "Register"]

  function Route(loading: bool, token: JsValue): Screen {
    if loading then Nothing
    else if Truthy(token) then MainNavigator
    else AuthStack(AuthScreens)
  }

  /**
   * Nothing is rendered while loading; after that the main navigator appears
   * exactly when the token is truthy, and otherwise the auth stack opens on Login.
   */
  lemma RouteSpec(loading: bool, token: JsValue)
    ensures Route(loading, token) == Nothing <==> loading
    ensures Route(loading, token) == MainNavigator <==> !loading && Truthy(token)
    ensures Route(loading, token).AuthStack? <==> !loading && !Truthy(token)
    ensures Route(loading, token).AuthStack? ==> Route(loading, token).screens[0] == "Login"
  {
  }

  /** An empty string counts as signed out, like `null`. */
  lemma EmptyTokenShowsAuthStack()
    ensures Route(false, Str("")) == AuthStack(AuthScreens)
    ensures Route(false, Null) == AuthStack(AuthScreens)
  {
  }

  /** The first render, before the restore effect, shows nothing. */
  lemma FirstRenderShowsNothing(s: AuthState)
    requires s.loading && s.token == Null
    ensures Route(s.loading, s.token) == Nothing
  {
  }

  /** Once restored, a non-empty stored token opens the main navigator, and an empty store the auth stack. */
  lemma RestoredRoute(s: AuthState)
    ensures var t := AfterRestore(s, false);
            (s.saved.Some? && s.saved.value != "" ==> Route(t.loading, t.token) == MainNavigator)
            && (s.saved.None? ==> Route(t.loading, t.token) == AuthStack(AuthScreens))
  {
  }

  /** After logout, the auth stack is shown (once loading is over). */
  lemma LogoutShowsAuthStack(s: AuthState)
    requires !s.loading
    ensures var t := AfterLogout(s); Route(t.loading, t.token) == AuthStack(AuthScreens)
  {
  }

  /** A 401 does not sign the user out of the running app: the route is unchanged. */
  lemma UnauthorizedKeepsRoute(s: AuthState, body: JsValue)
    ensures var t := AfterCall(s, Reply(401, body)); Route(t.loading, t.token) == Route(s.loading, s.token)
  {
  }
}
