/** The route gate of src/App.tsx: what `ProtectedRoute` renders for the
    authentication state. */
module App {
  import opened Types
  import AuthContext
  import Storage

  /** The loading screen, the login/signup screens, or the protected page. */
  datatype Screen = LoadingScreen | AuthScreen | Children

  /** `ProtectedRoute`'s chain of early returns. */
  function Gate(state: AuthState): (screen: Screen)
    ensures state.isLoading ==> screen == LoadingScreen
    ensures !state.isLoading && !state.isAuthenticated ==> screen == AuthScreen
    ensures !state.isLoading && state.isAuthenticated && state.user.None? ==> screen == AuthScreen
    ensures screen == Children <==> !state.isLoading && state.isAuthenticated && state.user.Some?
  {
    if state.isLoading then LoadingScreen
    else if !state.isAuthenticated then AuthScreen
    else if state.user.None? then AuthScreen
    else Children
  }

  /** The first render, before the session is restored, shows the loading
      screen. */
  lemma InitialShowsLoading()
    ensures Gate(AuthContext.InitialState) == LoadingScreen
  {
  }

  /** Whenever the provider's state is settled (loading off, and
      authenticated exactly when a user is present), the page is shown
      exactly when a user is signed in. */
  lemma SettledGate(state: AuthState)
    requires AuthContext.Settled(state)
    ensures Gate(state) == Children <==> state.user.Some?
    ensures Gate(state) != LoadingScreen
  {
  }

  /** After the session is restored from the initial state, the page is
      shown exactly when the stored record parses to a user; a stored
      `null` authenticates without a user and is caught by the extra
      check. */
  lemma RestoredGate(store: Storage.Store)
    ensures var r := Storage.ReadSession(store);
            var state := if r.Parsed? then AuthState(r.value, true, false)
                         else AuthContext.InitialState.(isLoading := false);
            (Gate(state) == Children <==> r.Parsed? && r.value.Some?)
            && (r == Storage.Parsed(None) ==> state.isAuthenticated && Gate(state) == AuthScreen)
  {
  }
}
