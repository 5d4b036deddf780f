/** The top-level screen choice. */
module RootNavigator {
  import opened Wrappers
  import opened Records
  import Auth

  datatype Screen = LoadingScreen | AppStack | AuthStack

  /** The loading screen while the session is being restored, then the
      application stack for a signed-in user and the sign-in stack otherwise.
      The token plays no part. */
  function RootScreen(loading: bool, user: Option<AuthUser>): (s: Screen)
    ensures s == LoadingScreen <==> loading
    ensures s == AppStack <==> !loading && user.Some?
    ensures s == AuthStack <==> !loading && user.None?
  {
    if loading then LoadingScreen else if user.Some? then AppStack else AuthStack
  }

  /** What a provider's state renders. */
  function Render(auth: Auth.AuthProvider): Screen
    reads auth
  {
    RootScreen(auth.loading, auth.user)
  }

  /** Two providers that agree on `loading` and `user` render the same
      screen, whatever their tokens. */
  lemma RenderIgnoresToken(a: Auth.AuthProvider, b: Auth.AuthProvider)
    requires a.loading == b.loading && a.user == b.user
    ensures Render(a) == Render(b)
  {
  }
}
