/** The gate in front of every signed-in page (`ProtectedRoute`). */
module ProtectedRoute {
  import opened Common
  import opened Domain
  import AuthStore

  datatype Gate =
    | Spinner                        // the session check is in flight
    | RedirectToLogin(from: string)  // to /login, remembering the page asked for
    | EmailPending                   // the e-mail confirmation page
    | Children                       // the protected page itself

  /** Which of the four the route renders for a store state and the requested location. */
  function Decide(s: AuthStore.AuthState, location: string): (g: Gate)
    ensures s.isCheckingAuth ==> g == Spinner
    ensures g.RedirectToLogin? <==> !s.isCheckingAuth && s.user.None?
    ensures g.RedirectToLogin? ==> g.from == location
    ensures g == EmailPending <==> !s.isCheckingAuth && s.user.Some? && !s.user.value.isAccountVerified
    ensures g == Children <==> !s.isCheckingAuth && s.user.Some? && s.user.value.isAccountVerified
  {
    if s.isCheckingAuth then Spinner
    else if s.user.None? then RedirectToLogin(location)
    else if !s.user.value.isAccountVerified then EmailPending
    else Children
  }

  /** Once the session check answers, the page opens exactly when the server returned a
      user with a confirmed e-mail address; a failed check sends the visitor to /login. */
  lemma AfterCheck(reply: Reply<User>, location: string)
    ensures Decide(AuthStore.Settled(reply), location) == Children <==> reply.Ok? && reply.data.isAccountVerified
    ensures reply.Err? ==> Decide(AuthStore.Settled(reply), location) == RedirectToLogin(location)
  {
  }

  /** A freshly loaded page shows the spinner even with a stored user. */
  lemma ReloadShowsSpinner(p: AuthStore.Persisted, location: string)
    ensures Decide(AuthStore.Rehydrate(p), location) == Spinner
  {
  }
}
