/** `ProtectedRoute`: what a guarded admin page renders, from the session's two flags. */
module ProtectedRoute {
  import opened Wrappers
  import opened AuthSession

  /** What a guard renders: the loading spinner, a navigation, or the wrapped page. */
  datatype View = Spinner | Navigate(to: string, replace: bool) | Children

  /**
   * The guard: only the spinner while loading; once loaded, the wrapped page
   * when signed in, and a replace-navigation to the admin login otherwise.
   */
  function Guard(isLoading: bool, isAdminAuthenticated: bool): (v: View)
    ensures v == Spinner <==> isLoading
    ensures v == Children <==> !isLoading && isAdminAuthenticated
    ensures v.Navigate? <==> !isLoading && !isAdminAuthenticated
    ensures v.Navigate? ==> v == Navigate("/admin/login", true)
  {
    if isLoading then Spinner
    else if !isAdminAuthenticated then Navigate("/admin/login", true)
    else Children
  }

  /** Right after the mount effect, a guarded page shows exactly when the stored session was restorable. */
  lemma GuardAfterRestore(store: Store, decode: string -> Decoded, parse: string -> Option<AdminProfile>, now: real)
    ensures var s := Restore(store, decode, parse, now);
            Guard(s.loading, s.authenticated) == Children <==> Restorable(store, decode, parse, now)
    ensures var s := Restore(store, decode, parse, now);
            Guard(s.loading, s.authenticated) != Spinner
  {
  }

  /** Before the mount effect has run, every guarded page shows the spinner and nothing else. */
  lemma GuardBeforeRestore(store: Store)
    ensures Guard(Initial(store).loading, Initial(store).authenticated) == Spinner
  {
  }

  /** After a logout, or an expiry check that signed the admin out, no guarded page shows its content. */
  lemma GuardAfterLogout(s: Session, decode: string -> Decoded, now: real)
    ensures Guard(Logout(s).loading, Logout(s).authenticated) != Children
    ensures ExpiryCheck(s, decode, now).0 ==>
              Guard(ExpiryCheck(s, decode, now).1.loading, ExpiryCheck(s, decode, now).1.authenticated) != Children
  {
  }
}
