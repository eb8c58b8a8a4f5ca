/** `useUserAuth`: the effect that clears the user and goes to the login page
    once loading has finished without a user. */
module UseUserAuth {
  import opened Wrappers
  import opened Router
  import opened UserContext

  /** What the context holds under the name `clearUser`: nothing, something
      that is not a function, or a function (which may throw). */
  datatype ClearUserMember = Missing | NotAFunction | Callable(throws: bool)

  /** The slice of the context value the hook reads. */
  datatype ContextValue = ContextValue(user: Option<User>, loading: bool, clearUser: ClearUserMember)

  /** The value `UserProvider` publishes: `user`, `loading`, `updateUser` and
      `logout`, and no `clearUser`. */
  function ProviderValue(s: Session): (v: ContextValue)
    ensures v.user == s.user && v.loading == s.loading && v.clearUser == Missing
  {
    ContextValue(s.user, s.loading, Missing)
  }

  /** What one run of the effect does. */
  datatype AuthEffect = NoAction | Cleared | ClearedAndNavigated(nav: Nav)

  /** One run of the hook's effect. */
  function UserAuthEffect(v: ContextValue): (e: AuthEffect)
    ensures v.loading || v.user.Some? ==> e == NoAction
    ensures !v.loading && v.user.None? && v.clearUser.Callable? && !v.clearUser.throws ==>
      e == ClearedAndNavigated(Nav(LoginPath, false))
    ensures !v.loading && v.user.None? && v.clearUser.Callable? && v.clearUser.throws ==> e == Cleared
    ensures !v.clearUser.Callable? ==> e == NoAction
    ensures e != NoAction <==> !v.loading && v.user.None? && v.clearUser.Callable?
  {
    if v.loading then NoAction
    else if v.user.Some? then NoAction
    else match v.clearUser
      case Callable(throws) => if throws then Cleared else ClearedAndNavigated(Nav(LoginPath, false))
      case _ => NoAction
  }

  /** Under `UserProvider` the hook never acts: the provider supplies no
      `clearUser`, so a signed-out visitor is not redirected by it. */
  lemma ProviderHookIsInert(s: Session)
    ensures UserAuthEffect(ProviderValue(s)) == NoAction
  {
  }
}
