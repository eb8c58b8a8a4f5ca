/** `PrivateRoute`: the role guard around the protected pages. */
module PrivateRoute {
  import opened Wrappers
  import opened Router
  import opened UserContext

  /** What the guard renders: nothing, a replacing redirect, or the nested page. */
  datatype GuardOutcome = RenderNothing | Redirect(to: string) | RenderOutlet

  /** The role used for the membership test: `member` counts as `user`. */
  function NormalizeRole(role: string): (r: string)
    ensures role == "member" ==> r == "user"
    ensures role != "member" ==> r == role
    ensures r != "member"
  {
    if role == "member" then "user" else role
  }

  /** `PrivateRoute({allowedRoles})` for the context's `user` and `loading`. */
  function Guard(allowedRoles: seq<string>, user: Option<User>, loading: bool): (o: GuardOutcome)
    ensures loading ==> o == RenderNothing
    ensures !loading && user.None? ==> o == Redirect(LoginPath)
    ensures !loading && user.Some? ==>
      (o == RenderOutlet <==> NormalizeRole(user.value.role) in allowedRoles) &&
      (o != RenderOutlet ==> o == Redirect(RootPath))
  {
    if loading then RenderNothing
    else if user.None? then Redirect(LoginPath)
    else if NormalizeRole(user.value.role) !in allowedRoles then Redirect(RootPath)
    else RenderOutlet
  }

  /** A signed-in user is never sent to the login page by the guard. */
  lemma SignedInNeverSentToLogin(allowedRoles: seq<string>, user: Option<User>, loading: bool)
    requires user.Some?
    ensures Guard(allowedRoles, user, loading) != Redirect(LoginPath)
  {
  }

  /** Because `member` is renamed before the test, a guard listing only
      "member" never admits a member. */
  lemma MemberOnlyGuardExcludesMembers(user: User)
    requires user.role == "member"
    ensures Guard(["member"], Some(user), false) == Redirect(RootPath)
  {
  }

  /** The alias: a member passes a guard that lists "user". */
  lemma MemberPassesUserGuard(allowedRoles: seq<string>, user: User)
    requires user.role == "member" && "user" in allowedRoles
    ensures Guard(allowedRoles, Some(user), false) == RenderOutlet
  {
  }
}
