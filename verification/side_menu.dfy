/** `SideMenu`: the menu chosen by role, menu clicks, and the logout entry. */
module SideMenu {
  import opened Wrappers
  import opened JsText
  import opened Router
  import opened UserContext

  /** Which list of entries the menu shows (the lists themselves are data the
      client defines elsewhere). */
  datatype MenuData = NoEntries | AdminMenu | UserMenu

  /** The effect `[user]` has on the menu: nothing without a user, the admin
      menu for `admin`, the user menu for any other role. */
  function MenuFor(user: Option<User>, current: MenuData): (m: MenuData)
    ensures user.None? ==> m == current
    ensures user.Some? ==> (m == AdminMenu <==> user.value.role == "admin")
    ensures user.Some? && user.value.role != "admin" ==> m == UserMenu
  {
    if user.Some? then (if user.value.role == "admin" then AdminMenu else UserMenu) else current
  }

  const LogoutRoute := "logout"

  /** The effect of a click: the new session and the navigations, in order. */
  datatype ClickResult = ClickResult(session: Session, navigations: seq<Nav>)

  /** `handleLogout`: call the context's `logout`, then go to the login page,
      replacing history, whether or not `logout` threw. A `logout` that throws
      is taken to throw before changing anything. */
  function HandleLogout(s: Session, logoutThrows: bool): (r: ClickResult)
    ensures |r.navigations| >= 1 && r.navigations[|r.navigations| - 1] == Nav(LoginPath, true)
    ensures forall i | 0 <= i < |r.navigations| :: r.navigations[i].to == LoginPath
    ensures !logoutThrows ==> r.session == Logout(s).session
    ensures logoutThrows ==> r.session == s
  {
    if logoutThrows then ClickResult(s, [Nav(LoginPath, true)])
    else
      var out := Logout(s);
      ClickResult(out.session, [out.navigation, Nav(LoginPath, true)])
  }

  /** `handleClick(route)`: a route spelled "logout" in any letter case logs
      out; every other route is navigated to as given. */
  function HandleClick(s: Session, route: string, logoutThrows: bool): (r: ClickResult)
    ensures ToLower(route) == LogoutRoute ==>
      r == HandleLogout(s, logoutThrows) && Nav(route, false) !in r.navigations
    ensures ToLower(route) != LogoutRoute ==> r == ClickResult(s, [Nav(route, false)])
  {
    if ToLower(route) == LogoutRoute then
      assert route != LoginPath by {
        assert LogoutRoute[0] == LowerChar(route[0]);
      }
      HandleLogout(s, logoutThrows)
    else ClickResult(s, [Nav(route, false)])
  }

  /** A route is treated as logout exactly when it is "logout" up to the case
      of its ASCII letters. */
  lemma {:induction false} LogoutRouteSpellings(route: string)
    ensures ToLower(route) == LogoutRoute <==>
      |route| == 6 && forall i | 0 <= i < 6 :: LowerChar(route[i]) == LogoutRoute[i]
  {
    if |route| == 6 && forall i | 0 <= i < 6 :: LowerChar(route[i]) == LogoutRoute[i] {
      assert forall i | 0 <= i < 6 :: ToLower(route)[i] == LogoutRoute[i];
    }
  }

  /** Clicking a logout entry twice leaves the same session as clicking it once. */
  lemma LogoutClickIdempotent(s: Session)
    ensures HandleLogout(HandleLogout(s, false).session, false).session == HandleLogout(s, false).session
  {
    LogoutIdempotent(s);
  }
}
