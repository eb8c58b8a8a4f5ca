/** `AppContent` and `Root`: the loading gate, the route table with its role
    guards, and where the root path sends each user. */
module App {
  import opened Wrappers
  import opened JsText
  import opened Router
  import opened UserContext
  import opened PrivateRoute

  datatype Page =
    | LoginPage | SignUpPage
    | AdminDashboard | ManageTasks | CreateTaskPage | ManageUsers
    | UserDashboard | MyTasks | TaskDetails(id: string)

  /** The element a route renders: a public page, a page behind a
      `PrivateRoute`, or `Root`. */
  datatype RouteElement = Public(page: Page) | Guarded(allowedRoles: seq<string>, page: Page) | RootElement

  const AdminRoles: seq<string> := ["admin"]
  const UserRoles: seq<string> := ["user", "member"]

  /** A non-empty path segment, what the `:id` parameter matches. */
  predicate IsSegment(s: string) {
    |s| > 0 && '/' !in s
  }

  /** The `<Routes>` table. */
  function MatchRoute(path: string): (e: Option<RouteElement>)
    ensures path == LoginPath ==> e == Some(Public(LoginPage))
    ensures path == SignUpPath ==> e == Some(Public(SignUpPage))
    ensures path == RootPath ==> e == Some(RootElement)
    ensures e.Some? && e.value.Guarded? ==>
      e.value.allowedRoles == AdminRoles || e.value.allowedRoles == UserRoles
  {
    if path == LoginPath then Some(Public(LoginPage))
    else if path == SignUpPath then Some(Public(SignUpPage))
    else if path == AdminDashboardPath then Some(Guarded(AdminRoles, AdminDashboard))
    else if path == AdminTasksPath then Some(Guarded(AdminRoles, ManageTasks))
    else if path == AdminCreateTaskPath then Some(Guarded(AdminRoles, CreateTaskPage))
    else if path == AdminUsersPath then Some(Guarded(AdminRoles, ManageUsers))
    else if path == UserDashboardPath then Some(Guarded(UserRoles, UserDashboard))
    else if path == UserTasksPath then Some(Guarded(UserRoles, MyTasks))
    else if StartsWith(path, TaskDetailsPrefix) && IsSegment(path[|TaskDetailsPrefix|..]) then
      Some(Guarded(UserRoles, TaskDetails(path[|TaskDetailsPrefix|..])))
    else if path == RootPath then Some(RootElement)
    else None
  }

  /** What the client shows for a path: the spinner, nothing, a page, or a
      replacing redirect. */
  datatype Screen = Spinner | Blank | Show(page: Page) | Navigate(to: string)

  /** `Root`: where the root path sends the current user. */
  function Root(user: Option<User>, loading: bool): (sc: Screen)
    ensures loading ==> sc == Spinner
    ensures !loading && user.None? ==> sc == Navigate(LoginPath)
    ensures !loading && user.Some? && user.value.role == "admin" ==> sc == Navigate(AdminDashboardPath)
    ensures !loading && user.Some? && user.value.role in {"user", "member"} ==> sc == Navigate(UserDashboardPath)
    ensures !loading && user.Some? && user.value.role !in {"admin", "user", "member"} ==> sc == Navigate(LoginPath)
  {
    if loading then Spinner
    else if user.None? then Navigate(LoginPath)
    else if user.value.role == "admin" then Navigate(AdminDashboardPath)
    else if user.value.role == "user" || user.value.role == "member" then Navigate(UserDashboardPath)
    else Navigate(LoginPath)
  }

  /** `AppContent` at `path`: the spinner while the context is missing or
      loading, otherwise the matching route's element. */
  function AppContent(context: Option<Session>, path: string): (sc: Screen)
    ensures context.None? || context.value.loading ==> sc == Spinner
    ensures context.Some? && !context.value.loading && MatchRoute(path).None? ==> sc == Blank
    ensures context.Some? && !context.value.loading && MatchRoute(path).Some? && MatchRoute(path).value.Public? ==>
      sc == Show(MatchRoute(path).value.page)
    ensures context.Some? && !context.value.loading && MatchRoute(path) == Some(RootElement) ==>
      sc == Root(context.value.user, false)
    ensures context.Some? && !context.value.loading && MatchRoute(path).Some? && MatchRoute(path).value.Guarded? ==>
      var g := Guard(MatchRoute(path).value.allowedRoles, context.value.user, false);
      && (sc.Show? <==> g.RenderOutlet?)
      && (sc.Show? ==> sc.page == MatchRoute(path).value.page)
      && (g.Redirect? ==> sc == Navigate(g.to))
  {
    if context.None? || context.value.loading then Spinner
    else
      var s := context.value;
      match MatchRoute(path)
      case None => Blank
      case Some(Public(page)) => Show(page)
      case Some(Guarded(roles, page)) =>
        (match Guard(roles, s.user, s.loading)
         case RenderNothing => Blank
         case Redirect(to) => Navigate(to)
         case RenderOutlet => Show(page))
      case Some(RootElement) => Root(s.user, s.loading)
  }

  /** A signed-in user whose role is not "admin" never sees an admin page:
      each of them sends that user to the root path. */
  lemma {:induction false} AdminPagesRefuseOthers(s: Session, path: string)
    requires !s.loading && s.user.Some? && s.user.value.role != "admin"
    requires path in {AdminDashboardPath, AdminTasksPath, AdminCreateTaskPath, AdminUsersPath}
    ensures AppContent(Some(s), path) == Navigate(RootPath)
  {
    assert MatchRoute(path).value.allowedRoles == AdminRoles;
  }

  /** The screen reached from `path` by following at most `hops` redirects. */
  function Follow(context: Option<Session>, path: string, hops: nat): Screen
    decreases hops
  {
    var sc := AppContent(context, path);
    if sc.Navigate? && hops > 0 then Follow(context, sc.to, hops - 1) else sc
  }

  /** The admin pages sit behind `["admin"]`, the user pages behind
      `["user", "member"]`, and the login and sign-up pages behind nothing. */
  lemma {:induction false} RouteGuards(id: string)
    requires IsSegment(id)
    ensures forall p | p in {AdminDashboardPath, AdminTasksPath, AdminCreateTaskPath, AdminUsersPath} ::
      MatchRoute(p).Some? && MatchRoute(p).value.Guarded? && MatchRoute(p).value.allowedRoles == AdminRoles
    ensures forall p | p in {UserDashboardPath, UserTasksPath, TaskDetailsPrefix + id} ::
      MatchRoute(p).Some? && MatchRoute(p).value.Guarded? && MatchRoute(p).value.allowedRoles == UserRoles
    ensures MatchRoute(LoginPath).value.Public? && MatchRoute(SignUpPath).value.Public?
  {
    var p := TaskDetailsPrefix + id;
    assert p[|TaskDetailsPrefix|..] == id;
    assert StartsWith(p, TaskDetailsPrefix);
  }

  /** Every target `Root` redirects to is a page that renders for that same user. */
  lemma {:induction false} RootTargetsRender(s: Session)
    requires !s.loading
    ensures var sc := Root(s.user, s.loading);
      sc.Navigate? && AppContent(Some(s), sc.to).Show?
  {
  }

  /** No redirect cycle: from any path, within two redirects the client
      settles on something that is not a redirect, and for every path the table
      knows that is a rendered page (the login page included). */
  lemma {:induction false} RedirectsSettle(context: Option<Session>, path: string)
    ensures !Follow(context, path, 2).Navigate?
    ensures context.Some? && !context.value.loading && MatchRoute(path).Some? ==>
      Follow(context, path, 2).Show?
  {
    if context.Some? && !context.value.loading {
      var s := context.value;
      var sc := AppContent(context, path);
      if sc.Navigate? {
        RootTargetsRender(s);
        assert AppContent(context, RootPath) == Root(s.user, s.loading);
      }
    }
  }
}
