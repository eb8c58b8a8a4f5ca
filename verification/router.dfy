/** Navigation requests (`navigate(to, {replace})` and `<Navigate to replace />`)
    and the client's fixed paths. */
module Router {

  const LoginPath := "/login"
  const SignUpPath := "/signup"
  const RootPath := "/"
  const AdminDashboardPath := "/admin/dashboard"
  const AdminTasksPath := "/admin/tasks"
  const AdminCreateTaskPath := "/admin/create-task"
  const AdminUsersPath := "/admin/users"
  const UserDashboardPath := "/user/dashboard"
  const UserTasksPath := "/user/tasks"
  const TaskDetailsPrefix := "/user/task-details/"

  /** One navigation; `replace` says whether it replaces the current history entry. */
  datatype Nav = Nav(to: string, replace: bool)
}
