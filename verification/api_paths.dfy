/** The REST endpoints of the backend, `API_PATHS` in the client. */
module ApiPaths {
  import opened JsText
  import opened Wrappers

  const BaseUrl := "https://task-manger-backend-2.onrender.com"

  const Login := "/api/auth/login"
  const Register := "/api/auth/register"
  const GetProfile := "/api/auth/profile"

  const GetAllUsers := "/api/users"
  const UsersPrefix := "/api/users/"

  const GetDashboardData := "/api/tasks/dashboard-data"
  const GetUserDashboardData := "/api/tasks/user-dashboard"
  const GetAllTasks := "/api/tasks"
  const CreateTask := "/api/tasks"
  const TasksPrefix := "/api/tasks/"

  const ExportTasks := "/api/reports/export/tasks"
  const ExportUsers := "/api/reports/export/users"
  const UploadImage := "/api/upload"
  const UploadsImage := "/uploads"

  /** `GET_USER_BY_ID(userId)`. */
  function GetUserById(userId: string): (p: string)
    ensures StartsWith(p, UsersPrefix) && |p| == |UsersPrefix| + |userId|
  {
    "/api/users/" + userId
  }

  /** `UPDATE_USER(userId)`. */
  function UpdateUser(userId: string): (p: string)
    ensures StartsWith(p, UsersPrefix) && |p| == |UsersPrefix| + |userId|
  {
    "/api/users/" + userId
  }

  /** `GET_TASK_BY_ID(taskId)`. */
  function GetTaskById(taskId: string): (p: string)
    ensures StartsWith(p, TasksPrefix) && |p| == |TasksPrefix| + |taskId|
  {
    "/api/tasks/" + taskId
  }

  /** `UPDATE_TASK(taskId)`. */
  function UpdateTask(taskId: string): (p: string)
    ensures StartsWith(p, TasksPrefix) && |p| == |TasksPrefix| + |taskId|
  {
    "/api/tasks/" + taskId
  }

  /** `DELETE_TASK(taskId)`. */
  function DeleteTask(taskId: string): (p: string)
    ensures StartsWith(p, TasksPrefix) && |p| == |TasksPrefix| + |taskId|
  {
    "/api/tasks/" + taskId
  }

  /** `UPDATE_TASK_STATUS(taskId)`. */
  function UpdateTaskStatus(taskId: string): (p: string)
    ensures StartsWith(p, TasksPrefix)
  {
    "/api/tasks/" + taskId + "/status"
  }

  /** `UPDATE_TODO_CHECKLIST(taskId)`. */
  function UpdateTodoChecklist(taskId: string): (p: string)
    ensures StartsWith(p, TasksPrefix)
  {
    "/api/tasks/" + taskId + "/todo"
  }

  /** Reads the task id back out of a task path: the inverse of the task path builders. */
  function TaskIdOf(path: string): (id: Option<string>)
    ensures id.Some? <==> StartsWith(path, TasksPrefix)
    ensures id.Some? ==> path == TasksPrefix + id.value
  {
    if StartsWith(path, TasksPrefix) then Some(path[|TasksPrefix|..]) else None
  }

  /** Reads the user id back out of a user path: the inverse of the user path builders. */
  function UserIdOf(path: string): (id: Option<string>)
    ensures id.Some? <==> StartsWith(path, UsersPrefix)
    ensures id.Some? ==> path == UsersPrefix + id.value
  {
    if StartsWith(path, UsersPrefix) then Some(path[|UsersPrefix|..]) else None
  }

  /** The user id is recovered from the path of either user builder, so
      distinct ids give distinct paths. */
  lemma {:induction false} UserPathRoundTrip(a: string, b: string)
    ensures UserIdOf(GetUserById(a)) == Some(a) && UserIdOf(UpdateUser(a)) == Some(a)
    ensures GetUserById(a) == GetUserById(b) ==> a == b
    ensures UpdateUser(a) == UpdateUser(b) ==> a == b
  {
    assert GetUserById(a)[|UsersPrefix|..] == a;
    assert GetUserById(b)[|UsersPrefix|..] == b;
  }

  /** The three builders of the single-task path agree on every id. */
  lemma TaskPathsAgree(taskId: string)
    ensures GetTaskById(taskId) == UpdateTask(taskId) == DeleteTask(taskId)
    ensures GetUserById(taskId) == UpdateUser(taskId)
    ensures CreateTask == GetAllTasks
  {
  }

  /** The task id is recovered from its path, so distinct ids give distinct paths. */
  lemma {:induction false} TaskPathRoundTrip(a: string, b: string)
    ensures TaskIdOf(GetTaskById(a)) == Some(a)
    ensures GetTaskById(a) == GetTaskById(b) ==> a == b
  {
    assert GetTaskById(a)[|TasksPrefix|..] == a;
    assert GetTaskById(b)[|TasksPrefix|..] == b;
  }

  /** The status and checklist paths extend the task path of the same id. */
  lemma {:induction false} SubresourcePaths(taskId: string)
    ensures UpdateTaskStatus(taskId) == GetTaskById(taskId) + "/status"
    ensures UpdateTodoChecklist(taskId) == GetTaskById(taskId) + "/todo"
  {
  }
}
