/** The task form of `CreateTask`: its field record, `handleValueChange`,
    `clearData`, the ordered checks of `handleSubmit`, the create/update
    branch with the checklist payload, the handling of the save response,
    and the loading of an existing task. */
module CreateTask {
  import opened Wrappers
  import opened JsText
  import opened Router
  import ApiPaths
  import opened AxiosInstance
  import opened SelectUsers

  /** A checklist entry of the form: a string, or `undefined` (what reading a
      missing field of a loaded item yields). */
  datatype ChecklistEntry = Text(text: string) | Undefined

  /** `taskData`. A missing `dueDate` (`null`) is "" here: the form only tests
      it for truthiness before a request is made. */
  datatype TaskData = TaskData(
    title: string,
    description: string,
    priority: string,
    dueDate: string,
    assignedTo: seq<Assignee>,
    todoChecklist: seq<ChecklistEntry>,
    attachments: seq<string>)

  /** The record the form starts from and `clearData` restores. */
  const InitialTask := TaskData("", "", "Low", "", [], [], [])

  /** `clearData`: back to the initial record, whatever was entered. */
  function ClearData(d: TaskData): (r: TaskData)
    ensures r.title == "" && r.description == "" && r.dueDate == "" && r.priority == "Low"
    ensures r.assignedTo == [] && r.todoChecklist == [] && r.attachments == []
  {
    InitialTask
  }

  /** The key and value passed to `handleValueChange`. */
  datatype FieldValue =
    | Title(title: string)
    | Description(description: string)
    | Priority(priority: string)
    | DueDate(dueDate: string)
    | AssignedTo(assignedTo: seq<Assignee>)
    | TodoChecklist(todoChecklist: seq<ChecklistEntry>)
    | Attachments(attachments: seq<string>)

  /** `handleValueChange(key, value)`: set the named field and keep the others. */
  function HandleValueChange(d: TaskData, v: FieldValue): (r: TaskData)
    ensures r.title == (if v.Title? then v.title else d.title)
    ensures r.description == (if v.Description? then v.description else d.description)
    ensures r.priority == (if v.Priority? then v.priority else d.priority)
    ensures r.dueDate == (if v.DueDate? then v.dueDate else d.dueDate)
    ensures r.assignedTo == (if v.AssignedTo? then v.assignedTo else d.assignedTo)
    ensures r.todoChecklist == (if v.TodoChecklist? then v.todoChecklist else d.todoChecklist)
    ensures r.attachments == (if v.Attachments? then v.attachments else d.attachments)
  {
    match v
    case Title(x) => d.(title := x)
    case Description(x) => d.(description := x)
    case Priority(x) => d.(priority := x)
    case DueDate(x) => d.(dueDate := x)
    case AssignedTo(x) => d.(assignedTo := x)
    case TodoChecklist(x) => d.(todoChecklist := x)
    case Attachments(x) => d.(attachments := x)
  }

  /** The checks of `handleSubmit`, one constructor per error it can report. */
  datatype Check =
    | TitleRequired | DescriptionRequired | PriorityRequired | DueDateRequired
    | NoAssignee | NoChecklistItem | NoAttachment
    | TooManyAttachments | TooManyChecklistItems | TooManyAssignees
    | TitleTooLong | DescriptionTooLong | ChecklistItemTooLong | AttachmentTooLong

  /** The order in which `handleSubmit` runs its checks. */
  const CheckOrder: seq<Check> := [
    TitleRequired, DescriptionRequired, PriorityRequired, DueDateRequired,
    NoAssignee, NoChecklistItem, NoAttachment,
    TooManyAttachments, TooManyChecklistItems, TooManyAssignees,
    TitleTooLong, DescriptionTooLong, ChecklistItemTooLong, AttachmentTooLong]

  function Message(c: Check): string {
    match c
    case TitleRequired => "Task title is required."
    case DescriptionRequired => "Task description is required."
    case PriorityRequired => "Task priority is required."
    case DueDateRequired => "Task due date is required."
    case NoAssignee => "At least one user must be assigned to the task."
    case NoChecklistItem => "At least one checklist item is required."
    case NoAttachment => "At least one attachment is required."
    case TooManyAttachments => "You can only attach up to 5 files."
    case TooManyChecklistItems => "You can only add up to 10 checklist items."
    case TooManyAssignees => "You can only assign the task to up to 5 users."
    case TitleTooLong => "Task title cannot exceed 100 characters."
    case DescriptionTooLong => "Task description cannot exceed 500 characters."
    case ChecklistItemTooLong => "Each checklist item cannot exceed 100 characters."
    case AttachmentTooLong => "Each attachment link cannot exceed 200 characters."
  }

  /** The outcome of one check: it passes, it fails, or evaluating it throws. */
  datatype Verdict = Pass | Fail | Throw

  /** `todoChecklist.some(item => item.length > 100)`: scans left to right,
      stops at the first long item, and throws on an `undefined` entry (which
      has no `length`) reached before any long item. */
  function ScanChecklist(entries: seq<ChecklistEntry>): (v: Verdict)
    ensures v == Pass <==> ShortTextsBefore(entries, |entries|)
    ensures v == Throw <==> exists i | 0 <= i < |entries| :: entries[i].Undefined? && ShortTextsBefore(entries, i)
    decreases |entries|
  {
    if |entries| == 0 then Pass
    else match entries[0]
      case Undefined =>
        assert entries[0].Undefined? && ShortTextsBefore(entries, 0);
        Throw
      case Text(t) =>
        if Utf16Length(t) > 100 then
          assert forall i | 0 < i <= |entries| :: !ShortTextsBefore(entries, i);
          Fail
        else
          var rest := ScanChecklist(entries[1..]);
          assert forall i | 1 <= i < |entries| :: entries[i] == entries[1..][i - 1];
          assert forall i | 1 <= i <= |entries| :: ShortTextsBefore(entries, i) == ShortTextsBefore(entries[1..], i - 1);
          if rest == Throw then
            var i :| 0 <= i < |entries| - 1 && entries[1..][i].Undefined? && ShortTextsBefore(entries[1..], i);
            assert entries[i + 1].Undefined? && ShortTextsBefore(entries, i + 1);
            rest
          else
            rest
  }

  /** The first `n` entries are all strings of at most 100 UTF-16 units: the
      scan gets past them without stopping or throwing. */
  predicate ShortTextsBefore(entries: seq<ChecklistEntry>, n: nat)
    requires n <= |entries|
  {
    forall j | 0 <= j < n :: entries[j].Text? && Utf16Length(entries[j].text) <= 100
  }

  /** A check on its own, as an independent reading of the form's rules. */
  function Evaluate(d: TaskData, c: Check): Verdict {
    match c
    case TitleRequired => if d.title == "" then Fail else Pass
    case DescriptionRequired => if d.description == "" then Fail else Pass
    case PriorityRequired => if d.priority == "" then Fail else Pass
    case DueDateRequired => if d.dueDate == "" then Fail else Pass
    case NoAssignee => if |d.assignedTo| == 0 then Fail else Pass
    case NoChecklistItem => if |d.todoChecklist| == 0 then Fail else Pass
    case NoAttachment => if |d.attachments| == 0 then Fail else Pass
    case TooManyAttachments => if |d.attachments| > 5 then Fail else Pass
    case TooManyChecklistItems => if |d.todoChecklist| > 10 then Fail else Pass
    case TooManyAssignees => if |d.assignedTo| > 5 then Fail else Pass
    case TitleTooLong => if Utf16Length(d.title) > 100 then Fail else Pass
    case DescriptionTooLong => if Utf16Length(d.description) > 500 then Fail else Pass
    case ChecklistItemTooLong => ScanChecklist(d.todoChecklist)
    case AttachmentTooLong =>
      if exists i | 0 <= i < |d.attachments| :: Utf16Length(d.attachments[i]) > 200 then Fail else Pass
  }

  /** Where a run of checks stops. */
  datatype RunResult = AllPass | FailedAt(check: Check) | ThrewAt(check: Check)

  /** Runs `checks` in order and stops at the first that does not pass. */
  function RunChecks(d: TaskData, checks: seq<Check>): (r: RunResult)
    ensures r.AllPass? <==> forall i | 0 <= i < |checks| :: Evaluate(d, checks[i]) == Pass
    ensures !r.AllPass? ==> exists i | 0 <= i < |checks| ::
      && checks[i] == r.check
      && Evaluate(d, checks[i]) == (if r.FailedAt? then Fail else Throw)
      && forall j | 0 <= j < i :: Evaluate(d, checks[j]) == Pass
    decreases |checks|
  {
    if |checks| == 0 then AllPass
    else
      match Evaluate(d, checks[0])
      case Fail => FailedAt(checks[0])
      case Throw => ThrewAt(checks[0])
      case Pass =>
        var r := RunChecks(d, checks[1..]);
        assert forall i | 1 <= i < |checks| :: checks[i] == checks[1..][i - 1];
        r
  }

  /** The checklist as the create request sends it. */
  datatype TodoItem = TodoItem(text: string, completed: bool)

  /** The body of the create request (the due date is passed on as entered;
      its ISO conversion is not modelled). */
  datatype CreatePayload = CreatePayload(
    title: string,
    description: string,
    priority: string,
    dueDate: string,
    assignedTo: seq<Assignee>,
    todoChecklist: seq<TodoItem>,
    attachments: seq<string>)

  /** `todoChecklist.map(item => ({text: item, completed: false}))`. */
  function ToTodoItems(entries: seq<ChecklistEntry>): (items: seq<TodoItem>)
    requires forall i | 0 <= i < |entries| :: entries[i].Text?
    ensures |items| == |entries|
    ensures forall i | 0 <= i < |entries| :: items[i].text == entries[i].text && !items[i].completed
  {
    seq(|entries|, i requires 0 <= i < |entries| => TodoItem(entries[i].text, false))
  }

  /** What a press of the submit button leads to. */
  datatype SubmitOutcome =
    | Rejected(check: Check)
    | Crashed
    | CreateRequest(url: string, payload: CreatePayload)
    | UpdateRequest(url: string, task: TaskData)

  /** The form's rules for data that may be sent. */
  predicate Acceptable(d: TaskData) {
    && d.title != "" && d.description != "" && d.priority != "" && d.dueDate != ""
    && 1 <= |d.assignedTo| <= 5
    && 1 <= |d.todoChecklist| <= 10
    && 1 <= |d.attachments| <= 5
    && Utf16Length(d.title) <= 100
    && Utf16Length(d.description) <= 500
    && (forall i | 0 <= i < |d.todoChecklist| :: d.todoChecklist[i].Text? && Utf16Length(d.todoChecklist[i].text) <= 100)
    && (forall i | 0 <= i < |d.attachments| :: Utf16Length(d.attachments[i]) <= 200)
  }

  /** `handleSubmit`: the checks in source order, then update when there is a
      task id ("" when absent) and create otherwise. */
  function HandleSubmit(d: TaskData, taskId: string): (o: SubmitOutcome)
    ensures o.CreateRequest? || o.UpdateRequest? <==> Acceptable(d)
    ensures o.CreateRequest? <==> Acceptable(d) && taskId == ""
    ensures o.CreateRequest? ==>
      && o.url == ApiPaths.CreateTask
      && o.payload.title == d.title && o.payload.description == d.description
      && o.payload.priority == d.priority && o.payload.dueDate == d.dueDate
      && o.payload.attachments == d.attachments && o.payload.assignedTo == d.assignedTo
      && |o.payload.todoChecklist| == |d.todoChecklist|
      && forall i | 0 <= i < |d.todoChecklist| ::
           o.payload.todoChecklist[i] == TodoItem(d.todoChecklist[i].text, false)
    ensures o.UpdateRequest? ==> o.url == ApiPaths.UpdateTask(taskId) && o.task == d
  {
    if d.title == "" then Rejected(TitleRequired)
    else if d.description == "" then Rejected(DescriptionRequired)
    else if d.priority == "" then Rejected(PriorityRequired)
    else if d.dueDate == "" then Rejected(DueDateRequired)
    else if |d.assignedTo| == 0 then Rejected(NoAssignee)
    else if |d.todoChecklist| == 0 then Rejected(NoChecklistItem)
    else if |d.attachments| == 0 then Rejected(NoAttachment)
    else if |d.attachments| > 5 then Rejected(TooManyAttachments)
    else if |d.todoChecklist| > 10 then Rejected(TooManyChecklistItems)
    else if |d.assignedTo| > 5 then Rejected(TooManyAssignees)
    else if Utf16Length(d.title) > 100 then Rejected(TitleTooLong)
    else if Utf16Length(d.description) > 500 then Rejected(DescriptionTooLong)
    else match ScanChecklist(d.todoChecklist)
      case Throw => Crashed
      case Fail => Rejected(ChecklistItemTooLong)
      case Pass =>
        if exists i | 0 <= i < |d.attachments| :: Utf16Length(d.attachments[i]) > 200 then Rejected(AttachmentTooLong)
        else if taskId != "" then UpdateRequest(ApiPaths.UpdateTask(taskId), d)
        else
          CreateRequest(ApiPaths.CreateTask, CreatePayload(d.title, d.description, d.priority, d.dueDate,
            d.assignedTo, ToTodoItems(d.todoChecklist), d.attachments))
  }

  /** The error text shown after a submit ("" when none). */
  function SubmitError(o: SubmitOutcome): string {
    if o.Rejected? then Message(o.check) else ""
  }

  /** The reported error is the first check, in the fixed order, that fails;
      the form throws exactly when the checklist scan is reached and throws;
      and no request goes out in either case. */
  lemma {:induction false} SubmitFollowsCheckOrder(d: TaskData, taskId: string)
    ensures var o := HandleSubmit(d, taskId); var r := RunChecks(d, CheckOrder);
      && (o.Rejected? <==> r.FailedAt?)
      && (o.Rejected? ==> o.check == r.check)
      && (o.Crashed? <==> r.ThrewAt?)
      && (r.AllPass? <==> o.CreateRequest? || o.UpdateRequest?)
  {
    var r := RunChecks(d, CheckOrder);
    if r.AllPass? {
      AllChecksPass(d);
    } else {
      var i :| 0 <= i < |CheckOrder| && CheckOrder[i] == r.check
        && Evaluate(d, CheckOrder[i]) == (if r.FailedAt? then Fail else Throw)
        && forall j | 0 <= j < i :: Evaluate(d, CheckOrder[j]) == Pass;
      SubmitStopsAt(d, taskId, i);
    }
  }

  /** Data on which every check passes is acceptable. */
  lemma AllChecksPass(d: TaskData)
    requires forall i | 0 <= i < |CheckOrder| :: Evaluate(d, CheckOrder[i]) == Pass
    ensures Acceptable(d)
  {
    PassedBefore(d, |CheckOrder|);
    PassedLimitsBefore(d, |CheckOrder|);
    assert Evaluate(d, CheckOrder[13]) == Pass;
  }

  /** `handleSubmit` stops at the `i`-th check when the ones before it pass. */
  lemma SubmitStopsAt(d: TaskData, taskId: string, i: nat)
    requires i < |CheckOrder|
    requires Evaluate(d, CheckOrder[i]) != Pass
    requires forall j | 0 <= j < i :: Evaluate(d, CheckOrder[j]) == Pass
    ensures var o := HandleSubmit(d, taskId);
      && (Evaluate(d, CheckOrder[i]) == Fail ==> o == Rejected(CheckOrder[i]))
      && (Evaluate(d, CheckOrder[i]) == Throw ==> o == Crashed)
  {
    var c := CheckOrder[i];
    PassedBefore(d, i);
    PassedLimitsBefore(d, i);
    match c
    case TitleRequired =>
    case DescriptionRequired =>
    case PriorityRequired =>
    case DueDateRequired =>
    case NoAssignee =>
    case NoChecklistItem =>
    case NoAttachment =>
    case TooManyAttachments =>
    case TooManyChecklistItems =>
    case TooManyAssignees =>
    case TitleTooLong =>
    case DescriptionTooLong =>
    case ChecklistItemTooLong =>
    case AttachmentTooLong =>
  }

  /** The presence checks before the `i`-th passing, stated on the form's
      fields. */
  lemma PassedBefore(d: TaskData, i: nat)
    requires i <= |CheckOrder|
    requires forall j | 0 <= j < i :: Evaluate(d, CheckOrder[j]) == Pass
    ensures i > 0 ==> d.title != ""
    ensures i > 1 ==> d.description != ""
    ensures i > 2 ==> d.priority != ""
    ensures i > 3 ==> d.dueDate != ""
    ensures i > 4 ==> |d.assignedTo| != 0
    ensures i > 5 ==> |d.todoChecklist| != 0
    ensures i > 6 ==> |d.attachments| != 0
  {
    if i > 0 { assert Evaluate(d, CheckOrder[0]) == Pass; }
    if i > 1 { assert Evaluate(d, CheckOrder[1]) == Pass; }
    if i > 2 { assert Evaluate(d, CheckOrder[2]) == Pass; }
    if i > 3 { assert Evaluate(d, CheckOrder[3]) == Pass; }
    if i > 4 { assert Evaluate(d, CheckOrder[4]) == Pass; }
    if i > 5 { assert Evaluate(d, CheckOrder[5]) == Pass; }
    if i > 6 { assert Evaluate(d, CheckOrder[6]) == Pass; }
  }

  /** The count and length checks before the `i`-th passing, stated on the
      form's fields. */
  lemma PassedLimitsBefore(d: TaskData, i: nat)
    requires i <= |CheckOrder|
    requires forall j | 0 <= j < i :: Evaluate(d, CheckOrder[j]) == Pass
    ensures i > 7 ==> |d.attachments| <= 5
    ensures i > 8 ==> |d.todoChecklist| <= 10
    ensures i > 9 ==> |d.assignedTo| <= 5
    ensures i > 10 ==> Utf16Length(d.title) <= 100
    ensures i > 11 ==> Utf16Length(d.description) <= 500
    ensures i > 12 ==> ScanChecklist(d.todoChecklist) == Pass
  {
    if i > 7 { assert Evaluate(d, CheckOrder[7]) == Pass; }
    if i > 8 { assert Evaluate(d, CheckOrder[8]) == Pass; }
    if i > 9 { assert Evaluate(d, CheckOrder[9]) == Pass; }
    if i > 10 { assert Evaluate(d, CheckOrder[10]) == Pass; }
    if i > 11 { assert Evaluate(d, CheckOrder[11]) == Pass; }
    if i > 12 { assert Evaluate(d, CheckOrder[12]) == Pass; }
  }

  /** A cleared form is rejected for its missing title. */
  lemma ClearedFormIsRejected(d: TaskData, taskId: string)
    ensures HandleSubmit(ClearData(d), taskId) == Rejected(TitleRequired)
  {
  }

  /** How the save request ends: a response with truthy or falsy `data`, or a
      rejection. */
  datatype SaveResponse = Saved(dataTruthy: bool) | SaveFailed(error: ApiError)

  datatype SaveKind = Creating | Updating

  /** The form after the save request, the navigation, and the error text. */
  datatype SaveResult = SaveResult(task: TaskData, navigation: Option<Nav>, error: string)

  /** `createTask` / `updateTask` once the server has answered. */
  function FinishSave(kind: SaveKind, d: TaskData, response: SaveResponse): (r: SaveResult)
    ensures response == Saved(true) ==> r == SaveResult(InitialTask, Some(Nav(AdminTasksPath, false)), "")
    ensures response == Saved(false) ==> r == SaveResult(d, None, "")
    ensures response.SaveFailed? ==> r.task == d && r.navigation.None? && r.error != ""
    ensures response.SaveFailed? && ServerMessage(response.error) != "" ==> r.error == ServerMessage(response.error)
    ensures response.SaveFailed? && ServerMessage(response.error) == "" ==>
      r.error == (if kind == Creating then "Failed to create task." else "Failed to update task.")
  {
    match response
    case Saved(truthy) =>
      if truthy then SaveResult(ClearData(d), Some(Nav(AdminTasksPath, false)), "") else SaveResult(d, None, "")
    case SaveFailed(e) =>
      var fallback := if kind == Creating then "Failed to create task." else "Failed to update task.";
      SaveResult(d, None, if ServerMessage(e) != "" then ServerMessage(e) else fallback)
  }

  /** A checklist item as the server returns it: its named string fields and
      its completion flag. */
  datatype ServerTodo = ServerTodo(fields: map<string, string>, completed: bool)

  /** A task as the server returns it; `dueDate` is already in the form's
      date format ("" when absent). */
  datatype ServerTask = ServerTask(
    title: string,
    description: string,
    priority: string,
    dueDate: string,
    assignedTo: seq<UserSummary>,
    todoChecklist: seq<ServerTodo>,
    attachments: seq<string>)

  /** `item?.[name]` for one string field of a checklist item. */
  function ReadField(item: ServerTodo, name: string): (e: ChecklistEntry)
    ensures e.Text? <==> name in item.fields
    ensures e.Text? ==> e.text == item.fields[name]
  {
    if name in item.fields then Text(item.fields[name]) else Undefined
  }

  /** The form record built from a loaded task, reading each checklist item's
      field `checklistField` and keeping only the ids of the assignees. */
  function LoadTaskWith(info: ServerTask, checklistField: string): (d: TaskData)
    ensures d.title == info.title && d.description == info.description && d.priority == info.priority
    ensures d.dueDate == info.dueDate && d.attachments == info.attachments
    ensures |d.assignedTo| == |info.assignedTo|
    ensures forall i | 0 <= i < |info.assignedTo| :: d.assignedTo[i] == BareId(info.assignedTo[i].id)
    ensures |d.todoChecklist| == |info.todoChecklist|
    ensures forall i | 0 <= i < |info.todoChecklist| :: d.todoChecklist[i] == ReadField(info.todoChecklist[i], checklistField)
  {
    TaskData(info.title, info.description, info.priority, info.dueDate,
      seq(|info.assignedTo|, i requires 0 <= i < |info.assignedTo| => BareId(info.assignedTo[i].id)),
      seq(|info.todoChecklist|, i requires 0 <= i < |info.todoChecklist| => ReadField(info.todoChecklist[i], checklistField)),
      info.attachments)
  }

  /** `getTaskDetailsByID` as written: the checklist is read from `_text`. */
  function LoadTaskDetails(info: ServerTask): TaskData {
    LoadTaskWith(info, "_text")
  }

  /** `getTaskDetailsByID` reading `text`, the field the create request writes. */
  function LoadTaskDetailsFixed(info: ServerTask): TaskData {
    LoadTaskWith(info, "text")
  }

  /** The task as the server returns it after a create, on the assumption
      that it echoes the posted fields. */
  function Echo(p: CreatePayload): (info: ServerTask)
    ensures |info.todoChecklist| == |p.todoChecklist|
    ensures forall i | 0 <= i < |p.todoChecklist| :: info.todoChecklist[i].fields == map["text" := p.todoChecklist[i].text]
  {
    ServerTask(p.title, p.description, p.priority, p.dueDate,
      seq(|p.assignedTo|, i requires 0 <= i < |p.assignedTo| =>
        match p.assignedTo[i] case Picked(u) => u case BareId(id) => UserSummary(id, "")),
      seq(|p.todoChecklist|, i requires 0 <= i < |p.todoChecklist| =>
        ServerTodo(map["text" := p.todoChecklist[i].text], p.todoChecklist[i].completed)),
      p.attachments)
  }

  /** As written, a task created by this form comes back with every checklist
      entry `undefined`, and submitting it again never sends the update: every
      earlier check still passes and the checklist scan throws on the first
      entry. */
  lemma {:induction false} ReloadedTaskCannotBeSaved(d: TaskData, taskId: string)
    requires HandleSubmit(d, "").CreateRequest?
    ensures var loaded := LoadTaskDetails(Echo(HandleSubmit(d, "").payload));
      && (forall i | 0 <= i < |loaded.todoChecklist| :: loaded.todoChecklist[i] == Undefined)
      && HandleSubmit(loaded, taskId) == Crashed
  {
    var p := HandleSubmit(d, "").payload;
    var loaded := LoadTaskDetails(Echo(p));
    assert |loaded.todoChecklist| >= 1;
    assert loaded.todoChecklist[0] == Undefined;
    assert ScanChecklist(loaded.todoChecklist) == Throw;
  }

  /** Reading `text` instead, the created task comes back with its checklist
      intact and with the same fields, so it can be saved again. */
  lemma {:induction false} ReloadedTaskRoundTrip(d: TaskData, taskId: string)
    requires HandleSubmit(d, "").CreateRequest?
    requires taskId != ""
    ensures var loaded := LoadTaskDetailsFixed(Echo(HandleSubmit(d, "").payload));
      && loaded.todoChecklist == d.todoChecklist
      && loaded.title == d.title && loaded.description == d.description
      && loaded.attachments == d.attachments && |loaded.assignedTo| == |d.assignedTo|
      && HandleSubmit(loaded, taskId) == UpdateRequest(ApiPaths.UpdateTask(taskId), loaded)
  {
    var p := HandleSubmit(d, "").payload;
    var loaded := LoadTaskDetailsFixed(Echo(p));
    assert loaded.todoChecklist == d.todoChecklist by {
      forall i | 0 <= i < |d.todoChecklist|
        ensures loaded.todoChecklist[i] == d.todoChecklist[i]
      {
        assert d.todoChecklist[i].Text?;
      }
    }
    assert Acceptable(loaded);
  }
}
