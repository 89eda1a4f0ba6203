/** `RunCreate` of BoxCLI/Commands/TaskAssignmentsSubCommands/TaskAssignmentCreateCommand.cs:
    assigning a task to a user given by id or by login. */
module TaskAssignmentCreate {
  import opened Wrappers
  import opened Strings
  import opened CommandBase

  const TaskIdRequired: string := "A task ID is required for this command"
  const AssigneeRequired: string := "You must include a user ID or login for this command."
  const CreatedAssignment: string := "Created task assignment."

  /** The command's arguments and options; an option that was not given is
      `None`. */
  datatype AssignOptions = AssignOptions(taskId: Option<string>, userId: Option<string>, login: Option<string>,
                                         json: bool)

  /** Who the task goes to (`BoxAssignmentRequest`): an id or a login. */
  datatype AssignTo = AssignTo(id: Option<string>, login: Option<string>)

  /** `BoxTaskAssignmentRequest`. */
  datatype AssignmentRequest = AssignmentRequest(taskId: string, assignTo: AssignTo)

  /** A task assignment the service created. */
  datatype TaskAssignment = TaskAssignment(id: string)

  /** How the command ends: it stops with a message (a failed guard); it
      returns normally after printing; or it sends its request, and the
      call either fails with a message or its result is shown. */
  datatype AssignRun =
    | Stopped(msg: string)
    | Returned(events: seq<Emit<TaskAssignment>>)
    | Sent(request: AssignmentRequest, shown: Outcome<seq<Emit<TaskAssignment>>>)

  /** The assignee: the user id when given, else the login. */
  function Assignee(userId: Option<string>, login: Option<string>): (a: AssignTo)
    requires userId.Some? || login.Some?
    ensures a.id.Some? != a.login.Some?
    ensures a.id.Some? <==> userId.Some?
    ensures a.id.Some? ==> a.id == userId
    ensures a.login.Some? ==> a.login == login
  {
    if userId.Some? then AssignTo(userId, None) else AssignTo(None, login)
  }

  /** How a created assignment is shown: JSON, else a success line followed
      by the printed assignment. */
  function AssignOutput(t: TaskAssignment, json: bool): (r: seq<Emit<TaskAssignment>>)
    ensures json ==> r == [Json(t)]
    ensures !json ==> r == [Success(CreatedAssignment), Print(t)]
  {
    if json then [Json(t)] else [Success(CreatedAssignment), Print(t)]
  }

  /** The whole command. */
  function CreateAssignment(o: AssignOptions, settings: Settings,
                            create: AssignmentRequest -> Outcome<TaskAssignment>): (r: AssignRun)
    ensures IsNullOrEmpty(o.taskId) ==> r == Stopped(TaskIdRequired)
    ensures !IsNullOrEmpty(o.taskId) && o.userId.None? && o.login.None? ==> r == Returned([ErrorLine(AssigneeRequired)])
    ensures r.Sent? <==> !IsNullOrEmpty(o.taskId) && (o.userId.Some? || o.login.Some?)
    ensures r.Sent? ==> r.request.taskId == o.taskId.value
    ensures r.Sent? ==> r.request.assignTo == Assignee(o.userId, o.login)
    ensures r.Sent? ==> r.shown.Ok? == create(r.request).Ok?
    ensures r.Sent? && create(r.request).Err? ==> r.shown == Err(create(r.request).msg)
    ensures r.Sent? && create(r.request).Ok? ==> r.shown == Ok(AssignOutput(create(r.request).value, JsonRequested(o.json, settings)))
  {
    if RequireValue(o.taskId, TaskIdRequired).Fail? then Stopped(TaskIdRequired)
    else if o.userId.None? && o.login.None? then Returned([ErrorLine(AssigneeRequired)])
    else
      var request := AssignmentRequest(o.taskId.value, Assignee(o.userId, o.login));
      Sent(request, match create(request)
                    case Err(m) => Err(m)
                    case Ok(t) => Ok(AssignOutput(t, JsonRequested(o.json, settings))))
  }

  /** `RunCreate`: the request's task id, then its assignee, set step by step. */
  method RunCreate(o: AssignOptions, settings: Settings, create: AssignmentRequest -> Outcome<TaskAssignment>)
    returns (run: AssignRun)
    ensures run == CreateAssignment(o, settings, create)
  {
    if o.taskId.None? || o.taskId.value == "" {
      run := Stopped(TaskIdRequired);
      return;
    }
    if o.userId.None? && o.login.None? {
      run := Returned([ErrorLine(AssigneeRequired)]);
      return;
    }
    var taskAssignmentCreate := AssignmentRequest(o.taskId.value, AssignTo(None, None));
    if o.userId.Some? {
      taskAssignmentCreate := taskAssignmentCreate.(assignTo := taskAssignmentCreate.assignTo.(id := o.userId));
    } else if o.login.Some? {
      taskAssignmentCreate := taskAssignmentCreate.(assignTo := taskAssignmentCreate.assignTo.(login := o.login));
    }
    var taskAssignment := create(taskAssignmentCreate);
    if taskAssignment.Err? {
      run := Sent(taskAssignmentCreate, Err(taskAssignment.msg));
      return;
    }
    if o.json || settings.outputJson {
      run := Sent(taskAssignmentCreate, Ok([Json(taskAssignment.value)]));
      return;
    }
    run := Sent(taskAssignmentCreate, Ok([Success(CreatedAssignment), Print(taskAssignment.value)]));
  }

  /** A user id wins over a login given with it: the login is not sent. */
  lemma UserIdWins(o: AssignOptions, settings: Settings, create: AssignmentRequest -> Outcome<TaskAssignment>)
    requires !IsNullOrEmpty(o.taskId) && o.userId.Some? && o.login.Some?
    ensures CreateAssignment(o, settings, create).Sent?
    ensures CreateAssignment(o, settings, create).request.assignTo == AssignTo(o.userId, None)
  {
  }
}
