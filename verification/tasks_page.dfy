/**
 * The task page: the create/edit form, its capacity overload guard and the
 * requests it sends. React state variables are the fields of `TaskForm`; every
 * request the page sends is appended to `sent`, so "no request" and "exactly
 * one request" are statements about that log.
 */
module TasksPage {
  import opened Js
  import opened Domain
  import opened Notices
  import opened Http
  import opened QueryParams
  import TasksApi

  /** The sentinel used for a task without an assignee. */
  const Unassigned := "Unassigned"

  /** The body of a create or update request. */
  datatype TaskPayload = TaskPayload(
    title: string,
    description: string,
    projectId: string,
    teamId: Option<string>,
    assignedMemberId: string,
    assignedMemberName: string,
    priority: string,
    status: string)

  datatype TaskRequest =
    | CreateTaskRequest(payload: TaskPayload)
    | UpdateTaskRequest(id: string, payload: TaskPayload)
    | AutoAssignRequest(teamId: string)
    | DeleteTaskRequest(taskId: string)

  /** A successful auto-assign answer: a suggested member, or a refusal with a message. */
  datatype Suggestion = Suggested(memberId: string, memberName: string) | Declined(message: string)

  /** The form fields of the create and edit dialogs. */
  datatype FormFields = FormFields(
    title: string,
    description: string,
    projectId: string,
    priority: string,
    status: string,
    memberId: string,
    showOverloadWarning: bool,
    overloadedMember: Option<Member>)

  /** Everything the page holds apart from loaded data and the request log. */
  datatype PageView = PageView(
    fields: FormFields,
    editingTask: Option<Task>,
    createDialogOpen: bool,
    editDialogOpen: bool,
    filterProjectId: string,
    filterStatus: string)

  /** The form as `resetForm` leaves it. */
  function DefaultFields(urlProjectId: string): (f: FormFields)
    ensures f.title == "" && f.description == "" && f.memberId == ""
    ensures f.projectId == urlProjectId && f.priority == "Medium" && f.status == "Pending"
    ensures !f.showOverloadWarning && f.overloadedMember.None?
  {
    FormFields("", "", urlProjectId, "Medium", "Pending", "", false, None)
  }

  // ---- the overload guard ---------------------------------------------------

  /** The task form's overload test: at or over capacity. */
  predicate AtCapacity(m: Member)
  {
    m.currentTasks >= m.capacity
  }

  /** The guard's state: whether the warning shows, and the member it names. */
  datatype Warning = Warning(show: bool, member: Option<Member>)

  /**
   * `checkMemberCapacity` against a loaded team: warn, naming the member, when
   * the first member with that id is at or over capacity; otherwise clear.
   */
  function CapacityVerdict(team: Team, memberId: string): (w: Warning)
    ensures w.show <==> w.member.Some?
    ensures w.show <==> exists i :: 0 <= i < |team.members| && team.members[i].id == memberId &&
                                    AtCapacity(team.members[i]) &&
                                    forall j :: 0 <= j < i ==> team.members[j].id != memberId
    ensures w.member.Some? ==> AtCapacity(w.member.value) &&
                               exists i :: 0 <= i < |team.members| && team.members[i] == w.member.value &&
                                           team.members[i].id == memberId &&
                                           forall j :: 0 <= j < i ==> team.members[j].id != memberId
    ensures (forall i :: 0 <= i < |team.members| ==> team.members[i].id != memberId) ==> !w.show
  {
    match FindIndex(team.members, MemberKey, memberId)
    case None => Warning(false, None)
    case Some(k) =>
      if AtCapacity(team.members[k]) then Warning(true, Some(team.members[k])) else Warning(false, None)
  }

  // ---- the submit gate --------------------------------------------------------

  datatype Gate = MissingFields | AwaitingDecision | Send

  /**
   * `handleCreateTask`'s two early returns: validation first, then the
   * overload warning, which only `forceAssign` bypasses.
   */
  function CreateGate(f: FormFields, force: bool): (g: Gate)
    ensures g == MissingFields <==> f.title == "" || f.projectId == ""
    ensures g == AwaitingDecision <==> f.title != "" && f.projectId != "" && f.showOverloadWarning && !force
    ensures g == Send <==> f.title != "" && f.projectId != "" && (!f.showOverloadWarning || force)
  {
    if f.title == "" || f.projectId == "" then MissingFields
    else if f.showOverloadWarning && !force then AwaitingDecision
    else Send
  }

  // ---- the payload ------------------------------------------------------------

  /**
   * The body built by both `handleCreateTask` and `handleUpdateTask`: the form
   * fields, the selected project's team, and the assignee's id and name with
   * "Unassigned" standing in for a missing or empty one.
   */
  function BuildPayload(f: FormFields, projects: seq<Project>, team: Option<Team>): (p: TaskPayload)
    ensures p.title == f.title && p.description == f.description && p.projectId == f.projectId
    ensures p.priority == f.priority && p.status == f.status
    ensures f.memberId != "" ==> p.assignedMemberId == f.memberId
    ensures f.memberId == "" ==> p.assignedMemberId == Unassigned
    ensures p.assignedMemberName != Unassigned ==>
              team.Some? && exists i :: 0 <= i < |team.value.members| &&
                                        team.value.members[i].id == f.memberId &&
                                        team.value.members[i].name == p.assignedMemberName
    ensures (team.None? || forall i :: 0 <= i < |team.value.members| ==> team.value.members[i].id != f.memberId)
              ==> p.assignedMemberName == Unassigned
    ensures p.teamId.Some? <==> exists i :: 0 <= i < |projects| && projects[i].id == f.projectId
    ensures p.teamId.Some? ==> exists i :: 0 <= i < |projects| && projects[i].id == f.projectId &&
                                           projects[i].teamId == p.teamId.value
    ensures team.Some? ==>
              forall i :: FirstMatch(team.value.members, MemberKey, f.memberId, i) ==>
                p.assignedMemberName == (if team.value.members[i].name != "" then team.value.members[i].name
                                         else Unassigned)
    ensures forall i :: FirstMatch(projects, ProjectKey, f.projectId, i) ==> p.teamId == Some(projects[i].teamId)
  {
    var member := if team.Some? then Find(team.value.members, MemberKey, f.memberId) else None;
    var project := Find(projects, ProjectKey, f.projectId);
    TaskPayload(
      f.title, f.description, f.projectId,
      if project.Some? then Some(project.value.teamId) else None,
      FirstTruthy([Some(f.memberId)], Unassigned),
      FirstTruthy([if member.Some? then Some(member.value.name) else None], Unassigned),
      f.priority, f.status)
  }

  // ---- badge mappings -----------------------------------------------------------

  /** `getPriorityColor`: the badge variant of a priority; unknown priorities look like Medium. */
  function PriorityVariant(priority: string): (v: string)
    ensures v == "destructive" <==> priority == "High"
    ensures v == "secondary" <==> priority == "Low"
    ensures v == "default" <==> priority != "High" && priority != "Low"
  {
    match priority
    case "High" => "destructive"
    case "Medium" => "default"
    case "Low" => "secondary"
    case _ => "default"
  }

  /** `getStatusColor`: the badge classes of a status; any other status is grey. */
  function StatusClasses(status: string): (c: string)
    ensures status == "Done" ==> c == "bg-green-100 text-green-800"
    ensures status == "In Progress" ==> c == "bg-blue-100 text-blue-800"
    ensures status == "Pending" ==> c == "bg-yellow-100 text-yellow-800"
    ensures status !in {"Done", "In Progress", "Pending"} ==> c == "bg-gray-100 text-gray-800"
  {
    match status
    case "Done" => "bg-green-100 text-green-800"
    case "In Progress" => "bg-blue-100 text-blue-800"
    case "Pending" => "bg-yellow-100 text-yellow-800"
    case _ => "bg-gray-100 text-gray-800"
  }

  /** The three known statuses get three different colours, all different from the fallback. */
  lemma StatusClassesDistinct(s1: string, s2: string)
    requires s1 in {"Done", "In Progress", "Pending"} && s1 != s2
    ensures StatusClasses(s1) != StatusClasses(s2)
  {
  }

  // ---- the page -----------------------------------------------------------------

  class TaskForm {
    /** `projectIdFromUrl || ""`. */
    const urlProjectId: string
    /** The loaded project list and the team of the selected project (None while not loaded). */
    var projects: seq<Project>
    var team: Option<Team>

    /** The form's state variables, from the title to the overloaded member. */
    var form: FormFields
    var editingTask: Option<Task>
    var createDialogOpen: bool
    var editDialogOpen: bool
    /** The list filters; the member filter is a constant empty string. */
    var filterProjectId: string
    var filterStatus: string

    /** Every request the page has sent, oldest first. */
    var sent: seq<TaskRequest>

    function View(): PageView
      reads this
    {
      PageView(form, editingTask, createDialogOpen, editDialogOpen, filterProjectId, filterStatus)
    }

    /** The overload warning is only ever shown together with the member it names. */
    predicate Valid()
      reads this
    {
      form.showOverloadWarning ==> form.overloadedMember.Some?
    }

    /**
     * The create dialog's overload alert: the member it names, shown only when
     * the warning is set and a member is recorded. While `Valid()` holds, the
     * alert appears exactly when the footer offers "Choose Another" and
     * "Assign Anyway" instead of "Create Task".
     */
    function OverloadAlert(): (alert: Option<Member>)
      reads this
      ensures alert.Some? ==> form.showOverloadWarning && alert == form.overloadedMember
      ensures Valid() ==> (alert.Some? <==> form.showOverloadWarning)
    {
      if form.showOverloadWarning && form.overloadedMember.Some? then form.overloadedMember else None
    }

    /** The project the form has selected, as `projects.find(p => p._id === selectedProjectId)`. */
    function SelectedProject(): (p: Option<Project>)
      reads this
      ensures p.None? <==> forall i :: 0 <= i < |projects| ==> projects[i].id != form.projectId
      ensures forall i :: FirstMatch(projects, ProjectKey, form.projectId, i) ==> p == Some(projects[i])
    {
      Find(projects, ProjectKey, form.projectId)
    }

    constructor (urlParam: Option<string>, projects: seq<Project>, team: Option<Team>)
      ensures urlProjectId == FirstTruthy([urlParam], "")
      ensures this.projects == projects && this.team == team
      ensures View() == PageView(DefaultFields(urlProjectId), None, false, false, urlProjectId, "")
      ensures sent == [] && Valid()
    {
      urlProjectId := FirstTruthy([urlParam], "");
      this.projects, this.team := projects, team;
      form := DefaultFields(FirstTruthy([urlParam], ""));
      editingTask, createDialogOpen, editDialogOpen := None, false, false;
      filterProjectId, filterStatus := FirstTruthy([urlParam], ""), "";
      sent := [];
    }

    /** New query results arrive: the project list and the selected project's team. */
    method Loaded(projects: seq<Project>, team: Option<Team>)
      requires Valid()
      modifies this
      ensures Valid()
      ensures this.projects == projects && this.team == team
      ensures View() == old(View()) && sent == old(sent)
    {
      this.projects, this.team := projects, team;
    }

    /** The title, description, priority and status inputs of both dialogs. */
    method SetText(title: string, description: string)
      requires Valid()
      modifies this
      ensures Valid()
      ensures View() == old(View()).(fields := old(form).(title := title, description := description))
      ensures projects == old(projects) && team == old(team) && sent == old(sent)
    {
      form := form.(title := title, description := description);
    }

    method SetPriorityAndStatus(priority: string, status: string)
      requires Valid()
      modifies this
      ensures Valid()
      ensures View() == old(View()).(fields := old(form).(priority := priority, status := status))
      ensures projects == old(projects) && team == old(team) && sent == old(sent)
    {
      form := form.(priority := priority, status := status);
    }

    /**
     * The project select: only the selection changes. The overload warning is
     * not re-evaluated for the new project's team.
     */
    method SelectProject(id: string)
      requires Valid()
      modifies this
      ensures Valid()
      ensures View() == old(View()).(fields := old(form).(projectId := id))
      ensures projects == old(projects) && team == old(team) && sent == old(sent)
    {
      form := form.(projectId := id);
    }

    /**
     * `checkMemberCapacity`: with no team loaded nothing changes (an earlier
     * warning stays); otherwise the warning and the named member follow
     * `CapacityVerdict`.
     */
    method CheckMemberCapacity(id: string)
      requires Valid()
      modifies this
      ensures Valid()
      ensures team.None? ==> View() == old(View())
      ensures team.Some? ==>
                var w := CapacityVerdict(team.value, id);
                View() == old(View()).(fields := old(form).(showOverloadWarning := w.show,
                                                                 overloadedMember := w.member))
      ensures projects == old(projects) && team == old(team) && sent == old(sent)
    {
      if team.None? {
        return;
      }
      var w := CapacityVerdict(team.value, id);
      form := form.(showOverloadWarning := w.show, overloadedMember := w.member);
    }

    /** The create dialog's member select: record the choice, then run the capacity check. */
    method SelectMember(id: string)
      requires Valid()
      modifies this
      ensures Valid()
      ensures team.None? ==> View() == old(View()).(fields := old(form).(memberId := id))
      ensures team.Some? ==>
                var w := CapacityVerdict(team.value, id);
                View() == old(View()).(fields := old(form).(memberId := id, showOverloadWarning := w.show,
                                                           overloadedMember := w.member))
      ensures projects == old(projects) && team == old(team) && sent == old(sent)
    {
      form := form.(memberId := id);
      CheckMemberCapacity(id);
    }

    /** The edit dialog's member select: records the choice with no capacity check. */
    method EditSelectMember(id: string)
      requires Valid()
      modifies this
      ensures Valid()
      ensures View() == old(View()).(fields := old(form).(memberId := id))
      ensures projects == old(projects) && team == old(team) && sent == old(sent)
    {
      form := form.(memberId := id);
    }

    /** "Choose Another": clears the member but leaves the warning (and the override button) up. */
    method ChooseAnother()
      requires Valid()
      modifies this
      ensures Valid()
      ensures View() == old(View()).(fields := old(form).(memberId := ""))
      ensures form.showOverloadWarning == old(form.showOverloadWarning)
      ensures projects == old(projects) && team == old(team) && sent == old(sent)
    {
      form := form.(memberId := "");
    }

    /** `resetForm`. */
    method ResetForm()
      requires Valid()
      modifies this
      ensures Valid()
      ensures View() == old(View()).(fields := DefaultFields(urlProjectId))
      ensures projects == old(projects) && team == old(team) && sent == old(sent)
    {
      form := DefaultFields(urlProjectId);
    }

    /** Opening the create dialog. */
    method OpenCreateDialog()
      requires Valid()
      modifies this
      ensures Valid()
      ensures View() == old(View()).(createDialogOpen := true)
      ensures projects == old(projects) && team == old(team) && sent == old(sent)
    {
      createDialogOpen := true;
    }

    /** "Cancel" or dismissing the create dialog: close it and reset the form. */
    method CloseCreateDialog()
      requires Valid()
      modifies this
      ensures Valid()
      ensures View() == old(View()).(fields := DefaultFields(urlProjectId), createDialogOpen := false)
      ensures projects == old(projects) && team == old(team) && sent == old(sent)
    {
      createDialogOpen := false;
      ResetForm();
    }

    /** "Cancel" or dismissing the edit dialog: close it, reset the form and forget the task. */
    method CloseEditDialog()
      requires Valid()
      modifies this
      ensures Valid()
      ensures View() == old(View()).(fields := DefaultFields(urlProjectId), editDialogOpen := false,
                                     editingTask := None)
      ensures projects == old(projects) && team == old(team) && sent == old(sent)
    {
      editDialogOpen := false;
      ResetForm();
      editingTask := None;
    }

    /**
     * `handleAutoAssign`, for its effect on the page: with no selected project
     * (or one without a team) nothing is sent; otherwise one auto-assign request
     * is sent and a suggestion, if any, becomes the selected member without a
     * capacity check.
     */
    method AutoAssign(reply: Reply<Suggestion>) returns (toast: Toast)
      requires Valid()
      modifies this
      ensures Valid()
      ensures var p := old(SelectedProject());
        if p.None? || p.value.teamId == "" then
          && toast == ErrorToast("Please select a project first")
          && View() == old(View()) && sent == old(sent)
        else
          && sent == old(sent) + [AutoAssignRequest(p.value.teamId)]
          && match reply
             case Ok(Suggested(id, name)) =>
               && View() == old(View()).(fields := old(form).(memberId := id))
               && toast == SuccessToast("Auto-assigned to " + name)
             case Ok(Declined(message)) =>
               View() == old(View()) && toast == ErrorToast(message)
             case Failed(e) =>
               View() == old(View()) && toast == ErrorToast(ServerMessage(e, "Failed to auto-assign"))
      ensures projects == old(projects) && team == old(team)
    {
      var p := SelectedProject();
      if p.None? || p.value.teamId == "" {
        toast := ErrorToast("Please select a project first");
        return;
      }
      sent := sent + [AutoAssignRequest(p.value.teamId)];
      match reply
      case Ok(Suggested(id, name)) =>
        form := form.(memberId := id);
        toast := SuccessToast("Auto-assigned to " + name);
      case Ok(Declined(message)) =>
        toast := ErrorToast(message);
      case Failed(e) =>
        toast := ErrorToast(ServerMessage(e, "Failed to auto-assign"));
    }

    /**
     * `handleCreateTask(forceAssign)`: sends nothing when a required field is
     * empty or when the warning is up and `force` is false; otherwise sends
     * exactly one create request with `BuildPayload`'s body. Success closes the
     * dialog and resets the form; failure leaves the form as it was.
     */
    method CreateTask(force: bool, reply: Reply<()>) returns (toast: Toast)
      requires Valid()
      modifies this
      ensures Valid()
      ensures CreateGate(old(form), force) == MissingFields ==>
                toast == ErrorToast("Please fill all required fields") &&
                View() == old(View()) && sent == old(sent)
      ensures CreateGate(old(form), force) == AwaitingDecision ==>
                toast == Quiet && View() == old(View()) && sent == old(sent)
      ensures CreateGate(old(form), force) == Send ==>
                && sent == old(sent) + [CreateTaskRequest(BuildPayload(old(form), projects, team))]
                && (reply.Ok? ==>
                      toast == SuccessToast("Task created successfully") &&
                      View() == old(View()).(fields := DefaultFields(urlProjectId), createDialogOpen := false))
                && (reply.Failed? ==>
                      toast == ErrorToast(ServerMessage(reply.error, "Failed to create task")) &&
                      View() == old(View()))
      ensures projects == old(projects) && team == old(team)
    {
      var gate := CreateGate(form, force);
      if gate == MissingFields {
        toast := ErrorToast("Please fill all required fields");
        return;
      }
      if gate == AwaitingDecision {
        toast := Quiet;
        return;
      }
      sent := sent + [CreateTaskRequest(BuildPayload(form, projects, team))];
      if reply.Failed? {
        toast := ErrorToast(ServerMessage(reply.error, "Failed to create task"));
        return;
      }
      toast := SuccessToast("Task created successfully");
      createDialogOpen := false;
      ResetForm();
    }

    /** "Assign Anyway": `handleCreateTask(true)`. */
    method AssignAnyway(reply: Reply<()>) returns (toast: Toast)
      requires Valid()
      modifies this
      ensures Valid()
      ensures old(form.title) != "" && old(form.projectId) != "" ==>
                |sent| == |old(sent)| + 1 && sent[..|old(sent)|] == old(sent) &&
                sent[|old(sent)|] == CreateTaskRequest(BuildPayload(old(form), projects, team))
      ensures old(form.title) == "" || old(form.projectId) == "" ==> sent == old(sent) && View() == old(View())
      ensures projects == old(projects) && team == old(team)
    {
      toast := CreateTask(true, reply);
    }

    /** `handleEditTask`: load a task into the form and open the edit dialog; the warning is untouched. */
    method EditTask(task: Task)
      requires Valid()
      modifies this
      ensures Valid()
      ensures View() == old(View()).(
                fields := old(form).(title := task.title, description := task.description,
                                         projectId := task.projectId, priority := task.priority,
                                         status := task.status, memberId := task.assignedMemberId),
                editingTask := Some(task), editDialogOpen := true)
      ensures projects == old(projects) && team == old(team) && sent == old(sent)
    {
      editingTask := Some(task);
      form := form.(title := task.title, description := task.description, projectId := task.projectId,
                    priority := task.priority, status := task.status, memberId := task.assignedMemberId);
      editDialogOpen := true;
    }

    /**
     * `handleUpdateTask`: the same validation as create but no overload gate.
     * With no task being edited, reading its id throws before anything is sent
     * and the generic failure message shows. Success closes the dialog, resets
     * the form and forgets the task.
     */
    method UpdateTask(reply: Reply<()>) returns (toast: Toast)
      requires Valid()
      modifies this
      ensures Valid()
      ensures old(form.title) == "" || old(form.projectId) == "" ==>
                toast == ErrorToast("Please fill all required fields") &&
                View() == old(View()) && sent == old(sent)
      ensures old(form.title) != "" && old(form.projectId) != "" && old(editingTask).None? ==>
                toast == ErrorToast("Failed to update task") && View() == old(View()) && sent == old(sent)
      ensures old(form.title) != "" && old(form.projectId) != "" && old(editingTask).Some? ==>
                && sent == old(sent) + [UpdateTaskRequest(old(editingTask).value.id,
                                                          BuildPayload(old(form), projects, team))]
                && (reply.Ok? ==>
                      toast == SuccessToast("Task updated successfully") &&
                      View() == old(View()).(fields := DefaultFields(urlProjectId), editingTask := None,
                                             editDialogOpen := false))
                && (reply.Failed? ==>
                      toast == ErrorToast(ServerMessage(reply.error, "Failed to update task")) &&
                      View() == old(View()))
      ensures projects == old(projects) && team == old(team)
    {
      if form.title == "" || form.projectId == "" {
        toast := ErrorToast("Please fill all required fields");
        return;
      }
      if editingTask.None? {
        toast := ErrorToast(ServerMessage(ErrorInfo(None, None), "Failed to update task"));
        return;
      }
      sent := sent + [UpdateTaskRequest(editingTask.value.id, BuildPayload(form, projects, team))];
      if reply.Failed? {
        toast := ErrorToast(ServerMessage(reply.error, "Failed to update task"));
        return;
      }
      toast := SuccessToast("Task updated successfully");
      editDialogOpen := false;
      ResetForm();
      editingTask := None;
    }

    /** `handleDeleteTask`: sends one delete request for the task, confirmed beforehand in the markup. */
    method DeleteTask(taskId: string, reply: Reply<()>) returns (toast: Toast)
      requires Valid()
      modifies this
      ensures Valid()
      ensures sent == old(sent) + [DeleteTaskRequest(taskId)]
      ensures reply.Ok? ==> toast == SuccessToast("Task deleted successfully")
      ensures reply.Failed? ==> toast == ErrorToast(ServerMessage(reply.error, "Failed to delete task"))
      ensures View() == old(View()) && projects == old(projects) && team == old(team)
    {
      sent := sent + [DeleteTaskRequest(taskId)];
      if reply.Ok? {
        toast := SuccessToast("Task deleted successfully");
      } else {
        toast := ErrorToast(ServerMessage(reply.error, "Failed to delete task"));
      }
    }

    /** The project filter; " " is the "All Projects" entry. */
    method SetProjectFilter(value: string)
      requires Valid()
      modifies this
      ensures Valid()
      ensures View() == old(View()).(filterProjectId := value)
      ensures projects == old(projects) && team == old(team) && sent == old(sent)
    {
      filterProjectId := value;
    }

    /** The status filter; " " is the "All Status" entry. */
    method SetStatusFilter(value: string)
      requires Valid()
      modifies this
      ensures Valid()
      ensures View() == old(View()).(filterStatus := value)
      ensures projects == old(projects) && team == old(team) && sent == old(sent)
    {
      filterStatus := value;
    }

    /**
     * The task-list query the page subscribes to: the two filters and the
     * always-empty member filter, through the tasks endpoint's builder.
     */
    method ListQuery() returns (req: Request)
      ensures req.verb == GET && req.body.None?
      ensures req.target == PathWithParams("/tasks?", TruthyParams(TaskListFilters(filterProjectId, filterStatus)))
      ensures forall p :: p in req.target.params ==> p.key != "memberId"
    {
      req := TasksApi.GetAllTasksQuery(Some(filterProjectId), Some(""), Some(filterStatus));
      MemberFilterNeverSent(filterProjectId, filterStatus);
    }
  }

  /** The page's filters as the tasks endpoint's candidate list. */
  function TaskListFilters(projectId: string, status: string): (c: seq<Candidate>)
    ensures |c| == 3 && c[1] == Candidate("memberId", Some(""))
  {
    TasksApi.TaskFilters(Some(projectId), Some(""), Some(status))
  }

  /** The page never filters by member: no `memberId` parameter reaches the server. */
  lemma MemberFilterNeverSent(projectId: string, status: string)
    ensures forall p :: p in TruthyParams(TaskListFilters(projectId, status)) ==> p.key != "memberId"
  {
    var c := TaskListFilters(projectId, status);
    forall p | p in TruthyParams(c)
      ensures p.key != "memberId"
    {
      TruthyParamsSound(c, p);
    }
  }

  /** The project column of a task row: the project's name, or "Unknown" when missing or empty. */
  function ProjectName(projects: seq<Project>, projectId: string): (n: string)
    ensures n != ""
    ensures (forall i :: 0 <= i < |projects| ==> projects[i].id != projectId) ==> n == "Unknown"
    ensures n != "Unknown" ==> exists i :: 0 <= i < |projects| && projects[i].id == projectId &&
                                           projects[i].name == n
    ensures forall i :: FirstMatch(projects, ProjectKey, projectId, i) ==>
              n == (if projects[i].name != "" then projects[i].name else "Unknown")
  {
    var p := Find(projects, ProjectKey, projectId);
    FirstTruthy([if p.Some? then Some(p.value.name) else None], "Unknown")
  }

  // ---- the overload guard, end to end -------------------------------------------

  /**
   * Team "Dev" has Alice at capacity 2 with 2 tasks. Choosing her raises the
   * warning; "Create Task" then sends nothing, and "Assign Anyway" sends exactly
   * one create request assigned to her.
   */
  method OverrideScenario() returns (blocked: Toast, warned: bool, requests: seq<TaskRequest>)
    ensures blocked == Quiet && warned
    ensures |requests| == 1 && requests[0].CreateTaskRequest?
    ensures requests[0].payload.assignedMemberId == "alice" && requests[0].payload.assignedMemberName == "Alice"
    ensures requests[0].payload.teamId == Some("dev") && requests[0].payload.projectId == "p1"
  {
    var alice := Member("alice", "Alice", "Developer", 2, 2);
    var page := new TaskForm(Some("p1"), [Project("p1", "Site", "", "dev")], Some(Team("dev", "Dev", [alice])));
    page.SetText("Write docs", "");
    page.SelectMember("alice");
    warned := page.form.showOverloadWarning;
    blocked := page.CreateTask(false, Ok(()));
    var before := page.form;
    var _ := page.AssignAnyway(Ok(()));
    requests := page.sent;
    assert requests == [CreateTaskRequest(BuildPayload(before, page.projects, page.team))];
  }

  /**
   * "Choose Another" clears the member but not the warning: "Create Task" still
   * sends nothing, and "Assign Anyway" now sends an unassigned task.
   */
  method ChooseAnotherScenario() returns (blocked: Toast, requests: seq<TaskRequest>)
    ensures blocked == Quiet
    ensures |requests| == 1 && requests[0].CreateTaskRequest?
    ensures requests[0].payload.assignedMemberId == Unassigned
    ensures requests[0].payload.assignedMemberName == Unassigned
  {
    var alice := Member("alice", "Alice", "Developer", 2, 2);
    var page := new TaskForm(Some("p1"), [Project("p1", "Site", "", "dev")], Some(Team("dev", "Dev", [alice])));
    page.SetText("Write docs", "");
    page.SelectMember("alice");
    page.ChooseAnother();
    blocked := page.CreateTask(false, Ok(()));
    var _ := page.AssignAnyway(Ok(()));
    requests := page.sent;
  }
}
