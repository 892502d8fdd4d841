/**
 * The manager's project page (`ManagerProjectViewPage`): editing the
 * project's details, the list of members that can still be added, and
 * creating a task from the page. Dates are shown with `Formatters.FormatDate`
 * (the page's `fmt`).
 */
module ManagerProjectView {
  import opened Common
  import opened Text
  import opened Seqs
  import opened Http

  /** A member as listed by the server; `id` may be missing. */
  datatype Member = Member(id: Option<string>, name: string, email: string)

  /** The project as the page holds it. */
  datatype Project = Project(
    id: int, title: string, description: Option<string>,
    startDate: Option<string>, endDate: Option<string>, members: Option<seq<Member>>)

  /** The edit form; every field is a string, '' when empty. */
  datatype EditForm = EditForm(title: string, description: string, startDate: string, endDate: string)

  /** The update request: `null` dates are `None`. */
  datatype UpdatePayload = UpdatePayload(id: int, title: string, description: string, startDate: Option<string>, endDate: Option<string>)

  /** The create-task request. */
  datatype NewTask = NewTask(projectId: int, title: string, status: string)

  /** `project?.id` is truthy. */
  predicate HasId(p: Option<Project>) {
    p.Some? && p.value.id != 0
  }

  /** `handleEdit`: the form starts from the project, with missing fields as ''. */
  function EditFormOf(p: Project): (f: EditForm)
    ensures f.title == p.title && f.description == p.description.GetOr("")
    ensures f.startDate == p.startDate.GetOr("") && f.endDate == p.endDate.GetOr("")
  {
    EditForm(p.title, p.description.GetOr(""), p.startDate.GetOr(""), p.endDate.GetOr(""))
  }

  /**
   * `handleSaveEdit`'s guards: nothing without a project id; a blank title,
   * then an end date below the start date (both present, compared as
   * strings), are refused; otherwise the update is sent with the trimmed
   * title, the description as typed and empty dates as `null`.
   */
  function SaveEditCheck(p: Option<Project>, f: EditForm): Guarded<UpdatePayload> {
    if !HasId(p) then Skip
    else if Trim(f.title) == "" then Refuse("Title is required.")
    else if f.startDate != "" && f.endDate != "" && StrLess(f.endDate, f.startDate) then
      Refuse("End date cannot be earlier than start date.")
    else Send(UpdatePayload(p.value.id, Trim(f.title), f.description, NonEmpty(f.startDate), NonEmpty(f.endDate)))
  }

  /** What the save guards decide, in the order they are checked. */
  lemma SaveEditCheckSpec(p: Option<Project>, f: EditForm)
    ensures var r := SaveEditCheck(p, f);
      && (r.Skip? <==> !HasId(p))
      && (HasId(p) && IsBlank(f.title) ==> r == Refuse("Title is required."))
      && (HasId(p) && !IsBlank(f.title) ==>
            (r.Refuse? <==> f.startDate != "" && f.endDate != "" && StrLess(f.endDate, f.startDate)))
      && (r.Refuse? ==> r.message == "Title is required." || r.message == "End date cannot be earlier than start date.")
      && (r.Send? ==> r.request.id == p.value.id && r.request.title == Trim(f.title) && r.request.title != ""
                      && r.request.description == f.description
                      && (r.request.startDate.None? <==> f.startDate == "")
                      && (r.request.endDate.None? <==> f.endDate == ""))
  {
  }

  /** The date check lets equal dates through, and lets anything through when a date is missing. */
  lemma SaveEditDatesPass(p: Option<Project>, f: EditForm)
    requires HasId(p) && !IsBlank(f.title)
    requires f.startDate == f.endDate || f.startDate == "" || f.endDate == ""
    ensures SaveEditCheck(p, f).Send?
  {
    StrLessIrreflexive(f.startDate);
  }

  /** Of two different non-empty dates, exactly one order is refused. */
  lemma SaveEditDatesOneWay(p: Option<Project>, f: EditForm)
    requires HasId(p) && !IsBlank(f.title)
    requires f.startDate != "" && f.endDate != "" && f.startDate != f.endDate
    ensures SaveEditCheck(p, f).Send? <==> SaveEditCheck(p, f.(startDate := f.endDate, endDate := f.startDate)).Refuse?
  {
    StrLessTotal(f.startDate, f.endDate);
  }

  /** `String(m.id)`: a missing id prints as "undefined". */
  function IdText(id: Option<string>): string {
    if id.Some? then id.value else "undefined"
  }

  /** `String(id)` of every member already on the project. */
  function MemberIds(p: Option<Project>): seq<string> {
    if p.Some? && p.value.members.Some? then
      seq(|p.value.members.value|, i requires 0 <= i < |p.value.members.value| => IdText(p.value.members.value[i].id))
    else []
  }

  /** The add-member candidates: fetched members whose `String(id)` is not on the project. */
  function Candidates(p: Option<Project>, fetched: seq<Member>): (r: seq<Member>)
    ensures |r| <= |fetched|
  {
    var ids := MemberIds(p);
    Filter(fetched, (m: Member) => IdText(m.id) !in ids)
  }

  /** A fetched member is offered exactly when no project member prints the same id; the order is kept. */
  lemma CandidatesExactly(p: Option<Project>, fetched: seq<Member>, m: Member)
    ensures m in Candidates(p, fetched) <==> m in fetched && IdText(m.id) !in MemberIds(p)
    ensures IsSubseq(Candidates(p, fetched), fetched)
  {
    var ids := MemberIds(p);
    FilterMembers(fetched, (m: Member) => IdText(m.id) !in ids);
    FilterSubseq(fetched, (m: Member) => IdText(m.id) !in ids);
  }

  /** A member already on the project is never offered again. */
  lemma CandidatesExcludeMembers(p: Project, fetched: seq<Member>, m: Member)
    requires p.members.Some? && m in p.members.value
    ensures m !in Candidates(Some(p), fetched)
  {
    CandidatesExactly(Some(p), fetched, m);
    var ms := p.members.value;
    var i :| 0 <= i < |ms| && ms[i] == m;
    assert MemberIds(Some(p))[i] == IdText(m.id);
  }

  /**
   * `handleCreateTask`'s guard: without a project id or with a blank title
   * it refuses; otherwise it sends the trimmed title and the lower-cased
   * status.
   */
  function CreateTaskCheck(p: Option<Project>, title: string, status: string): Guarded<NewTask> {
    if !HasId(p) || Trim(title) == "" then Refuse("Task title is required.")
    else Send(NewTask(p.value.id, Trim(title), ToLower(status)))
  }

  /** The create guard refuses exactly a missing project id or a blank title, and never skips silently. */
  lemma CreateTaskCheckSpec(p: Option<Project>, title: string, status: string)
    ensures var r := CreateTaskCheck(p, title, status);
      && !r.Skip?
      && (r.Refuse? <==> !HasId(p) || IsBlank(title))
      && (r.Refuse? ==> r.message == "Task title is required.")
      && (r.Send? ==> r.request.projectId == p.value.id && r.request.title == Trim(title) && r.request.title != ""
                      && |r.request.status| == |status|)
  {
  }

  /** The dialog's default status "TODO" is sent as "todo"; the three option values are sent as they are. */
  lemma CreateTaskStatuses(p: Project, title: string)
    requires p.id != 0 && !IsBlank(title)
    ensures CreateTaskCheck(Some(p), title, "TODO").Send?
    ensures CreateTaskCheck(Some(p), title, "TODO").request.status == "todo"
    ensures CreateTaskCheck(Some(p), title, "todo").request.status == "todo"
    ensures CreateTaskCheck(Some(p), title, "in_progress").request.status == "in_progress"
    ensures CreateTaskCheck(Some(p), title, "done").request.status == "done"
  {
    assert ToLower("TODO") == "todo";
    assert ToLower("todo") == "todo";
    assert ToLower("in_progress") == "in_progress";
    assert ToLower("done") == "done";
  }

  /** The requests the page sends. */
  datatype Request = Update(payload: UpdatePayload) | CreateTask(task: NewTask) | View(projectId: int)

  /** What `handleSaveEdit` leaves behind, given its guards' verdict and the update reply. */
  ghost predicate SaveEditEffect(check: Guarded<UpdatePayload>, reply: Reply<Project>,
    project0: Option<Project>, err0: string, sent0: seq<Request>, editing0: bool,
    project: Option<Project>, err: string, sent: seq<Request>, editing: bool)
  {
    && (check.Skip? ==> err == err0 && sent == sent0 && project == project0 && editing == editing0)
    && (check.Refuse? ==> err == check.message && sent == sent0 && project == project0 && editing == editing0)
    && (check.Send? ==> sent == sent0 + [Update(check.request)])
    && (check.Send? && reply.Succeeded() ==>
          err == "" && !editing && project == (if reply.payload.Some? then reply.payload else project0))
    && (check.Send? && !reply.Succeeded() ==>
          err == FailureText(reply, "Update", "Server error while updating project.")
          && editing == editing0 && project == project0)
  }

  /** What `handleCreateTask` leaves behind, given its guard's verdict and the two replies. */
  ghost predicate CreateTaskEffect(check: Guarded<NewTask>, reply: Reply<()>, refresh: Reply<Project>,
    project0: Option<Project>, err0: string, sent0: seq<Request>, show0: bool, key0: int, title0: string, status0: string,
    project: Option<Project>, err: string, sent: seq<Request>, show: bool, key: int, title: string, status: string)
  {
    && (check.Skip? ==>
          && err == err0 && sent == sent0 && project == project0 && show == show0 && key == key0
          && title == title0 && status == status0)
    && (check.Refuse? ==>
          && err == check.message && sent == sent0 && project == project0 && show == show0 && key == key0
          && title == title0 && status == status0)
    && (check.Send? && !reply.Succeeded() ==>
          && sent == sent0 + [CreateTask(check.request)]
          && err == FailureText(reply, "Task creation", "Server error while creating task.")
          && project == project0 && show == show0 && key == key0 && title == title0 && status == status0)
    && (check.Send? && reply.Succeeded() ==>
          && sent == sent0 + [CreateTask(check.request), View(check.request.projectId)]
          && project == (if refresh.Json? && refresh.success && refresh.payload.Some? then refresh.payload else project0))
    && (check.Send? && reply.Succeeded() && !refresh.NetworkError? ==>
          err == "" && !show && title == "" && status == "TODO" && key == key0 + 1)
    && (check.Send? && reply.Succeeded() && refresh.NetworkError? ==>
          && err == (if refresh.error != "" then refresh.error else "Server error while creating task.")
          && show == show0 && key == key0 && title == title0 && status == status0)
  }


  class ManagerProjectViewPage {
    var project: Option<Project>
    var err: string
    var editing: bool
    var form: EditForm
    var taskTitle: string
    var taskStatus: string
    var showCreateTask: bool
    /** Bumped to make the Kanban board reload. */
    var kanbanKey: int
    var sent: seq<Request>

    constructor(project: Option<Project>)
      ensures this.project == project && err == "" && !editing && form == EditForm("", "", "", "")
      ensures taskTitle == "" && taskStatus == "TODO" && !showCreateTask && kanbanKey == 0 && sent == []
    {
      this.project := project;
      err := "";
      editing := false;
      form := EditForm("", "", "", "");
      taskTitle := "";
      taskStatus := "TODO";
      showCreateTask := false;
      kanbanKey := 0;
      sent := [];
    }

    /** `handleEdit`: with a project, fill the form from it and start editing. */
    method StartEdit()
      modifies this
      ensures project.Some? ==> form == EditFormOf(project.value) && editing
      ensures project.None? ==> form == old(form) && editing == old(editing)
      ensures project == old(project) && err == old(err) && sent == old(sent)
      ensures taskTitle == old(taskTitle) && taskStatus == old(taskStatus) && showCreateTask == old(showCreateTask) && kanbanKey == old(kanbanKey)
    {
      if project.Some? {
        form := EditFormOf(project.value);
        editing := true;
      }
    }

    /**
     * `handleSaveEdit`: the guards first; after a successful update the
     * returned project (if any) replaces the shown one and editing ends;
     * a failure shows its reason and keeps the form open.
     */
    method SaveEdit(reply: Reply<Project>)
      modifies this
      ensures form == old(form)
      ensures SaveEditEffect(SaveEditCheck(old(project), old(form)), reply, old(project), old(err), old(sent), old(editing),
                             project, err, sent, editing)
      ensures taskTitle == old(taskTitle) && taskStatus == old(taskStatus) && showCreateTask == old(showCreateTask) && kanbanKey == old(kanbanKey)
    {
      var check := SaveEditCheck(project, form);
      ApplySaveEdit(check, reply);
    }

    /** The effect of `handleSaveEdit` once its guards have decided. */
    method ApplySaveEdit(check: Guarded<UpdatePayload>, reply: Reply<Project>)
      modifies this
      ensures form == old(form)
      ensures SaveEditEffect(check, reply, old(project), old(err), old(sent), old(editing), project, err, sent, editing)
      ensures taskTitle == old(taskTitle) && taskStatus == old(taskStatus) && showCreateTask == old(showCreateTask) && kanbanKey == old(kanbanKey)
    {
      match check {
        case Skip =>
        case Refuse(m) =>
          err := m;
        case Send(payload) =>
          err := "";
          sent := sent + [Update(payload)];
          if reply.Succeeded() {
            if reply.payload.Some? {
              project := reply.payload;
            }
            editing := false;
          } else {
            err := FailureText(reply, "Update", "Server error while updating project.");
          }
      }
    }

    /**
     * `handleCreateTask`: the guard first; after a successful create the
     * project is fetched again (taken only when that reply carries one), the
     * Kanban board is told to reload and the dialog closes and resets. A
     * failed create, or a refresh request that throws, shows its reason.
     */
    method CreateTaskFromPage(reply: Reply<()>, refresh: Reply<Project>)
      modifies this
      ensures var check := CreateTaskCheck(old(project), old(taskTitle), old(taskStatus));
        CreateTaskEffect(check, reply, refresh, old(project), old(err), old(sent), old(showCreateTask), old(kanbanKey), old(taskTitle), old(taskStatus),
                         project, err, sent, showCreateTask, kanbanKey, taskTitle, taskStatus)
      ensures editing == old(editing) && form == old(form)
    {
      var check := CreateTaskCheck(project, taskTitle, taskStatus);
      ApplyCreate(check, reply, refresh);
    }

    /** The effect of `handleCreateTask` once its guard has decided. */
    method ApplyCreate(check: Guarded<NewTask>, reply: Reply<()>, refresh: Reply<Project>)
      modifies this
      ensures CreateTaskEffect(check, reply, refresh, old(project), old(err), old(sent), old(showCreateTask), old(kanbanKey), old(taskTitle), old(taskStatus),
                               project, err, sent, showCreateTask, kanbanKey, taskTitle, taskStatus)
      ensures editing == old(editing) && form == old(form)
    {
      if !check.Send? {
        if check.Refuse? { err := check.message; }
        return;
      }
      var create := CreateTask(check.request);
      if !reply.Succeeded() {
        sent := sent + [create];
        err := FailureText(reply, "Task creation", "Server error while creating task.");
        return;
      }
      sent := sent + [create, View(check.request.projectId)];
      if refresh.NetworkError? {
        err := if refresh.error != "" then refresh.error else "Server error while creating task.";
        return;
      }
      if refresh.Json? && refresh.success && refresh.payload.Some? {
        project := refresh.payload;
      }
      kanbanKey := kanbanKey + 1;
      showCreateTask := false;
      taskTitle := "";
      taskStatus := "TODO";
      err := "";
    }
  }
}
