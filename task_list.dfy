/**
 * The manager's task list (`ManagerTaskListPage`): the two status tables
 * between the labels the page shows and the codes the server stores, the
 * mapping of loaded tasks, and task creation with its guard, the prepend of
 * the created task and the dialog reset.
 */
module TaskList {
  import opened Common
  import opened Text
  import opened Http

  /** The four statuses the page shows. */
  datatype UiStatus = TodoUi | InProgressUi | TestingUi | DoneUi

  /** The label shown for a status. */
  function Label(s: UiStatus): string {
    match s
    case TodoUi => "TODO"
    case InProgressUi => "In Progress"
    case TestingUi => "Testing"
    case DoneUi => "Done"
  }

  /** `uiToApi`: the server code of each status. */
  function UiToApi(s: UiStatus): string {
    match s
    case TodoUi => "todo"
    case InProgressUi => "in_progress"
    case TestingUi => "testing"
    case DoneUi => "done"
  }

  /** The four codes `uiToApi` produces. */
  predicate IsApiCode(code: string) {
    code == "todo" || code == "in_progress" || code == "testing" || code == "done"
  }

  /** `apiToUi`: the status a server code stands for; an unknown code reads as "TODO". */
  function ApiToUi(code: string): (r: UiStatus)
    ensures IsApiCode(code) ==> UiToApi(r) == code
    ensures !IsApiCode(code) ==> r == TodoUi
  {
    if code == "todo" then TodoUi
    else if code == "in_progress" then InProgressUi
    else if code == "testing" then TestingUi
    else if code == "done" then DoneUi
    else TodoUi
  }

  /** The four codes are distinct, so no two statuses are stored alike. */
  lemma UiToApiInjective(a: UiStatus, b: UiStatus)
    ensures UiToApi(a) == UiToApi(b) ==> a == b
    ensures IsApiCode(UiToApi(a))
  {
  }

  /** Every status survives a trip to the server code and back. */
  lemma UiRoundTrip(s: UiStatus)
    ensures ApiToUi(UiToApi(s)) == s
  {
  }

  /** Each of the four codes survives a trip to the status and back; any other code does not. */
  lemma ApiRoundTrip(code: string)
    ensures UiToApi(ApiToUi(code)) == code <==> IsApiCode(code)
  {
  }

  /** A task row as the page holds it. */
  datatype TaskData = TaskData(id: int, title: string, status: UiStatus)

  /** A task as the server sends it; `title` and `status` may be missing. */
  datatype RawTask = RawTask(id: int, title: Option<string>, status: Option<string>)

  /** The load mapping: a missing title is '' and a missing status is read as 'todo'. */
  function Loaded(t: RawTask): (d: TaskData)
    ensures d.id == t.id
    ensures d.title == t.title.GetOr("")
    ensures t.status.None? ==> d.status == TodoUi
    ensures t.status.Some? && IsApiCode(t.status.value) ==> UiToApi(d.status) == t.status.value
    ensures t.status.Some? && !IsApiCode(t.status.value) ==> d.status == TodoUi
  {
    TaskData(t.id, t.title.GetOr(""), ApiToUi(t.status.GetOr("todo")))
  }

  /** `(data.tasks ?? []).map(...)` */
  function LoadedAll(tasks: seq<RawTask>): (r: seq<TaskData>)
    ensures |r| == |tasks|
    ensures forall i :: 0 <= i < |tasks| ==> r[i] == Loaded(tasks[i])
  {
    seq(|tasks|, i requires 0 <= i < |tasks| => Loaded(tasks[i]))
  }

  /** The row made from the created task: the typed title and chosen status fill in what the reply leaves out. */
  function Created(t: RawTask, typedTitle: string, chosen: UiStatus): (d: TaskData)
    ensures d.id == t.id
    ensures d.title == t.title.GetOr(typedTitle)
    ensures t.status.None? ==> d.status == chosen
  {
    UiRoundTrip(chosen);
    TaskData(t.id, t.title.GetOr(typedTitle), ApiToUi(t.status.GetOr(UiToApi(chosen))))
  }

  /** The create request: `Number(id)` (NaN is `None`), the trimmed title and the status code. */
  datatype CreateRequest = CreateRequest(projectId: Option<nat>, title: string, status: string)

  class TaskListPage {
    /** The `id` route parameter; '' when absent. */
    const projectId: string
    var tasks: seq<TaskData>
    var dialogOpen: bool
    var newTitle: string
    var newStatus: UiStatus
    /** Messages shown with `alert`, oldest first. */
    var alerts: seq<string>
    /** Create requests sent, oldest first. */
    var sent: seq<CreateRequest>

    constructor(projectId: string)
      ensures this.projectId == projectId
      ensures tasks == [] && !dialogOpen && newTitle == "" && newStatus == TodoUi && alerts == [] && sent == []
    {
      this.projectId := projectId;
      tasks := [];
      dialogOpen := false;
      newTitle := "";
      newStatus := TodoUi;
      alerts := [];
      sent := [];
    }

    /** The load effect: a successful reply replaces the list; a failed one is only logged. */
    method Load(reply: Reply<seq<RawTask>>)
      modifies this
      ensures reply.Succeeded() ==> tasks == LoadedAll(reply.payload.GetOr([]))
      ensures !reply.Succeeded() ==> tasks == old(tasks)
      ensures dialogOpen == old(dialogOpen) && newTitle == old(newTitle) && newStatus == old(newStatus)
      ensures alerts == old(alerts) && sent == old(sent)
    {
      if reply.Succeeded() {
        tasks := LoadedAll(reply.payload.GetOr([]));
      }
    }

    /**
     * `handleCreateTask`: nothing without a project id; a blank title is
     * refused with an alert; otherwise one request goes out. On success the
     * created task (if the reply carries it) goes first and the dialog
     * resets and closes; on failure the reason is alerted.
     */
    method CreateTask(reply: Reply<RawTask>)
      modifies this
      ensures projectId == "" ==>
        && tasks == old(tasks) && alerts == old(alerts) && sent == old(sent)
        && newTitle == old(newTitle) && newStatus == old(newStatus) && dialogOpen == old(dialogOpen)
      ensures projectId != "" && IsBlank(old(newTitle)) ==>
        && tasks == old(tasks) && alerts == old(alerts) + ["Title is required"] && sent == old(sent)
        && newTitle == old(newTitle) && newStatus == old(newStatus) && dialogOpen == old(dialogOpen)
      ensures projectId != "" && !IsBlank(old(newTitle)) ==>
        sent == old(sent) + [CreateRequest(JsNumber(projectId), Trim(old(newTitle)), UiToApi(old(newStatus)))]
      ensures projectId != "" && !IsBlank(old(newTitle)) && reply.Succeeded() ==>
        && tasks == (if reply.payload.Some? then [Created(reply.payload.value, old(newTitle), old(newStatus))] else []) + old(tasks)
        && newTitle == "" && newStatus == TodoUi && !dialogOpen && alerts == old(alerts)
      ensures projectId != "" && !IsBlank(old(newTitle)) && !reply.Succeeded() ==>
        && tasks == old(tasks) && newTitle == old(newTitle) && newStatus == old(newStatus) && dialogOpen == old(dialogOpen)
        && alerts == old(alerts) + [FailureText(reply, "Create", "Server error while creating task.")]
    {
      if projectId == "" {
        return;
      }
      if Trim(newTitle) == "" {
        alerts := alerts + ["Title is required"];
        return;
      }
      Submit(CreateRequest(JsNumber(projectId), Trim(newTitle), UiToApi(newStatus)), reply);
    }

    /** The create request and its reply, once the guards have passed. */
    method Submit(request: CreateRequest, reply: Reply<RawTask>)
      modifies this
      ensures sent == old(sent) + [request]
      ensures reply.Succeeded() ==>
        && tasks == (if reply.payload.Some? then [Created(reply.payload.value, old(newTitle), old(newStatus))] else []) + old(tasks)
        && newTitle == "" && newStatus == TodoUi && !dialogOpen && alerts == old(alerts)
      ensures !reply.Succeeded() ==>
        && tasks == old(tasks) && newTitle == old(newTitle) && newStatus == old(newStatus) && dialogOpen == old(dialogOpen)
        && alerts == old(alerts) + [FailureText(reply, "Create", "Server error while creating task.")]
    {
      sent := sent + [request];
      if !reply.Succeeded() {
        alerts := alerts + [FailureText(reply, "Create", "Server error while creating task.")];
        return;
      }
      if reply.payload.Some? {
        var t := Created(reply.payload.value, newTitle, newStatus);
        tasks := [t] + tasks;
      }
      newTitle := "";
      newStatus := TodoUi;
      dialogOpen := false;
    }
  }
}
