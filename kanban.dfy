/**
 * The project Kanban board (`HomepageKanbanBoard`): three status lanes
 * loaded from the task list, drag-and-drop between and within lanes with
 * an optimistic update and a reload when the status update fails, the
 * task-edit guard and the "available members" list.
 */
module Kanban {
  import opened Common
  import opened Text
  import opened Seqs
  import opened Http

  // ---------------------------------------------------------------------------
  // Lanes and tasks

  datatype Lane = Todo | InProgress | Done

  /** The status code a lane stands for, which is also its key in `columns`. */
  function LaneKey(l: Lane): string {
    match l
    case Todo => "todo"
    case InProgress => "in_progress"
    case Done => "done"
  }

  /** `groupedTasks[status]`: the lane a status string names, if any. */
  function LaneOf(status: string): (r: Option<Lane>)
    ensures r.Some? ==> LaneKey(r.value) == status
  {
    if status == "todo" then Some(Todo)
    else if status == "in_progress" then Some(InProgress)
    else if status == "done" then Some(Done)
    else None
  }

  /** Every lane is found again from its own key, so the three keys are distinct. */
  lemma LaneOfKey(l: Lane)
    ensures LaneOf(LaneKey(l)) == Some(l)
  {
  }

  /** A task on the board; `assignedUsers` holds the ids of its assigned users. */
  datatype Task = Task(id: int, projectId: int, title: string, status: string, assignedUsers: seq<string>)

  /** A member who can be assigned to a task. */
  datatype Member = Member(id: string, name: string, email: string)

  /** The `columns` record: one list per lane. */
  datatype Columns = Columns(todo: seq<Task>, inProgress: seq<Task>, done: seq<Task>) {
    function Get(l: Lane): seq<Task> {
      match l
      case Todo => todo
      case InProgress => inProgress
      case Done => done
    }

    /** `{ ...columns, [l]: s }` */
    function With(l: Lane, s: seq<Task>): (r: Columns)
      ensures r.Get(l) == s
      ensures forall k :: k != l ==> r.Get(k) == Get(k)
    {
      match l
      case Todo => this.(todo := s)
      case InProgress => this.(inProgress := s)
      case Done => this.(done := s)
    }

    /** The number of cards on the board. */
    function Count(): nat {
      |todo| + |inProgress| + |done|
    }
  }

  const Empty := Columns([], [], [])

  /** Every card sits in the lane its status names. */
  predicate LanesMatchStatus(c: Columns) {
    forall l: Lane, t :: t in c.Get(l) ==> t.status == LaneKey(l)
  }

  /** Tasks whose status is lane `l`'s code. */
  function InLane(l: Lane): Task -> bool {
    (t: Task) => t.status == LaneKey(l)
  }

  /** Tasks whose status names one of the three lanes. */
  function HasLane(t: Task): bool {
    LaneOf(t.status).Some?
  }

  /** The grouping `fetchTasks` makes: each lane keeps its tasks in list order. */
  function Grouped(tasks: seq<Task>): Columns {
    Columns(Filter(tasks, InLane(Todo)), Filter(tasks, InLane(InProgress)), Filter(tasks, InLane(Done)))
  }

  /** Lane `l` of the grouping is the tasks filtered on `l`'s status. */
  lemma GroupedGet(tasks: seq<Task>, l: Lane)
    ensures Grouped(tasks).Get(l) == Filter(tasks, InLane(l))
  {
  }

  /** After loading, every card sits in the lane its status names. */
  lemma GroupedMatchesStatus(tasks: seq<Task>)
    ensures LanesMatchStatus(Grouped(tasks))
  {
    forall l: Lane, t | t in Grouped(tasks).Get(l) ensures t.status == LaneKey(l) {
      GroupedGet(tasks, l);
      var s := Filter(tasks, InLane(l));
      var i :| 0 <= i < |s| && s[i] == t;
      assert InLane(l)(s[i]);
    }
  }

  /** A task is in lane `l` after grouping exactly when it was loaded with status `l`; other statuses land nowhere. */
  lemma GroupedMembers(tasks: seq<Task>, l: Lane, t: Task)
    ensures t in Grouped(tasks).Get(l) <==> t in tasks && t.status == LaneKey(l)
    ensures LaneOf(t.status).None? ==> t !in Grouped(tasks).Get(l)
  {
    FilterMembers(tasks, InLane(l));
    assert Grouped(tasks).Get(l) == Filter(tasks, InLane(l));
  }

  /** Each lane keeps the order the tasks were listed in. */
  lemma GroupedKeepsOrder(tasks: seq<Task>, l: Lane)
    ensures IsSubseq(Grouped(tasks).Get(l), tasks)
  {
    FilterSubseq(tasks, InLane(l));
    assert Grouped(tasks).Get(l) == Filter(tasks, InLane(l));
  }

  /** The three lanes together hold as many cards as there are tasks with a lane status. */
  lemma {:induction false} GroupedCount(tasks: seq<Task>)
    ensures Grouped(tasks).Count() == |Filter(tasks, HasLane)|
  {
    if tasks != [] {
      var n := |tasks| - 1;
      var init, x := tasks[..n], tasks[n];
      assert tasks == init + [x];
      GroupedCount(init);
      GroupedSnoc(init, x, Todo);
      GroupedSnoc(init, x, InProgress);
      GroupedSnoc(init, x, Done);
      FilterAppend(init, x, HasLane);
      LaneOfKey(Todo);
      LaneOfKey(InProgress);
      LaneOfKey(Done);
    }
  }

  /** A lane's filter grows by `x` when `x` has that lane's status... */
  lemma LaneSnocSame(init: seq<Task>, x: Task, l: Lane)
    requires x.status == LaneKey(l)
    ensures Filter(init + [x], InLane(l)) == Filter(init, InLane(l)) + [x]
  {
    FilterAppend(init, x, InLane(l));
  }

  /** ...and stays as it was otherwise. */
  lemma LaneSnocOther(init: seq<Task>, x: Task, l: Lane)
    requires x.status != LaneKey(l)
    ensures Filter(init + [x], InLane(l)) == Filter(init, InLane(l))
  {
    FilterAppend(init, x, InLane(l));
    assert Filter(init, InLane(l)) + [] == Filter(init, InLane(l));
  }

  /** Grouping one more task appends it to the lane its status names, and to no other lane. */
  lemma GroupedSnoc(init: seq<Task>, x: Task, l: Lane)
    ensures Grouped(init + [x]).Get(l) == Grouped(init).Get(l) + (if x.status == LaneKey(l) then [x] else [])
  {
    if x.status == LaneKey(l) {
      LaneSnocSame(init, x, l);
    } else {
      LaneSnocOther(init, x, l);
    }
  }

  /** Two boards with the same three lanes are the same board. */
  lemma ColumnsEqual(a: Columns, b: Columns)
    requires a.Get(Todo) == b.Get(Todo) && a.Get(InProgress) == b.Get(InProgress) && a.Get(Done) == b.Get(Done)
    ensures a == b
  {
  }

  /** Loading a list in which every status names a lane puts every task on the board. */
  lemma GroupedAllLanes(tasks: seq<Task>)
    requires forall t :: t in tasks ==> HasLane(t)
    ensures Grouped(tasks).Count() == |tasks|
  {
    GroupedCount(tasks);
    FilterAll(tasks, HasLane);
  }

  // ---------------------------------------------------------------------------
  // Drag and drop

  /** A position in a lane, as the drag-drop library reports it. */
  datatype Location = Location(lane: Lane, index: nat)

  /** `DropResult`: where the card came from, and where it was dropped (none outside every lane). */
  datatype DropResult = DropResult(source: Location, destination: Option<Location>)

  /** A source position that holds a card (the drag library only reports such positions). */
  predicate ValidSource(c: Columns, src: Location) {
    src.index < |c.Get(src.lane)|
  }

  /**
   * The lanes after a drop: within one lane the card is spliced out and back
   * in at the destination index; across lanes it leaves the source lane and
   * enters the destination lane with its status rewritten to that lane.
   */
  function Dropped(c: Columns, src: Location, dst: Location): (r: Columns)
    requires ValidSource(c, src)
    ensures r.Count() == c.Count()
  {
    var lane := c.Get(src.lane);
    if src.lane == dst.lane then
      c.With(src.lane, Reordered(lane, src.index, dst.index))
    else
      var updated := lane[src.index].(status := LaneKey(dst.lane));
      c.With(src.lane, Remove(lane, src.index)).With(dst.lane, Insert(c.Get(dst.lane), dst.index, updated))
  }

  /** Every card of `s` with status `key` is still so after `s` is permuted, shrunk or given one more such card. */
  lemma StatusesKept(s: seq<Task>, r: seq<Task>, extra: multiset<Task>, key: string)
    requires multiset(r) <= multiset(s) + extra
    requires forall t :: t in s ==> t.status == key
    requires forall t :: t in extra ==> t.status == key
    ensures forall t :: t in r ==> t.status == key
  {
    forall t | t in r ensures t.status == key {
      assert t in multiset(r);
    }
  }

  /** A drop keeps every card in the lane its status names. */
  lemma DroppedMatchesStatus(c: Columns, src: Location, dst: Location)
    requires ValidSource(c, src) && LanesMatchStatus(c)
    ensures LanesMatchStatus(Dropped(c, src, dst))
  {
    var r := Dropped(c, src, dst);
    var lane := c.Get(src.lane);
    var moved := lane[src.index];
    forall l: Lane ensures forall t :: t in r.Get(l) ==> t.status == LaneKey(l) {
      if src.lane == dst.lane {
        if l == src.lane {
          StatusesKept(lane, r.Get(l), multiset{}, LaneKey(l));
        }
      } else if l == dst.lane {
        var updated := moved.(status := LaneKey(dst.lane));
        StatusesKept(c.Get(l), r.Get(l), multiset{updated}, LaneKey(l));
      } else if l == src.lane {
        StatusesKept(lane, r.Get(l), multiset{}, LaneKey(l));
      }
    }
  }

  /** A drop inside one lane permutes that lane, leaves the others alone and lands the card at the clamped index. */
  lemma DroppedSameLane(c: Columns, src: Location, to: nat)
    requires ValidSource(c, src)
    ensures var r := Dropped(c, src, Location(src.lane, to));
      && multiset(r.Get(src.lane)) == multiset(c.Get(src.lane))
      && r.Get(src.lane)[Clamp(to, |c.Get(src.lane)| - 1)] == c.Get(src.lane)[src.index]
      && forall l :: l != src.lane ==> r.Get(l) == c.Get(l)
  {
  }

  /** Dropping a card back onto its own place leaves the board as it was. */
  lemma DroppedInPlace(c: Columns, src: Location)
    requires ValidSource(c, src)
    ensures Dropped(c, src, src) == c
  {
    ReorderedInPlace(c.Get(src.lane), src.index);
    assert forall l: Lane :: Dropped(c, src, src).Get(l) == c.Get(l);
  }

  /**
   * A drop across lanes: the source lane loses exactly the card, the
   * destination lane gains exactly that card with its new status at the
   * clamped index, and the third lane is untouched.
   */
  lemma DroppedAcrossLanes(c: Columns, src: Location, dst: Location)
    requires ValidSource(c, src) && src.lane != dst.lane
    ensures var r := Dropped(c, src, dst);
      var moved := c.Get(src.lane)[src.index];
      var updated := moved.(status := LaneKey(dst.lane));
      && multiset(r.Get(src.lane)) + multiset{moved} == multiset(c.Get(src.lane))
      && multiset(r.Get(dst.lane)) == multiset(c.Get(dst.lane)) + multiset{updated}
      && r.Get(dst.lane)[Clamp(dst.index, |c.Get(dst.lane)|)] == updated
      && forall l :: l != src.lane && l != dst.lane ==> r.Get(l) == c.Get(l)
  {
  }

  // ---------------------------------------------------------------------------
  // Requests and the task-edit guard

  /** The requests the board sends. */
  datatype Request =
    | ListTasks(projectId: string)
    | UpdateStatus(projectId: string, taskId: int, status: string)
    | UpdateTask(taskProjectId: int, taskId: int, title: string, status: string)

  /** `handleSaveTask`'s guard: a selected task and a title that is not blank, trimmed in the request. */
  function SaveTaskRequest(selected: Option<Task>, title: string, status: string): (r: Result<Request>)
    ensures r.Err? <==> selected.None? || IsBlank(title)
    ensures r.Err? ==> r.message == "Task title is required."
    ensures r.Ok? ==> (r.value.UpdateTask? && r.value.taskId == selected.value.id
                       && r.value.taskProjectId == selected.value.projectId
                       && r.value.title == Trim(title) && r.value.title != ""
                       && r.value.status == status)
  {
    if selected.None? || Trim(title) == "" then Err("Task title is required.")
    else Ok(UpdateTask(selected.value.projectId, selected.value.id, Trim(title), status))
  }

  /** `getAvailableMembers`: the members not already assigned to the selected task, in their order. */
  function AvailableMembers(selected: Option<Task>, members: seq<Member>): (r: seq<Member>)
    ensures |r| <= |members|
  {
    var assignedIds := if selected.Some? then selected.value.assignedUsers else [];
    Filter(members, (m: Member) => m.id !in assignedIds)
  }

  /** A member is offered exactly when they were fetched and are not assigned; the order is kept. */
  lemma AvailableMembersExactly(selected: Option<Task>, members: seq<Member>, m: Member)
    ensures m in AvailableMembers(selected, members)
        <==> m in members && (selected.None? || m.id !in selected.value.assignedUsers)
    ensures IsSubseq(AvailableMembers(selected, members), members)
  {
    var assignedIds := if selected.Some? then selected.value.assignedUsers else [];
    FilterMembers(members, (m: Member) => m.id !in assignedIds);
    FilterSubseq(members, (m: Member) => m.id !in assignedIds);
  }

  // ---------------------------------------------------------------------------
  // The board

  /**
   * The lanes `fetchTasks` leaves behind: a successful list regroups the
   * board (no list empties it); a missing project id or any failure keeps
   * `columns0`.
   */
  function ReloadColumns(projectId: string, reply: Reply<seq<Task>>, columns0: Columns): (r: Columns)
    ensures (projectId == "" || !(reply.Json? && reply.success)) ==> r == columns0
    ensures projectId != "" && reply.Json? && reply.success && reply.payload.Some? ==>
      forall l: Lane :: r.Get(l) == Filter(reply.payload.value, InLane(l))
    ensures LanesMatchStatus(columns0) ==> LanesMatchStatus(r)
  {
    if projectId != "" && reply.Json? && reply.success then
      if reply.payload.Some? then
        GroupedMatchesStatus(reply.payload.value);
        forall l: Lane ensures Grouped(reply.payload.value).Get(l) == Filter(reply.payload.value, InLane(l)) {
          GroupedGet(reply.payload.value, l);
        }
        Grouped(reply.payload.value)
      else Empty
    else columns0
  }

  /** The error `fetchTasks` leaves behind: empty exactly when the load went through. */
  function ReloadError(projectId: string, reply: Reply<seq<Task>>): (r: string)
    ensures r == "" <==> projectId != "" && reply.Json? && reply.success
  {
    if projectId == "" then "Project ID is required"
    else match reply
      case NetworkError(e) => if e != "" then e else "Server error while loading tasks."
      case NotJson(_, _, text) => "API did not return JSON. Response: " + Take(text, 100) + "..."
      case Json(_, _, success, _, _) => if success then "" else reply.MessageOr("Failed to load tasks")
  }

  /**
   * The whole effect of a task update that passed the guard: a success
   * reloads the board and clears the error; a failure keeps the lanes and
   * reports why.
   */
  ghost predicate SaveEffect(projectId: string, request: Request, reply: Reply<()>, reloadReply: Reply<seq<Task>>,
    sent0: seq<Request>, columns0: Columns, sent: seq<Request>, columns: Columns, error: string)
  {
    && (reply.Succeeded() ==>
          && sent == sent0 + [request] + (if projectId != "" then [ListTasks(projectId)] else [])
          && columns == ReloadColumns(projectId, reloadReply, columns0) && error == "")
    && (!reply.Succeeded() ==>
          && sent == sent0 + [request] && columns == columns0
          && error == FailureText(reply, "Update", "Server error while updating task."))
  }

  class Board {
    /** The `projectId` property; '' when it is missing. */
    const projectId: string
    var columns: Columns
    var loading: bool
    var error: string
    /** Every request the board has sent, oldest first. */
    var sent: seq<Request>

    constructor(projectId: string)
      ensures this.projectId == projectId
      ensures columns == Empty && loading && error == "" && sent == []
    {
      this.projectId := projectId;
      columns := Empty;
      loading := true;
      error := "";
      sent := [];
    }

    /** The grouping loop: each listed task is pushed onto the lane its status names, if any. */
    static method GroupTasks(tasks: seq<Task>) returns (c: Columns)
      ensures c == Grouped(tasks)
    {
      c := Empty;
      var i := 0;
      while i < |tasks|
        invariant 0 <= i <= |tasks|
        invariant forall l :: c.Get(l) == Grouped(tasks[..i]).Get(l)
      {
        var t := tasks[i];
        assert tasks[..i + 1] == tasks[..i] + [t];
        GroupedSnoc(tasks[..i], t, Todo);
        GroupedSnoc(tasks[..i], t, InProgress);
        GroupedSnoc(tasks[..i], t, Done);
        LaneOfKey(Todo);
        LaneOfKey(InProgress);
        LaneOfKey(Done);
        match LaneOf(t.status) {
          case Some(l) => c := c.With(l, c.Get(l) + [t]);
          case None =>
        }
        i := i + 1;
      }
      assert tasks[..|tasks|] == tasks;
      ColumnsEqual(c, Grouped(tasks));
    }

    /**
     * `fetchTasks`: without a project id only the error is set. Otherwise a
     * list request goes out; a successful reply replaces the lanes (empty
     * when it carries no task list), a failed one keeps them and sets the
     * error. `response.ok` is not consulted.
     */
    method FetchTasks(reply: Reply<seq<Task>>)
      modifies this
      ensures !loading
      ensures projectId == "" ==> columns == old(columns) && error == "Project ID is required" && sent == old(sent)
      ensures projectId != "" ==> sent == old(sent) + [ListTasks(projectId)]
      ensures projectId != "" && reply.Json? && reply.success ==>
        error == "" && columns == (if reply.payload.Some? then Grouped(reply.payload.value) else Empty)
      ensures projectId != "" && reply.Json? && !reply.success ==>
        error == reply.MessageOr("Failed to load tasks") && columns == old(columns)
      ensures projectId != "" && reply.NotJson? ==>
        error == "API did not return JSON. Response: " + Take(reply.text, 100) + "..." && columns == old(columns)
      ensures projectId != "" && reply.NetworkError? ==>
        error == (if reply.error != "" then reply.error else "Server error while loading tasks.") && columns == old(columns)
      ensures columns == ReloadColumns(projectId, reply, old(columns)) && error == ReloadError(projectId, reply)
      ensures LanesMatchStatus(old(columns)) ==> LanesMatchStatus(columns)
    {
      if projectId == "" {
        error := "Project ID is required";
        loading := false;
        return;
      }
      loading := true;
      error := "";
      sent := sent + [ListTasks(projectId)];
      match reply {
        case NetworkError(e) =>
          error := if e != "" then e else "Server error while loading tasks.";
        case NotJson(_, _, text) =>
          error := "API did not return JSON. Response: " + Take(text, 100) + "...";
        case Json(_, _, success, _, payload) =>
          if success {
            if payload.Some? {
              columns := GroupTasks(payload.value);
              GroupedMatchesStatus(payload.value);
            } else {
              columns := Empty;
            }
          } else {
            error := reply.MessageOr("Failed to load tasks");
          }
      }
      loading := false;
    }

    /** The effect on mount: load when there is a project id, otherwise report that there is none. */
    method Mount(reply: Reply<seq<Task>>)
      modifies this
      ensures projectId == "" ==> columns == old(columns) && error == "No project ID provided" && sent == old(sent) && !loading
      ensures projectId != "" ==> sent == old(sent) + [ListTasks(projectId)]
      ensures projectId != "" ==>
        && columns == ReloadColumns(projectId, reply, old(columns))
        && error == ReloadError(projectId, reply)
        && !loading
    {
      if projectId != "" {
        FetchTasks(reply);
      } else {
        loading := false;
        error := "No project ID provided";
      }
    }

    /**
     * `onDragEnd`: a drop outside every lane does nothing. A drop inside one
     * lane reorders it and sends nothing. A drop across lanes is applied at
     * once, then exactly one status update carrying the card's id and the
     * new lane is sent; unless that reply succeeded, the board reloads.
     */
    method OnDragEnd(drop: DropResult, statusReply: Reply<()>, reloadReply: Reply<seq<Task>>)
      requires ValidSource(columns, drop.source)
      modifies this
      ensures drop.destination.None? ==> columns == old(columns) && sent == old(sent) && error == old(error)
      ensures drop.destination.Some? && drop.destination.value.lane == drop.source.lane ==>
        columns == Dropped(old(columns), drop.source, drop.destination.value) && sent == old(sent) && error == old(error)
      ensures drop.destination.Some? && drop.destination.value.lane != drop.source.lane ==>
        var status := UpdateStatus(projectId, old(columns).Get(drop.source.lane)[drop.source.index].id,
                                   LaneKey(drop.destination.value.lane));
        && (statusReply.Succeeded() ==>
              && columns == Dropped(old(columns), drop.source, drop.destination.value)
              && sent == old(sent) + [status] && error == old(error))
        && (!statusReply.Succeeded() ==>
              && columns == ReloadColumns(projectId, reloadReply, Dropped(old(columns), drop.source, drop.destination.value))
              && error == ReloadError(projectId, reloadReply))
        && (!statusReply.Succeeded() && projectId != "" ==> sent == old(sent) + [status, ListTasks(projectId)])
        && (!statusReply.Succeeded() && projectId == "" ==> sent == old(sent) + [status])
      ensures LanesMatchStatus(old(columns)) ==> LanesMatchStatus(columns)
      ensures loading == (if drop.destination.Some? && drop.destination.value.lane != drop.source.lane
                             && !statusReply.Succeeded() then false else old(loading))
    {
      if drop.destination.None? {
        return;
      }
      var dst := drop.destination.value;
      var moved := columns.Get(drop.source.lane)[drop.source.index];
      if LanesMatchStatus(columns) {
        DroppedMatchesStatus(columns, drop.source, dst);
      }
      columns := Dropped(columns, drop.source, dst);
      if drop.source.lane != dst.lane {
        SendMove(UpdateStatus(projectId, moved.id, LaneKey(dst.lane)), statusReply, reloadReply);
      }
    }

    /** `updateTaskStatus` after a move across lanes: send the update; unless it succeeded, reload the board. */
    method SendMove(status: Request, statusReply: Reply<()>, reloadReply: Reply<seq<Task>>)
      modifies this
      ensures statusReply.Succeeded() ==> columns == old(columns) && sent == old(sent) + [status] && error == old(error)
      ensures !statusReply.Succeeded() ==>
        columns == ReloadColumns(projectId, reloadReply, old(columns)) && error == ReloadError(projectId, reloadReply)
      ensures !statusReply.Succeeded() && projectId != "" ==> sent == old(sent) + [status, ListTasks(projectId)]
      ensures !statusReply.Succeeded() && projectId == "" ==> sent == old(sent) + [status]
      ensures LanesMatchStatus(old(columns)) ==> LanesMatchStatus(columns)
      ensures loading == (if statusReply.Succeeded() then old(loading) else false)
    {
      sent := sent + [status];
      if !statusReply.Succeeded() {
        FetchTasks(reloadReply);
      }
    }

    /**
     * `handleSaveTask`: the guard sets its message and sends nothing; after
     * a successful update the board reloads and the dialog closes, clearing
     * the error; otherwise the error reports what went wrong.
     */
    method SaveTask(selected: Option<Task>, title: string, status: string, reply: Reply<()>, reloadReply: Reply<seq<Task>>)
      modifies this
      ensures SaveTaskRequest(selected, title, status).Err? ==>
        error == "Task title is required." && sent == old(sent) && columns == old(columns)
      ensures SaveTaskRequest(selected, title, status).Ok? ==>
        SaveEffect(projectId, SaveTaskRequest(selected, title, status).value, reply, reloadReply,
                   old(sent), old(columns), sent, columns, error)
      ensures LanesMatchStatus(old(columns)) ==> LanesMatchStatus(columns)
      ensures loading == (if SaveTaskRequest(selected, title, status).Ok? && reply.Succeeded() then false else old(loading))
    {
      var request := SaveTaskRequest(selected, title, status);
      if request.Err? {
        error := request.message;
        return;
      }
      SendSave(request.value, reply, reloadReply);
    }

    /** The task update once the guard has passed. */
    method SendSave(request: Request, reply: Reply<()>, reloadReply: Reply<seq<Task>>)
      modifies this
      ensures SaveEffect(projectId, request, reply, reloadReply, old(sent), old(columns), sent, columns, error)
      ensures LanesMatchStatus(old(columns)) ==> LanesMatchStatus(columns)
      ensures loading == (if reply.Succeeded() then false else old(loading))
    {
      error := "";
      sent := sent + [request];
      if reply.Succeeded() {
        FetchTasks(reloadReply);
        error := "";
      } else {
        error := FailureText(reply, "Update", "Server error while updating task.");
      }
    }
  }
}
