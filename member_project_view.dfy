/**
 * The member's project page (`MemberProjectView`): loading one project, the
 * message shown for each way the load can fail, the all-zero default for
 * missing task counts and the progress figures drawn from them. Dates are
 * shown with `Formatters.FormatDate` (the page's `prettyDate`).
 */
module MemberProjectView {
  import opened Common
  import opened Formatters

  /** Task counts keyed by the labels "TODO", "In Progress", "Testing" and "Done". */
  type Counts = map<string, nat>

  /** The project as the view request returns it (the fields the page computes with). */
  datatype ProjectView = ProjectView(
    id: int, title: string, startDate: Option<string>, endDate: Option<string>, taskCounts: Option<Counts>)

  /** `counts?.[key] ?? 0` */
  function CountOf(counts: Option<Counts>, key: string): nat {
    if counts.Some? && key in counts.value then counts.value[key] else 0
  }

  /** `getProgress(counts)`: the four labelled counts, missing ones as 0. */
  function GetProgress(counts: Option<Counts>): (p: Progress)
    ensures p.todo == CountOf(counts, "TODO") && p.doing == CountOf(counts, "In Progress")
    ensures p.testing == CountOf(counts, "Testing") && p.done == CountOf(counts, "Done")
    ensures p.total == p.todo + p.doing + p.testing + p.done
    ensures p.pct <= 100 && (p.total == 0 ==> p.pct == 0)
    ensures p.pct == Pct(p.done, p.total)
  {
    ProgressOf(CountOf(counts, "TODO"), CountOf(counts, "In Progress"), CountOf(counts, "Testing"), CountOf(counts, "Done"))
  }

  /** The record put in place of missing counts. */
  const ZeroCounts: Counts := map["TODO" := 0, "In Progress" := 0, "Testing" := 0, "Done" := 0]

  /** `p.task_counts || { TODO: 0, ... }`: any record present is kept, even an empty one. */
  function WithDefaultCounts(p: ProjectView): (q: ProjectView)
    ensures q.taskCounts.Some?
    ensures p.taskCounts.Some? ==> q == p
    ensures p.taskCounts.None? ==> q == p.(taskCounts := Some(ZeroCounts))
  {
    if p.taskCounts.Some? then p else p.(taskCounts := Some(ZeroCounts))
  }

  /** A project that arrived without counts shows no tasks and 0% done. */
  lemma DefaultCountsProgress(p: ProjectView)
    requires p.taskCounts.None?
    ensures GetProgress(WithDefaultCounts(p).taskCounts) == Progress(0, 0, 0, 0, 0, 0)
  {
    assert "TODO" in ZeroCounts && "In Progress" in ZeroCounts && "Testing" in ZeroCounts && "Done" in ZeroCounts;
  }

  /** Missing counts and the all-zero default give the same progress. */
  lemma DefaultCountsSameProgress(p: ProjectView)
    ensures GetProgress(WithDefaultCounts(p).taskCounts) == GetProgress(p.taskCounts)
  {
    if p.taskCounts.None? {
      DefaultCountsProgress(p);
    }
  }

  /** The message for a JSON reply that is not a success carrying a project, by HTTP status. */
  function StatusMessage(status: int, serverMessage: string): (m: string)
    ensures m != ""
  {
    if status == 404 then "Project not found or you don't have access to it."
    else if status == 401 then "Authentication failed. Please log in again."
    else if status == 400 then "Invalid project ID provided."
    else if status == 500 then "Server error occurred. Please try again later."
    else if serverMessage != "" then serverMessage
    else "Failed to load project"
  }

  /**
   * `fetchProject` for the route parameter `id` ('' when absent): the
   * project shown, with counts defaulted, or the error shown instead.
   */
  function LoadProject(id: string, reply: Reply<ProjectView>): (r: Result<ProjectView>)
  {
    if id == "" then Err("Invalid project ID")
    else match reply
      case NetworkError(_) => Err("Network error while loading project.")
      case NotJson(_, _, _) => Err("Network error while loading project.")
      case Json(ok, status, success, message, payload) =>
        if ok && success && payload.Some? then Ok(WithDefaultCounts(payload.value))
        else Err(StatusMessage(status, message))
  }

  /**
   * A project is shown exactly when there is an id and a successful reply
   * carries one; it is the reply's project with counts present. Any failure
   * shows a non-empty message, so the page shows its error state.
   */
  lemma LoadProjectSpec(id: string, reply: Reply<ProjectView>)
    ensures var r := LoadProject(id, reply);
      && (r.Ok? <==> id != "" && reply.Succeeded() && reply.payload.Some?)
      && (r.Ok? ==> r.value.taskCounts.Some? && r.value.id == reply.payload.value.id
                    && r.value.title == reply.payload.value.title
                    && r.value.startDate == reply.payload.value.startDate
                    && r.value.endDate == reply.payload.value.endDate)
      && (r.Err? ==> r.message != "")
  {
  }

  /** The failure messages: a missing id, a request that threw or a non-JSON body, then the status table. */
  lemma LoadProjectErrors(id: string, reply: Reply<ProjectView>)
    ensures id == "" ==> LoadProject(id, reply) == Err("Invalid project ID")
    ensures id != "" && !reply.Json? ==> LoadProject(id, reply) == Err("Network error while loading project.")
    ensures id != "" && reply.Json? && !(reply.ok && reply.success && reply.payload.Some?) ==>
      && (reply.status == 404 ==> LoadProject(id, reply) == Err("Project not found or you don't have access to it."))
      && (reply.status == 401 ==> LoadProject(id, reply) == Err("Authentication failed. Please log in again."))
      && (reply.status == 400 ==> LoadProject(id, reply) == Err("Invalid project ID provided."))
      && (reply.status == 500 ==> LoadProject(id, reply) == Err("Server error occurred. Please try again later."))
      && (reply.status !in {404, 401, 400, 500} ==> LoadProject(id, reply) == Err(reply.MessageOr("Failed to load project")))
  {
  }
}
