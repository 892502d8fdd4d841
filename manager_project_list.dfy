/**
 * The manager's project list (`ManagerProjectListPage`): loading the list,
 * each card's progress and the searched, filtered and sorted list shown.
 * "Last updated" labels use `Formatters.FormatRelative`.
 */
module ManagerProjectList {
  import opened Common
  import opened Text
  import opened Seqs
  import opened Formatters
  import opened ProjectLists

  /**
   * A listed project. `updatedAt` and `createdAt` are the times the
   * non-empty `updated_at` / `created_at` texts stand for, `None` when the
   * text is missing or ''.
   */
  datatype Project = Project(
    id: string, title: string, description: Option<string>,
    todoCount: Option<nat>, inProgressCount: Option<nat>, testingCount: Option<nat>, doneCount: Option<nat>,
    updatedAt: Option<int>, createdAt: Option<int>)

  function Count(n: Option<nat>): nat {
    if n.Some? then n.value else 0
  }

  /** `getProgress(p)`: the four counts (missing ones as 0), their total and the rounded share done. */
  function ProjectProgress(p: Project): (r: Progress)
    ensures r.total == Count(p.todoCount) + Count(p.inProgressCount) + Count(p.testingCount) + Count(p.doneCount)
    ensures r.total == 0 ==> r.pct == 0
    ensures r.pct <= 100
    ensures r.total > 0 && r.done == r.total ==> r.pct == 100
    ensures r.todo == Count(p.todoCount) && r.doing == Count(p.inProgressCount)
    ensures r.testing == Count(p.testingCount) && r.done == Count(p.doneCount)
    ensures r.pct == Pct(r.done, r.total)
  {
    ProgressOf(Count(p.todoCount), Count(p.inProgressCount), Count(p.testingCount), Count(p.doneCount))
  }

  /** `updated_at || created_at || 0`, as a time. */
  function Stamp(p: Project): int {
    if p.updatedAt.Some? then p.updatedAt.value else if p.createdAt.Some? then p.createdAt.value else 0
  }

  /** The search test on one project, for a normalised, non-empty query. */
  predicate SearchHit(p: Project, q: string) {
    TextHit(p.title, p.description.GetOr(""), q)
  }

  /** The count the status filter looks at: `{ TODO, 'In Progress', Done }[filter] || 0`. */
  function StatusCount(p: Project, f: StatusFilter): nat
    requires !f.AllStatuses?
  {
    match f
    case TodoOnly => Count(p.todoCount)
    case InProgressOnly => Count(p.inProgressCount)
    case DoneOnly => Count(p.doneCount)
  }

  /** The status test on one project. */
  predicate StatusHit(p: Project, f: StatusFilter) {
    f.AllStatuses? || StatusCount(p, f) > 0
  }

  /** The `filtered` memo: search, then status filter, then sort. */
  function Filtered(projects: seq<Project>, query: string, f: StatusFilter, order: SortOrder,
                    localeLe: (string, string) -> bool): seq<Project>
  {
    var q := NormalQuery(query);
    var searched := FilterIf(q != "", projects, (p: Project) => SearchHit(p, q));
    var kept := FilterIf(!f.AllStatuses?, searched, (p: Project) => StatusHit(p, f));
    Arranged(kept, order, (p: Project) => p.title, Stamp, localeLe)
  }

  /**
   * A project is listed exactly when it matches the query (a blank query
   * matches all) and the status filter; nothing is added or duplicated; the
   * recent order puts later activity first and the alpha order sorts titles.
   */
  lemma FilteredSpec(projects: seq<Project>, query: string, f: StatusFilter, order: SortOrder,
                     localeLe: (string, string) -> bool, x: Project)
    ensures x in Filtered(projects, query, f, order, localeLe)
        <==> x in projects && (IsBlank(query) || SearchHit(x, NormalQuery(query))) && StatusHit(x, f)
    ensures multiset(Filtered(projects, query, f, order, localeLe)) <= multiset(projects)
    ensures IsBlank(query) && f.AllStatuses? ==> multiset(Filtered(projects, query, f, order, localeLe)) == multiset(projects)
    ensures order == Recent ==> var r := Filtered(projects, query, f, order, localeLe);
      forall i :: 0 <= i < |r| - 1 ==> Stamp(r[i]) >= Stamp(r[i + 1])
    ensures order == Alpha && Total(localeLe) ==> var r := Filtered(projects, query, f, order, localeLe);
      forall i :: 0 <= i < |r| - 1 ==> localeLe(r[i].title, r[i + 1].title)
  {
    var q := NormalQuery(query);
    var hit := (p: Project) => SearchHit(p, q);
    var searched := FilterIf(q != "", projects, hit);
    var kept := FilterIf(!f.AllStatuses?, searched, (p: Project) => StatusHit(p, f));
    FilterIfMembers(q != "", projects, hit, x);
    FilterIfMembers(!f.AllStatuses?, searched, (p: Project) => StatusHit(p, f), x);
    assert x in multiset(Filtered(projects, query, f, order, localeLe)) <==> x in multiset(kept);
    ArrangedSorted(kept, order, (p: Project) => p.title, Stamp, localeLe);
  }

  /**
   * `loadProjects`: a request that throws, a non-2xx status ("HTTP <n>"), a
   * body the JSON parser rejects (its message is `parseError`) or
   * `success: false` (the server's message, else "Failed to load
   * projects") each give an error; an empty error text reads "Something
   * went wrong". Otherwise the list is `data.projects || []`.
   */
  function LoadProjects(reply: Reply<seq<Project>>, parseError: string): (r: Result<seq<Project>>)
  {
    match reply
    case NetworkError(e) => Err(if e != "" then e else "Something went wrong")
    case NotJson(ok, status, _) =>
      if !ok then Err("HTTP " + IntToString(status))
      else Err(if parseError != "" then parseError else "Something went wrong")
    case Json(ok, status, success, message, payload) =>
      if !ok then Err("HTTP " + IntToString(status))
      else if success then Ok(payload.GetOr([]))
      else Err(if message != "" then message else "Failed to load projects")
  }

  /** The list is replaced exactly on a 2xx JSON success; every failure shows a non-empty message, the HTTP status first. */
  lemma LoadProjectsSpec(reply: Reply<seq<Project>>, parseError: string)
    ensures LoadProjects(reply, parseError).Ok? <==> reply.Succeeded()
    ensures reply.Succeeded() ==> LoadProjects(reply, parseError).value == reply.payload.GetOr([])
    ensures LoadProjects(reply, parseError).Err? ==> LoadProjects(reply, parseError).message != ""
    ensures !reply.NetworkError? && !reply.ok ==> LoadProjects(reply, parseError) == Err("HTTP " + IntToString(reply.status))
    ensures reply.Json? && reply.ok && !reply.success ==> LoadProjects(reply, parseError) == Err(reply.MessageOr("Failed to load projects"))
  {
  }
}
