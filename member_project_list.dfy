/**
 * The member's project list (`MemberProjectList`): loading the list with
 * its HTTP error messages and the all-zero default for missing counts,
 * each card's progress (`MemberProjectView.GetProgress`) and the searched,
 * filtered and sorted list shown.
 */
module MemberProjectList {
  import opened Common
  import opened Text
  import opened Seqs
  import opened ProjectLists
  import MemberProjectView

  type Counts = MemberProjectView.Counts

  /** A listed project; the times are those of the non-empty `updated_at` / `created_at` texts. */
  datatype Project = Project(
    id: string, title: string, description: Option<string>, statusCounts: Option<Counts>,
    updatedAt: Option<int>, createdAt: Option<int>)

  /** `{ ...p, statusCounts: p.statusCounts || { TODO: 0, ... } }` */
  function WithDefaultCounts(p: Project): (q: Project)
    ensures q.statusCounts.Some?
    ensures p.statusCounts.Some? ==> q == p
    ensures p.statusCounts.None? ==> q == p.(statusCounts := Some(MemberProjectView.ZeroCounts))
  {
    if p.statusCounts.Some? then p else p.(statusCounts := Some(MemberProjectView.ZeroCounts))
  }

  /** `(data.tasks || []).map(...)`: every project keeps its place and its fields, and gets counts. */
  function Processed(ps: seq<Project>): (r: seq<Project>)
    ensures |r| == |ps|
    ensures forall i :: 0 <= i < |ps| ==> r[i] == WithDefaultCounts(ps[i])
  {
    seq(|ps|, i requires 0 <= i < |ps| => WithDefaultCounts(ps[i]))
  }

  /** Only the counts change, and a project that had counts is untouched. */
  lemma ProcessedOnlyCounts(ps: seq<Project>, i: int)
    requires 0 <= i < |ps|
    ensures Processed(ps)[i].(statusCounts := ps[i].statusCounts) == ps[i]
    ensures ps[i].statusCounts.Some? ==> Processed(ps)[i] == ps[i]
    ensures MemberProjectView.GetProgress(Processed(ps)[i].statusCounts) == MemberProjectView.GetProgress(ps[i].statusCounts)
  {
    var p := ps[i];
    if p.statusCounts.None? {
      var zero := MemberProjectView.ZeroCounts;
      assert "TODO" in zero && "In Progress" in zero && "Testing" in zero && "Done" in zero;
    }
  }

  /** `updated_at || created_at || 0`, as a time. */
  function Stamp(p: Project): int {
    if p.updatedAt.Some? then p.updatedAt.value else if p.createdAt.Some? then p.createdAt.value else 0
  }

  /** The search test on one project, for a normalised, non-empty query. */
  predicate SearchHit(p: Project, q: string) {
    TextHit(p.title, p.description.GetOr(""), q)
  }

  /** `(p.statusCounts?.[statusFilter] ?? 0) > 0`, or everything for 'ALL'. */
  predicate StatusHit(p: Project, f: StatusFilter) {
    f.AllStatuses? || MemberProjectView.CountOf(p.statusCounts, f.Label()) > 0
  }

  /** The `filtered` memo: search, then status filter, then sort. */
  function Filtered(projects: seq<Project>, query: string, f: StatusFilter, order: SortOrder,
                    localeLe: (string, string) -> bool): seq<Project>
  {
    var q := NormalQuery(query);
    var searched := FilterIf(q != "", projects, (p: Project) => SearchHit(p, q));
    var kept := FilterIf(!f.AllStatuses?, searched, (p: Project) => StatusHit(p, f));
    Arranged(kept, order, (p: Project) => p.title, Stamp, localeLe)
  }

  /**
   * A project is listed exactly when it matches the query (a blank query
   * matches all) and the status filter; nothing is added or duplicated; the
   * recent order puts later activity first and the alpha order sorts titles.
   */
  lemma FilteredSpec(projects: seq<Project>, query: string, f: StatusFilter, order: SortOrder,
                     localeLe: (string, string) -> bool, x: Project)
    ensures x in Filtered(projects, query, f, order, localeLe)
        <==> x in projects && (IsBlank(query) || SearchHit(x, NormalQuery(query))) && StatusHit(x, f)
    ensures multiset(Filtered(projects, query, f, order, localeLe)) <= multiset(projects)
    ensures IsBlank(query) && f.AllStatuses? ==> multiset(Filtered(projects, query, f, order, localeLe)) == multiset(projects)
    ensures order == Recent ==> var r := Filtered(projects, query, f, order, localeLe);
      forall i :: 0 <= i < |r| - 1 ==> Stamp(r[i]) >= Stamp(r[i + 1])
    ensures order == Alpha && Total(localeLe) ==> var r := Filtered(projects, query, f, order, localeLe);
      forall i :: 0 <= i < |r| - 1 ==> localeLe(r[i].title, r[i + 1].title)
  {
    var q := NormalQuery(query);
    var hit := (p: Project) => SearchHit(p, q);
    var searched := FilterIf(q != "", projects, hit);
    var kept := FilterIf(!f.AllStatuses?, searched, (p: Project) => StatusHit(p, f));
    var r := Arranged(kept, order, (p: Project) => p.title, Stamp, localeLe);
    assert Filtered(projects, query, f, order, localeLe) == r;
    FilterIfMembers(q != "", projects, hit, x);
    FilterIfMembers(!f.AllStatuses?, searched, (p: Project) => StatusHit(p, f), x);
    assert x in multiset(r) <==> x in multiset(kept);
    ArrangedSorted(kept, order, (p: Project) => p.title, Stamp, localeLe);
  }

  /** The message for a non-2xx status. */
  function HttpError(status: int): (m: string)
    ensures m != ""
  {
    if status == 401 then "Authentication failed. Please log in again."
    else if status == 500 then "Server error occurred. Please try again later."
    else "HTTP error! status: " + IntToString(status)
  }

  /**
   * `fetchProjects`: a non-2xx status is reported before the body is read;
   * a body the JSON parser rejects (its message is `parseError`), a request
   * that throws or `success: false` give their message; an empty error text
   * reads "An unexpected error occurred". Otherwise the processed list.
   */
  function LoadProjects(reply: Reply<seq<Project>>, parseError: string): (r: Result<seq<Project>>)
  {
    match reply
    case NetworkError(e) => Err(if e != "" then e else "An unexpected error occurred")
    case NotJson(ok, status, _) =>
      if !ok then Err(HttpError(status))
      else Err(if parseError != "" then parseError else "An unexpected error occurred")
    case Json(ok, status, success, message, payload) =>
      if !ok then Err(HttpError(status))
      else if success then Ok(Processed(payload.GetOr([])))
      else Err(if message != "" then message else "Failed to fetch projects")
  }

  /** The list is replaced exactly on a 2xx JSON success, and then every project has counts; a failure always has a message. */
  lemma LoadProjectsSpec(reply: Reply<seq<Project>>, parseError: string)
    ensures LoadProjects(reply, parseError).Ok? <==> reply.Succeeded()
    ensures reply.Succeeded() ==> LoadProjects(reply, parseError).value == Processed(reply.payload.GetOr([]))
    ensures reply.Succeeded() ==> forall p :: p in LoadProjects(reply, parseError).value ==> p.statusCounts.Some?
    ensures LoadProjects(reply, parseError).Err? ==> LoadProjects(reply, parseError).message != ""
  {
  }

  /** A non-2xx status: 401 and 500 have their own message, any other reads "HTTP error! status: N". */
  lemma LoadProjectsHttpErrors(reply: Reply<seq<Project>>, parseError: string)
    requires !reply.NetworkError? && !reply.ok
    ensures reply.status == 401 ==> LoadProjects(reply, parseError) == Err("Authentication failed. Please log in again.")
    ensures reply.status == 500 ==> LoadProjects(reply, parseError) == Err("Server error occurred. Please try again later.")
    ensures reply.status != 401 && reply.status != 500 ==>
      LoadProjects(reply, parseError) == Err("HTTP error! status: " + IntToString(reply.status))
  {
  }
}
