/**
 * The manager's report page (`ManagerReportPage`): the manager's projects
 * with the first one preselected, the generated reports with their search
 * filter, report generation and report deletion.
 */
module ManagerReportPage {
  import opened Common
  import opened Text
  import opened Seqs

  /** A project as the server lists it; `title` is `None` when null or missing. */
  datatype RawProject = RawProject(id: int, title: Option<string>)
  datatype Project = Project(id: int, title: string)

  /** A report as the server lists it; a null or missing field is `None`. */
  datatype RawReport = RawReport(
    id: int, projectId: int, projectName: Option<string>, filename: Option<string>,
    downloadUrl: Option<string>, createdAt: Option<string>)
  datatype Report = Report(id: int, projectId: int, projectName: string, filename: string, downloadUrl: string, createdAt: string)

  /** `Project #<id>` */
  function ProjectLabel(id: int): string {
    "Project #" + IntToString(id)
  }

  /** A project's title, or `Project #<id>` when the server sent none (`??` keeps an empty title). */
  function NormalizeProject(p: RawProject): (r: Project)
    ensures r.id == p.id
    ensures p.title.Some? ==> r.title == p.title.value
    ensures p.title.None? ==> r.title == ProjectLabel(p.id)
  {
    Project(p.id, p.title.GetOr(ProjectLabel(p.id)))
  }

  /**
   * A report's fields with their fallbacks: `Project #<project id>`,
   * 'report.pdf', '#', and for a missing or empty creation time the time
   * `nowIso` stands for.
   */
  function NormalizeReport(r: RawReport, nowIso: string): (n: Report)
    ensures n.id == r.id && n.projectId == r.projectId
    ensures n.projectName == r.projectName.GetOr(ProjectLabel(r.projectId))
    ensures n.filename == r.filename.GetOr("report.pdf") && n.downloadUrl == r.downloadUrl.GetOr("#")
    ensures r.createdAt.Some? && r.createdAt.value != "" ==> n.createdAt == r.createdAt.value
    ensures r.createdAt.None? || r.createdAt.value == "" ==> n.createdAt == nowIso
  {
    Report(r.id, r.projectId, r.projectName.GetOr(ProjectLabel(r.projectId)), r.filename.GetOr("report.pdf"),
           r.downloadUrl.GetOr("#"), if r.createdAt.Some? && r.createdAt.value != "" then r.createdAt.value else nowIso)
  }

  function NormalizeProjects(ps: seq<RawProject>): (r: seq<Project>)
    ensures |r| == |ps| && forall i :: 0 <= i < |ps| ==> r[i] == NormalizeProject(ps[i])
  {
    seq(|ps|, i requires 0 <= i < |ps| => NormalizeProject(ps[i]))
  }

  function NormalizeReports(rs: seq<RawReport>, nowIso: string): (r: seq<Report>)
    ensures |r| == |rs| && forall i :: 0 <= i < |rs| ==> r[i] == NormalizeReport(rs[i], nowIso)
  {
    seq(|rs|, i requires 0 <= i < |rs| => NormalizeReport(rs[i], nowIso))
  }

  /** The first project's id becomes the selection when nothing is selected yet. */
  function Preselect(selected: string, list: seq<Project>): (r: string)
    ensures selected != "" ==> r == selected
    ensures selected == "" && list != [] ==> r == IntToString(list[0].id)
    ensures list == [] ==> r == selected
  {
    if |list| > 0 && selected == "" then IntToString(list[0].id) else selected
  }

  /**
   * The message of what a handler throws for a reply that did not succeed
   * (the body is parsed before the status is checked): a body that is not
   * JSON gives `notJson`; a JSON failure gives the server's message or
   * "`failed` (HTTP n)"; a request that threw gives its message or `fallback`.
   */
  function Thrown<T>(reply: Reply<T>, notJson: string, failed: string, fallback: string): string
    requires !reply.Succeeded()
  {
    match reply
    case NotJson(_, _, _) => notJson
    case Json(_, status, _, message, _) => if message != "" then message else failed + " (HTTP " + IntToString(status) + ")"
    case NetworkError(e) => if e != "" then e else fallback
  }

  /** Search: project name or file name contains the term, ignoring case. */
  predicate Matches(r: Report, term: string) {
    Includes(ToLower(r.projectName), ToLower(term)) || Includes(ToLower(r.filename), ToLower(term))
  }

  /** The `filteredReports` effect: all reports for an empty term, the matching ones otherwise. */
  function FilteredReports(reports: seq<Report>, term: string): (r: seq<Report>)
    ensures |r| <= |reports|
  {
    if term == "" then reports else Filter(reports, (rep: Report) => Matches(rep, term))
  }

  /** The shown reports are, in order, exactly the matching ones; an empty term shows them all. */
  lemma FilteredReportsSpec(reports: seq<Report>, term: string)
    ensures term == "" ==> FilteredReports(reports, term) == reports
    ensures term != "" ==> forall r :: r in FilteredReports(reports, term) <==> r in reports && Matches(r, term)
    ensures IsSubseq(FilteredReports(reports, term), reports)
  {
    if term == "" {
      SubseqRefl(reports);
    } else {
      FilterMembers(reports, (rep: Report) => Matches(rep, term));
      FilterSubseq(reports, (rep: Report) => Matches(rep, term));
    }
  }

  lemma {:induction false} SubseqRefl<T>(s: seq<T>)
    ensures IsSubseq(s, s)
  {
    if s != [] {
      SubseqRefl(s[1..]);
    }
  }

  /** `handleGeneratePDF`'s guard: the selection must read as a positive project id. */
  function GenerateCheck(selected: string): (r: Result<nat>)
    ensures r.Ok? <==> JsNumber(selected).Some? && JsNumber(selected).value > 0
    ensures r.Ok? ==> r.value == JsNumber(selected).value
    ensures r.Err? ==> r.message == "Please select a valid project."
  {
    var pid := JsNumber(selected);
    if pid.None? || pid.value == 0 then Err("Please select a valid project.") else Ok(pid.value)
  }

  /** Any positive id the page itself put in the selection passes the guard for that id. */
  lemma GenerateCheckOfId(n: nat)
    requires n > 0
    ensures GenerateCheck(NatToString(n)) == Ok(n)
  {
    JsNumberOfNatToString(n);
  }

  /** `reports.filter(r => r.id !== reportId)` */
  function WithoutReport(reports: seq<Report>, id: int): (r: seq<Report>)
    ensures |r| <= |reports|
  {
    Filter(reports, (rep: Report) => rep.id != id)
  }

  /** Deleting keeps, in order, exactly the reports with another id. */
  lemma WithoutReportSpec(reports: seq<Report>, id: int)
    ensures forall r :: r in WithoutReport(reports, id) <==> r in reports && r.id != id
    ensures IsSubseq(WithoutReport(reports, id), reports)
  {
    FilterMembers(reports, (rep: Report) => rep.id != id);
    FilterSubseq(reports, (rep: Report) => rep.id != id);
  }

  /** The requests the page sends. */
  datatype Request = ListProjects | ListReports | Generate(projectId: nat) | DeleteReport(id: int)

  /**
   * The whole effect of a generate request: a refused one shows why and
   * keeps the list; a generated report shows the server's message and
   * reloads the list; a failed reload keeps the list and shows its own
   * error.
   */
  ghost predicate GenerateEffect(
    projectId: nat, reply: Reply<()>, reloadReply: Reply<seq<RawReport>>, nowIso: string,
    sent0: seq<Request>, reports0: seq<Report>,
    sent: seq<Request>, reports: seq<Report>, msg: string, err: string)
  {
    if !reply.Succeeded() then
      && sent == sent0 + [Generate(projectId)] && msg == "" && reports == reports0
      && err == Thrown(reply, "Generate API did not return JSON", "Failed", "Server error while generating PDF.")
    else
      && sent == sent0 + [Generate(projectId), ListReports]
      && msg == reply.MessageOr("PDF generated successfully.")
      && (reloadReply.Succeeded() ==> reports == NormalizeReports(reloadReply.payload.GetOr([]), nowIso) && err == "")
      && (!reloadReply.Succeeded() ==>
            && reports == reports0
            && err == Thrown(reloadReply, "Report list API did not return JSON", "Load reports failed", "Failed to load generated reports."))
  }

  class ReportPage {
    var projects: seq<Project>
    /** The selected project id, as text ('' for none). */
    var selected: string
    var reports: seq<Report>
    var searchTerm: string
    var msg: string
    var err: string
    var sent: seq<Request>

    constructor()
      ensures projects == [] && selected == "" && reports == [] && searchTerm == "" && msg == "" && err == "" && sent == []
    {
      projects := [];
      selected := "";
      reports := [];
      searchTerm := "";
      msg := "";
      err := "";
      sent := [];
    }

    /** The reports on show. */
    function Shown(): seq<Report>
      reads this
    {
      FilteredReports(reports, searchTerm)
    }

    /** The projects load: the list, and the first project selected when none is. */
    method LoadProjects(reply: Reply<seq<RawProject>>)
      modifies this
      ensures sent == old(sent) + [ListProjects]
      ensures reply.Succeeded() ==>
        && projects == NormalizeProjects(reply.payload.GetOr([]))
        && selected == Preselect(old(selected), projects) && err == old(err)
      ensures !reply.Succeeded() ==>
        && projects == old(projects) && selected == old(selected)
        && err == Thrown(reply, "Projects API did not return JSON", "Load projects failed", "Failed to load your projects.")
      ensures reports == old(reports) && msg == old(msg) && searchTerm == old(searchTerm)
    {
      sent := sent + [ListProjects];
      if !reply.Succeeded() {
        err := Thrown(reply, "Projects API did not return JSON", "Load projects failed", "Failed to load your projects.");
        return;
      }
      projects := NormalizeProjects(reply.payload.GetOr([]));
      selected := Preselect(selected, projects);
    }

    /** `loadReports` at the time `nowIso` stands for: the list, or the error. */
    method LoadReports(reply: Reply<seq<RawReport>>, nowIso: string)
      modifies this
      ensures sent == old(sent) + [ListReports]
      ensures reply.Succeeded() ==> reports == NormalizeReports(reply.payload.GetOr([]), nowIso) && err == ""
      ensures !reply.Succeeded() ==>
        && reports == old(reports)
        && err == Thrown(reply, "Report list API did not return JSON", "Load reports failed", "Failed to load generated reports.")
      ensures projects == old(projects) && selected == old(selected) && msg == old(msg) && searchTerm == old(searchTerm)
    {
      sent := sent + [ListReports];
      err := "";
      if !reply.Succeeded() {
        err := Thrown(reply, "Report list API did not return JSON", "Load reports failed", "Failed to load generated reports.");
        return;
      }
      reports := NormalizeReports(reply.payload.GetOr([]), nowIso);
    }

    /** Typing in the search box: only the term changes, and with it the reports on show. */
    method Search(term: string)
      modifies this
      ensures searchTerm == term && reports == old(reports) && Shown() == FilteredReports(reports, term)
      ensures projects == old(projects) && err == old(err) && msg == old(msg) && sent == old(sent)
      ensures selected == old(selected)
    {
      searchTerm := term;
    }

    /**
     * `handleGeneratePDF`: both messages are cleared; an invalid selection
     * is refused without a request; a valid one is sent as `SendGenerate`
     * says.
     */
    method GeneratePdf(reply: Reply<()>, reloadReply: Reply<seq<RawReport>>, nowIso: string)
      modifies this
      ensures GenerateCheck(old(selected)).Err? ==>
        msg == "" && err == GenerateCheck(old(selected)).message && sent == old(sent) && reports == old(reports)
      ensures GenerateCheck(old(selected)).Ok? ==>
        GenerateEffect(GenerateCheck(old(selected)).value, reply, reloadReply, nowIso, old(sent), old(reports), sent, reports, msg, err)
      ensures projects == old(projects) && selected == old(selected) && searchTerm == old(searchTerm)
    {
      var check := GenerateCheck(selected);
      if check.Err? {
        msg := "";
        err := check.message;
        return;
      }
      SendGenerate(check.value, reply, reloadReply, nowIso);
    }

    /** The generate request for a valid project id. */
    method SendGenerate(projectId: nat, reply: Reply<()>, reloadReply: Reply<seq<RawReport>>, nowIso: string)
      modifies this
      ensures GenerateEffect(projectId, reply, reloadReply, nowIso, old(sent), old(reports), sent, reports, msg, err)
      ensures projects == old(projects) && selected == old(selected) && searchTerm == old(searchTerm)
    {
      msg := "";
      err := "";
      sent := sent + [Generate(projectId)];
      if !reply.Succeeded() {
        err := Thrown(reply, "Generate API did not return JSON", "Failed", "Server error while generating PDF.");
        return;
      }
      msg := reply.MessageOr("PDF generated successfully.");
      LoadReports(reloadReply, nowIso);
    }

    /** `handleDeleteReport`: nothing unless confirmed; a deleted report leaves the list. */
    method DeleteReportById(id: int, confirmed: bool, reply: Reply<()>)
      modifies this
      ensures !confirmed ==> sent == old(sent) && reports == old(reports) && msg == old(msg) && err == old(err)
      ensures confirmed ==> sent == old(sent) + [DeleteReport(id)]
      ensures confirmed && reply.Succeeded() ==>
        reports == WithoutReport(old(reports), id) && msg == "Report deleted successfully." && err == old(err)
      ensures confirmed && !reply.Succeeded() ==>
        && reports == old(reports) && msg == old(msg)
        && err == Thrown(reply, "Delete API did not return JSON", "Failed to delete report", "Failed to delete report.")
      ensures projects == old(projects) && selected == old(selected) && searchTerm == old(searchTerm)
    {
      if !confirmed {
        return;
      }
      sent := sent + [DeleteReport(id)];
      if !reply.Succeeded() {
        err := Thrown(reply, "Delete API did not return JSON", "Failed to delete report", "Failed to delete report.");
        return;
      }
      msg := "Report deleted successfully.";
      reports := WithoutReport(reports, id);
    }
  }
}
