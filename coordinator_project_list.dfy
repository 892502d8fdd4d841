/**
 * The coordinator's project list (`CoordinatorProjectList`): the record of
 * which supervisor is assigned to which project, built from the loaded
 * projects, preselected in the dialog, written on assign and removed on
 * unassign. The supervisors list the record is built against is passed in
 * explicitly.
 */
module CoordinatorProjectList {
  import opened Common
  import opened Seqs
  import opened Http

  /** A project; `supervisors` is the assigned supervisor's name ('' for `null`). */
  datatype Project = Project(id: int, title: string, supervisors: string, supervisorId: Option<int>)

  datatype Supervisor = Supervisor(id: int, fullName: string, email: string, kind: string)

  /** An entry of the assignments record. */
  datatype Assignment = Assignment(supervisorId: Option<int>, name: string, email: string, kind: string)

  type Assignments = map<int, Assignment>

  /** `project.supervisors` is truthy. */
  predicate HasSupervisor(p: Project) {
    p.supervisors != ""
  }

  /** `supervisors.find(s => s.full_name === name)` */
  function SupervisorNamed(sups: seq<Supervisor>, name: string): Option<Supervisor> {
    Find(sups, (s: Supervisor) => s.fullName == name)
  }

  /** `supervisors.find(s => s.id === id)` */
  function SupervisorWithId(sups: seq<Supervisor>, id: int): Option<Supervisor> {
    Find(sups, (s: Supervisor) => s.id == id)
  }

  /**
   * The entry for a project with a supervisor: the first listed supervisor
   * with that name, or else the project's own `supervisor_id` and name with
   * no email and no type.
   */
  function EntryOf(p: Project, sups: seq<Supervisor>): (a: Assignment)
    ensures (exists i :: 0 <= i < |sups| && sups[i].fullName == p.supervisors) ==>
      exists i :: 0 <= i < |sups| && sups[i].fullName == p.supervisors
        && (forall j :: 0 <= j < i ==> sups[j].fullName != p.supervisors)
        && a == Assignment(Some(sups[i].id), sups[i].fullName, sups[i].email, sups[i].kind)
    ensures (forall i :: 0 <= i < |sups| ==> sups[i].fullName != p.supervisors) ==>
      a == Assignment(p.supervisorId, p.supervisors, "", "")
    ensures a.name == p.supervisors
  {
    var s := SupervisorNamed(sups, p.supervisors);
    if s.Some? then Assignment(Some(s.value.id), s.value.fullName, s.value.email, s.value.kind)
    else Assignment(p.supervisorId, p.supervisors, "", "")
  }

  /**
   * The record `fetchProjects` builds, project by project; a later project
   * with the same id overwrites an earlier one.
   */
  function InitialAssignments(projects: seq<Project>, sups: seq<Supervisor>): Assignments
    decreases |projects|
  {
    if projects == [] then map[]
    else
      var m := InitialAssignments(projects[..|projects| - 1], sups);
      var p := projects[|projects| - 1];
      if HasSupervisor(p) then m[p.id := EntryOf(p, sups)] else m
  }

  /** The record has an entry for exactly the ids of projects with a supervisor. */
  lemma {:induction false} InitialAssignmentsKeys(projects: seq<Project>, sups: seq<Supervisor>)
    ensures forall id :: id in InitialAssignments(projects, sups) <==>
      exists j :: 0 <= j < |projects| && projects[j].id == id && HasSupervisor(projects[j])
    decreases |projects|
  {
    if projects != [] {
      var init := projects[..|projects| - 1];
      InitialAssignmentsKeys(init, sups);
      forall id | id in InitialAssignments(projects, sups)
        ensures exists j :: 0 <= j < |projects| && projects[j].id == id && HasSupervisor(projects[j])
      {
        if id !in InitialAssignments(init, sups) {
          assert projects[|projects| - 1].id == id;
        } else {
          var j :| 0 <= j < |init| && init[j].id == id && HasSupervisor(init[j]);
          assert projects[j] == init[j];
        }
      }
      forall id | exists j :: 0 <= j < |projects| && projects[j].id == id && HasSupervisor(projects[j])
        ensures id in InitialAssignments(projects, sups)
      {
        var j :| 0 <= j < |projects| && projects[j].id == id && HasSupervisor(projects[j]);
        if j < |init| {
          assert init[j] == projects[j];
        }
      }
    }
  }

  /** The entry under an id is built from the last project with that id that has a supervisor. */
  lemma {:induction false} InitialAssignmentsEntries(projects: seq<Project>, sups: seq<Supervisor>, j: nat)
    requires j < |projects| && HasSupervisor(projects[j])
    requires forall k :: j < k < |projects| && projects[k].id == projects[j].id ==> !HasSupervisor(projects[k])
    ensures projects[j].id in InitialAssignments(projects, sups)
    ensures InitialAssignments(projects, sups)[projects[j].id] == EntryOf(projects[j], sups)
    decreases |projects|
  {
    var init := projects[..|projects| - 1];
    if j < |projects| - 1 {
      assert init[j] == projects[j];
      forall k | j < k < |init| && init[k].id == init[j].id ensures !HasSupervisor(init[k]) {
        assert init[k] == projects[k];
      }
      InitialAssignmentsEntries(init, sups, j);
    }
  }

  /** The `forEach` loop of `fetchProjects`, adding one entry per project with a supervisor. */
  method BuildAssignments(projects: seq<Project>, sups: seq<Supervisor>) returns (m: Assignments)
    ensures m == InitialAssignments(projects, sups)
  {
    m := map[];
    for i := 0 to |projects|
      invariant m == InitialAssignments(projects[..i], sups)
    {
      assert projects[..i + 1][..i] == projects[..i];
      var p := projects[i];
      if HasSupervisor(p) {
        m := m[p.id := EntryOf(p, sups)];
      }
    }
    assert projects[..|projects|] == projects;
  }

  /** `assignments[projectId]?.supervisorId || null`: the supervisor the dialog starts on. */
  function Preselect(m: Assignments, projectId: int): (r: Option<int>)
    ensures r.Some? <==> projectId in m && Truthy(m[projectId].supervisorId)
    ensures r.Some? ==> r == m[projectId].supervisorId
  {
    if projectId in m && Truthy(m[projectId].supervisorId) then m[projectId].supervisorId else None
  }

  /** The entry `handleAssign` writes: the chosen supervisor's fields, or id 0 and '' when it is not listed. */
  function AssignedEntry(s: Option<Supervisor>): (a: Assignment)
    ensures s.Some? ==> a == Assignment(Some(s.value.id), s.value.fullName, s.value.email, s.value.kind)
    ensures s.None? ==> a == Assignment(Some(0), "", "", "")
  {
    if s.Some? then Assignment(Some(s.value.id), s.value.fullName, s.value.email, s.value.kind)
    else Assignment(Some(0), "", "", "")
  }

  /** `handleUnassign`'s guard: a local entry with a name, or a listed project with a supervisor. */
  predicate CanUnassign(m: Assignments, projects: seq<Project>, projectId: int) {
    var p := Find(projects, (q: Project) => q.id == projectId);
    (projectId in m && m[projectId].name != "") || (p.Some? && HasSupervisor(p.value))
  }

  /** Unassign is refused exactly when no entry names a supervisor and no project with that id has one. */
  lemma CanUnassignSpec(m: Assignments, projects: seq<Project>, projectId: int)
    ensures !CanUnassign(m, projects, projectId) <==>
      (projectId !in m || m[projectId].name == "")
      && forall i :: (0 <= i < |projects| && projects[i].id == projectId
                      && forall j :: 0 <= j < i ==> projects[j].id != projectId) ==> !HasSupervisor(projects[i])
  {
    var p := Find(projects, (q: Project) => q.id == projectId);
    if p.Some? {
      var i :| 0 <= i < |projects| && projects[i] == p.value && projects[i].id == projectId
               && forall j :: 0 <= j < i ==> projects[j].id != projectId;
      forall i' | 0 <= i' < |projects| && projects[i'].id == projectId
                  && (forall j :: 0 <= j < i' ==> projects[j].id != projectId)
        ensures i' == i
      {
      }
    }
  }

  /** A failed list request's message: `Failed to load <what>: <the thrown message>`. */
  function LoadFailure<T>(reply: Reply<T>, what: string): string
    requires !reply.Succeeded()
  {
    "Failed to load " + what + ": " + FailureText(reply, "Load", "")
  }

  /** The requests the page sends. */
  datatype Request = ListProjects | ListSupervisors | AssignTo(projectId: int, supervisorId: int) | UnassignFrom(projectId: int, supervisorId: int)

  class ProjectListPage {
    var projects: seq<Project>
    var supervisors: seq<Supervisor>
    var assignments: Assignments
    var showModal: bool
    var selectedProject: Option<int>
    var selectedSupervisor: Option<int>
    var error: string
    var sent: seq<Request>

    constructor()
      ensures projects == [] && supervisors == [] && assignments == map[] && !showModal
      ensures selectedProject.None? && selectedSupervisor.None? && error == "" && sent == []
    {
      projects := [];
      supervisors := [];
      assignments := map[];
      showModal := false;
      selectedProject := None;
      selectedSupervisor := None;
      error := "";
      sent := [];
    }

    /**
     * `fetchProjects`: a good reply replaces the projects and rebuilds the
     * record against the current supervisors; otherwise the thrown message.
     */
    method FetchProjects(reply: Reply<seq<Project>>) returns (failure: Option<string>)
      modifies this
      ensures sent == old(sent) + [ListProjects]
      ensures reply.Succeeded() ==>
        failure.None? && projects == reply.payload.GetOr([]) && assignments == InitialAssignments(projects, supervisors)
      ensures !reply.Succeeded() ==>
        failure == Some(LoadFailure(reply, "projects")) && projects == old(projects) && assignments == old(assignments)
      ensures supervisors == old(supervisors) && showModal == old(showModal) && error == old(error)
      ensures selectedProject == old(selectedProject) && selectedSupervisor == old(selectedSupervisor)
    {
      sent := sent + [ListProjects];
      if !reply.Succeeded() {
        return Some(LoadFailure(reply, "projects"));
      }
      projects := reply.payload.GetOr([]);
      assignments := BuildAssignments(projects, supervisors);
      failure := None;
    }

    /** `loadData`: supervisors first, then projects; the first failure is shown. */
    method Load(supervisorsReply: Reply<seq<Supervisor>>, projectsReply: Reply<seq<Project>>)
      modifies this
      ensures !supervisorsReply.Succeeded() ==>
        && sent == old(sent) + [ListSupervisors]
        && error == LoadFailure(supervisorsReply, "supervisors") && supervisors == old(supervisors)
        && projects == old(projects) && assignments == old(assignments)
      ensures supervisorsReply.Succeeded() ==>
        sent == old(sent) + [ListSupervisors, ListProjects] && supervisors == supervisorsReply.payload.GetOr([])
      ensures supervisorsReply.Succeeded() && projectsReply.Succeeded() ==>
        && error == ""
        && projects == projectsReply.payload.GetOr([]) && assignments == InitialAssignments(projects, supervisors)
      ensures supervisorsReply.Succeeded() && !projectsReply.Succeeded() ==>
        error == LoadFailure(projectsReply, "projects") && projects == old(projects) && assignments == old(assignments)
      ensures showModal == old(showModal) && selectedProject == old(selectedProject) && selectedSupervisor == old(selectedSupervisor)
    {
      error := "";
      sent := sent + [ListSupervisors];
      if !supervisorsReply.Succeeded() {
        error := LoadFailure(supervisorsReply, "supervisors");
        return;
      }
      supervisors := supervisorsReply.payload.GetOr([]);
      var failure := FetchProjects(projectsReply);
      if failure.Some? {
        error := failure.value;
      }
    }

    /** `handleOpenModal`: select the project, preselect its supervisor and open the dialog. */
    method OpenModal(projectId: int)
      modifies this
      ensures selectedProject == Some(projectId) && selectedSupervisor == Preselect(assignments, projectId) && showModal
      ensures projects == old(projects) && supervisors == old(supervisors) && assignments == old(assignments)
      ensures error == old(error) && sent == old(sent)
    {
      selectedProject := Some(projectId);
      selectedSupervisor := Preselect(assignments, projectId);
      showModal := true;
    }

    /**
     * `handleAssign`: nothing without a project and a supervisor selected.
     * An accepted assignment writes that project's entry, closes the dialog,
     * clears the supervisor choice and reloads the projects, whose record
     * then replaces the local one.
     */
    method Assign(reply: Reply<()>, reloadReply: Reply<seq<Project>>)
      modifies this
      ensures !Truthy(old(selectedProject)) || !Truthy(old(selectedSupervisor)) ==>
        && sent == old(sent) && assignments == old(assignments) && error == old(error) && showModal == old(showModal)
        && projects == old(projects) && selectedSupervisor == old(selectedSupervisor)
      ensures Truthy(old(selectedProject)) && Truthy(old(selectedSupervisor)) && !reply.Succeeded() ==>
        && sent == old(sent) + [AssignTo(old(selectedProject).value, old(selectedSupervisor).value)]
        && error == FailureText(reply, "Assignment", "Server error while assigning supervisor")
        && assignments == old(assignments) && showModal == old(showModal)
        && projects == old(projects) && selectedSupervisor == old(selectedSupervisor)
      ensures Truthy(old(selectedProject)) && Truthy(old(selectedSupervisor)) && reply.Succeeded() ==>
        && sent == old(sent) + [AssignTo(old(selectedProject).value, old(selectedSupervisor).value), ListProjects]
        && !showModal && selectedSupervisor.None?
        && (reloadReply.Succeeded() ==>
              && error == "" && projects == reloadReply.payload.GetOr([])
              && assignments == InitialAssignments(reloadReply.payload.GetOr([]), old(supervisors)))
        && (!reloadReply.Succeeded() ==>
              && error == LoadFailure(reloadReply, "projects") && projects == old(projects)
              && assignments == old(assignments)[old(selectedProject).value :=
                   AssignedEntry(SupervisorWithId(old(supervisors), old(selectedSupervisor).value))])
      ensures supervisors == old(supervisors) && selectedProject == old(selectedProject)
    {
      if !Truthy(selectedProject) || !Truthy(selectedSupervisor) {
        return;
      }
      var projectId := selectedProject.value;
      var supervisorId := selectedSupervisor.value;
      error := "";
      sent := sent + [AssignTo(projectId, supervisorId)];
      if !reply.Succeeded() {
        error := FailureText(reply, "Assignment", "Server error while assigning supervisor");
        return;
      }
      assignments := assignments[projectId := AssignedEntry(SupervisorWithId(supervisors, supervisorId))];
      showModal := false;
      selectedSupervisor := None;
      var failure := FetchProjects(reloadReply);
      if failure.Some? {
        error := failure.value;
      }
    }

    /**
     * `handleUnassign`: nothing when neither the record nor the project
     * names a supervisor. An accepted unassignment drops that project's
     * entry and reloads the projects.
     */
    method Unassign(projectId: int, supervisorId: int, reply: Reply<()>, reloadReply: Reply<seq<Project>>)
      modifies this
      ensures !CanUnassign(old(assignments), old(projects), projectId) ==>
        && sent == old(sent) && assignments == old(assignments) && error == old(error) && projects == old(projects)
      ensures CanUnassign(old(assignments), old(projects), projectId) && !reply.Succeeded() ==>
        && sent == old(sent) + [UnassignFrom(projectId, supervisorId)]
        && error == FailureText(reply, "Unassignment", "Server error while unassigning supervisor")
        && assignments == old(assignments) && projects == old(projects)
      ensures CanUnassign(old(assignments), old(projects), projectId) && reply.Succeeded() ==>
        && sent == old(sent) + [UnassignFrom(projectId, supervisorId), ListProjects]
        && (reloadReply.Succeeded() ==>
              && error == "" && projects == reloadReply.payload.GetOr([])
              && assignments == InitialAssignments(reloadReply.payload.GetOr([]), old(supervisors)))
        && (!reloadReply.Succeeded() ==>
              && error == LoadFailure(reloadReply, "projects") && projects == old(projects)
              && assignments == old(assignments) - {projectId})
      ensures showModal == old(showModal) && selectedProject == old(selectedProject)
      ensures supervisors == old(supervisors) && selectedSupervisor == old(selectedSupervisor)
    {
      if !CanUnassign(assignments, projects, projectId) {
        return;
      }
      error := "";
      sent := sent + [UnassignFrom(projectId, supervisorId)];
      if !reply.Succeeded() {
        error := FailureText(reply, "Unassignment", "Server error while unassigning supervisor");
        return;
      }
      assignments := assignments - {projectId};
      var failure := FetchProjects(reloadReply);
      if failure.Some? {
        error := failure.value;
      }
    }
  }

  /** The thrown messages are never empty, so the handlers' own `|| 'Failed to …'` fallbacks never show. */
  lemma FailureTextNonEmpty<T>(reply: Reply<T>, action: string, fallback: string)
    requires !reply.Succeeded() && fallback != ""
    ensures FailureText(reply, action, fallback) != ""
  {
  }
}
