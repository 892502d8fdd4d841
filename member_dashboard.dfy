/**
 * The member's dashboard (`MemberDashboard`): the selection kept across
 * reloads, the overview with its `totalTasks` fallback, and the per-project
 * breakdown that accepts both the lane keys and the display labels. The
 * completion shown is `Formatters.Pct` of the done count over the total.
 */
module MemberDashboard {
  import opened Common
  import opened TaskCounts

  datatype Project = Project(id: int, title: string)

  /** Whether some listed project has this id (`tasks.find(p => p.id === selected)`). */
  predicate Listed(projects: seq<Project>, id: int) {
    exists i :: 0 <= i < |projects| && projects[i].id == id
  }

  /**
   * The selection after a reload (`None` is ''): a non-empty list replaces a
   * missing or unlisted selection with its first project.
   */
  function Reselect(selected: Option<int>, projects: seq<Project>): (r: Option<int>)
  {
    if |projects| > 0 && (selected.None? || !Listed(projects, selected.value)) then Some(projects[0].id)
    else selected
  }

  /** After a reload with projects the selection names a listed project, and a listed selection is kept. */
  lemma ReselectSpec(selected: Option<int>, projects: seq<Project>)
    ensures projects != [] ==> Reselect(selected, projects).Some? && Listed(projects, Reselect(selected, projects).value)
    ensures selected.Some? && Listed(projects, selected.value) ==> Reselect(selected, projects) == selected
    ensures projects == [] ==> Reselect(selected, projects) == selected
  {
    if projects != [] && (selected.None? || !Listed(projects, selected.value)) {
      assert projects[0].id == Reselect(selected, projects).value;
    }
  }

  /** `a || b || 0` over two tallied keys. */
  function Either(acc: map<string, nat>, key: string, alias: string): nat {
    if CountOr(acc, key) != 0 then CountOr(acc, key) else CountOr(acc, alias)
  }

  /**
   * The per-project breakdown: `counts.todo || counts.TODO || 0` and the
   * same for in progress and done; the total is the number of tasks.
   */
  function ProjectCounts(statuses: seq<string>): (o: Overview)
    ensures o.total == |statuses|
  {
    var acc := Tally(statuses);
    Overview(Either(acc, "todo", "TODO"), Either(acc, "in_progress", "In Progress"), Either(acc, "done", "Done"), |statuses|)
  }

  /**
   * Each count is that of the lane key when any task uses it, otherwise that
   * of the display label; the three never exceed the number of tasks.
   */
  lemma {:induction false} ProjectCountsSpec(statuses: seq<string>)
    ensures var o := ProjectCounts(statuses); var m := multiset(statuses);
      && o.todo == (if m["todo"] > 0 then m["todo"] else m["TODO"])
      && o.inProgress == (if m["in_progress"] > 0 then m["in_progress"] else m["In Progress"])
      && o.done == (if m["done"] > 0 then m["done"] else m["Done"])
      && o.todo + o.inProgress + o.done <= o.total
  {
    var m := multiset(statuses);
    DistinctKeysBound(statuses, if m["todo"] > 0 then "todo" else "TODO",
                      if m["in_progress"] > 0 then "in_progress" else "In Progress",
                      if m["done"] > 0 then "done" else "Done");
  }

  /** Three distinct statuses occur at most as often, together, as there are tasks. */
  lemma {:induction false} DistinctKeysBound(statuses: seq<string>, a: string, b: string, c: string)
    requires a != b && b != c && a != c
    ensures multiset(statuses)[a] + multiset(statuses)[b] + multiset(statuses)[c] <= |statuses|
  {
    if statuses != [] {
      var init := statuses[..|statuses| - 1];
      assert statuses == init + [statuses[|statuses| - 1]];
      DistinctKeysBound(init, a, b, c);
    }
  }

  /** The overview request: the three counts with missing ones as 0, and `total_tasks || total`. */
  function TasksOverview(todo: Option<nat>, inProgress: Option<nat>, done: Option<nat>, totalTasks: Option<int>): (r: (Overview, int))
    ensures r.0.total == r.0.todo + r.0.inProgress + r.0.done
    ensures Truthy(totalTasks) ==> r.1 == totalTasks.value
    ensures !Truthy(totalTasks) ==> r.1 == r.0.total
  {
    var o := OverviewOf(todo, inProgress, done);
    (o, if Truthy(totalTasks) then totalTasks.value else o.total)
  }
}
