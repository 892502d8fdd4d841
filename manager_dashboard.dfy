/**
 * The manager's dashboard (`ManagerDashboard`): the four overview requests
 * read in order, the first project selected automatically, and the task
 * breakdown recounted for the selected project.
 */
module ManagerDashboard {
  import opened Common
  import opened TaskCounts

  datatype Project = Project(id: int, title: string)
  datatype Event = Event(id: int, title: string, date: string)
  /** The events overview: `total_events`, if sent. */
  datatype EventsOverview = EventsOverview(totalEvents: Option<int>)
  /** The tasks overview: the three counts and `total_tasks`, each if sent. */
  datatype TasksOverview = TasksOverview(todo: Option<nat>, inProgress: Option<nat>, done: Option<nat>, totalTasks: Option<int>)

  /** What the dashboard shows. `totalTasks` is `None` while `total_tasks` was not sent. */
  datatype Dashboard = Dashboard(
    projects: seq<Project>, totalProjects: nat, totalEvents: int, totalTasks: Option<int>,
    overview: Overview, upcoming: seq<Event>, selected: Option<int>, err: string)

  const Initial := Dashboard([], 0, 0, Some(0), NoTasks, [], None, "")

  const LoadFailed := "Failed to load dashboard data. Please try again."

  /** `if (!selectedProject && projects.length > 0) setSelectedProject(projects[0].id)` */
  function AutoSelect(selected: Option<int>, projects: seq<Project>): (r: Option<int>)
    ensures r == selected || (!Truthy(selected) && projects != [] && r == Some(projects[0].id))
    ensures projects != [] ==> r.Some?
    ensures Truthy(selected) ==> r == selected
  {
    if !Truthy(selected) && |projects| > 0 then Some(projects[0].id) else selected
  }

  /** The projects reply: taken when it carries a list. */
  function TakeProjects(d: Dashboard, reply: Reply<seq<Project>>): Dashboard {
    if reply.Carries() then
      d.(projects := reply.payload.value, totalProjects := |reply.payload.value|,
         selected := AutoSelect(d.selected, reply.payload.value))
    else d
  }

  function TakeEvents(d: Dashboard, reply: Reply<EventsOverview>): Dashboard {
    if reply.Carries() then d.(totalEvents := OrZero(reply.payload.value.totalEvents)) else d
  }

  function TakeTasks(d: Dashboard, reply: Reply<TasksOverview>): Dashboard {
    if reply.Carries() then
      var o := reply.payload.value;
      d.(overview := OverviewOf(o.todo, o.inProgress, o.done), totalTasks := o.totalTasks)
    else d
  }

  function TakeUpcoming(d: Dashboard, reply: Reply<seq<Event>>): Dashboard {
    if reply.Carries() then d.(upcoming := reply.payload.value) else d
  }

  /**
   * `loadDashboardData`: if any of the four requests throws, nothing is
   * taken; otherwise the bodies are read in order and the first that is
   * not JSON stops the rest, keeping what was taken before it.
   */
  function LoadDashboard(d: Dashboard, projects: Reply<seq<Project>>, events: Reply<EventsOverview>,
                         tasks: Reply<TasksOverview>, upcoming: Reply<seq<Event>>): Dashboard
  {
    if projects.NetworkError? || events.NetworkError? || tasks.NetworkError? || upcoming.NetworkError? then
      d.(err := LoadFailed)
    else if projects.NotJson? then d.(err := LoadFailed)
    else
      var d1 := TakeProjects(d, projects);
      if events.NotJson? then d1.(err := LoadFailed)
      else
        var d2 := TakeEvents(d1, events);
        if tasks.NotJson? then d2.(err := LoadFailed)
        else
          var d3 := TakeTasks(d2, tasks);
          if upcoming.NotJson? then d3.(err := LoadFailed)
          else TakeUpcoming(d3, upcoming)
  }

  /**
   * With four JSON answers: the project total is the list's length and the
   * first project is selected when none was; the overview takes the three
   * counts sent (missing ones as 0) and totals them; the events total and
   * the upcoming list are taken when sent; no error is set.
   */
  lemma LoadDashboardSpec(d: Dashboard, projects: Reply<seq<Project>>, events: Reply<EventsOverview>,
                          tasks: Reply<TasksOverview>, upcoming: Reply<seq<Event>>)
    requires projects.Json? && events.Json? && tasks.Json? && upcoming.Json?
    ensures var r := LoadDashboard(d, projects, events, tasks, upcoming);
      && r.err == d.err
      && (projects.Carries() ==> r.projects == projects.payload.value && r.totalProjects == |r.projects|)
      && (projects.Carries() && !Truthy(d.selected) && projects.payload.value != [] ==> r.selected == Some(r.projects[0].id))
      && (!projects.Carries() ==> r.projects == d.projects && r.selected == d.selected)
      && (tasks.Carries() ==>
            && r.overview.todo == OrZero(tasks.payload.value.todo)
            && r.overview.inProgress == OrZero(tasks.payload.value.inProgress)
            && r.overview.done == OrZero(tasks.payload.value.done)
            && r.overview.total == r.overview.todo + r.overview.inProgress + r.overview.done
            && r.totalTasks == tasks.payload.value.totalTasks)
      && (!tasks.Carries() ==> r.overview == d.overview && r.totalTasks == d.totalTasks)
      && (events.Carries() ==> r.totalEvents == OrZero(events.payload.value.totalEvents))
      && (!events.Carries() ==> r.totalEvents == d.totalEvents)
      && (upcoming.Carries() ==> r.upcoming == upcoming.payload.value)
      && (!upcoming.Carries() ==> r.upcoming == d.upcoming)
  {
  }

  /** A body that is not JSON sets the error and leaves what later requests would have set. */
  lemma LoadDashboardStops(d: Dashboard, projects: Reply<seq<Project>>, events: Reply<EventsOverview>,
                           tasks: Reply<TasksOverview>, upcoming: Reply<seq<Event>>)
    requires !projects.NetworkError? && !events.NetworkError? && !tasks.NetworkError? && !upcoming.NetworkError?
    ensures projects.NotJson? ==> LoadDashboard(d, projects, events, tasks, upcoming) == d.(err := LoadFailed)
    ensures projects.Json? && tasks.NotJson? ==>
      LoadDashboard(d, projects, events, tasks, upcoming).overview == d.overview
      && LoadDashboard(d, projects, events, tasks, upcoming).err == LoadFailed
      && LoadDashboard(d, projects, events, tasks, upcoming).projects == TakeProjects(d, projects).projects
  {
  }

  /** The per-project breakdown: the tallied `todo`, `in_progress` and `done`, and the number of tasks. */
  function ProjectCounts(statuses: seq<string>): (o: Overview)
    ensures o.total == |statuses|
    ensures o.todo == multiset(statuses)["todo"] && o.inProgress == multiset(statuses)["in_progress"]
            && o.done == multiset(statuses)["done"]
  {
    var acc := Tally(statuses);
    Overview(CountOr(acc, "todo"), CountOr(acc, "in_progress"), CountOr(acc, "done"), |statuses|)
  }

  /** The three counts stay within the total, and fill it exactly when every task has one of those statuses. */
  lemma ProjectCountsBound(statuses: seq<string>)
    ensures var o := ProjectCounts(statuses);
      o.todo + o.inProgress + o.done <= o.total
      && (o.todo + o.inProgress + o.done == o.total <==> forall i :: 0 <= i < |statuses| ==> IsLaneStatus(statuses[i]))
  {
    LaneCountsBound(statuses);
  }

  /** The recount effect: only for a truthy selection, and only from a reply that carries a task list. */
  function Recount(overview: Overview, selected: Option<int>, reply: Reply<seq<string>>): Overview {
    if Truthy(selected) && reply.Carries() then ProjectCounts(reply.payload.value) else overview
  }

  /**
   * Recounting keeps the breakdown consistent: the three counts never exceed
   * the total. Without a truthy selection nothing is recounted.
   */
  lemma RecountConsistent(overview: Overview, selected: Option<int>, reply: Reply<seq<string>>)
    requires overview.todo + overview.inProgress + overview.done <= overview.total
    ensures var o := Recount(overview, selected, reply);
      o.todo + o.inProgress + o.done <= o.total
    ensures !Truthy(selected) ==> Recount(overview, selected, reply) == overview
  {
    if Truthy(selected) && reply.Carries() {
      ProjectCountsBound(reply.payload.value);
    }
  }
}
