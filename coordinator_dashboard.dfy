/**
 * The coordinator's dashboard (`CoordinatorDashboard`): three lists are
 * fetched and the page shows their sizes, the first five projects and the
 * first five events that have not yet begun. `nowMs` stands for `new Date()`.
 */
module CoordinatorDashboard {
  import opened Common
  import opened Seqs

  datatype Project = Project(id: int, title: string)
  datatype Supervisor = Supervisor(id: int, fullName: string)
  /** An event; `date` is the time its `date` text stands for, `None` when the text is missing or ''. */
  datatype Event = Event(id: int, title: string, date: Option<int>)

  datatype Stats = Stats(
    totalProjects: nat, totalSupervisors: nat, totalEvents: nat,
    recentProjects: seq<Project>, upcomingEvents: seq<Event>)

  /** `if (!event.date) return false; return new Date(event.date) >= today` */
  predicate Upcoming(e: Event, nowMs: int) {
    e.date.Some? && e.date.value >= nowMs
  }

  /** `events.filter(upcoming).slice(0, 5)` */
  function UpcomingEvents(events: seq<Event>, nowMs: int): seq<Event> {
    Take(Filter(events, (e: Event) => Upcoming(e, nowMs)), 5)
  }

  /**
   * At most five events, each dated on or after now, in their listed order;
   * every upcoming event is shown when there are at most five of them.
   */
  lemma UpcomingEventsSpec(events: seq<Event>, nowMs: int)
    ensures var r := UpcomingEvents(events, nowMs);
      && |r| <= 5
      && (forall i :: 0 <= i < |r| ==> r[i].date.Some? && r[i].date.value >= nowMs)
      && IsSubseq(r, events)
    ensures var up := Filter(events, (e: Event) => Upcoming(e, nowMs));
      |up| <= 5 ==> UpcomingEvents(events, nowMs) == up
  {
    var up := Filter(events, (e: Event) => Upcoming(e, nowMs));
    FilterSubseq(events, (e: Event) => Upcoming(e, nowMs));
    SubseqPrefix(up, events, if |up| < 5 then |up| else 5);
    assert UpcomingEvents(events, nowMs) == up[..(if |up| < 5 then |up| else 5)];
  }

  /**
   * `fetchDashboardData`: a request that throws or a body that is not JSON
   * fails the whole load; otherwise each list is `data?.<list> || []`
   * whatever `success` says.
   */
  function LoadStats(projects: Reply<seq<Project>>, supervisors: Reply<seq<Supervisor>>, events: Reply<seq<Event>>,
                     nowMs: int): (r: Result<Stats>)
  {
    if !projects.Json? || !supervisors.Json? || !events.Json? then Err("Failed to load dashboard data.")
    else
      var ps := projects.payload.GetOr([]);
      var ss := supervisors.payload.GetOr([]);
      var es := events.payload.GetOr([]);
      Ok(Stats(|ps|, |ss|, |es|, Take(ps, 5), UpcomingEvents(es, nowMs)))
  }

  /**
   * The totals are the three lists' lengths (a missing list counts as
   * empty); the recent projects are the first `min(5, n)` in order.
   */
  lemma LoadStatsSpec(projects: Reply<seq<Project>>, supervisors: Reply<seq<Supervisor>>, events: Reply<seq<Event>>,
                      nowMs: int)
    ensures LoadStats(projects, supervisors, events, nowMs).Ok? <==> projects.Json? && supervisors.Json? && events.Json?
    ensures LoadStats(projects, supervisors, events, nowMs).Ok? ==>
      var s := LoadStats(projects, supervisors, events, nowMs).value;
      var ps := projects.payload.GetOr([]);
      && s.totalProjects == |ps|
      && s.totalSupervisors == |supervisors.payload.GetOr([])|
      && s.totalEvents == |events.payload.GetOr([])|
      && |s.recentProjects| == (if |ps| < 5 then |ps| else 5)
      && s.recentProjects == ps[..|s.recentProjects|]
      && |s.upcomingEvents| <= 5 && |s.upcomingEvents| <= s.totalEvents
  {
    if projects.Json? && supervisors.Json? && events.Json? {
      var es := events.payload.GetOr([]);
      UpcomingEventsSpec(es, nowMs);
    }
  }
}
