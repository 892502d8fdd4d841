/**
 * The task breakdowns the dashboards show: the server's overview with
 * missing numbers as 0, and the per-project tally the dashboards fold out
 * of a task list (`tasks.reduce((acc, t) => { acc[t.status] = (acc[t.status] || 0) + 1; ... }, {})`).
 */
module TaskCounts {
  import opened Common

  /** `{ todo, in_progress, done, total }` as a dashboard holds it. */
  datatype Overview = Overview(todo: nat, inProgress: nat, done: nat, total: nat)

  const NoTasks := Overview(0, 0, 0, 0)

  /** `acc[k] || 0` */
  function CountOr(acc: map<string, nat>, k: string): nat {
    if k in acc then acc[k] else 0
  }

  /** The `reduce`: one entry per status seen, holding how many tasks have it. */
  function Tally(statuses: seq<string>): (acc: map<string, nat>)
    ensures forall k :: CountOr(acc, k) == multiset(statuses)[k]
    ensures forall k :: k in acc ==> k in statuses
  {
    if statuses == [] then map[]
    else
      var init := statuses[..|statuses| - 1];
      var k := statuses[|statuses| - 1];
      assert statuses == init + [k];
      var prev := Tally(init);
      prev[k := CountOr(prev, k) + 1]
  }

  /** The overview request's counts, `x || 0` each, with `total` their sum. */
  function OverviewOf(todo: Option<nat>, inProgress: Option<nat>, done: Option<nat>): (o: Overview)
    ensures o.todo == OrZero(todo) && o.inProgress == OrZero(inProgress) && o.done == OrZero(done)
    ensures o.total == o.todo + o.inProgress + o.done
  {
    var t, p, d := OrZero(todo), OrZero(inProgress), OrZero(done);
    Overview(t, p, d, t + p + d)
  }

  /** One of the three statuses the dashboards count. */
  predicate IsLaneStatus(s: string) {
    s == "todo" || s == "in_progress" || s == "done"
  }

  /**
   * The three lane counts of a task list never exceed its length, and reach
   * it exactly when every task has one of the three statuses.
   */
  lemma {:induction false} LaneCountsBound(statuses: seq<string>)
    ensures var m := multiset(statuses);
      m["todo"] + m["in_progress"] + m["done"] <= |statuses|
    ensures var m := multiset(statuses);
      m["todo"] + m["in_progress"] + m["done"] == |statuses| <==> forall i :: 0 <= i < |statuses| ==> IsLaneStatus(statuses[i])
  {
    if statuses != [] {
      var init := statuses[..|statuses| - 1];
      var k := statuses[|statuses| - 1];
      assert statuses == init + [k];
      LaneCountsBound(init);
      assert multiset(statuses) == multiset(init) + multiset{k};
      if forall i :: 0 <= i < |statuses| ==> IsLaneStatus(statuses[i]) {
        assert forall i :: 0 <= i < |init| ==> IsLaneStatus(init[i]) by {
          forall i | 0 <= i < |init| ensures IsLaneStatus(init[i]) {
            assert init[i] == statuses[i];
          }
        }
      } else {
        var j :| 0 <= j < |statuses| && !IsLaneStatus(statuses[j]);
        if j < |init| {
          assert init[j] == statuses[j];
        }
      }
    }
  }
}
