/**
 * What the manager's and the member's project lists share: the search
 * query, the status filter choices and the two sort orders of the
 * `filtered` list. Each page applies them to its own project record.
 */
module ProjectLists {
  import opened Text
  import opened Seqs

  /** `query.trim().toLowerCase()` */
  function NormalQuery(query: string): (q: string)
    ensures q == "" <==> IsBlank(query)
  {
    ToLower(Trim(query))
  }

  /** `title.toLowerCase().includes(q) || (description || '').toLowerCase().includes(q)` */
  predicate TextHit(title: string, description: string, q: string) {
    Includes(ToLower(title), q) || Includes(ToLower(description), q)
  }

  /** The status filter: everything, or the projects with at least one task under a label. */
  datatype StatusFilter = AllStatuses | TodoOnly | InProgressOnly | DoneOnly {
    /** The count label the filter looks at. */
    function Label(): string
      requires !AllStatuses?
    {
      match this
      case TodoOnly => "TODO"
      case InProgressOnly => "In Progress"
      case DoneOnly => "Done"
    }
  }

  /** `sort`: latest activity first, or by title. */
  datatype SortOrder = Recent | Alpha

  /** `if (active) res = res.filter(keep)` */
  function FilterIf<P(==)>(active: bool, ps: seq<P>, keep: P -> bool): (r: seq<P>)
    ensures multiset(r) <= multiset(ps)
    ensures !active ==> r == ps
  {
    if active then Filter(ps, keep) else ps
  }

  /** An element stays exactly when it was there and, if the filter is active, passes it. */
  lemma FilterIfMembers<P>(active: bool, ps: seq<P>, keep: P -> bool, x: P)
    ensures x in FilterIf(active, ps, keep) <==> x in ps && (active ==> keep(x))
  {
    if active {
      FilterMembers(ps, keep);
    }
  }

  /** Comparing by a key inherits totality from the key order. */
  lemma KeyOrderTotal<P(!new), K(!new)>(key: P -> K, le: (K, K) -> bool)
    requires Total(le)
    ensures Total((a: P, b: P) => le(key(a), key(b)))
  {
    forall a: P, b: P ensures le(key(a), key(b)) || le(key(b), key(a)) {
      assert le(key(a), key(b)) || le(key(b), key(a));
    }
  }

  /**
   * The sort step: `Recent` is `stamp(b) - stamp(a)` (latest first, ties
   * in list order); `Alpha` is `a.title.localeCompare(b.title)`, given as
   * `localeLe` ("compares at most 0").
   */
  function Arranged<P>(ps: seq<P>, order: SortOrder, title: P -> string, stamp: P -> int,
                       localeLe: (string, string) -> bool): (r: seq<P>)
    ensures multiset(r) == multiset(ps)
  {
    match order
    case Alpha => SortBy(ps, (a: P, b: P) => localeLe(title(a), title(b)))
    case Recent => SortBy(ps, (a: P, b: P) => stamp(a) >= stamp(b))
  }

  /** The recent order leaves neighbours with non-increasing stamps; under a total `localeLe`, the alpha order leaves titles in order. */
  lemma ArrangedSorted<P(!new)>(ps: seq<P>, order: SortOrder, title: P -> string, stamp: P -> int,
                                localeLe: (string, string) -> bool)
    ensures order == Recent ==>
      forall i :: 0 <= i < |ps| - 1 ==> stamp(Arranged(ps, order, title, stamp, localeLe)[i]) >= stamp(Arranged(ps, order, title, stamp, localeLe)[i + 1])
    ensures order == Alpha && Total(localeLe) ==>
      forall i :: 0 <= i < |ps| - 1 ==> localeLe(title(Arranged(ps, order, title, stamp, localeLe)[i]), title(Arranged(ps, order, title, stamp, localeLe)[i + 1]))
  {
    var r := Arranged(ps, order, title, stamp, localeLe);
    assert |r| == |ps| by {
      assert |multiset(r)| == |multiset(ps)|;
    }
    if order == Recent {
      var le := (a: P, b: P) => stamp(a) >= stamp(b);
      KeyOrderTotal(stamp, (x: int, y: int) => x >= y);
      assert Total(le);
      SortBySorted(ps, le);
    } else if Total(localeLe) {
      var le := (a: P, b: P) => localeLe(title(a), title(b));
      KeyOrderTotal(title, localeLe);
      assert Total(le);
      SortBySorted(ps, le);
    }
  }

  /**
   * `Array.prototype.sort` is stable: projects with the same stamp keep
   * their order under the recent order, and projects with the same title
   * keep theirs under the alpha order (when `localeLe` is total).
   */
  lemma ArrangedStable<P(!new)>(ps: seq<P>, order: SortOrder, title: P -> string, stamp: P -> int,
                                localeLe: (string, string) -> bool, k: int, t: string)
    ensures order == Recent ==>
      Filter(Arranged(ps, order, title, stamp, localeLe), (a: P) => stamp(a) == k) == Filter(ps, (a: P) => stamp(a) == k)
    ensures order == Alpha && Total(localeLe) ==>
      Filter(Arranged(ps, order, title, stamp, localeLe), (a: P) => title(a) == t) == Filter(ps, (a: P) => title(a) == t)
  {
    if order == Recent {
      SortByStable(ps, (a: P, b: P) => stamp(a) >= stamp(b), (a: P) => stamp(a) == k);
    } else if Total(localeLe) {
      assert localeLe(t, t) || localeLe(t, t);
      SortByStable(ps, (a: P, b: P) => localeLe(title(a), title(b)), (a: P) => title(a) == t);
    }
  }
}
