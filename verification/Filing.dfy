/**
  The filing of tasks in kernel lists: a family of lists and, for each task, the container
  pointer of its list item. A task has two such items, so the scheduler keeps two files:
  one for the generic items and one for the event items.
 */
module Filing {
  import opened Rings

  type TaskId = nat

  /** Container value of an item that is in no list. */
  const NOWHERE: int := -1

  datatype Files = Files(rings: seq<Ring<TaskId>>, home: map<TaskId, int>)

  /** Each list is well formed, and an item is in a list if and only if its container pointer says so. */
  ghost predicate Consistent(f: Files) {
    && (forall i :: 0 <= i < |f.rings| ==> WellFormed(f.rings[i]))
    && (forall i, t :: 0 <= i < |f.rings| && t in f.rings[i].items ==> t in f.home && f.home[t] == i)
    && (forall t :: t in f.home ==>
          NOWHERE <= f.home[t] < |f.rings| && (f.home[t] >= 0 ==> t in f.rings[f.home[t]].items))
  }

  lemma RingHolds(f: Files, t: TaskId)
    requires Consistent(f) && t in f.home && f.home[t] != NOWHERE
    ensures 0 <= f.home[t] < |f.rings| && t in f.rings[f.home[t]].items && Distinct(f.rings[f.home[t]].items)
  {
  }

  ghost predicate IsIn(f: Files, i: int, t: TaskId) {
    t in f.home && f.home[t] == i
  }

  /** vListRemove */
  function Unlink(f: Files, t: TaskId): (g: Files)
    requires Consistent(f) && t in f.home && f.home[t] != NOWHERE
    ensures Consistent(g) && |g.rings| == |f.rings| && g.home == f.home[t := NOWHERE]
    ensures forall i :: 0 <= i < |f.rings| ==>
      if i == f.home[t] then |g.rings[i].items| == |f.rings[i].items| - 1 else g.rings[i] == f.rings[i]
  {
    var i := f.home[t];
    var p := Position(f.rings[i].items, t);
    DropMembership(f.rings[i].items, p);
    Files(f.rings[i := RemoveAt(f.rings[i], p)], f.home[t := NOWHERE])
  }

  lemma UnlinkShrinks(f: Files, t: TaskId)
    requires Consistent(f) && t in f.home && f.home[t] != NOWHERE
    ensures 0 <= f.home[t] < |f.rings|
    ensures |Unlink(f, t).rings[f.home[t]].items| < |f.rings[f.home[t]].items|
  {
  }

  /** vListInsertEnd */
  function LinkEnd(f: Files, i: nat, t: TaskId): (g: Files)
    requires Consistent(f) && IsIn(f, NOWHERE, t) && i < |f.rings|
    ensures Consistent(g) && |g.rings| == |f.rings| && g.home == f.home[t := i]
    ensures forall j :: 0 <= j < |f.rings| ==>
      if j == i then |g.rings[j].items| == |f.rings[j].items| + 1 else g.rings[j] == f.rings[j]
  {
    InsertMembership(f.rings[i].items, f.rings[i].index, t);
    Files(f.rings[i := InsertEnd(f.rings[i], t)], f.home[t := i])
  }

  /** vListInsert, at the place its search found */
  function LinkAt(f: Files, i: nat, pos: nat, t: TaskId): (g: Files)
    requires Consistent(f) && IsIn(f, NOWHERE, t) && i < |f.rings| && pos <= |f.rings[i].items|
    ensures Consistent(g) && |g.rings| == |f.rings| && g.home == f.home[t := i]
    ensures forall j :: 0 <= j < |f.rings| ==>
      if j == i then |g.rings[j].items| == |f.rings[j].items| + 1 else g.rings[j] == f.rings[j]
  {
    InsertMembership(f.rings[i].items, pos, t);
    Files(f.rings[i := InsertAt(f.rings[i], pos, t)], f.home[t := i])
  }

  /** vListInitialiseItem, for the item of a new task */
  function Enroll(f: Files, t: TaskId): (g: Files)
    requires Consistent(f) && t !in f.home
    ensures Consistent(g)
  {
    f.(home := f.home[t := NOWHERE])
  }

  /** The item of a task whose memory is freed. */
  function Discharge(f: Files, t: TaskId): (g: Files)
    requires Consistent(f) && IsIn(f, NOWHERE, t)
    ensures Consistent(g)
  {
    f.(home := f.home - {t})
  }

  // ----- the census

  function TotalLength(rings: seq<Ring<TaskId>>): nat {
    if rings == [] then 0 else TotalLength(rings[..|rings| - 1]) + |rings[|rings| - 1].items|
  }

  ghost function FiledBelow(f: Files, k: int): set<TaskId> {
    set t | t in f.home && 0 <= f.home[t] < k
  }

  function Elements(s: seq<TaskId>): set<TaskId> {
    set t | t in s
  }

  lemma {:induction false} DistinctCardinality(s: seq<TaskId>)
    requires Distinct(s)
    ensures |Elements(s)| == |s|
  {
    if s != [] {
      var rest := s[..|s| - 1];
      DistinctCardinality(rest);
      assert s == rest + [s[|s| - 1]];
      assert Elements(s) == Elements(rest) + {s[|s| - 1]};
      assert s[|s| - 1] !in rest;
    } else {
      assert Elements(s) == {};
    }
  }

  lemma FiledInOneMore(f: Files, k: nat)
    requires Consistent(f) && k < |f.rings|
    ensures |FiledBelow(f, k + 1)| == |FiledBelow(f, k)| + |Elements(f.rings[k].items)|
  {
    var members := Elements(f.rings[k].items);
    forall t ensures t in FiledBelow(f, k + 1) <==> t in FiledBelow(f, k) + members {
      if t in f.home && f.home[t] == k {
        assert t in f.rings[f.home[t]].items;
      }
    }
    assert FiledBelow(f, k + 1) == FiledBelow(f, k) + members;
    assert FiledBelow(f, k) !! members;
  }

  lemma {:induction false} CensusBelow(f: Files, k: nat)
    requires Consistent(f) && k <= |f.rings|
    ensures TotalLength(f.rings[..k]) == |FiledBelow(f, k)|
  {
    if k == 0 {
      assert FiledBelow(f, 0) == {};
    } else {
      CensusBelow(f, k - 1);
      FiledInOneMore(f, k - 1);
      DistinctCardinality(f.rings[k - 1].items);
      assert f.rings[..k][..k - 1] == f.rings[..k - 1];
    }
  }

  /** The lengths of all lists add up to the number of filed tasks: nobody is lost or listed twice. */
  lemma Census(f: Files)
    requires Consistent(f) && (forall t :: t in f.home ==> f.home[t] != NOWHERE)
    ensures TotalLength(f.rings) == |f.home|
  {
    CensusBelow(f, |f.rings|);
    assert f.rings[..|f.rings|] == f.rings;
    assert FiledBelow(f, |f.rings|) == f.home.Keys;
  }

  /** In a consistent file every filed task is in exactly one list, exactly once. */
  lemma ExactlyOneList(f: Files, t: TaskId)
    requires Consistent(f) && t in f.home && f.home[t] != NOWHERE
    ensures forall i :: 0 <= i < |f.rings| ==> (t in f.rings[i].items <==> i == f.home[t])
    ensures multiset(f.rings[f.home[t]].items)[t] == 1
  {
    var s := f.rings[f.home[t]].items;
    var p := Position(s, t);
    assert s == s[..p] + [t] + s[p + 1..];
    assert t !in s[p + 1..];
  }
}
