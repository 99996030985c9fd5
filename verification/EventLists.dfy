/**
  The event lists of TCPv3/FreeRTOS/tasks.c and their order. vListInsert files an event item by its
  value, a smaller value for a higher priority; what the kernel does later takes items out, or gives
  a waiting task a new value.
 */
module EventLists {
  import opened Rings
  import opened Filing
  import opened TaskStates
  import opened TaskTables

  // ----- files of event items

  /** Event lists lose items only. The pending list is no event list. */
  ghost predicate Thinned(f: Files, g: Files) {
    && |g.rings| == |f.rings|
    && forall e :: PENDING < e < |f.rings| ==> LeavesOut(f.rings[e].items, g.rings[e].items)
  }

  /** Event lists stay as they are, but for one perhaps. */
  ghost predicate SameBut(f: Files, g: Files, e: int) {
    && |g.rings| == |f.rings|
    && forall i :: PENDING < i < |f.rings| && i != e ==> g.rings[i].items == f.rings[i].items
  }

  lemma NothingChanges(f: Files)
    ensures SameBut(f, f, PENDING)
  {
  }

  lemma SameIsThinned(f: Files, g: Files)
    requires SameBut(f, g, PENDING)
    ensures Thinned(f, g)
  {
    forall e | PENDING < e < |f.rings| ensures LeavesOut(f.rings[e].items, g.rings[e].items) {
      NothingLeftOut(f.rings[e].items);
    }
  }

  lemma ThinnedFurther(f: Files, g: Files, h: Files)
    requires Thinned(f, g) && Thinned(g, h)
    ensures Thinned(f, h)
  {
    forall e | PENDING < e < |f.rings| ensures LeavesOut(f.rings[e].items, h.rings[e].items) {
      LeavingOutMore(f.rings[e].items, g.rings[e].items, h.rings[e].items);
    }
  }

  /** vListRemove on an event item. */
  lemma UnlinkThins(f: Files, t: TaskId)
    requires Consistent(f) && t in f.home && f.home[t] != NOWHERE
    ensures Thinned(f, Unlink(f, t)) && SameBut(f, Unlink(f, t), f.home[t])
    ensures f.home[t] == PENDING ==> SameBut(f, Unlink(f, t), PENDING)
  {
    var g := Unlink(f, t);
    var i := f.home[t];
    DroppingLeavesOut(f.rings[i].items, Position(f.rings[i].items, t));
    forall e | PENDING < e < |f.rings| ensures LeavesOut(f.rings[e].items, g.rings[e].items) {
      NothingLeftOut(f.rings[e].items);
    }
  }

  /** The head of a list is removed. */
  lemma UnlinkHead(f: Files, e: nat)
    requires Consistent(f) && e < |f.rings| && f.rings[e].items != []
    ensures var t := f.rings[e].items[0];
      t in f.home && f.home[t] == e && Unlink(f, t).rings[e].items == f.rings[e].items[1..]
  {
    var items := f.rings[e].items;
    assert SeqDrop(items, 0) == items[1..];
  }

  /** The tasks in a list, in order. */
  function InList(f: Files, e: int): seq<TaskId> {
    if 0 <= e < |f.rings| then f.rings[e].items else []
  }

  /** The task has left the list it was in. */
  ghost predicate HasLeft(f: Files, g: Files, t: TaskId) {
    && Consistent(f) && t in f.home && f.home[t] != NOWHERE
    && SameBut(f, g, f.home[t]) && InList(g, f.home[t]) == InList(Unlink(f, t), f.home[t])
  }

  /** The head of an event list has left it. */
  ghost predicate HeadHasLeft(f: Files, g: Files, e: int) {
    SameBut(f, g, e) && InList(f, e) != [] && InList(g, e) == InList(f, e)[1..]
  }

  lemma HeadThatLeft(f: Files, g: Files, e: nat)
    requires PENDING < e < |f.rings| && InList(f, e) != [] && HasLeft(f, g, InList(f, e)[0])
    requires f.home[InList(f, e)[0]] == e
    ensures HeadHasLeft(f, g, e) && Thinned(f, g)
  {
    UnlinkHead(f, e);
    UnlinkThins(f, InList(f, e)[0]);
    forall i | PENDING < i < |f.rings| ensures LeavesOut(f.rings[i].items, g.rings[i].items) {
      if i != e {
        NothingLeftOut(f.rings[i].items);
      } else {
        assert g.rings[e].items == Unlink(f, InList(f, e)[0]).rings[e].items;
      }
    }
  }

  /** The removal, and then perhaps an entry into the pending list. */
  lemma LeftThenPending(f: Files, h: Files, g: Files, t: TaskId)
    requires Consistent(f) && t in f.home && f.home[t] > PENDING && h == Unlink(f, t) && SameBut(h, g, PENDING)
    ensures HasLeft(f, g, t)
  {
    UnlinkThins(f, t);
  }

  lemma LinkAtEnters(f: Files, e: nat, pos: nat, t: TaskId)
    requires Consistent(f) && IsIn(f, NOWHERE, t) && e < |f.rings| && pos <= |f.rings[e].items|
    ensures SameBut(f, LinkAt(f, e, pos, t), e) && InList(LinkAt(f, e, pos, t), e) == SeqInsert(InList(f, e), pos, t)
  {
  }

  lemma LinkEndEnters(f: Files, e: nat, t: TaskId)
    requires Consistent(f) && IsIn(f, NOWHERE, t) && e < |f.rings|
    ensures EntersAtIndex(f, LinkEnd(f, e, t), e, t)
  {
  }

  /** vListInsertEnd: the task enters at the list's index. */
  ghost predicate EntersAtIndex(f: Files, g: Files, e: int, t: TaskId) {
    && SameBut(f, g, e) && 0 <= e < |f.rings| && f.rings[e].index <= |f.rings[e].items|
    && InList(g, e) == SeqInsert(f.rings[e].items, f.rings[e].index, t)
  }

  // ----- the order of the values

  /** All tasks of a list are known, and their event values are in order. */
  ghost predicate InRank(items: seq<TaskId>, tcbs: map<TaskId, Tcb>) {
    (forall t :: t in items ==> t in tcbs) && Sorted(EventValues(items, tcbs))
  }

  ghost predicate Ranked(f: Files, tcbs: map<TaskId, Tcb>, e: int) {
    PENDING < e < |f.rings| ==> InRank(f.rings[e].items, tcbs)
  }

  /** Every event list that was in order still is. */
  ghost predicate OrderKept(f: Files, tcbs: map<TaskId, Tcb>, g: Files, tcbs': map<TaskId, Tcb>) {
    forall e :: Ranked(f, tcbs, e) ==> Ranked(g, tcbs', e)
  }

  lemma InRankAt(items: seq<TaskId>, tcbs: map<TaskId, Tcb>, i: nat, j: nat)
    requires InRank(items, tcbs) && i <= j < |items|
    ensures items[i] in tcbs && items[j] in tcbs && tcbs[items[i]].eventValue <= tcbs[items[j]].eventValue
  {
    if i < j {
      assert EventValues(items, tcbs)[i] <= EventValues(items, tcbs)[j];
    }
  }

  lemma {:induction false} LeavingOutKeepsRank(a: seq<TaskId>, b: seq<TaskId>, tcbs: map<TaskId, Tcb>)
    requires InRank(a, tcbs) && LeavesOut(a, b)
    ensures InRank(b, tcbs)
    decreases |a|
  {
    LeftOutMembers(a, b);
    if b != [] {
      RankOfTail(a, tcbs);
      if a[0] == b[0] {
        LeavingOutKeepsRank(a[1..], b[1..], tcbs);
        LeftOutMembers(a[1..], b[1..]);
        forall i, j | 0 <= i < j < |b| ensures EventValues(b, tcbs)[i] <= EventValues(b, tcbs)[j] {
          if i == 0 {
            assert b[j] == b[1..][j - 1] && b[j] in a[1..];
            var k :| 0 <= k < |a[1..]| && a[1..][k] == b[j];
            InRankAt(a, tcbs, 0, k + 1);
          } else {
            InRankAt(b[1..], tcbs, i - 1, j - 1);
          }
        }
      } else {
        LeavingOutKeepsRank(a[1..], b, tcbs);
      }
    }
  }

  lemma RankOfTail(a: seq<TaskId>, tcbs: map<TaskId, Tcb>)
    requires InRank(a, tcbs) && a != []
    ensures InRank(a[1..], tcbs)
  {
    assert EventValues(a[1..], tcbs) == EventValues(a, tcbs)[1..];
  }

  lemma ThinningKeepsOrder(f: Files, g: Files, tcbs: map<TaskId, Tcb>)
    requires Thinned(f, g)
    ensures OrderKept(f, tcbs, g, tcbs)
  {
    hide InRank;
    forall e | Ranked(f, tcbs, e) ensures Ranked(g, tcbs, e) {
      if PENDING < e < |f.rings| {
        LeavingOutKeepsRank(f.rings[e].items, g.rings[e].items, tcbs);
      }
    }
  }

  lemma OrderKeptFurther(f1: Files, m1: map<TaskId, Tcb>, f2: Files, m2: map<TaskId, Tcb>, f3: Files, m3: map<TaskId, Tcb>)
    requires OrderKept(f1, m1, f2, m2) && OrderKept(f2, m2, f3, m3)
    ensures OrderKept(f1, m1, f3, m3)
  {
    hide Ranked;
  }

  lemma SameOrder(f: Files, tcbs: map<TaskId, Tcb>)
    ensures OrderKept(f, tcbs, f, tcbs)
  {
  }

  /** A new record with the same event value changes nothing. */
  lemma SameValueKeepsOrder(f: Files, tcbs: map<TaskId, Tcb>, t: TaskId, tcb: Tcb)
    requires t in tcbs && tcb.eventValue == tcbs[t].eventValue
    ensures OrderKept(f, tcbs, f, tcbs[t := tcb])
  {
    forall e | Ranked(f, tcbs, e) ensures Ranked(f, tcbs[t := tcb], e) {
      if PENDING < e < |f.rings| {
        assert EventValues(f.rings[e].items, tcbs[t := tcb]) == EventValues(f.rings[e].items, tcbs);
      }
    }
  }

  /** vListInsert puts the task behind all of smaller or equal value, and keeps the order. */
  lemma InsertionKeepsRank(items: seq<TaskId>, tcbs: map<TaskId, Tcb>, t: TaskId)
    requires InRank(items, tcbs) && t in tcbs
    ensures InRank(SeqInsert(items, InsertPosition(EventValues(items, tcbs), tcbs[t].eventValue), t), tcbs)
  {
    var keys := EventValues(items, tcbs);
    var p := InsertPosition(keys, tcbs[t].eventValue);
    SortedInsertIsStable(keys, tcbs[t].eventValue);
    InsertMembership(items, p, t);
    assert EventValues(SeqInsert(items, p, t), tcbs) == SeqInsert(keys, p, tcbs[t].eventValue);
  }

  /** The new value lies between those of the neighbours in the list. */
  ghost predicate FitsBetween(items: seq<TaskId>, tcbs: map<TaskId, Tcb>, p: nat, value: nat)
    requires p < |items| && forall t :: t in items ==> t in tcbs
  {
    && (p > 0 ==> tcbs[items[p - 1]].eventValue <= value)
    && (p + 1 < |items| ==> value <= tcbs[items[p + 1]].eventValue)
  }

  /** A new event value for a waiting task: the list stays in order exactly if it fits between the neighbours. */
  lemma NewValueInRank(items: seq<TaskId>, tcbs: map<TaskId, Tcb>, p: nat, tcb: Tcb)
    requires InRank(items, tcbs) && Distinct(items) && p < |items|
    ensures InRank(items, tcbs[items[p] := tcb]) <==> FitsBetween(items, tcbs, p, tcb.eventValue)
  {
    var tcbs' := tcbs[items[p] := tcb];
    var keys, keys' := EventValues(items, tcbs), EventValues(items, tcbs');
    assert keys' == keys[p := tcb.eventValue];
    if FitsBetween(items, tcbs, p, tcb.eventValue) {
      forall i, j | 0 <= i < j < |items| ensures keys'[i] <= keys'[j] {
        if i == p {
          assert keys[p + 1] <= keys[j] || j == p + 1;
        } else if j == p {
          assert keys[i] <= keys[p - 1] || i == p - 1;
        }
      }
    } else {
      assert p > 0 && keys[p - 1] > tcb.eventValue ==> keys'[p - 1] > keys'[p];
      assert p + 1 < |items| && keys[p + 1] < tcb.eventValue ==> keys'[p + 1] < keys'[p];
    }
  }

  /** Where vListInsert puts a task: behind all of smaller or equal value. */
  ghost function RankOf(items: seq<TaskId>, tcbs: map<TaskId, Tcb>, t: TaskId): (position: nat)
    ensures position <= |items|
  {
    if t in tcbs && forall u :: u in items ==> u in tcbs then InsertPosition(EventValues(items, tcbs), tcbs[t].eventValue)
    else 0
  }

  ghost function RankInsert(items: seq<TaskId>, tcbs: map<TaskId, Tcb>, t: TaskId): seq<TaskId> {
    if t in tcbs && forall u :: u in items ==> u in tcbs then SeqInsert(items, RankOf(items, tcbs, t), t) else items
  }

  /** vListInsert of an event item. */
  ghost predicate EntersInRank(f: Files, g: Files, e: int, t: TaskId, tcbs: map<TaskId, Tcb>) {
    SameBut(f, g, e) && InList(g, e) == RankInsert(InList(f, e), tcbs, t)
  }

  /** Only one record has changed, and only its wake time. */
  ghost predicate ChangedAt(tcbs: map<TaskId, Tcb>, tcbs': map<TaskId, Tcb>, t: TaskId) {
    t in tcbs && t in tcbs' && tcbs' == tcbs[t := tcbs'[t]] && tcbs'[t].(wake := tcbs[t].wake) == tcbs[t]
  }

  /** A task that waits in order in a list would still be in order with the new value. */
  ghost predicate FitsIn(f: Files, tcbs: map<TaskId, Tcb>, e: int, t: TaskId, value: nat) {
    PENDING < e < |f.rings| && t in f.rings[e].items && (forall u :: u in f.rings[e].items ==> u in tcbs) ==>
      FitsBetween(f.rings[e].items, tcbs, Position(f.rings[e].items, t), value)
  }

  /**
    One task may have a new event value: of the lists that were in order exactly those are in which it
    fits between its neighbours.
   */
  ghost predicate Revalued(f: Files, tcbs: map<TaskId, Tcb>, tcbs': map<TaskId, Tcb>, t: TaskId) {
    && t in tcbs' && tcbs' == tcbs[t := tcbs'[t]]
    && forall e :: Ranked(f, tcbs, e) ==> (Ranked(f, tcbs', e) <==> FitsIn(f, tcbs, e, t, tcbs'[t].eventValue))
  }

  lemma NewValueOrder(f: Files, tcbs: map<TaskId, Tcb>, t: TaskId, tcb: Tcb)
    requires Consistent(f) && t in tcbs
    ensures Revalued(f, tcbs, tcbs[t := tcb], t)
  {
    hide Consistent, InRank, FitsBetween;
    forall e | Ranked(f, tcbs, e) ensures Ranked(f, tcbs[t := tcb], e) <==> FitsIn(f, tcbs, e, t, tcb.eventValue) {
      if PENDING < e < |f.rings| {
        var items := f.rings[e].items;
        RingIsDistinct(f, e);
        InRankKnows(items, tcbs);
        if t in items {
          NewValueInRank(items, tcbs, Position(items, t), tcb);
        } else {
          StrangerInRank(items, tcbs, t, tcb);
        }
      }
    }
  }

  lemma RingIsDistinct(f: Files, e: nat)
    requires Consistent(f) && e < |f.rings|
    ensures Distinct(f.rings[e].items)
  {
  }

  lemma InRankKnows(items: seq<TaskId>, tcbs: map<TaskId, Tcb>)
    requires InRank(items, tcbs)
    ensures forall t :: t in items ==> t in tcbs
  {
  }

  lemma StrangerInRank(items: seq<TaskId>, tcbs: map<TaskId, Tcb>, t: TaskId, tcb: Tcb)
    requires InRank(items, tcbs) && t !in items
    ensures InRank(items, tcbs[t := tcb])
  {
    assert EventValues(items, tcbs[t := tcb]) == EventValues(items, tcbs);
  }

  /** A new value, or a first one, for a task in no list. */
  lemma NewValueElsewhere(f: Files, tcbs: map<TaskId, Tcb>, t: TaskId, tcb: Tcb)
    requires Consistent(f) && (t in f.home ==> f.home[t] == NOWHERE)
    ensures OrderKept(f, tcbs, f, tcbs[t := tcb])
  {
    hide InRank;
    forall e | Ranked(f, tcbs, e) ensures Ranked(f, tcbs[t := tcb], e) {
      if PENDING < e < |f.rings| {
        StrangerInRank(f.rings[e].items, tcbs, t, tcb);
      }
    }
  }

  lemma ForgottenKeepsOrder(f: Files, tcbs: map<TaskId, Tcb>, t: TaskId)
    requires Consistent(f) && t in f.home && f.home[t] == NOWHERE
    ensures OrderKept(f, tcbs, f, tcbs - {t})
  {
    forall e | Ranked(f, tcbs, e) ensures Ranked(f, tcbs - {t}, e) {
      if PENDING < e < |f.rings| {
        assert EventValues(f.rings[e].items, tcbs - {t}) == EventValues(f.rings[e].items, tcbs);
      }
    }
  }

  /** Nobody in the list has a smaller event value. */
  ghost predicate HasBestRank(t: TaskId, items: seq<TaskId>, tcbs: map<TaskId, Tcb>) {
    t in tcbs && forall u :: u in items ==> u in tcbs && tcbs[t].eventValue <= tcbs[u].eventValue
  }

  lemma HeadHasRank(f: Files, tcbs: map<TaskId, Tcb>, e: nat)
    requires PENDING < e < |f.rings| && f.rings[e].items != []
    ensures Ranked(f, tcbs, e) ==> HasBestRank(f.rings[e].items[0], f.rings[e].items, tcbs)
  {
    var items := f.rings[e].items;
    if Ranked(f, tcbs, e) {
      forall u | u in items ensures u in tcbs && tcbs[items[0]].eventValue <= tcbs[u].eventValue {
        var i :| 0 <= i < |items| && items[i] == u;
        InRankAt(items, tcbs, 0, i);
      }
    }
  }

  // ----- what the priority operations make of the records

  /** The event value of a priority. */
  function ValueOf(p: nat): nat {
    if p <= MAX_PRIORITIES then MAX_PRIORITIES - p else 0
  }

  /** The higher the priority, the smaller the value, and so the further in front. */
  lemma HigherPrioritiesGoFirst(p: nat, q: nat)
    requires p < q < MAX_PRIORITIES
    ensures ValueOf(q) < ValueOf(p)
  {
  }

  /** vTaskPrioritySet */
  function AfterPrioritySet(tcbs: map<TaskId, Tcb>, t: TaskId, p: nat): map<TaskId, Tcb>
    requires t in tcbs
  {
    var tcb := tcbs[t];
    if tcb.basePriority == p then tcbs
    else
      tcbs[t := Tcb(if tcb.basePriority == tcb.priority then p else tcb.priority, p, tcb.wake, ValueOf(p))]
  }

  /** vTaskPriorityInherit */
  function AfterInherit(tcbs: map<TaskId, Tcb>, holder: TaskId, from: TaskId): map<TaskId, Tcb>
    requires holder in tcbs && from in tcbs
  {
    var p := tcbs[from].priority;
    if tcbs[holder].priority < p then
      tcbs[holder := Tcb(p, tcbs[holder].basePriority, tcbs[holder].wake, ValueOf(p))]
    else tcbs
  }

  /** vTaskPriorityDisinherit */
  function AfterDisinherit(tcbs: map<TaskId, Tcb>, holder: TaskId): map<TaskId, Tcb>
    requires holder in tcbs
  {
    var p := tcbs[holder].basePriority;
    if tcbs[holder].priority != p then tcbs[holder := Tcb(p, p, tcbs[holder].wake, ValueOf(p))] else tcbs
  }

  /** prvInitialiseTCBVariables, as far as it is about priorities. */
  function NewTcb(p: nat): Tcb {
    Tcb(p, p, 0, ValueOf(p))
  }

  lemma SameRecord(tcbs: map<TaskId, Tcb>, t: TaskId)
    requires t in tcbs
    ensures tcbs[t := tcbs[t]] == tcbs
  {
  }

  /** vTaskPrioritySet on a waiting task: a list stays in order exactly if the new value fits in. */
  lemma PrioritySetOrder(f: Files, tcbs: map<TaskId, Tcb>, t: TaskId, p: nat)
    requires Consistent(f) && t in tcbs
    ensures Revalued(f, tcbs, AfterPrioritySet(tcbs, t, p), t)
  {
    hide Revalued;
    SameRecord(tcbs, t);
    NewValueOrder(f, tcbs, t, AfterPrioritySet(tcbs, t, p)[t]);
  }

  lemma InheritOrder(f: Files, tcbs: map<TaskId, Tcb>, holder: TaskId, from: TaskId)
    requires Consistent(f) && holder in tcbs && from in tcbs
    ensures Revalued(f, tcbs, AfterInherit(tcbs, holder, from), holder)
  {
    hide Revalued;
    SameRecord(tcbs, holder);
    NewValueOrder(f, tcbs, holder, AfterInherit(tcbs, holder, from)[holder]);
  }

  lemma DisinheritOrder(f: Files, tcbs: map<TaskId, Tcb>, holder: TaskId)
    requires Consistent(f) && holder in tcbs && (holder in f.home ==> f.home[holder] == NOWHERE)
    ensures OrderKept(f, tcbs, f, AfterDisinherit(tcbs, holder))
  {
    hide OrderKept;
    SameRecord(tcbs, holder);
    NewValueElsewhere(f, tcbs, holder, AfterDisinherit(tcbs, holder)[holder]);
  }

  /** Two tasks wait in one event list. */
  function TwoWait(first: TaskId, second: TaskId): Files {
    Files([Ring([], 0), Ring([first, second], 0)], map[first := 1, second := 1])
  }

  lemma TwoInRank(first: TaskId, second: TaskId, tcbs: map<TaskId, Tcb>)
    requires first in tcbs && second in tcbs
    ensures Ranked(TwoWait(first, second), tcbs, 1) <==> tcbs[first].eventValue <= tcbs[second].eventValue
  {
    var items := [first, second];
    assert TwoWait(first, second).rings[1].items == items;
    var values := EventValues(items, tcbs);
    assert values[0] == tcbs[first].eventValue && values[1] == tcbs[second].eventValue;
  }

  /** Tasks 1 and 2, of priorities 5 and 4, wait; task 1 is set to priority 2, and is still woken before task 2. */
  lemma PrioritySetDisturbs()
    ensures var f, m := TwoWait(1, 2), map[1 := NewTcb(5), 2 := NewTcb(4)];
      var m' := AfterPrioritySet(m, 1, 2);
      && Consistent(f) && Ranked(f, m, 1) && !Ranked(f, m', 1)
      && m'[1].priority == 2 && !HasBestRank(1, InList(f, 1), m')
  {
    var m := map[1 := NewTcb(5), 2 := NewTcb(4)];
    TwoInRank(1, 2, m);
    TwoInRank(1, 2, AfterPrioritySet(m, 1, 2));
    assert InList(TwoWait(1, 2), 1)[1] == 2;
  }

  /** Task 2 of priority 4 waits in front of task 1 of priority 2, which inherits priority 6 from task 3, and is still woken after task 2. */
  lemma InheritingDisturbs()
    ensures var f, m := TwoWait(2, 1), map[1 := NewTcb(2), 2 := NewTcb(4), 3 := NewTcb(6)];
      var m' := AfterInherit(m, 1, 3);
      && Consistent(f) && Ranked(f, m, 1) && !Ranked(f, m', 1)
      && m'[1].priority == 6 && !HasBestRank(2, InList(f, 1), m')
  {
    var m := map[1 := NewTcb(2), 2 := NewTcb(4), 3 := NewTcb(6)];
    TwoInRank(2, 1, m);
    TwoInRank(2, 1, AfterInherit(m, 1, 3));
    assert InList(TwoWait(2, 1), 1)[1] == 1;
  }

  lemma ListedAreKnown(k: Table, e: nat)
    requires Shape(k)
    ensures forall t :: t in InList(k.events, e) ==> t in k.tcbs
  {
    if e < |k.events.rings| {
      RingInHome(k.events, e);
    }
  }

  // ----- yields

  /** One of the tasks has at least the priority of the running one. */
  ghost predicate SomeoneOutranks(tasks: seq<TaskId>, tcbs: map<TaskId, Tcb>, current: TaskId) {
    exists i :: 0 <= i < |tasks| && tasks[i] in tcbs && current in tcbs && tcbs[tasks[i]].priority >= tcbs[current].priority
  }

  lemma OneOutranks(t: TaskId, tcbs: map<TaskId, Tcb>, current: TaskId)
    ensures SomeoneOutranks([t], tcbs, current) <==> t in tcbs && current in tcbs && tcbs[t].priority >= tcbs[current].priority
  {
    assert [t][0] == t;
  }

  lemma OneMoreOutranks(tasks: seq<TaskId>, n: nat, tcbs: map<TaskId, Tcb>, current: TaskId)
    requires n < |tasks|
    ensures SomeoneOutranks(tasks[..n + 1], tcbs, current) <==>
      SomeoneOutranks(tasks[..n], tcbs, current)
      || (tasks[n] in tcbs && current in tcbs && tcbs[tasks[n]].priority >= tcbs[current].priority)
  {
    var more := tasks[..n + 1];
    if i :| 0 <= i < n && tasks[..n][i] in tcbs && current in tcbs && tcbs[tasks[..n][i]].priority >= tcbs[current].priority {
      assert more[i] == tasks[..n][i];
    }
    assert more[n] == tasks[n];
    if SomeoneOutranks(more, tcbs, current) {
      var i :| 0 <= i < |more| && more[i] in tcbs && tcbs[more[i]].priority >= tcbs[current].priority;
      assert i < n ==> tasks[..n][i] == more[i];
    }
  }

  lemma SameListsSameOrder(f: Files, g: Files, tcbs: map<TaskId, Tcb>)
    requires g.rings == f.rings
    ensures OrderKept(f, tcbs, g, tcbs)
  {
  }

  /** vTaskPlaceOnEventList keeps every list in order. */
  lemma EntryKeepsOrder(f: Files, tcbs: map<TaskId, Tcb>, e: nat, t: TaskId, g: Files, tcbs': map<TaskId, Tcb>)
    requires PENDING < e < |f.rings| && EntersInRank(f, g, e, t, tcbs) && ChangedAt(tcbs, tcbs', t)
    ensures OrderKept(f, tcbs, g, tcbs')
  {
    hide InRank;
    SameValueKeepsOrder(g, tcbs, t, tcbs'[t]);
    forall i | Ranked(f, tcbs, i) ensures Ranked(g, tcbs', i) {
      if i == e {
        InRankKnows(f.rings[e].items, tcbs);
        InsertionKeepsRank(f.rings[e].items, tcbs, t);
      }
      assert Ranked(g, tcbs, i);
    }
  }

  // ----- the order of priorities

  /** The event value of every task is that of its priority. */
  ghost predicate Tied(tcbs: map<TaskId, Tcb>) {
    forall t :: t in tcbs ==> tcbs[t].priority < MAX_PRIORITIES && tcbs[t].eventValue == ValueOf(tcbs[t].priority)
  }

  /** Higher priorities in front. */
  ghost predicate ByPriority(items: seq<TaskId>, tcbs: map<TaskId, Tcb>) {
    && (forall t :: t in items ==> t in tcbs)
    && forall i, j :: 0 <= i < j < |items| ==> tcbs[items[i]].priority >= tcbs[items[j]].priority
  }

  lemma RankIsPriority(items: seq<TaskId>, tcbs: map<TaskId, Tcb>)
    requires Tied(tcbs)
    ensures InRank(items, tcbs) <==> ByPriority(items, tcbs)
  {
    hide ValueOf;
    if forall t :: t in items ==> t in tcbs {
      var keys := EventValues(items, tcbs);
      forall i, j | 0 <= i < j < |items| ensures keys[i] <= keys[j] <==> tcbs[items[i]].priority >= tcbs[items[j]].priority {
        var p, q := tcbs[items[i]].priority, tcbs[items[j]].priority;
        if p < q {
          HigherPrioritiesGoFirst(p, q);
        } else if q < p {
          HigherPrioritiesGoFirst(q, p);
        }
      }
    }
  }

  /** An event list is in order of priority, and so can whatever enters it next be. */
  ghost predicate PriorityOrder(f: Files, tcbs: map<TaskId, Tcb>, e: int) {
    Tied(tcbs) && (PENDING < e < |f.rings| ==> ByPriority(f.rings[e].items, tcbs))
  }

  ghost predicate OrderKeptIn(f: Files, tcbs: map<TaskId, Tcb>, g: Files, tcbs': map<TaskId, Tcb>, e: int) {
    PriorityOrder(f, tcbs, e) ==> PriorityOrder(g, tcbs', e)
  }

  lemma OrderAndTies(f: Files, tcbs: map<TaskId, Tcb>, g: Files, tcbs': map<TaskId, Tcb>, e: int)
    requires |g.rings| == |f.rings| && (Tied(tcbs) ==> Tied(tcbs')) && (Ranked(f, tcbs, e) ==> Ranked(g, tcbs', e))
    ensures OrderKeptIn(f, tcbs, g, tcbs', e)
  {
    hide InRank, ByPriority, Tied;
    if PriorityOrder(f, tcbs, e) && PENDING < e < |f.rings| {
      RankIsPriority(f.rings[e].items, tcbs);
      RankIsPriority(g.rings[e].items, tcbs');
    }
  }

  /** The head has the highest priority. */
  lemma HeadHasPriority(f: Files, tcbs: map<TaskId, Tcb>, e: nat, u: TaskId)
    requires PENDING < e < |f.rings| && PriorityOrder(f, tcbs, e) && u in f.rings[e].items
    ensures f.rings[e].items[0] in tcbs && u in tcbs && tcbs[u].priority <= tcbs[f.rings[e].items[0]].priority
  {
  }

  /** A new value for a task that does not wait in a list leaves the list in order. */
  lemma RevaluedElsewhere(f: Files, tcbs: map<TaskId, Tcb>, tcbs': map<TaskId, Tcb>, t: TaskId, e: int)
    requires Consistent(f) && Revalued(f, tcbs, tcbs', t) && (t in f.home ==> f.home[t] != e)
    ensures Ranked(f, tcbs, e) ==> Ranked(f, tcbs', e)
  {
    hide InRank, FitsBetween;
  }

  /** vTaskPlaceOnEventListRestricted leaves all other lists in order. */
  lemma EntryElsewhere(f: Files, tcbs: map<TaskId, Tcb>, g: Files, tcbs': map<TaskId, Tcb>, t: TaskId, entered: int, e: int)
    requires SameBut(f, g, entered) && e != entered && ChangedAt(tcbs, tcbs', t)
    ensures Ranked(f, tcbs, e) ==> Ranked(g, tcbs', e)
  {
    SameValueKeepsOrder(g, tcbs, t, tcbs'[t]);
    hide InRank;
    assert Ranked(f, tcbs, e) ==> Ranked(g, tcbs, e);
  }

  lemma ChangedStaysTied(tcbs: map<TaskId, Tcb>, tcbs': map<TaskId, Tcb>, t: TaskId)
    requires ChangedAt(tcbs, tcbs', t) && Tied(tcbs)
    ensures Tied(tcbs')
  {
  }

  lemma OrderAndTiesEverywhere(f: Files, tcbs: map<TaskId, Tcb>, g: Files, tcbs': map<TaskId, Tcb>)
    requires |g.rings| == |f.rings| && (Tied(tcbs) ==> Tied(tcbs')) && OrderKept(f, tcbs, g, tcbs')
    ensures forall e :: OrderKeptIn(f, tcbs, g, tcbs', e)
  {
    hide Ranked, Tied, OrderKeptIn;
    forall e ensures OrderKeptIn(f, tcbs, g, tcbs', e) {
      OrderAndTies(f, tcbs, g, tcbs', e);
    }
  }

  lemma RankedFromOrder(f: Files, tcbs: map<TaskId, Tcb>, g: Files, tcbs': map<TaskId, Tcb>, e: int)
    ensures OrderKept(f, tcbs, g, tcbs') ==> (Ranked(f, tcbs, e) ==> Ranked(g, tcbs', e))
  {
    hide Ranked;
  }

  lemma ThinnedRings(f: Files, g: Files)
    requires Thinned(f, g)
    ensures |g.rings| == |f.rings|
  {
  }

  lemma FewerAreTied(tcbs: map<TaskId, Tcb>, t: TaskId)
    ensures Tied(tcbs) ==> Tied(tcbs - {t})
  {
  }

  lemma OneMoreIsTied(tcbs: map<TaskId, Tcb>, t: TaskId, p: nat)
    requires p < MAX_PRIORITIES
    ensures Tied(tcbs) ==> Tied(tcbs[t := NewTcb(p)])
  {
  }

  lemma SetStaysTied(tcbs: map<TaskId, Tcb>, t: TaskId, p: nat)
    requires t in tcbs && p < MAX_PRIORITIES && tcbs[t].priority == tcbs[t].basePriority
    ensures Tied(tcbs) ==> Tied(AfterPrioritySet(tcbs, t, p))
  {
  }

  lemma InheritStaysTied(tcbs: map<TaskId, Tcb>, holder: TaskId, from: TaskId)
    requires holder in tcbs && from in tcbs
    ensures Tied(tcbs) ==> Tied(AfterInherit(tcbs, holder, from))
  {
  }

  lemma DisinheritStaysTied(tcbs: map<TaskId, Tcb>, holder: TaskId)
    requires holder in tcbs && tcbs[holder].basePriority < MAX_PRIORITIES
    ensures Tied(tcbs) ==> Tied(AfterDisinherit(tcbs, holder))
  {
  }

  lemma HeadIsOfHighestPriority(f: Files, tcbs: map<TaskId, Tcb>, e: nat)
    requires PENDING < e < |f.rings| && f.rings[e].items != []
    ensures PriorityOrder(f, tcbs, e) ==>
      forall u :: u in f.rings[e].items ==> f.rings[e].items[0] in tcbs && u in tcbs && tcbs[u].priority <= tcbs[f.rings[e].items[0]].priority
  {
    if PriorityOrder(f, tcbs, e) {
      forall u | u in f.rings[e].items
        ensures f.rings[e].items[0] in tcbs && u in tcbs && tcbs[u].priority <= tcbs[f.rings[e].items[0]].priority
      {
        HeadHasPriority(f, tcbs, e, u);
      }
    }
  }
}
