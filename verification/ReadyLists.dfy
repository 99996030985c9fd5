/**
  The ready lists of TCPv3/FreeRTOS/tasks.c: for each priority the order in which its tasks get their
  turns. Only a switch goes on to the next turn; everything else takes tasks out of that order, or lets
  them enter as the last.
 */
module ReadyLists {
  import opened Rings
  import opened Ticks
  import opened Filing
  import opened TaskStates
  import opened TaskTables

  /** The tasks of a ready list, in the order of their turns. */
  function TurnsIn(f: Files, p: int): seq<TaskId> {
    if 0 <= p < |f.rings| && f.rings[p].index <= |f.rings[p].items| then Rotation(f.rings[p]) else []
  }

  function Without(ts: seq<TaskId>, t: TaskId): (rest: seq<TaskId>) {
    if t in ts then SeqDrop(ts, Position(ts, t)) else ts
  }

  ghost predicate SameTurns(f: Files, g: Files) {
    forall p :: 0 <= p < MAX_PRIORITIES ==> TurnsIn(g, p) == TurnsIn(f, p)
  }

  /** The task has left, and nobody else has moved. */
  ghost predicate LeftTurns(f: Files, g: Files, t: TaskId) {
    forall p :: 0 <= p < MAX_PRIORITIES ==> TurnsIn(g, p) == Without(TurnsIn(f, p), t)
  }

  /** The task has the last turn in one list. */
  ghost predicate EnteredTurns(f: Files, g: Files, t: TaskId, list: int) {
    forall p :: 0 <= p < MAX_PRIORITIES ==> TurnsIn(g, p) == TurnsIn(f, p) + if p == list then [t] else []
  }

  /** Both, one after the other. */
  ghost predicate MovedTurns(f: Files, g: Files, t: TaskId, list: int) {
    forall p :: 0 <= p < MAX_PRIORITIES ==> TurnsIn(g, p) == Without(TurnsIn(f, p), t) + if p == list then [t] else []
  }

  /** Tasks may have entered, as the last. */
  ghost predicate LongerTurns(f: Files, g: Files) {
    forall p :: 0 <= p < MAX_PRIORITIES ==> TurnsIn(f, p) <= TurnsIn(g, p)
  }

  /** One task may have left a list, or some may have entered it as the last: nobody overtakes anybody. */
  ghost predicate TurnKept(a: seq<TaskId>, b: seq<TaskId>) {
    a <= b || exists i :: 0 <= i < |a| && b == SeqDrop(a, i)
  }

  ghost predicate TurnsKept(f: Files, g: Files) {
    forall p :: 0 <= p < MAX_PRIORITIES ==> TurnKept(TurnsIn(f, p), TurnsIn(g, p))
  }

  // ----- the list operations

  lemma TurnsAreDistinct(f: Files, p: int)
    requires Consistent(f) && 0 <= p < |f.rings|
    ensures Distinct(TurnsIn(f, p)) && |TurnsIn(f, p)| == |f.rings[p].items|
    ensures forall t :: t in TurnsIn(f, p) <==> t in f.rings[p].items
    ensures forall t :: t in TurnsIn(f, p) <==> t in f.home && f.home[t] == p
  {
    var r := f.rings[p];
    assert WellFormed(r);
    RotationKeepsItems(r);
    forall t ensures t in TurnsIn(f, p) <==> t in r.items {
      assert t in Rotation(r) <==> multiset(Rotation(r))[t] > 0;
      assert t in r.items <==> multiset(r.items)[t] > 0;
    }
  }

  lemma DroppedIsWithout(ts: seq<TaskId>, i: nat)
    requires Distinct(ts) && i < |ts|
    ensures SeqDrop(ts, i) == Without(ts, ts[i])
  {
    assert ts[Position(ts, ts[i])] == ts[i];
  }

  /** vListRemove */
  lemma UnlinkLeaves(f: Files, t: TaskId)
    requires Consistent(f) && t in f.home && f.home[t] != NOWHERE && |f.rings| >= MAX_PRIORITIES
    ensures LeftTurns(f, Unlink(f, t), t)
  {
    var g, i := Unlink(f, t), f.home[t];
    forall p | 0 <= p < MAX_PRIORITIES ensures TurnsIn(g, p) == Without(TurnsIn(f, p), t) {
      TurnsAreDistinct(f, p);
      if p == i {
        var r := f.rings[p];
        var pos := Position(r.items, t);
        RemoveKeepsTurnOrder(r, pos);
        var turn := if pos < r.index then |r.items| - r.index + pos else pos - r.index;
        DroppedIsWithout(Rotation(r), turn);
      }
    }
  }

  /** vListInsertEnd */
  lemma LinkEndEntersTurns(f: Files, i: nat, t: TaskId)
    requires Consistent(f) && IsIn(f, NOWHERE, t) && i < |f.rings| && |f.rings| >= MAX_PRIORITIES
    ensures EnteredTurns(f, LinkEnd(f, i, t), t, i)
    ensures i >= MAX_PRIORITIES ==> SameTurns(f, LinkEnd(f, i, t))
  {
    forall p | 0 <= p < MAX_PRIORITIES ensures TurnsIn(LinkEnd(f, i, t), p) == TurnsIn(f, p) + if p == i then [t] else [] {
      if p == i {
        assert WellFormed(f.rings[i]);
        InsertEndIsServedLast(f.rings[i], t);
      }
    }
  }

  /** vListInsert into a list that is no ready list */
  lemma LinkAtKeepsTurns(f: Files, i: nat, pos: nat, t: TaskId)
    requires Consistent(f) && IsIn(f, NOWHERE, t) && MAX_PRIORITIES <= i < |f.rings| && pos <= |f.rings[i].items|
    ensures SameTurns(f, LinkAt(f, i, pos, t))
  {
  }

  lemma SameRingsSameTurns(f: Files, g: Files)
    requires g.rings == f.rings
    ensures SameTurns(f, g) && LongerTurns(f, g)
  {
  }

  // ----- one after the other

  lemma LeftThenSame(f: Files, g: Files, h: Files, t: TaskId)
    requires LeftTurns(f, g, t) && SameTurns(g, h)
    ensures LeftTurns(f, h, t)
  {
    hide TurnsIn, Without;
  }

  lemma LeftThenEntered(f: Files, g: Files, h: Files, t: TaskId, list: int)
    requires LeftTurns(f, g, t) && EnteredTurns(g, h, t, list)
    ensures MovedTurns(f, h, t, list)
  {
    hide TurnsIn, Without;
  }

  /** A task that was not ready had no turn to lose. */
  lemma MovedFromElsewhere(f: Files, g: Files, t: TaskId, list: int)
    requires Consistent(f) && MovedTurns(f, g, t, list) && |f.rings| >= MAX_PRIORITIES
    requires t in f.home && (f.home[t] >= MAX_PRIORITIES || f.home[t] == NOWHERE)
    ensures EnteredTurns(f, g, t, list)
  {
    hide TurnsIn;
    forall p | 0 <= p < MAX_PRIORITIES ensures TurnsIn(g, p) == TurnsIn(f, p) + if p == list then [t] else [] {
      TurnsAreDistinct(f, p);
    }
  }

  lemma LeftFromElsewhere(f: Files, g: Files, t: TaskId)
    requires Consistent(f) && LeftTurns(f, g, t) && |f.rings| >= MAX_PRIORITIES
    requires t in f.home && (f.home[t] >= MAX_PRIORITIES || f.home[t] == NOWHERE)
    ensures SameTurns(f, g)
  {
    hide TurnsIn;
    forall p | 0 <= p < MAX_PRIORITIES ensures TurnsIn(g, p) == TurnsIn(f, p) {
      TurnsAreDistinct(f, p);
    }
  }

  lemma EnteredIsLonger(f: Files, g: Files, t: TaskId, list: int)
    requires EnteredTurns(f, g, t, list)
    ensures LongerTurns(f, g)
  {
    hide TurnsIn;
  }

  lemma LongerFurther(f: Files, g: Files, h: Files)
    requires LongerTurns(f, g) && LongerTurns(g, h)
    ensures LongerTurns(f, h)
  {
    hide TurnsIn;
  }

  lemma EnteredFromSameRings(f: Files, g: Files, h: Files, t: TaskId, list: int)
    requires g.rings == f.rings && EnteredTurns(g, h, t, list)
    ensures EnteredTurns(f, h, t, list)
  {
  }

  lemma SameThroughSameRings(f: Files, g: Files, h: Files)
    requires SameTurns(f, g) && h.rings == g.rings
    ensures SameTurns(f, h)
  {
  }

  // ----- no call but a switch lets anybody overtake

  lemma LongerIsKept(f: Files, g: Files)
    requires LongerTurns(f, g)
    ensures TurnsKept(f, g)
  {
    hide TurnsIn;
  }

  lemma SameIsKept(f: Files, g: Files)
    requires SameTurns(f, g)
    ensures TurnsKept(f, g)
  {
    hide TurnsIn;
  }

  lemma LeftIsKept(f: Files, g: Files, t: TaskId)
    requires LeftTurns(f, g, t)
    ensures TurnsKept(f, g)
  {
    hide TurnsIn;
  }

  /** A task that moves between two lists has not been in the second one. */
  lemma MovedIsKept(f: Files, g: Files, t: TaskId, list: int)
    requires Consistent(f) && MovedTurns(f, g, t, list) && |f.rings| >= MAX_PRIORITIES && t in f.home && f.home[t] != list
    ensures TurnsKept(f, g)
  {
    hide TurnsIn;
    forall p | 0 <= p < MAX_PRIORITIES ensures TurnKept(TurnsIn(f, p), TurnsIn(g, p)) {
      TurnsAreDistinct(f, p);
    }
  }

  // ----- places

  /** Nobody overtakes: the place of a task that stays is as it was, or nearer by one that has left. */
  lemma PlaceIsKept(a: seq<TaskId>, b: seq<TaskId>, t: TaskId)
    requires Distinct(a) && TurnKept(a, b) && t in a && t in b
    ensures Position(b, t) <= Position(a, t)
  {
    var i := Position(a, t);
    if a <= b {
      assert b[i] == t;
    } else {
      var j :| 0 <= j < |a| && b == SeqDrop(a, j);
      DropMembership(a, j);
      assert b[if j < i then i - 1 else i] == t;
    }
  }

  /** If the same tasks are there, they have the same turns. */
  lemma SameTasksSameTurns(a: seq<TaskId>, b: seq<TaskId>)
    requires Distinct(a) && Distinct(b) && TurnKept(a, b) && forall t :: t in a <==> t in b
    ensures a == b
  {
    DistinctCardinality(a);
    DistinctCardinality(b);
    assert Elements(a) == Elements(b);
  }

  // ----- several at once

  /** Those of a given priority, in order. */
  function OfPriority(ts: seq<TaskId>, tcbs: map<TaskId, Tcb>, p: int): seq<TaskId> {
    if ts == [] then []
    else OfPriority(ts[..|ts| - 1], tcbs, p) + if ts[|ts| - 1] in tcbs && tcbs[ts[|ts| - 1]].priority == p then [ts[|ts| - 1]] else []
  }

  /** All of the tasks have entered the lists of their priorities, one after the other. */
  ghost predicate AllEntered(f: Files, g: Files, ts: seq<TaskId>, tcbs: map<TaskId, Tcb>) {
    forall p :: 0 <= p < MAX_PRIORITIES ==> TurnsIn(g, p) == TurnsIn(f, p) + OfPriority(ts, tcbs, p)
  }

  lemma NobodyEntered(f: Files, tcbs: map<TaskId, Tcb>)
    ensures AllEntered(f, f, [], tcbs)
  {
  }

  lemma OneMoreEntered(f: Files, g: Files, h: Files, ts: seq<TaskId>, n: nat, tcbs: map<TaskId, Tcb>)
    requires n < |ts| && ts[n] in tcbs && AllEntered(f, g, ts[..n], tcbs) && EnteredTurns(g, h, ts[n], tcbs[ts[n]].priority)
    ensures AllEntered(f, h, ts[..n + 1], tcbs)
  {
    hide TurnsIn;
    assert ts[..n + 1][..n] == ts[..n];
  }

  /** They have entered, and others may have after them. */
  ghost predicate EnteredAndMore(f: Files, g: Files, ts: seq<TaskId>, tcbs: map<TaskId, Tcb>) {
    forall p :: 0 <= p < MAX_PRIORITIES ==> TurnsIn(f, p) + OfPriority(ts, tcbs, p) <= TurnsIn(g, p)
  }

  lemma AndMore(f: Files, g: Files, h: Files, ts: seq<TaskId>, tcbs: map<TaskId, Tcb>)
    requires AllEntered(f, g, ts, tcbs) && LongerTurns(g, h)
    ensures EnteredAndMore(f, h, ts, tcbs)
  {
    hide TurnsIn, OfPriority;
  }

  lemma AndMoreIsLonger(f: Files, g: Files, ts: seq<TaskId>, tcbs: map<TaskId, Tcb>)
    requires EnteredAndMore(f, g, ts, tcbs)
    ensures LongerTurns(f, g)
  {
    hide TurnsIn, OfPriority;
  }

  /** Each of the tasks is in the ready list of its priority, and in no event list. */
  ghost predicate AllReady(ts: seq<TaskId>, tcbs: map<TaskId, Tcb>, lists: Files, events: Files) {
    forall i :: 0 <= i < |ts| ==>
      ts[i] in tcbs && IsIn(lists, tcbs[ts[i]].priority, ts[i]) && IsIn(events, NOWHERE, ts[i])
  }

  /** The task has left wherever it was, and has the last turn in the ready list of its priority. */
  ghost predicate MadeReady(lists: Files, events: Files, lists': Files, events': Files, tcbs: map<TaskId, Tcb>, t: TaskId) {
    && t in tcbs && lists'.home == lists.home[t := tcbs[t].priority] && events'.home == events.home[t := NOWHERE]
    && EnteredTurns(lists, lists', t, tcbs[t].priority)
  }

  lemma ReadyIsLonger(lists: Files, events: Files, lists': Files, events': Files, tcbs: map<TaskId, Tcb>, t: TaskId)
    requires MadeReady(lists, events, lists', events', tcbs, t)
    ensures LongerTurns(lists, lists')
  {
    EnteredIsLonger(lists, lists', t, tcbs[t].priority);
  }

  lemma NobodyReady(tcbs: map<TaskId, Tcb>, lists: Files, events: Files)
    ensures AllReady([], tcbs, lists, events)
  {
  }

  lemma OneMoreReady(ts: seq<TaskId>, n: nat, tcbs: map<TaskId, Tcb>, lists: Files, events: Files, lists': Files, events': Files)
    requires n < |ts| && ts[n] in tcbs && AllReady(ts[..n], tcbs, lists, events)
    requires lists'.home == lists.home[ts[n] := tcbs[ts[n]].priority] && events'.home == events.home[ts[n] := NOWHERE]
    ensures AllReady(ts[..n + 1], tcbs, lists', events')
  {
    forall i | 0 <= i < n + 1
      ensures ts[i] in tcbs && IsIn(lists', tcbs[ts[i]].priority, ts[i]) && IsIn(events', NOWHERE, ts[i])
    {
      if i < n {
        assert ts[..n][i] == ts[i];
      }
    }
  }

  /** The task is in the ready list of its priority, or pending while the scheduler is suspended. */
  ghost predicate IsUp(k: Table, depth: nat, t: TaskId) {
    if depth == 0 then t in k.tcbs && IsIn(k.lists, k.tcbs[t].priority, t) && IsIn(k.events, NOWHERE, t)
    else IsIn(k.events, PENDING, t)
  }

  lemma MadeReadyIsUp(k: Table, k': Table, t: TaskId)
    requires MadeReady(k.lists, k.events, k'.lists, k'.events, k'.tcbs, t)
    ensures IsUp(k', 0, t)
  {
  }

  /** The delayed list for a task that wakes at the given tick count. */
  function ListFor(k: Table, timeToWake: Tick): int {
    if timeToWake < k.tickCount then k.overflow else k.delayed
  }

  /** The task is on the event list, and where its wait is timed. */
  ghost predicate SleepsFor(k: Table, e: int, ticks: Tick, t: TaskId) {
    && IsIn(k.events, e, t)
    && IsIn(k.lists, if ticks == MAX_DELAY then SUSPENDED else ListFor(k, Wrap(k.tickCount + ticks)), t)
  }
}
