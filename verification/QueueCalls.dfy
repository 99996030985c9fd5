/**
  A queue of TCPv3/FreeRTOS/queue.c as it stands: the bytes of QueueStorage, two event lists of the
  kernel of Scheduler, and two lock counts. Each part of a call, each interrupt and each tick is
  proved to be a step of QueueProtocol, so that what holds there holds of these.
 */
module QueueCalls {
  import opened Octets
  import opened Wrappers
  import opened Ticks
  import opened Rings
  import opened Filing
  import opened TaskStates
  import opened TaskTables
  import opened EventLists
  import opened ReadyLists
  import opened KernelRuns
  import opened Scheduler
  import QueueStorage
  import opened QueueRuns
  import P = QueueProtocol

  /** Waking n tasks and then one more is waking all of them. */
  lemma WakingOneMore(phases: P.Phases, ts: seq<TaskId>, n: nat)
    requires n < |ts|
    ensures P.AllAwake(P.AllAwake(phases, ts[..n]), [ts[n]]) == P.AllAwake(phases, ts[..n + 1])
    ensures Elements(ts[..n]) + {ts[n]} == Elements(ts[..n + 1])
    ensures ts[n..][1..] == ts[n + 1..]
  {
    assert ts[..n + 1] == ts[..n] + [ts[n]];
  }

  lemma WakingNobody(phases: P.Phases, ts: seq<TaskId>)
    ensures P.AllAwake(phases, ts[..0]) == phases && Elements(ts[..0]) == {}
  {
  }

  /** n receivers have been woken, and the lock count stands as given. */
  function ServedReceivers(s: P.State, n: nat, lock: int): P.State
    requires n <= |s.receivers.waiting|
  {
    P.WakeReceivers(s, n).(receivers := P.Woken(s.receivers, n).(lock := lock))
  }

  /** One receiver is woken, and the lock count set. */
  function OneReceiverLess(s: P.State, lock: int): P.State
    requires s.receivers.waiting != []
  {
    P.WakeReceivers(s, 1).(receivers := P.WakeReceivers(s, 1).receivers.(lock := lock))
  }

  lemma WakingTheNextReceiver(s: P.State, n: nat, lock: int, served: P.State, next: P.State)
    requires n < |s.receivers.waiting| && served == ServedReceivers(s, n, lock)
    requires next == OneReceiverLess(served, lock - 1)
    ensures next == ServedReceivers(s, n + 1, lock - 1) && next.receivers.waiting == s.receivers.waiting[n + 1..]
  {
    hide P.AllAwake, Elements;
    var ts := s.receivers.waiting;
    WakingOneMore(s.phases, ts, n);
    assert ts[n..][..1] == [ts[n]];
    ElementsOfOne(ts[n]);
    assert s.receivers.woken + Elements(ts[..n]) + {ts[n]} == s.receivers.woken + Elements(ts[..n + 1]);
  }

  lemma ServingStartsReceivers(s: P.State)
    ensures ServedReceivers(s, 0, s.receivers.lock) == s
  {
    hide P.AllAwake, Elements;
    WakingNobody(s.phases, s.receivers.waiting);
  }

  lemma ServingEndsReceivers(s: P.State, n: nat, lock: int)
    requires n == P.Min(P.Max0(s.receivers.lock), |s.receivers.waiting|)
    ensures var t := ServedReceivers(s, n, lock); t.(receivers := t.receivers.(lock := P.UNLOCKED)) == P.ServeReceivers(s)
  {
    hide P.AllAwake, Elements;
  }

  /** n senders have been woken, and the lock count stands as given. */
  function ServedSenders(s: P.State, n: nat, lock: int): P.State
    requires n <= |s.senders.waiting|
  {
    P.WakeSenders(s, n).(senders := P.Woken(s.senders, n).(lock := lock))
  }

  /** One sender is woken, and the lock count set. */
  function OneSenderLess(s: P.State, lock: int): P.State
    requires s.senders.waiting != []
  {
    P.WakeSenders(s, 1).(senders := P.WakeSenders(s, 1).senders.(lock := lock))
  }

  lemma WakingTheNextSender(s: P.State, n: nat, lock: int, served: P.State, next: P.State)
    requires n < |s.senders.waiting| && served == ServedSenders(s, n, lock)
    requires next == OneSenderLess(served, lock - 1)
    ensures next == ServedSenders(s, n + 1, lock - 1) && next.senders.waiting == s.senders.waiting[n + 1..]
  {
    hide P.AllAwake, Elements;
    var ts := s.senders.waiting;
    WakingOneMore(s.phases, ts, n);
    assert ts[n..][..1] == [ts[n]];
    ElementsOfOne(ts[n]);
    assert s.senders.woken + Elements(ts[..n]) + {ts[n]} == s.senders.woken + Elements(ts[..n + 1]);
  }

  lemma ServingStartsSenders(s: P.State)
    ensures ServedSenders(s, 0, s.senders.lock) == s
  {
    hide P.AllAwake, Elements;
    WakingNobody(s.phases, s.senders.waiting);
  }

  lemma ServingEndsSenders(s: P.State, n: nat, lock: int)
    requires n == P.Min(P.Max0(s.senders.lock), |s.senders.waiting|)
    ensures var t := ServedSenders(s, n, lock); t.(senders := t.senders.(lock := P.UNLOCKED)) == P.ServeSenders(s)
  {
    hide P.AllAwake, Elements;
  }

  class BlockingQueue {
    const kernel: Kernel
    const storage: QueueStorage.Queue
    const sendEvent: nat               // xTasksWaitingToSend
    const receiveEvent: nat            // xTasksWaitingToReceive
    var rxLock: int
    var txLock: int
    var phases: P.Phases               // where its users are in their calls

    // the record of what has happened
    ghost var alone: Option<TaskId>
    ghost var wokenSenders: set<TaskId>
    ghost var wokenReceivers: set<TaskId>
    ghost var sent: seq<P.Item>
    ghost var received: seq<P.Item>

    /** The event list on which senders, or receivers, wait. */
    function EventOf(sending: bool): nat {
      if sending then sendEvent else receiveEvent
    }

    ghost function View(): P.State
      requires storage.Valid()
      reads this, kernel, storage, storage.storage
    {
      P.State(storage.length, storage.Contents(),
              P.Side(kernel.WaitingFor(sendEvent), rxLock, wokenSenders),
              P.Side(kernel.WaitingFor(receiveEvent), txLock, wokenReceivers),
              phases, alone, sent, received)
    }

    /** The parts are in order; a user that has the scheduler suspended is the one that runs. */
    ghost predicate Sound()
      reads this, kernel, storage, storage.storage
    {
      && kernel.Valid() && storage.Valid()
      && PENDING < sendEvent < |kernel.events.rings| && PENDING < receiveEvent < |kernel.events.rings| && sendEvent != receiveEvent
      && (alone.Some? ==> kernel.suspended == 1 && kernel.current == alone.value)
    }

    /** Between steps, moreover, all that QueueProtocol proves of every run, and every user is accounted for. */
    ghost predicate Valid()
      reads this, kernel, storage, storage.storage
    {
      Sound() && P.Inv(View()) && Accounted()
    }

    ghost predicate Accounted()
      reads this, kernel
    {
      UsersAccountedFor(phases, SystemOf(kernel.Snap()), sendEvent, receiveEvent)
    }

    constructor (kernel: Kernel, length: nat, itemSize: nat, sendEvent: nat, receiveEvent: nat)
      requires kernel.Valid() && length > 0
      requires PENDING < sendEvent < |kernel.events.rings| && PENDING < receiveEvent < |kernel.events.rings| && sendEvent != receiveEvent
      requires kernel.WaitingFor(sendEvent) == [] && kernel.WaitingFor(receiveEvent) == []
      ensures Valid() && View() == P.Init(length) && this.kernel == kernel && storage.itemSize == itemSize
    {
      hide Kernel.Valid, QueueStorage.Queue.Valid, QueueStorage.Queue.Contents, P.Inv;
      this.kernel, this.sendEvent, this.receiveEvent := kernel, sendEvent, receiveEvent;
      storage := new QueueStorage.Queue(length, itemSize);
      rxLock, txLock := P.UNLOCKED, P.UNLOCKED;
      phases, alone, wokenSenders, wokenReceivers, sent, received := map[], None, {}, {}, [], [];
      new;
      P.InitIsSound(length);
    }

    lemma SoundMeans()
      requires Sound()
      ensures storage.Valid() && kernel.Valid()
    {
      hide Kernel.Valid;
    }

    // ----- waking

    /** xTaskRemoveFromEventList */
    method NotifyHead(e: nat) returns (higher: bool, ghost t: TaskId)
      requires kernel.Valid() && e > PENDING && kernel.WaitingFor(e) != []
      modifies kernel`lists, kernel`events, kernel`topReady
      ensures kernel.Valid() && HeadHasLeft(old(kernel.events), kernel.events, e)
      ensures t == old(kernel.WaitingFor(e))[0] && Woke(old(kernel.Snap()), old(kernel.WaitingFor(e)), higher, kernel.Snap())
    {
      hide Kernel.Valid, QueueStorage.Queue.Valid, QueueStorage.Queue.Contents, Perform, Shape, HeadHasLeft, SomeoneOutranks,
           SystemOf, MadeReady, PriorityOrder;
      kernel.SnapMeans();
      kernel.NotifyMeans(e);
      OneOutranks(kernel.WaitingFor(e)[0], kernel.tcbs, kernel.current);
      ghost var before := kernel.Tab();
      higher, t := kernel.RemoveFromEventList(e);
      if kernel.suspended == 0 {
        MadeReadyIsUp(before, kernel.Tab(), t);
      }
      kernel.SnapMeans();
    }

    method WakeReceiver() returns (higher: bool)
      requires Sound() && kernel.WaitingFor(receiveEvent) != []
      modifies this`phases, this`wokenReceivers, kernel`lists, kernel`events, kernel`topReady
      ensures Sound() && View() == P.WakeReceivers(old(View()), 1)
      ensures Woke(old(kernel.Snap()), old(kernel.WaitingFor(receiveEvent)), higher, kernel.Snap())
    {
      hide Kernel.Valid, QueueStorage.Queue.Valid, QueueStorage.Queue.Contents, P.AllAwake, Woke;
      ghost var waiting := kernel.WaitingFor(receiveEvent);
      WakingOneMore(phases, waiting, 0);
      WakingNobody(phases, waiting);
      var t := kernel.WaitingFor(receiveEvent)[0];
      ghost var head;
      higher, head := NotifyHead(receiveEvent);
      wokenReceivers := wokenReceivers + {t};
      phases := P.AllAwake(phases, [t]);
    }

    method WakeSender() returns (higher: bool)
      requires Sound() && kernel.WaitingFor(sendEvent) != []
      modifies this`phases, this`wokenSenders, kernel`lists, kernel`events, kernel`topReady
      ensures Sound() && View() == P.WakeSenders(old(View()), 1)
      ensures Woke(old(kernel.Snap()), old(kernel.WaitingFor(sendEvent)), higher, kernel.Snap())
    {
      hide Kernel.Valid, QueueStorage.Queue.Valid, QueueStorage.Queue.Contents, P.AllAwake, Woke;
      ghost var waiting := kernel.WaitingFor(sendEvent);
      WakingOneMore(phases, waiting, 0);
      WakingNobody(phases, waiting);
      var t := kernel.WaitingFor(sendEvent)[0];
      ghost var head;
      higher, head := NotifyHead(sendEvent);
      wokenSenders := wokenSenders + {t};
      phases := P.AllAwake(phases, [t]);
    }

    /** After the copy, in xQueueGenericSend and in the interrupt's form: wake a receiver, or let the lock count. */
    method AnnounceNewItem() returns (higher: bool)
      requires Sound()
      modifies this`phases, this`wokenReceivers, this`txLock, kernel`lists, kernel`events, kernel`topReady
      ensures Sound() && View() == P.AnnounceItem(old(View()))
      ensures Woke(old(kernel.Snap()), if old(txLock) == P.UNLOCKED then old(kernel.WaitingFor(receiveEvent)) else [], higher, kernel.Snap())
    {
      hide Kernel.Valid, QueueStorage.Queue.Valid, QueueStorage.Queue.Contents, P.AllAwake, Elements, SystemOf, Perform;
      WakingNobody(phases, kernel.WaitingFor(receiveEvent));
      higher := false;
      if txLock == P.UNLOCKED {
        if kernel.WaitingFor(receiveEvent) != [] {
          higher := WakeReceiver();
        }
      } else {
        txLock := txLock + 1;
      }
    }

    method AnnounceFreeSlot() returns (higher: bool)
      requires Sound()
      modifies this`phases, this`wokenSenders, this`rxLock, kernel`lists, kernel`events, kernel`topReady
      ensures Sound() && View() == P.AnnounceSpace(old(View()))
      ensures Woke(old(kernel.Snap()), if old(rxLock) == P.UNLOCKED then old(kernel.WaitingFor(sendEvent)) else [], higher, kernel.Snap())
    {
      hide Kernel.Valid, QueueStorage.Queue.Valid, QueueStorage.Queue.Contents, P.AllAwake, Elements, SystemOf, Perform;
      WakingNobody(phases, kernel.WaitingFor(sendEvent));
      higher := false;
      if rxLock == P.UNLOCKED {
        if kernel.WaitingFor(sendEvent) != [] {
          higher := WakeSender();
        }
      } else {
        rxLock := rxLock + 1;
      }
    }

    // ----- items

    method CopyIn(item: P.Item, toFront: bool)
      requires Sound() && |item| == storage.itemSize && |storage.Contents()| < storage.length
      modifies this`sent, storage, storage.storage
      ensures Sound() && View() == P.PutItem(old(View()), item, toFront)
      ensures storage.Contents() == if toFront then [item] + old(storage.Contents()) else old(storage.Contents()) + [item]
      ensures sent == old(sent) + [item]
    {
      hide Kernel.Valid, QueueStorage.Queue.Valid, QueueStorage.Queue.Contents;
      var ok := storage.Send(item, toFront);
      assert ok;
      sent := sent + [item];
    }

    method CopyOut() returns (item: P.Item)
      requires Sound() && storage.Contents() != []
      modifies this`received, storage
      ensures Sound() && View() == P.TakeItem(old(View())) && item == old(storage.Contents())[0]
      ensures storage.Contents() == old(storage.Contents())[1..] && received == old(received) + [item]
    {
      hide Kernel.Valid, QueueStorage.Queue.Valid, QueueStorage.Queue.Contents;
      var ok;
      ok, item := storage.Receive(false);
      assert ok;
      received := received + [item];
    }

    /** vTaskMissedYield */
    method NoteYield()
      requires Sound()
      modifies kernel`missedYield
      ensures Sound() && View() == old(View()) && kernel.missedYield
      ensures SystemOf(kernel.Snap()) == SystemOf(old(kernel.Snap()))
    {
      hide Kernel.Valid, QueueStorage.Queue.Valid, QueueStorage.Queue.Contents, SystemOf, Shape;
      kernel.SnapMeans();
      kernel.MissYield();
      kernel.SnapMeans();
    }

    // ----- interrupts

    lemma StepKeeps(a: P.Action)
      requires Valid()
      ensures P.Inv(P.Next(View(), a)) && (!a.Begin? ==> P.NoNewUsers(phases, P.Next(View(), a).phases))
    {
      hide Kernel.Valid, QueueStorage.Queue.Valid, QueueStorage.Queue.Contents, P.Flow, P.ItemsConserved, P.Step, P.Enabled,
           P.NoNewUsers;
      if !a.Begin? {
        P.OnlyBeginEnters(View(), a);
      }
      if P.Enabled(View(), a) {
        P.StepKeepsFlow(View(), a);
        P.StepConservesItems(View(), a);
      }
    }

    /** xQueueGenericSendFromISR */
    method SendFromISR(item: P.Item, toFront: bool) returns (ok: bool, higher: bool)
      requires Valid() && |item| == storage.itemSize
      modifies this, storage, storage.storage, kernel`lists, kernel`events, kernel`topReady
      ensures Valid() && View() == P.Next(old(View()), P.SendFromISR(item, toFront))
      ensures ok <==> |old(storage.Contents())| < storage.length
      ensures storage.Contents() ==
        if !ok then old(storage.Contents()) else if toFront then [item] + old(storage.Contents()) else old(storage.Contents()) + [item]
      ensures sent == (if ok then old(sent) + [item] else old(sent)) && received == old(received)
      ensures Woke(old(kernel.Snap()), if ok && old(txLock) == P.UNLOCKED then old(kernel.WaitingFor(receiveEvent)) else [], higher, kernel.Snap())
    {
      hide Kernel.Valid, QueueStorage.Queue.Valid, QueueStorage.Queue.Contents, P.AnnounceItem, P.Inv, P.PutItem, SystemOf,
           P.NoNewUsers, UsersAccountedFor, KeepsUsers, IsUp;
      ghost var users, system := phases, SystemOf(kernel.Snap());
      ghost var before, lock, waiting := kernel.Snap(), txLock, kernel.WaitingFor(receiveEvent);
      StepKeeps(P.SendFromISR(item, toFront));
      ok, higher := storage.messagesWaiting < storage.length, false;
      if ok {
        CopyIn(item, toFront);
        higher := AnnounceNewItem();
      }
      WakingKeepsUsers(before, if ok && lock == P.UNLOCKED then waiting else [], kernel.Snap(), sendEvent, receiveEvent);
      UsersStay(users, system, phases, SystemOf(kernel.Snap()), sendEvent, receiveEvent);
    }

    /** xQueueReceiveFromISR */
    method ReceiveFromISR() returns (item: Option<P.Item>, higher: bool)
      requires Valid()
      modifies this, storage, kernel`lists, kernel`events, kernel`topReady
      ensures Valid() && View() == P.Next(old(View()), P.ReceiveFromISR)
      ensures item == if old(storage.Contents()) == [] then None else Some(old(storage.Contents())[0])
      ensures storage.Contents() == if item.Some? then old(storage.Contents())[1..] else old(storage.Contents())
      ensures received == (if item.Some? then old(received) + [item.value] else old(received)) && sent == old(sent)
      ensures Woke(old(kernel.Snap()),
                   if item.Some? && old(rxLock) == P.UNLOCKED then old(kernel.WaitingFor(sendEvent)) else [],
                   higher, kernel.Snap())
    {
      hide Kernel.Valid, QueueStorage.Queue.Valid, QueueStorage.Queue.Contents, P.AnnounceSpace, P.Inv, P.TakeItem, SystemOf,
           P.NoNewUsers, UsersAccountedFor, KeepsUsers, IsUp;
      ghost var users, system := phases, SystemOf(kernel.Snap());
      ghost var before, lock, waiting := kernel.Snap(), rxLock, kernel.WaitingFor(sendEvent);
      StepKeeps(P.ReceiveFromISR);
      item, higher := None, false;
      if storage.messagesWaiting > 0 {
        var x := CopyOut();
        item := Some(x);
        higher := AnnounceFreeSlot();
      }
      WakingKeepsUsers(before, if item.Some? && lock == P.UNLOCKED then waiting else [], kernel.Snap(), sendEvent, receiveEvent);
      UsersStay(users, system, phases, SystemOf(kernel.Snap()), sendEvent, receiveEvent);
    }

    // ----- the first critical section of a call

    function PhaseNow(): P.Phase
      reads this, kernel
    {
      P.PhaseOf(phases, kernel.current)
    }

    /** A call is entered: the current task is going to try. */
    method Begin(call: P.Call)
      requires Valid() && alone.None? && PhaseNow().Idle? && kernel.lists.home[kernel.current] < MAX_PRIORITIES
      modifies this`phases
      ensures Valid() && View() == P.Next(old(View()), P.Begin(kernel.current, call))
    {
      hide Kernel.Valid, QueueStorage.Queue.Valid, QueueStorage.Queue.Contents, P.Inv, SystemOf, UsersAccountedFor, Known, Shape;
      StepKeeps(P.Begin(kernel.current, call));
      ghost var before := phases;
      phases := phases[kernel.current := P.Trying(call)];
      kernel.SnapMeans();
      CurrentIsFiled(kernel.Snap());
      ReadyTask(kernel.Snap(), kernel.current);
      UsersJoin(before, SystemOf(kernel.Snap()), kernel.current, P.Trying(call), sendEvent, receiveEvent);
    }

    /** The task is no longer counted as woken. */
    method Retry(phase: P.Phase)
      requires Sound()
      modifies this`phases, this`wokenSenders, this`wokenReceivers
      ensures Sound() && View() == P.Attempted(old(View()), kernel.current, phase)
    {
      hide Kernel.Valid, QueueStorage.Queue.Valid, QueueStorage.Queue.Contents;
      wokenSenders, wokenReceivers := wokenSenders - {kernel.current}, wokenReceivers - {kernel.current};
      phases := phases[kernel.current := phase];
    }

    /** xQueueGenericSend, from taskENTER_CRITICAL to taskEXIT_CRITICAL; higher tells whether a task of higher priority was woken. */
    method TrySend(item: P.Item, toFront: bool, mayBlock: bool) returns (done: bool, higher: bool)
      requires Valid() && alone.None? && PhaseNow() == P.Trying(P.Send(item, toFront)) && |item| == storage.itemSize
      modifies this, storage, storage.storage, kernel`lists, kernel`events, kernel`topReady
      ensures Valid() && View() == P.Next(old(View()), P.Try(kernel.current, mayBlock))
      ensures done <==> |old(storage.Contents())| < storage.length
      ensures storage.Contents() ==
        if !done then old(storage.Contents()) else if toFront then [item] + old(storage.Contents()) else old(storage.Contents()) + [item]
      ensures sent == (if done then old(sent) + [item] else old(sent)) && received == old(received)
      ensures Woke(old(kernel.Snap()), if done && old(txLock) == P.UNLOCKED then old(kernel.WaitingFor(receiveEvent)) else [],
                   higher, kernel.Snap())
    {
      hide Kernel.Valid, QueueStorage.Queue.Valid, QueueStorage.Queue.Contents, P.AnnounceItem, P.Inv, P.PutItem, SystemOf,
           P.NoNewUsers, UsersAccountedFor, KeepsUsers, IsUp;
      ghost var users, system := phases, SystemOf(kernel.Snap());
      ghost var before, lock, waiting := kernel.Snap(), txLock, kernel.WaitingFor(receiveEvent);
      StepKeeps(P.Try(kernel.current, mayBlock));
      done, higher := storage.messagesWaiting < storage.length, false;
      if done {
        Retry(P.Idle);
        CopyIn(item, toFront);
        higher := AnnounceNewItem();
      } else {
        Retry(if mayBlock then P.Failed(P.Send(item, toFront)) else P.Idle);
      }
      WakingKeepsUsers(before, if done && lock == P.UNLOCKED then waiting else [], kernel.Snap(), sendEvent, receiveEvent);
      UsersStay(users, system, phases, SystemOf(kernel.Snap()), sendEvent, receiveEvent);
    }

    /** xQueueGenericReceive, likewise; a peek leaves the item and passes a wake-up on. */
    method TryReceive(justPeeking: bool, mayBlock: bool) returns (item: Option<P.Item>, higher: bool)
      requires Valid() && alone.None? && PhaseNow() == P.Trying(if justPeeking then P.Peek else P.Receive)
      modifies this, storage, kernel`lists, kernel`events, kernel`topReady
      ensures Valid() && View() == P.Next(old(View()), P.Try(kernel.current, mayBlock))
      ensures item == if old(storage.Contents()) == [] then None else Some(old(storage.Contents())[0])
      ensures storage.Contents() == if item.Some? && !justPeeking then old(storage.Contents())[1..] else old(storage.Contents())
      ensures received == (if item.Some? && !justPeeking then old(received) + [item.value] else old(received)) && sent == old(sent)
      ensures Woke(old(kernel.Snap()),
                   if item.None? then []
                   else if justPeeking then if old(txLock) == P.UNLOCKED then old(kernel.WaitingFor(receiveEvent)) else []
                   else if old(rxLock) == P.UNLOCKED then old(kernel.WaitingFor(sendEvent)) else [],
                   higher, kernel.Snap())
    {
      hide Kernel.Valid, QueueStorage.Queue.Valid, QueueStorage.Queue.Contents, P.Inv, P.Next, SystemOf, UsersAccountedFor, IsUp,
           SomeoneOutranks;
      if justPeeking {
        item, higher := LookAtFirst(mayBlock);
      } else {
        item, higher := TakeFirst(mayBlock);
      }
    }

    method LookAtFirst(mayBlock: bool) returns (item: Option<P.Item>, higher: bool)
      requires Valid() && alone.None? && PhaseNow() == P.Trying(P.Peek)
      modifies this, storage, kernel`lists, kernel`events, kernel`topReady
      ensures Valid() && View() == P.Next(old(View()), P.Try(kernel.current, mayBlock))
      ensures item == if old(storage.Contents()) == [] then None else Some(old(storage.Contents())[0])
      ensures storage.Contents() == old(storage.Contents()) && received == old(received) && sent == old(sent)
      ensures Woke(old(kernel.Snap()), if item.Some? && old(txLock) == P.UNLOCKED then old(kernel.WaitingFor(receiveEvent)) else [],
                   higher, kernel.Snap())
    {
      hide Kernel.Valid, QueueStorage.Queue.Valid, QueueStorage.Queue.Contents, P.AnnounceItem, P.Inv, SystemOf, P.NoNewUsers,
           UsersAccountedFor, KeepsUsers, IsUp;
      ghost var users, system := phases, SystemOf(kernel.Snap());
      ghost var before, lock, waiting := kernel.Snap(), txLock, kernel.WaitingFor(receiveEvent);
      StepKeeps(P.Try(kernel.current, mayBlock));
      item, higher := None, false;
      if storage.messagesWaiting == 0 {
        Retry(if mayBlock then P.Failed(P.Peek) else P.Idle);
      } else {
        Retry(P.Idle);
        var x := Look();
        item := Some(x);
        higher := AnnounceNewItem();
      }
      WakingKeepsUsers(before, if item.Some? && lock == P.UNLOCKED then waiting else [], kernel.Snap(), sendEvent, receiveEvent);
      UsersStay(users, system, phases, SystemOf(kernel.Snap()), sendEvent, receiveEvent);
    }

    method TakeFirst(mayBlock: bool) returns (item: Option<P.Item>, higher: bool)
      requires Valid() && alone.None? && PhaseNow() == P.Trying(P.Receive)
      modifies this, storage, kernel`lists, kernel`events, kernel`topReady
      ensures Valid() && View() == P.Next(old(View()), P.Try(kernel.current, mayBlock))
      ensures item == if old(storage.Contents()) == [] then None else Some(old(storage.Contents())[0])
      ensures storage.Contents() == if item.Some? then old(storage.Contents())[1..] else old(storage.Contents())
      ensures received == (if item.Some? then old(received) + [item.value] else old(received)) && sent == old(sent)
      ensures Woke(old(kernel.Snap()), if item.Some? && old(rxLock) == P.UNLOCKED then old(kernel.WaitingFor(sendEvent)) else [],
                   higher, kernel.Snap())
    {
      hide Kernel.Valid, QueueStorage.Queue.Valid, QueueStorage.Queue.Contents, P.AnnounceSpace, P.Inv, P.TakeItem, SystemOf,
           P.NoNewUsers, UsersAccountedFor, KeepsUsers, IsUp;
      ghost var users, system := phases, SystemOf(kernel.Snap());
      ghost var before, lock, waiting := kernel.Snap(), rxLock, kernel.WaitingFor(sendEvent);
      StepKeeps(P.Try(kernel.current, mayBlock));
      item, higher := None, false;
      if storage.messagesWaiting == 0 {
        Retry(if mayBlock then P.Failed(P.Receive) else P.Idle);
      } else {
        Retry(P.Idle);
        var x := CopyOut();
        item := Some(x);
        higher := AnnounceFreeSlot();
      }
      WakingKeepsUsers(before, if item.Some? && lock == P.UNLOCKED then waiting else [], kernel.Snap(), sendEvent, receiveEvent);
      UsersStay(users, system, phases, SystemOf(kernel.Snap()), sendEvent, receiveEvent);
    }

    method Look() returns (item: P.Item)
      requires Sound() && storage.Contents() != []
      modifies storage
      ensures Sound() && View() == old(View()) && item == storage.Contents()[0]
      ensures storage.Contents() == old(storage.Contents())
    {
      hide Kernel.Valid, QueueStorage.Queue.Valid, QueueStorage.Queue.Contents;
      var ok;
      ok, item := storage.Receive(true);
      assert ok;
    }

    // ----- on the way to sleep

    /** vTaskSuspendAll */
    method SuspendAll()
      requires Valid() && alone.None? && kernel.suspended == 0 && PhaseNow().Failed?
      modifies this`phases, this`alone, kernel`suspended
      ensures Valid() && View() == P.Next(old(View()), P.SuspendAll(kernel.current))
      ensures PhaseNow() == P.Alone(old(PhaseNow()).call) && alone == Some(kernel.current) && kernel.suspended == 1
      ensures Took(old(kernel.Snap()), SuspendAllStep, kernel.Snap())
    {
      hide Kernel.Valid, Shape, Perform, SystemOf, QueueStorage.Queue.Valid, QueueStorage.Queue.Contents, P.Inv, P.NoNewUsers,
           UsersAccountedFor, KeepsUsers;
      ghost var users, system := phases, SystemOf(kernel.Snap());
      ghost var before := kernel.Snap();
      StepKeeps(P.SuspendAll(kernel.current));
      kernel.SnapMeans();
      kernel.SuspendAllTasks();
      kernel.SnapMeans();
      phases := phases[kernel.current := P.Alone(phases[kernel.current].call)];
      alone := Some(kernel.current);
      TookKeepsUsers(before, SuspendAllStep, kernel.Snap(), sendEvent, receiveEvent);
      UsersStay(users, system, phases, SystemOf(kernel.Snap()), sendEvent, receiveEvent);
    }

    /** prvLockQueue */
    method LockQueue()
      requires Valid() && alone == Some(kernel.current) && PhaseNow().Alone?
      modifies this`phases, this`rxLock, this`txLock
      ensures Valid() && View() == P.Next(old(View()), P.Lock(kernel.current))
      ensures PhaseNow() == P.Locking(old(PhaseNow()).call)
    {
      hide Kernel.Valid, QueueStorage.Queue.Valid, QueueStorage.Queue.Contents, P.Inv, P.NoNewUsers, UsersAccountedFor, KeepsUsers;
      ghost var users, system := phases, SystemOf(kernel.Snap());
      SameKeepsUsers(system, sendEvent, receiveEvent);
      StepKeeps(P.Lock(kernel.current));
      if rxLock == P.UNLOCKED {
        rxLock := P.LOCKED_UNMODIFIED;
      }
      if txLock == P.UNLOCKED {
        txLock := P.LOCKED_UNMODIFIED;
      }
      phases := phases[kernel.current := P.Locking(phases[kernel.current].call)];
      UsersStay(users, system, phases, SystemOf(kernel.Snap()), sendEvent, receiveEvent);
    }

    /**
      xTaskCheckForTimeOut, and prvIsQueueFull or prvIsQueueEmpty: the task blocks exactly if its time is not
      up and the queue is full, or empty, still; and then there is time left.
     */
    method CheckAgain(timeOut: TimeOut, ticksToWait: Tick, ghost entered: nat, sending: bool)
        returns (expired: bool, blocks: bool, left: Tick, renewed: TimeOut)
      requires Valid() && alone == Some(kernel.current) && PhaseNow().Locking? && sending == PhaseNow().call.Send?
      modifies this`phases
      ensures Valid() && View() == P.Next(old(View()), P.Check(kernel.current, expired))
      ensures var call := old(PhaseNow()).call;
        PhaseNow() == if expired then P.UnlockingTx(call, false, true) else if blocks then P.Confirmed(call) else P.UnlockingTx(call, false, false)
      ensures blocks <==> !expired && if sending then |storage.Contents()| == storage.length else storage.Contents() == []
      ensures blocks ==> left > 0
      ensures expired <==> CheckForTimeOut(kernel.overflows, kernel.tickCount, timeOut, ticksToWait).Expired?
      ensures timeOut == Stamp(entered) && entered <= kernel.now ==>
        Reports(entered, kernel.now, timeOut, ticksToWait, expired, left, renewed)
    {
      hide Kernel.Valid, QueueStorage.Queue.Valid, QueueStorage.Queue.Contents, P.Inv, Reports, P.NoNewUsers, UsersAccountedFor,
           KeepsUsers;
      ghost var users, system := phases, SystemOf(kernel.Snap());
      SameKeepsUsers(system, sendEvent, receiveEvent);
      expired, left, renewed := kernel.CheckTimeOut(timeOut, ticksToWait, entered);
      StepKeeps(P.Check(kernel.current, expired));
      blocks := !expired && if sending then storage.messagesWaiting == storage.length else storage.messagesWaiting == 0;
      var call := phases[kernel.current].call;
      phases := phases[kernel.current :=
        if expired then P.UnlockingTx(call, false, true) else if blocks then P.Confirmed(call) else P.UnlockingTx(call, false, false)];
      UsersStay(users, system, phases, SystemOf(kernel.Snap()), sendEvent, receiveEvent);
    }

    /** vTaskPlaceOnEventList: the task enters behind all of its priority or a higher one, and goes to sleep. */
    method PlaceOnEventList(sending: bool, ticksToWait: Tick) returns (ghost position: nat)
      requires Valid() && alone == Some(kernel.current) && PhaseNow().Confirmed? && sending == PhaseNow().call.Send?
      requires kernel.lists.home[kernel.current] < MAX_PRIORITIES && ticksToWait > 0
      modifies this`phases, kernel`lists, kernel`events, kernel`tcbs, kernel`due, kernel`nextUnblock
      ensures Valid() && View() == P.Next(old(View()), P.Place(kernel.current, position))
      ensures PhaseNow() == P.UnlockingTx(old(PhaseNow()).call, true, false)
      ensures Took(old(kernel.Snap()), BlockStep(kernel.current, EventOf(sending), ticksToWait, ticksToWait == MAX_DELAY),
                   kernel.Snap())
      ensures EntersInRank(old(kernel.events), kernel.events, EventOf(sending), kernel.current, old(kernel.tcbs))
      ensures SleepsFor(kernel.Tab(), EventOf(sending), ticksToWait, kernel.current)
      ensures P.Enabled(old(View()), P.Place(kernel.current, position))
    {
      hide Kernel.Valid, QueueStorage.Queue.Valid, QueueStorage.Queue.Contents, P.Inv, EntersInRank, P.Next, P.NoNewUsers,
           UsersAccountedFor, KeepsUsers, Took, SleepsFor;
      ghost var users, system := phases, SystemOf(kernel.Snap());
      ghost var before := kernel.Snap();
      position := kernel.RankOfCurrent(EventOf(sending));
      kernel.RankMeans(EventOf(sending));
      StepKeeps(P.Place(kernel.current, position));
      EnterList(sending, ticksToWait, position);
      TookKeepsUsers(before, BlockStep(kernel.current, EventOf(sending), ticksToWait, ticksToWait == MAX_DELAY), kernel.Snap(),
                     sendEvent, receiveEvent);
      UsersStay(users, system, phases, SystemOf(kernel.Snap()), sendEvent, receiveEvent);
    }

    method FallAsleep(e: nat, ticksToWait: Tick)
      requires kernel.Valid() && PENDING < e < |kernel.events.rings| && ticksToWait > 0
      requires kernel.lists.home[kernel.current] < MAX_PRIORITIES
      modifies kernel`lists, kernel`events, kernel`tcbs, kernel`due, kernel`nextUnblock
      ensures kernel.Valid() && EntersInRank(old(kernel.events), kernel.events, e, kernel.current, old(kernel.tcbs))
      ensures Took(old(kernel.Snap()), BlockStep(kernel.current, e, ticksToWait, ticksToWait == MAX_DELAY), kernel.Snap())
      ensures SleepsFor(kernel.Tab(), e, ticksToWait, kernel.current)
    {
      hide Kernel.Valid, EntersInRank, Shape, Perform, SystemOf, Wrap;
      kernel.SnapMeans();
      kernel.PlaceOnEventList(e, ticksToWait);
      kernel.SnapMeans();
    }

    method EnterList(sending: bool, ticksToWait: Tick, ghost position: nat)
      requires Sound() && alone == Some(kernel.current) && PhaseNow().Confirmed? && sending == PhaseNow().call.Send? && ticksToWait > 0
      requires kernel.lists.home[kernel.current] < MAX_PRIORITIES
      requires position == kernel.RankOfCurrent(EventOf(sending))
      requires RankInsert(kernel.WaitingFor(EventOf(sending)), kernel.tcbs, kernel.current)
        == SeqInsert(kernel.WaitingFor(EventOf(sending)), position, kernel.current)
      modifies this`phases, kernel`lists, kernel`events, kernel`tcbs, kernel`due, kernel`nextUnblock
      ensures Sound() && View() == P.Next(old(View()), P.Place(kernel.current, position))
      ensures PhaseNow() == P.UnlockingTx(old(PhaseNow()).call, true, false)
      ensures Took(old(kernel.Snap()), BlockStep(kernel.current, EventOf(sending), ticksToWait, ticksToWait == MAX_DELAY),
                   kernel.Snap())
      ensures EntersInRank(old(kernel.events), kernel.events, EventOf(sending), kernel.current, old(kernel.tcbs))
      ensures SleepsFor(kernel.Tab(), EventOf(sending), ticksToWait, kernel.current)
    {
      hide Kernel.Valid, Took, QueueStorage.Queue.Valid, QueueStorage.Queue.Contents, RankInsert, SeqInsert,
           Kernel.RankOfCurrent, P.TryStep, P.CheckStep, P.UnlockTxStep, P.UnlockRxStep, P.ResumeStep, P.AnnounceItem,
           P.AnnounceSpace, P.Locked, P.PutItem, P.TakeItem, SleepsFor;
      var call := phases[kernel.current].call;
      var e: nat := EventOf(sending);
      FallAsleep(e, ticksToWait);
      phases := phases[kernel.current := P.UnlockingTx(call, true, false)];
    }

    /** The first loop of prvUnlockQueue: a receiver for each item sent while the queue was locked, as far as receivers wait. */
    method UnlockAfterSends()
      requires Valid() && alone == Some(kernel.current) && PhaseNow().UnlockingTx?
      modifies this`phases, this`wokenReceivers, this`txLock, kernel`lists, kernel`events, kernel`topReady, kernel`missedYield
      ensures Valid() && View() == P.Next(old(View()), P.UnlockTx(kernel.current))
      ensures var was := old(PhaseNow()); PhaseNow() == P.UnlockingRx(was.call, was.placed, was.givingUp)
      ensures WokeUpTo(old(kernel.Snap()), old(kernel.WaitingFor(receiveEvent)), P.Max0(old(txLock)), kernel.Snap())
      ensures kernel.missedYield <==>
        old(kernel.missedYield) || SomeoneOutranks(UpTo(old(kernel.WaitingFor(receiveEvent)), P.Max0(old(txLock))), kernel.tcbs, kernel.current)
    {
      hide Kernel.Valid, QueueStorage.Queue.Valid, QueueStorage.Queue.Contents, P.AllAwake, Elements, P.Inv, WokeUpTo,
           P.NoNewUsers, UsersAccountedFor, KeepsUsers;
      ghost var users, system := phases, SystemOf(kernel.Snap());
      ghost var before, waiting, count := kernel.Snap(), kernel.WaitingFor(receiveEvent), P.Max0(txLock);
      StepKeeps(P.UnlockTx(kernel.current));
      var phase := phases[kernel.current];
      CountDownSends();
      phases := phases[kernel.current := P.UnlockingRx(phase.call, phase.placed, phase.givingUp)];
      WakingSeveralKeepsUsers(before, waiting, count, kernel.Snap(), sendEvent, receiveEvent);
      UsersStay(users, system, phases, SystemOf(kernel.Snap()), sendEvent, receiveEvent);
    }

    method CountDownSends()
      requires Sound()
      modifies this`phases, this`wokenReceivers, this`txLock, kernel`lists, kernel`events, kernel`topReady, kernel`missedYield
      ensures Sound() && View() == P.ServeReceivers(old(View()))
      ensures WokeUpTo(old(kernel.Snap()), old(kernel.WaitingFor(receiveEvent)), P.Max0(old(txLock)), kernel.Snap())
      ensures kernel.missedYield <==>
        old(kernel.missedYield) || SomeoneOutranks(UpTo(old(kernel.WaitingFor(receiveEvent)), P.Max0(old(txLock))), kernel.tcbs, kernel.current)
    {
      hide Sound, Woke, WokeUpTo, ServedReceivers, P.ServeReceivers, ServingReceivers, QueueStorage.Queue.Valid,
           QueueStorage.Queue.Contents;
      SoundMeans();
      ghost var before, system, missed, n: nat := View(), kernel.Snap(), kernel.missedYield, 0;
      StartServingReceivers();
      while txLock > P.LOCKED_UNMODIFIED && kernel.WaitingFor(receiveEvent) != []
        invariant ServingReceivers(before, system, missed, n) && txLock == before.receivers.lock - n
      {
        ServeOneReceiver(before, system, missed, n);
        n := n + 1;
      }
      StopServingReceivers(before, system, missed, n);
    }

    /** In the loop: n of those that waited have been woken, and that many fewer are to be. */
    ghost predicate ServingReceivers(before: P.State, system: Snapshot, missed: bool, n: nat)
      reads this, kernel, storage, storage.storage
    {
      && Sound() && n <= |before.receivers.waiting| && n <= P.Max0(before.receivers.lock) && txLock == before.receivers.lock - n
      && View() == ServedReceivers(before, n, txLock) && kernel.WaitingFor(receiveEvent) == before.receivers.waiting[n..]
      && WokeUpTo(system, before.receivers.waiting, n, kernel.Snap())
      && (kernel.missedYield <==> missed || SomeoneOutranks(before.receivers.waiting[..n], kernel.tcbs, kernel.current))
    }

    lemma StartServingReceivers()
      requires Sound()
      ensures storage.Valid() && ServingReceivers(View(), kernel.Snap(), kernel.missedYield, 0)
    {
      hide Kernel.Valid, QueueStorage.Queue.Valid, QueueStorage.Queue.Contents, WokeUpTo, ServedReceivers;
      ServingStartsReceivers(View());
      WokeNobody(kernel.Snap(), View().receivers.waiting);
    }

    method ServeOneReceiver(ghost before: P.State, ghost system: Snapshot, ghost missed: bool, ghost n: nat)
      requires ServingReceivers(before, system, missed, n) && txLock > P.LOCKED_UNMODIFIED && kernel.WaitingFor(receiveEvent) != []
      modifies this`phases, this`wokenReceivers, this`txLock, kernel`lists, kernel`events, kernel`topReady, kernel`missedYield
      ensures ServingReceivers(before, system, missed, n + 1) && txLock == old(txLock) - 1
    {
      hide Kernel.Valid, QueueStorage.Queue.Valid, QueueStorage.Queue.Contents, Woke, WokeUpTo, ServedReceivers, OneReceiverLess,
           SomeoneOutranks;
      SoundMeans();
      ghost var middle, served, lock := kernel.Snap(), View(), txLock;
      assert served == ServedReceivers(before, n, lock);
      var higher := CountDownOneReceiver();
      SoundMeans();
      WakingTheNextReceiver(before, n, lock, served, View());
      assert txLock == lock - 1 && View() == ServedReceivers(before, n + 1, txLock);
      assert kernel.WaitingFor(receiveEvent) == View().receivers.waiting == before.receivers.waiting[n + 1..];
      WokeOneMore(system, before.receivers.waiting, n, middle, higher, kernel.Snap());
      OutrankedOnceMore(before.receivers.waiting, n, middle, higher, kernel.Snap());
    }

    method StopServingReceivers(ghost before: P.State, ghost system: Snapshot, ghost missed: bool, ghost n: nat)
      requires ServingReceivers(before, system, missed, n) && (txLock <= P.LOCKED_UNMODIFIED || kernel.WaitingFor(receiveEvent) == [])
      modifies this`txLock
      ensures Sound() && View() == P.ServeReceivers(before)
      ensures WokeUpTo(system, before.receivers.waiting, P.Max0(before.receivers.lock), kernel.Snap())
      ensures kernel.missedYield <==>
        missed || SomeoneOutranks(UpTo(before.receivers.waiting, P.Max0(before.receivers.lock)), kernel.tcbs, kernel.current)
    {
      hide Kernel.Valid, QueueStorage.Queue.Valid, QueueStorage.Queue.Contents, WokeUpTo, ServedReceivers, P.ServeReceivers;
      assert n == P.Min(P.Max0(before.receivers.lock), |before.receivers.waiting|);
      if n == |before.receivers.waiting| {
        WokeAll(system, before.receivers.waiting, P.Max0(before.receivers.lock), kernel.Snap());
      }
      ServingEndsReceivers(before, n, txLock);
      txLock := P.UNLOCKED;
    }

    method CountDownOneReceiver() returns (higher: bool)
      requires Sound() && kernel.WaitingFor(receiveEvent) != []
      modifies this`phases, this`wokenReceivers, this`txLock, kernel`lists, kernel`events, kernel`topReady, kernel`missedYield
      ensures Sound() && txLock == old(txLock) - 1
      ensures kernel.missedYield <==> old(kernel.missedYield) || higher
      ensures View() == OneReceiverLess(old(View()), old(txLock) - 1)
      ensures Woke(old(kernel.Snap()), old(kernel.WaitingFor(receiveEvent)), higher, kernel.Snap())
    {
      hide Kernel.Valid, QueueStorage.Queue.Valid, QueueStorage.Queue.Contents, Woke, P.WakeReceivers;
      higher := WakeReceiver();
      if higher {
        NoteYield();
      }
      txLock := txLock - 1;
    }

    /** The second loop of prvUnlockQueue: a sender for each item taken meanwhile. */
    method UnlockAfterReceives()
      requires Valid() && alone == Some(kernel.current) && PhaseNow().UnlockingRx?
      modifies this`phases, this`wokenSenders, this`rxLock, kernel`lists, kernel`events, kernel`topReady, kernel`missedYield
      ensures Valid() && View() == P.Next(old(View()), P.UnlockRx(kernel.current))
      ensures var was := old(PhaseNow()); PhaseNow() == P.Resuming(was.call, was.placed, was.givingUp)
      ensures WokeUpTo(old(kernel.Snap()), old(kernel.WaitingFor(sendEvent)), P.Max0(old(rxLock)), kernel.Snap())
      ensures kernel.missedYield <==>
        old(kernel.missedYield) || SomeoneOutranks(UpTo(old(kernel.WaitingFor(sendEvent)), P.Max0(old(rxLock))), kernel.tcbs, kernel.current)
    {
      hide Kernel.Valid, QueueStorage.Queue.Valid, QueueStorage.Queue.Contents, P.AllAwake, Elements, P.Inv, WokeUpTo,
           P.NoNewUsers, UsersAccountedFor, KeepsUsers;
      ghost var users, system := phases, SystemOf(kernel.Snap());
      ghost var before, waiting, count := kernel.Snap(), kernel.WaitingFor(sendEvent), P.Max0(rxLock);
      StepKeeps(P.UnlockRx(kernel.current));
      var phase := phases[kernel.current];
      CountDownReceives();
      phases := phases[kernel.current := P.Resuming(phase.call, phase.placed, phase.givingUp)];
      WakingSeveralKeepsUsers(before, waiting, count, kernel.Snap(), sendEvent, receiveEvent);
      UsersStay(users, system, phases, SystemOf(kernel.Snap()), sendEvent, receiveEvent);
    }

    method CountDownReceives()
      requires Sound()
      modifies this`phases, this`wokenSenders, this`rxLock, kernel`lists, kernel`events, kernel`topReady, kernel`missedYield
      ensures Sound() && View() == P.ServeSenders(old(View()))
      ensures WokeUpTo(old(kernel.Snap()), old(kernel.WaitingFor(sendEvent)), P.Max0(old(rxLock)), kernel.Snap())
      ensures kernel.missedYield <==>
        old(kernel.missedYield) || SomeoneOutranks(UpTo(old(kernel.WaitingFor(sendEvent)), P.Max0(old(rxLock))), kernel.tcbs, kernel.current)
    {
      hide Sound, Woke, WokeUpTo, ServedSenders, P.ServeSenders, ServingSenders, QueueStorage.Queue.Valid, QueueStorage.Queue.Contents;
      SoundMeans();
      ghost var before, system, missed, n: nat := View(), kernel.Snap(), kernel.missedYield, 0;
      StartServingSenders();
      while rxLock > P.LOCKED_UNMODIFIED && kernel.WaitingFor(sendEvent) != []
        invariant ServingSenders(before, system, missed, n) && rxLock == before.senders.lock - n
      {
        ServeOneSender(before, system, missed, n);
        n := n + 1;
      }
      StopServingSenders(before, system, missed, n);
    }

    /** In the loop: n of those that waited have been woken, and that many fewer are to be. */
    ghost predicate ServingSenders(before: P.State, system: Snapshot, missed: bool, n: nat)
      reads this, kernel, storage, storage.storage
    {
      && Sound() && n <= |before.senders.waiting| && n <= P.Max0(before.senders.lock) && rxLock == before.senders.lock - n
      && View() == ServedSenders(before, n, rxLock) && kernel.WaitingFor(sendEvent) == before.senders.waiting[n..]
      && WokeUpTo(system, before.senders.waiting, n, kernel.Snap())
      && (kernel.missedYield <==> missed || SomeoneOutranks(before.senders.waiting[..n], kernel.tcbs, kernel.current))
    }

    lemma StartServingSenders()
      requires Sound()
      ensures storage.Valid() && ServingSenders(View(), kernel.Snap(), kernel.missedYield, 0)
    {
      hide Kernel.Valid, QueueStorage.Queue.Valid, QueueStorage.Queue.Contents, WokeUpTo, ServedSenders;
      ServingStartsSenders(View());
      WokeNobody(kernel.Snap(), View().senders.waiting);
    }

    method ServeOneSender(ghost before: P.State, ghost system: Snapshot, ghost missed: bool, ghost n: nat)
      requires ServingSenders(before, system, missed, n) && rxLock > P.LOCKED_UNMODIFIED && kernel.WaitingFor(sendEvent) != []
      modifies this`phases, this`wokenSenders, this`rxLock, kernel`lists, kernel`events, kernel`topReady, kernel`missedYield
      ensures ServingSenders(before, system, missed, n + 1) && rxLock == old(rxLock) - 1
    {
      hide Kernel.Valid, QueueStorage.Queue.Valid, QueueStorage.Queue.Contents, Woke, WokeUpTo, ServedSenders, OneSenderLess,
           SomeoneOutranks;
      SoundMeans();
      ghost var middle, served, lock := kernel.Snap(), View(), rxLock;
      assert served == ServedSenders(before, n, lock);
      var higher := CountDownOneSender();
      SoundMeans();
      WakingTheNextSender(before, n, lock, served, View());
      assert rxLock == lock - 1 && View() == ServedSenders(before, n + 1, rxLock);
      assert kernel.WaitingFor(sendEvent) == View().senders.waiting == before.senders.waiting[n + 1..];
      WokeOneMore(system, before.senders.waiting, n, middle, higher, kernel.Snap());
      OutrankedOnceMore(before.senders.waiting, n, middle, higher, kernel.Snap());
    }

    method StopServingSenders(ghost before: P.State, ghost system: Snapshot, ghost missed: bool, ghost n: nat)
      requires ServingSenders(before, system, missed, n) && (rxLock <= P.LOCKED_UNMODIFIED || kernel.WaitingFor(sendEvent) == [])
      modifies this`rxLock
      ensures Sound() && View() == P.ServeSenders(before)
      ensures WokeUpTo(system, before.senders.waiting, P.Max0(before.senders.lock), kernel.Snap())
      ensures kernel.missedYield <==>
        missed || SomeoneOutranks(UpTo(before.senders.waiting, P.Max0(before.senders.lock)), kernel.tcbs, kernel.current)
    {
      hide Kernel.Valid, QueueStorage.Queue.Valid, QueueStorage.Queue.Contents, WokeUpTo, ServedSenders, P.ServeSenders;
      assert n == P.Min(P.Max0(before.senders.lock), |before.senders.waiting|);
      if n == |before.senders.waiting| {
        WokeAll(system, before.senders.waiting, P.Max0(before.senders.lock), kernel.Snap());
      }
      ServingEndsSenders(before, n, rxLock);
      rxLock := P.UNLOCKED;
    }

    method CountDownOneSender() returns (higher: bool)
      requires Sound() && kernel.WaitingFor(sendEvent) != []
      modifies this`phases, this`wokenSenders, this`rxLock, kernel`lists, kernel`events, kernel`topReady, kernel`missedYield
      ensures Sound() && rxLock == old(rxLock) - 1
      ensures kernel.missedYield <==> old(kernel.missedYield) || higher
      ensures View() == OneSenderLess(old(View()), old(rxLock) - 1)
      ensures Woke(old(kernel.Snap()), old(kernel.WaitingFor(sendEvent)), higher, kernel.Snap())
    {
      hide Kernel.Valid, QueueStorage.Queue.Valid, QueueStorage.Queue.Contents, Woke, P.WakeSenders;
      higher := WakeSender();
      if higher {
        NoteYield();
      }
      rxLock := rxLock - 1;
    }

    // ----- time

    /** The tasks that have left the event lists meanwhile have timed out. */
    method TimeOutThose(ghost before: P.State, senders: seq<TaskId>, receivers: seq<TaskId>)
      requires Sound() && P.Inv(before) && before.alone.None? && alone.None?
      requires senders == kernel.WaitingFor(sendEvent) && receivers == kernel.WaitingFor(receiveEvent)
      requires LeavesOut(before.senders.waiting, senders) && LeavesOut(before.receivers.waiting, receivers)
      requires View() == before.(senders := before.senders.(waiting := senders), receivers := before.receivers.(waiting := receivers))
      modifies this`phases
      ensures Sound() && P.Inv(View()) && P.NoNewUsers(old(phases), phases)
      ensures phases == P.AfterTimeOuts(old(phases), senders, receivers)
      ensures View() == P.Run(before, P.TimeOuts(before, senders, receivers))
    {
      hide Kernel.Valid, QueueStorage.Queue.Valid, QueueStorage.Queue.Contents, P.Inv, P.Run, P.TimeOuts, P.NoNewUsers,
           P.AfterTimeOuts;
      P.TimingOut(before, senders, receivers);
      P.TimingOutEntersNobody(phases, senders, receivers);
      phases := P.AfterTimeOuts(phases, senders, receivers);
    }

    method Resume() returns (alreadyYielded: bool)
      requires kernel.Valid() && kernel.suspended > 0
      modifies kernel`suspended, kernel`missedYield, kernel`tickCount, kernel`now, kernel`overflows,
               kernel`delayed, kernel`overflow, kernel`nextUnblock, kernel`lists, kernel`events, kernel`topReady, kernel`missedTicks
      ensures kernel.Valid() && Thinned(old(kernel.events), kernel.events) && kernel.suspended == old(kernel.suspended) - 1
      ensures Took(old(kernel.Snap()), ResumeAllStep, kernel.Snap())
      ensures kernel.suspended == 0 ==> (alreadyYielded <==> YieldsNow(old(kernel.Snap()), old(kernel.missedYield)))
    {
      hide Kernel.Valid, Thinned, Shape, Perform, SystemOf, SomeoneOutranks;
      kernel.SnapMeans();
      alreadyYielded := kernel.ResumeAllTasks();
      kernel.SnapMeans();
    }

    /** xTaskResumeAll: the task is blocked from here on, unless it has been woken; and the ticks held back may time tasks out. */
    method ResumeAll() returns (alreadyYielded: bool)
      requires Valid() && alone == Some(kernel.current) && PhaseNow().Resuming?
      modifies this`phases, this`alone, kernel`suspended, kernel`missedYield, kernel`tickCount, kernel`now, kernel`overflows,
               kernel`delayed, kernel`overflow, kernel`nextUnblock, kernel`lists, kernel`events, kernel`topReady, kernel`missedTicks
      ensures Valid() && kernel.suspended == 0
      ensures Took(old(kernel.Snap()), ResumeAllStep, kernel.Snap())
      ensures P.PhaseOf(phases, kernel.current) ==
        var was := old(PhaseNow());
        if was.givingUp then P.Idle
        else if was.placed && kernel.current in kernel.WaitingFor(EventOf(was.call.Send?)) then P.Blocked(was.call)
        else P.Trying(was.call)
      ensures alreadyYielded <==> YieldsNow(old(kernel.Snap()), old(kernel.missedYield))
      ensures var resumed := P.Next(old(View()), P.ResumeAll(kernel.current));
        View() == P.Run(resumed, P.TimeOuts(resumed, kernel.WaitingFor(sendEvent), kernel.WaitingFor(receiveEvent)))
    {
      hide Kernel.Valid, Took, QueueStorage.Queue.Valid, QueueStorage.Queue.Contents, P.Inv, P.Run, P.TimeOuts, YieldsNow,
           P.NoNewUsers, UsersAccountedFor, KeepsUsers, P.AfterTimeOuts;
      ghost var users, system := phases, SystemOf(kernel.Snap());
      ghost var before := kernel.Snap();
      StepKeeps(P.ResumeAll(kernel.current));
      ghost var resumed := P.Next(View(), P.ResumeAll(kernel.current));
      var phase := phases[kernel.current];
      var waits := phase.placed && kernel.current in kernel.WaitingFor(EventOf(phase.call.Send?));
      phases := phases[kernel.current := if phase.givingUp then P.Idle else if waits then P.Blocked(phase.call) else P.Trying(phase.call)];
      ghost var listed, going := kernel.WaitingFor(EventOf(phase.call.Send?)), phases;
      alreadyYielded := Resume();
      alone := None;
      TimeOutThose(resumed, kernel.WaitingFor(sendEvent), kernel.WaitingFor(receiveEvent));
      P.PhaseAfterResuming(going, kernel.current, phase, listed, kernel.WaitingFor(sendEvent), kernel.WaitingFor(receiveEvent));
      TookKeepsUsers(before, ResumeAllStep, kernel.Snap(), sendEvent, receiveEvent);
      P.NoNewUsersFurther(users, resumed.phases, phases);
      UsersStay(users, system, phases, SystemOf(kernel.Snap()), sendEvent, receiveEvent);
    }

    /** The tick interrupt: it may time tasks out, but not while the scheduler is suspended. */
    method Tick()
      requires Valid()
      modifies this`phases, kernel`tickCount, kernel`now, kernel`overflows, kernel`delayed, kernel`overflow,
               kernel`nextUnblock, kernel`lists, kernel`events, kernel`topReady, kernel`missedTicks
      ensures Valid() && Took(old(kernel.Snap()), TickStep, kernel.Snap())
      ensures View() == if kernel.suspended > 0 then old(View())
        else P.Run(old(View()), P.TimeOuts(old(View()), kernel.WaitingFor(sendEvent), kernel.WaitingFor(receiveEvent)))
    {
      hide Kernel.Valid, Shape, Perform, SystemOf, QueueStorage.Queue.Valid, QueueStorage.Queue.Contents, P.Inv, P.Run,
           P.TimeOuts, P.NoNewUsers, UsersAccountedFor, KeepsUsers;
      ghost var users, system := phases, SystemOf(kernel.Snap());
      ghost var earlier := kernel.Snap();
      P.NobodyEnters(phases);
      ghost var before := View();
      kernel.SnapMeans();
      TickTakes(SystemOf(kernel.Snap()));
      kernel.Tick();
      kernel.SnapMeans();
      if kernel.suspended == 0 {
        TimeOutThose(before, kernel.WaitingFor(sendEvent), kernel.WaitingFor(receiveEvent));
      }
      TookKeepsUsers(earlier, TickStep, kernel.Snap(), sendEvent, receiveEvent);
      UsersStay(users, system, phases, SystemOf(kernel.Snap()), sendEvent, receiveEvent);
    }

    /** vTaskSwitchContext: whoever runs next, the queue does not notice. */
    method Switch()
      requires Valid()
      requires kernel.suspended == 0 ==> exists t :: t in kernel.lists.home && 0 <= kernel.lists.home[t] < MAX_PRIORITIES
      modifies kernel`topReady, kernel`lists, kernel`current, kernel`missedYield
      ensures Valid() && View() == old(View())
      ensures Switches(old(kernel.Snap()), kernel.Snap()) && SystemOf(kernel.Snap()) == SystemOf(old(kernel.Snap()))
      ensures kernel.suspended > 0 ==> kernel.missedYield
    {
      hide Kernel.Valid, QueueStorage.Queue.Valid, QueueStorage.Queue.Contents, P.Inv, SystemOf, RunsInTurn, Shape, P.NoNewUsers,
           UsersAccountedFor, KeepsUsers;
      ghost var users, system := phases, SystemOf(kernel.Snap());
      P.NobodyEnters(phases);
      SameKeepsUsers(system, sendEvent, receiveEvent);
      kernel.SnapMeans();
      kernel.SwitchContext();
      kernel.SnapMeans();
      UsersStay(users, system, phases, SystemOf(kernel.Snap()), sendEvent, receiveEvent);
    }

    // ----- what holds at all times

    /**
      No lost wake-ups, on the lists of the scheduler and the bytes of the storage: while receivers wait,
      the items are covered by receivers on their way and by the lock count; while senders wait, the
      free slots are. And at all times what was sent is what was received and what is in the storage.
     */
    lemma NobodyIsForgotten()
      requires Valid()
      ensures kernel.WaitingFor(receiveEvent) != [] ==> |storage.Contents()| <= |wokenReceivers| + P.Max0(txLock)
      ensures kernel.WaitingFor(sendEvent) != [] ==> storage.length - |storage.Contents()| <= |wokenSenders| + P.Max0(rxLock)
      ensures multiset(sent) == multiset(received) + multiset(storage.Contents())
    {
      hide Kernel.Valid, P.Matches;
    }

    /**
      Every user in the middle of a call is in the ready list of its priority, or pending, or on an event list of
      the queue; and one that has been woken is on none of these two any more.
     */
    lemma EverybodyIsAccountedFor(t: TaskId)
      requires Valid() && t in phases && !phases[t].Idle?
      ensures t in kernel.tcbs
      ensures || IsIn(kernel.lists, kernel.tcbs[t].priority, t) || IsIn(kernel.events, PENDING, t)
              || t in kernel.WaitingFor(sendEvent) || t in kernel.WaitingFor(receiveEvent)
      ensures phases[t].Trying? || t in wokenSenders || t in wokenReceivers ==>
        t !in kernel.WaitingFor(sendEvent) && t !in kernel.WaitingFor(receiveEvent)
    {
      hide Kernel.Valid, QueueStorage.Queue.Valid, QueueStorage.Queue.Contents, P.Inv, Known, Shape, SystemOf, IsAccountedFor;
      kernel.SnapMeans();
      AccountedInLists(kernel.Snap(), t, sendEvent, receiveEvent);
      if phases[t].Trying? || t in wokenSenders || t in wokenReceivers {
        P.WokenAreNotListed(View(), t);
      }
    }

    // ----- one round on the way to sleep

    /** What a call does after the first critical section has failed, up to prvUnlockQueue. */
    ghost function WayIn(t: TaskId, expired: bool, blocks: bool, position: nat): seq<P.Action> {
      if blocks then [P.SuspendAll(t), P.Lock(t), P.Check(t, expired), P.Place(t, position)]
      else [P.SuspendAll(t), P.Lock(t), P.Check(t, expired)]
    }

    /** And from there to xTaskResumeAll. */
    ghost function WayOut(t: TaskId): seq<P.Action> {
      [P.UnlockTx(t), P.UnlockRx(t), P.ResumeAll(t)]
    }

    /** The first half, without an interrupt in between: each step finds what it requires. */
    method GoIn(sending: bool, timeOut: TimeOut, ticksToWait: Tick, ghost entered: nat)
        returns (expired: bool, blocks: bool, left: Tick, renewed: TimeOut, ghost position: nat)
      requires Valid() && alone.None? && kernel.suspended == 0 && PhaseNow().Failed? && sending == PhaseNow().call.Send?
      requires kernel.lists.home[kernel.current] < MAX_PRIORITIES
      modifies this`phases, this`alone, this`rxLock, this`txLock,
               kernel`suspended, kernel`lists, kernel`events, kernel`tcbs, kernel`due, kernel`nextUnblock
      ensures Valid() && View() == P.Run(old(View()), WayIn(kernel.current, expired, blocks, position))
      ensures alone == Some(kernel.current) && PhaseNow() == P.UnlockingTx(old(PhaseNow()).call, blocks, expired) && (blocks ==> left > 0)
      ensures blocks <==> !expired && if sending then |storage.Contents()| == storage.length else storage.Contents() == []
      ensures timeOut == Stamp(entered) && entered <= kernel.now ==>
        Reports(entered, kernel.now, timeOut, ticksToWait, expired, left, renewed)
      ensures var suspended := Perform(SystemOf(old(kernel.Snap())), SuspendAllStep);
        SystemOf(kernel.Snap()) ==
          if blocks then Perform(suspended, BlockStep(kernel.current, EventOf(sending), left, left == MAX_DELAY)) else suspended
      ensures blocks ==> SleepsFor(kernel.Tab(), EventOf(sending), left, kernel.current)
    {
      hide Kernel.Valid, QueueStorage.Queue.Valid, QueueStorage.Queue.Contents, P.Inv, P.Run, P.Next, Perform, SystemOf,
           EntersInRank, Reports, SleepsFor;
      ghost var start, t := View(), kernel.current;
      SuspendAll();
      LockQueue();
      expired, blocks, left, renewed := CheckAgain(timeOut, ticksToWait, entered, sending);
      position := 0;
      P.RunThree(start, P.SuspendAll(t), P.Lock(t), P.Check(t, expired));
      if blocks {
        position := PlaceOnEventList(sending, left);
        P.RunFour(start, P.SuspendAll(t), P.Lock(t), P.Check(t, expired), P.Place(t, position));
      }
    }

    /** Those whom prvUnlockQueue wakes. */
    ghost function ToBeWoken(): seq<TaskId>
      reads this`rxLock, this`txLock, kernel`events
    {
      UpTo(kernel.WaitingFor(receiveEvent), P.Max0(txLock)) + UpTo(kernel.WaitingFor(sendEvent), P.Max0(rxLock))
    }

    /** prvUnlockQueue: the tasks become pending, and a yield is noted if one of them has at least the running priority. */
    method UnlockQueue()
      requires Valid() && alone == Some(kernel.current) && PhaseNow().UnlockingTx?
      modifies this`phases, this`wokenReceivers, this`wokenSenders, this`txLock, this`rxLock,
               kernel`lists, kernel`events, kernel`topReady, kernel`missedYield
      ensures Valid() && View() == P.Run(old(View()), [P.UnlockTx(kernel.current), P.UnlockRx(kernel.current)])
      ensures var was := old(PhaseNow()); PhaseNow() == P.Resuming(was.call, was.placed, was.givingUp)
      ensures SystemOf(kernel.Snap()) == Run(SystemOf(old(kernel.Snap())), Notifications(old(ToBeWoken())))
      ensures kernel.missedYield <==> old(kernel.missedYield) || SomeoneOutranks(old(ToBeWoken()), kernel.tcbs, kernel.current)
    {
      hide Kernel.Valid, QueueStorage.Queue.Valid, QueueStorage.Queue.Contents, P.Inv, P.Run, SomeoneOutranks, Run,
           Notifications, SystemOf, P.ServeReceivers, P.ServeSenders;
      ghost var start, system := View(), SystemOf(kernel.Snap());
      ghost var a, b := UpTo(kernel.WaitingFor(receiveEvent), P.Max0(txLock)), UpTo(kernel.WaitingFor(sendEvent), P.Max0(rxLock));
      P.RunTwo(start, P.UnlockTx(kernel.current), P.UnlockRx(kernel.current));
      OtherSideStays(start, kernel.current);
      OutrankedByEither(a, b, kernel.tcbs, kernel.current);
      NotifiedInTwoParts(system, a, b);
      UnlockAfterSends();
      UnlockAfterReceives();
    }

    /** Whether xTaskResumeAll will yield: as before, or for one of the tasks woken. */
    method UnlockForYield()
      requires Valid() && alone == Some(kernel.current) && PhaseNow().UnlockingTx?
      modifies this`phases, this`wokenReceivers, this`wokenSenders, this`txLock, this`rxLock,
               kernel`lists, kernel`events, kernel`topReady, kernel`missedYield
      ensures Valid() && View() == P.Run(old(View()), [P.UnlockTx(kernel.current), P.UnlockRx(kernel.current)])
      ensures var was := old(PhaseNow()); PhaseNow() == P.Resuming(was.call, was.placed, was.givingUp)
      ensures SystemOf(kernel.Snap()) == Run(SystemOf(old(kernel.Snap())), Notifications(old(ToBeWoken())))
      ensures YieldsNow(kernel.Snap(), kernel.missedYield) <==>
        YieldsNow(old(kernel.Snap()), old(kernel.missedYield)) || SomeoneOutranks(old(ToBeWoken()), kernel.tcbs, kernel.current)
    {
      hide Kernel.Valid, QueueStorage.Queue.Valid, QueueStorage.Queue.Contents, P.Inv, P.Run, SomeoneOutranks, Run,
           Notifications, SystemOf, YieldsNow, Shape;
      ghost var before, missed, woken := kernel.Snap(), kernel.missedYield, ToBeWoken();
      kernel.SnapMeans();
      UnlockQueue();
      kernel.SnapMeans();
      YieldsAfterwards(before, missed, woken, kernel.Snap(), kernel.missedYield);
    }

    /** The second half: prvUnlockQueue and xTaskResumeAll. */
    method GoOut() returns (alreadyYielded: bool)
      requires Valid() && alone == Some(kernel.current) && PhaseNow().UnlockingTx?
      modifies this, kernel
      ensures Valid() && kernel.suspended == 0 && kernel.current == old(kernel.current)
      ensures var resumed := P.Run(old(View()), WayOut(old(kernel.current)));
        View() == P.Run(resumed, P.TimeOuts(resumed, kernel.WaitingFor(sendEvent), kernel.WaitingFor(receiveEvent)))
      ensures P.PhaseOf(phases, old(kernel.current)) ==
        var was := old(PhaseNow());
        if was.givingUp then P.Idle
        else if was.placed && old(kernel.current) in kernel.WaitingFor(EventOf(was.call.Send?)) then P.Blocked(was.call)
        else P.Trying(was.call)
      ensures SystemOf(kernel.Snap()) == Perform(Run(SystemOf(old(kernel.Snap())), Notifications(old(ToBeWoken()))), ResumeAllStep)
      ensures alreadyYielded <==>
        YieldsNow(old(kernel.Snap()), old(kernel.missedYield)) || SomeoneOutranks(old(ToBeWoken()), old(kernel.tcbs), old(kernel.current))
    {
      hide Kernel.Valid, QueueStorage.Queue.Valid, QueueStorage.Queue.Contents, P.Inv, P.Run, P.Next, P.TimeOuts,
           SomeoneOutranks, Run, Perform, Notifications, SystemOf, YieldsNow;
      P.RunThree(View(), P.UnlockTx(kernel.current), P.UnlockRx(kernel.current), P.ResumeAll(kernel.current));
      P.RunTwo(View(), P.UnlockTx(kernel.current), P.UnlockRx(kernel.current));
      UnlockForYield();
      alreadyYielded := ResumeAll();
    }

    /**
      A whole round. A call whose time is up ends, and says so with errQUEUE_FULL or errQUEUE_EMPTY; one that finds room, or
      an item, tries again; and otherwise the task is blocked, unless it has been woken, or has timed out, on the way.
     */
    method GoRound(sending: bool, timeOut: TimeOut, ticksToWait: Tick, ghost entered: nat)
        returns (expired: bool, left: Tick, renewed: TimeOut, alreadyYielded: bool)
      requires Valid() && alone.None? && kernel.suspended == 0 && PhaseNow().Failed? && sending == PhaseNow().call.Send?
      requires kernel.lists.home[kernel.current] < MAX_PRIORITIES
      modifies this, kernel
      ensures Valid() && kernel.suspended == 0 && kernel.current == old(kernel.current)
      ensures timeOut == Stamp(entered) && entered <= old(kernel.now) ==>
        Reports(entered, old(kernel.now), timeOut, ticksToWait, expired, left, renewed)
      ensures P.PhaseOf(phases, kernel.current) ==
        var call, waits := old(PhaseNow()).call, if sending then |old(storage.Contents())| == storage.length else old(storage.Contents()) == [];
        if expired then P.Idle
        else if waits && kernel.current in kernel.WaitingFor(EventOf(sending)) then P.Blocked(call)
        else P.Trying(call)
    {
      hide Kernel.Valid, QueueStorage.Queue.Valid, QueueStorage.Queue.Contents, P.Inv, P.Run, P.Next, Perform, SystemOf, Reports,
           P.TimeOuts, YieldsNow, SomeoneOutranks, UsersAccountedFor;
      var blocks;
      ghost var position;
      expired, blocks, left, renewed, position := GoIn(sending, timeOut, ticksToWait, entered);
      alreadyYielded := GoOut();
    }

    // ----- whole runs

    ghost function Now(): Moment
      requires storage.Valid()
      reads this, kernel, storage, storage.storage
    {
      Moment(View(), kernel.Snap())
    }

    ghost function Frame(): Layout {
      Layout(sendEvent, receiveEvent, storage.itemSize)
    }

    /** The phase of the running task tells who has the scheduler suspended. */
    lemma AloneMeans()
      requires Valid()
      ensures alone == if P.RunsAlone(PhaseNow()) then Some(kernel.current) else None
    {
      hide Kernel.Valid, QueueStorage.Queue.Valid, QueueStorage.Queue.Contents, P.SideMatches, P.NobodyForgotten,
           P.ConfirmedStill, P.ItemsConserved;
    }

    /** The first critical section, for any call. */
    method Try(mayBlock: bool)
      requires Valid() && alone.None? && PhaseNow().Trying? && Fits(PhaseNow().call, storage.itemSize)
      modifies this, storage, storage.storage, kernel`lists, kernel`events, kernel`topReady
      ensures Valid() && View() == P.Next(old(View()), P.Try(kernel.current, mayBlock))
      ensures WokeFirst(old(kernel.Snap()), Audience(old(View()), old(PhaseNow()).call), kernel.Snap())
    {
      hide Kernel.Valid, QueueStorage.Queue.Valid, QueueStorage.Queue.Contents, P.Inv, P.Next, WokeFirst, SomeoneOutranks,
           SystemOf, UsersAccountedFor, IsUp;
      match PhaseNow().call {
        case Send(item, toFront) => var done, higher := TrySend(item, toFront, mayBlock);
        case Receive => var item, higher := TryReceive(false, mayBlock);
        case Peek => var item, higher := TryReceive(true, mayBlock);
      }
    }

    /** vTaskPlaceOnEventList, by a task that is ready and has time left. */
    method PlaceItself(sending: bool, ticksToWait: Tick)
      requires Valid() && alone == Some(kernel.current) && PhaseNow().Confirmed? && sending == PhaseNow().call.Send?
      modifies this`phases, kernel`lists, kernel`events, kernel`tcbs, kernel`due, kernel`nextUnblock
      ensures Valid()
      ensures if IsFiledBelow(old(kernel.Tab()), kernel.current, MAX_PRIORITIES) && ticksToWait > 0
              then FellAsleep(old(Now()), EventOf(sending), ticksToWait, Now()) else Now() == old(Now())
    {
      hide Kernel.Valid, QueueStorage.Queue.Valid, QueueStorage.Queue.Contents, P.Inv, P.Next, Took, EntersInRank, Shape, SleepsFor;
      kernel.SnapMeans();
      CurrentIsFiled(kernel.Snap());
      if kernel.lists.home[kernel.current] < MAX_PRIORITIES && ticksToWait > 0 {
        ghost var position := PlaceOnEventList(sending, ticksToWait);
      }
    }

    /** The running task makes its next step, if it can. */
    method GoOn(call: P.Call, mayBlock: bool, timeOut: TimeOut, ticksToWait: Tick)
      requires Valid()
      modifies this, storage, storage.storage, kernel
      ensures Valid() && Acted(old(Now()), GoOnAct(call, mayBlock, timeOut, ticksToWait), Now(), Frame())
    {
      hide Kernel.Valid, QueueStorage.Queue.Valid, QueueStorage.Queue.Contents, P.Inv, P.Next, WentOn, SystemOf, UsersAccountedFor;
      if P.RunsAlone(PhaseNow()) {
        GoOnAlone(timeOut, ticksToWait, GoOnAct(call, mayBlock, timeOut, ticksToWait));
      } else {
        GoOnAmongOthers(call, mayBlock, GoOnAct(call, mayBlock, timeOut, ticksToWait));
      }
    }

    /** A task that is ready enters a call. */
    method EnterCall(call: P.Call)
      requires Valid() && alone.None? && PhaseNow().Idle?
      modifies this`phases
      ensures Valid()
      ensures View() == if Fits(call, storage.itemSize) && IsFiledBelow(kernel.Tab(), kernel.current, MAX_PRIORITIES)
                        then P.Next(old(View()), P.Begin(kernel.current, call)) else old(View())
    {
      hide Kernel.Valid, QueueStorage.Queue.Valid, QueueStorage.Queue.Contents, P.Inv, P.Next, UsersAccountedFor, SystemOf, Shape;
      kernel.SnapMeans();
      CurrentIsFiled(kernel.Snap());
      if Fits(call, storage.itemSize) && kernel.lists.home[kernel.current] < MAX_PRIORITIES {
        Begin(call);
      }
    }

    method GoOnAmongOthers(call: P.Call, mayBlock: bool, ghost act: Act)
      requires Valid() && !P.RunsAlone(PhaseNow()) && act.GoOnAct? && act.call == call && act.mayBlock == mayBlock
      modifies this, storage, storage.storage, kernel`suspended, kernel`lists, kernel`events, kernel`topReady
      ensures Valid() && WentOn(old(Now()), act, Now(), Frame())
    {
      hide Kernel.Valid, QueueStorage.Queue.Valid, QueueStorage.Queue.Contents, P.Inv, P.Next, WokeFirst, WokeUpTo, Took,
           EntersInRank, CheckForTimeOut, P.Run, P.TimeOuts, YieldsNow, SomeoneOutranks, Reports, IsFiledBelow, FellAsleep;
      AloneMeans();
      match PhaseNow() {
        case Idle =>
          EnterCall(call);
        case Trying(c) =>
          if Fits(c, storage.itemSize) {
            Try(mayBlock);
          }
        case Failed(_) =>
          if kernel.suspended == 0 {
            SuspendAll();
          }
        case Blocked(_) =>
      }
    }

    method GoOnAlone(timeOut: TimeOut, ticksToWait: Tick, ghost act: Act)
      requires Valid() && P.RunsAlone(PhaseNow()) && act.GoOnAct? && act.timeOut == timeOut && act.ticksToWait == ticksToWait
      modifies this, kernel
      ensures Valid() && WentOn(old(Now()), act, Now(), Frame()) && kernel.current == old(kernel.current)
    {
      hide Kernel.Valid, QueueStorage.Queue.Valid, QueueStorage.Queue.Contents, P.Inv, P.Next, WokeFirst, WokeUpTo, Took,
           EntersInRank, CheckForTimeOut, P.Run, P.TimeOuts, YieldsNow, SomeoneOutranks, Reports, IsFiledBelow, FellAsleep,
           SystemOf, UsersAccountedFor, UpTo, Fits, Audience, TimedOut;
      AloneMeans();
      match PhaseNow() {
        case Alone(_) => LockQueue();
        case Locking(c) => var expired, blocks, left, renewed := CheckAgain(timeOut, ticksToWait, 0, c.Send?);
        case Confirmed(c) => PlaceItself(c.Send?, ticksToWait);
        case _ => GoOnUnlocking(act);
      }
    }

    method GoOnUnlocking(ghost act: Act)
      requires Valid() && alone == Some(kernel.current) && P.IsWithdrawing(PhaseNow()) && act.GoOnAct?
      modifies this, kernel
      ensures Valid() && WentOn(old(Now()), act, Now(), Frame()) && kernel.current == old(kernel.current)
    {
      hide Kernel.Valid, QueueStorage.Queue.Valid, QueueStorage.Queue.Contents, P.Inv, P.Next, WokeUpTo, TimedOut,
           SomeoneOutranks, SystemOf, UpTo, Fits, FellAsleep, Audience, CheckForTimeOut, IsFiledBelow, WokeFirst, Took;
      match PhaseNow() {
        case UnlockingTx(_, _, _) => UnlockAfterSends();
        case UnlockingRx(_, _, _) => UnlockAfterReceives();
        case Resuming(_, _, _) => ResumeInTime();
      }
    }

    method ResumeInTime()
      requires Valid() && alone == Some(kernel.current) && PhaseNow().Resuming?
      modifies this`phases, this`alone, kernel
      ensures Valid() && kernel.current == old(kernel.current)
      ensures TimedOut(P.Next(old(View()), P.ResumeAll(kernel.current)), View()) && Took(old(kernel.Snap()), ResumeAllStep, kernel.Snap())
    {
      hide Kernel.Valid, QueueStorage.Queue.Valid, QueueStorage.Queue.Contents, P.Inv, P.Next, Took, P.Run, P.TimeOuts, YieldsNow;
      var yielded := ResumeAll();
    }

    method RunOne(act: Act)
      requires Valid()
      modifies this, storage, storage.storage, kernel
      ensures Valid() && Acted(old(Now()), act, Now(), Frame())
    {
      hide Kernel.Valid, QueueStorage.Queue.Valid, QueueStorage.Queue.Contents, P.Inv, P.Next, WokeFirst, Took, WentOn, P.Run,
           P.TimeOuts, SomeoneOutranks, RunsInTurn, SystemOf;
      match act {
        case TickAct => Tick();
        case SwitchAct =>
          if kernel.suspended > 0 || exists t :: t in kernel.lists.home && 0 <= kernel.lists.home[t] < MAX_PRIORITIES {
            Switch();
          }
        case SendFromISRAct(item, toFront) =>
          if |item| == storage.itemSize {
            var ok, higher := SendFromISR(item, toFront);
          }
        case ReceiveFromISRAct => var item, higher := ReceiveFromISR();
        case GoOnAct(call, mayBlock, timeOut, ticksToWait) => GoOn(call, mayBlock, timeOut, ticksToWait);
      }
    }

    /**
      Any sequence of interrupts, ticks, switches and steps of whichever task runs: the queue and the scheduler
      do at each act what it says, no wake-up is lost at any moment, and without sends to the front
      items come out in the order in which they went in.
     */
    method RunAll(acts: seq<Act>) returns (ghost trace: seq<Moment>)
      requires Valid()
      modifies this, storage, storage.storage, kernel
      ensures Valid() && QueueRuns.Ran(trace, acts, Frame()) && trace[0] == old(Now()) && trace[|acts|] == Now()
      ensures forall i :: 0 <= i <= |acts| ==> P.NobodyForgotten(trace[i].queue) && P.ItemsConserved(trace[i].queue)
      ensures forall i :: 0 <= i <= |acts| ==> UsersAccountedFor(trace[i].queue.phases, SystemOf(trace[i].kernel), sendEvent, receiveEvent)
      ensures old(P.InOrder(View())) && (forall i :: 0 <= i < |acts| ==> ToBack(acts[i])) ==> sent == received + storage.Contents()
    {
      hide Kernel.Valid, QueueStorage.Queue.Valid, QueueStorage.Queue.Contents, P.Inv, Acted, P.InOrder, ToBack,
           UsersAccountedFor, SystemOf;
      trace := [Now()];
      RanNothing(Now(), Frame());
      for i := 0 to |acts|
        invariant Valid() && QueueRuns.Ran(trace, acts[..i], Frame()) && trace[0] == old(Now()) && trace[i] == Now()
      {
        RunOne(acts[i]);
        RanOneMore(trace, acts[..i], acts[i], Now(), Frame());
        assert acts[..i + 1] == acts[..i] + [acts[i]];
        trace := trace + [Now()];
      }
      assert acts[..|acts|] == acts;
      NobodyIsForgottenEver(trace, acts, Frame());
      if P.InOrder(trace[0].queue) && forall i :: 0 <= i < |acts| ==> ToBack(acts[i]) {
        RunKeepsOrder(trace, acts, Frame());
        InOrderMeans(View());
      }
    }
  }
}
