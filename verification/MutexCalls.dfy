/**
  A mutex as TCPv3/FreeRTOS/queue.c keeps it, with the calls it makes on the scheduler of
  TCPv3/FreeRTOS/tasks.c. Each method does what the act of module Mutexes says.
 */
module MutexCalls {
  import opened Wrappers
  import opened Ticks
  import opened Filing
  import opened TaskStates
  import opened TaskTables
  import opened EventLists
  import opened ReadyLists
  import opened Scheduler
  import opened Mutexes

  lemma InheritingStaysReady(s: System, h: TaskId, t: TaskId)
    requires t in s.tasks && s.tasks[t].place == Ready
    ensures t in Perform(s, InheritStep(h, t)).tasks && Perform(s, InheritStep(h, t)).tasks[t].place == Ready
  {
  }

  lemma ReadyInView(kernel: Kernel)
    requires kernel.Valid() && kernel.lists.home[kernel.current] < MAX_PRIORITIES
    ensures kernel.current in kernel.View().tasks && kernel.View().tasks[kernel.current].place == Ready
  {
    hide Sound, Consistent;
    StatesAt(kernel.Tab(), kernel.current);
    ReadyMeans(kernel.Tab(), kernel.Earliest(), kernel.current);
    TaskFacts(kernel.Tab(), {}, kernel.Earliest(), kernel.current);
  }

  lemma HomeIsAList(k: Table, t: TaskId)
    requires Shape(k) && t in k.tcbs
    ensures t in k.lists.home && k.lists.home[t] < LISTS && |k.lists.rings| == LISTS
  {
  }

  lemma HomeFromView(kernel: Kernel)
    requires kernel.Valid() && kernel.current in kernel.View().tasks && kernel.View().tasks[kernel.current].place == Ready
    ensures kernel.current in kernel.lists.home && kernel.lists.home[kernel.current] < MAX_PRIORITIES
    ensures |kernel.lists.rings| == LISTS
  {
    hide Sound, Consistent;
    HomeIsAList(kernel.Tab(), kernel.current);
    StatesAt(kernel.Tab(), kernel.current);
    TaskFacts(kernel.Tab(), {}, kernel.Earliest(), kernel.current);
  }

  /** The event list says who waits. */
  lemma ListSaysWhoWaits(kernel: Kernel, m: MutexId)
    requires kernel.Valid() && EventOf(m) < |kernel.events.rings|
    ensures forall t :: Waits(kernel.View(), t, m) <==> t in kernel.WaitingFor(EventOf(m))
  {
    hide Sound;
    WaitersAreListed(kernel.Tab(), EventOf(m));
  }

  lemma WaitersAreListed(k: Table, e: nat)
    requires Shape(k) && e < |k.events.rings|
    ensures forall t :: t in States(k) && States(k)[t].event == e <==> t in InList(k.events, e)
  {
    RingInHome(k.events, e);
  }

  /** The holder has inherited, and then the task has entered the event list by its event value. */
  ghost predicate EntersInheriting(k: Table, k': Table, e: int, holder: Option<TaskId>, t: TaskId) {
    && holder.Some? && holder.value in k.tcbs && t in k.tcbs
    && EntersInRank(k.events, k'.events, e, t, AfterInherit(k.tcbs, holder.value, t))
  }

  class MutexQueue {
    const id: MutexId
    var messagesWaiting: nat
    var holder: Option<TaskId>

    ghost function Token(): Mutex
      reads this
    {
      Mutex(messagesWaiting, holder)
    }

    /** xQueueCreateMutex: empty and held by nobody, and then sent to. */
    constructor (id: MutexId)
      ensures this.id == id && Token() == Given(Mutex(0, None))
    {
      this.id := id;
      messagesWaiting, holder := 1, None;
    }

    /** The first critical section of xQueueGenericReceive. */
    method TryTake(kernel: Kernel) returns (ok: bool)
      modifies this
      ensures ok == (old(messagesWaiting) > 0)
      ensures Token() == if ok then Taken(old(Token()), kernel.current) else old(Token())
    {
      ok := messagesWaiting > 0;
      if ok {
        messagesWaiting := messagesWaiting - 1;
        holder := Some(kernel.current);
      }
    }

    /** The current task found the mutex empty: its holder inherits, and the task goes to sleep. */
    method Block(kernel: Kernel, ticksToWait: Tick)
      requires messagesWaiting == 0 && holder.Some? && holder.value in kernel.tcbs
      requires kernel.Valid() && kernel.lists.home[kernel.current] < MAX_PRIORITIES && EventOf(id) < |kernel.events.rings|
      requires ticksToWait > 0 || kernel.tickCount != MAX_DELAY
      modifies kernel`tcbs, kernel`lists, kernel`topReady, kernel`events, kernel`due, kernel`nextUnblock
      ensures EntersInheriting(old(kernel.Tab()), kernel.Tab(), EventOf(id), holder, kernel.current)
      ensures SleepsFor(kernel.Tab(), EventOf(id), ticksToWait, kernel.current)
      ensures kernel.Valid()
      ensures kernel.View() == BlockOn(old(kernel.View()), Token(), kernel.current, EventOf(id), ticksToWait)
    {
      hide Perform, Kernel.Tables, Shape, Sound, States, EntersInRank, Wrap;
      ReadyInView(kernel);
      kernel.TablesMean({}, kernel.Earliest());
      ghost var before := kernel.View();
      kernel.PriorityInherit(holder.value);
      InheritingStaysReady(before, holder.value, kernel.current);
      HomeFromView(kernel);
      kernel.PlaceOnEventList(EventOf(id), ticksToWait);
    }

    /**
      xTaskCheckForTimeOut, and then another look at the mutex: the task blocks exactly if the wait is not over and
      the mutex is still held, for what is left of the wait, which is never zero ticks then.
     */
    method WaitAgain(kernel: Kernel, timeOut: TimeOut, ticksToWait: Tick, ghost entered: nat)
        returns (expired: bool, blocks: bool, left: Tick, renewed: TimeOut)
      requires messagesWaiting == 0 ==> holder.Some? && holder.value in kernel.tcbs
      requires kernel.Valid() && kernel.lists.home[kernel.current] < MAX_PRIORITIES && EventOf(id) < |kernel.events.rings|
      requires timeOut == Stamp(entered) && entered <= kernel.now
      modifies kernel`tcbs, kernel`lists, kernel`topReady, kernel`events, kernel`due, kernel`nextUnblock
      ensures kernel.Valid() && (blocks <==> !expired && messagesWaiting == 0) && (blocks ==> left > 0)
      ensures Reports(entered, kernel.now, timeOut, ticksToWait, expired, left, renewed)
      ensures blocks ==> SleepsFor(kernel.Tab(), EventOf(id), left, kernel.current)
      ensures kernel.View() == if blocks then BlockOn(old(kernel.View()), Token(), kernel.current, EventOf(id), left)
                               else old(kernel.View())
    {
      hide Perform, Kernel.Tables, Shape, Sound, States, Reports;
      kernel.TablesMean({}, kernel.Earliest());
      expired, left, renewed := kernel.CheckTimeOut(timeOut, ticksToWait, entered);
      blocks := !expired && messagesWaiting == 0;
      if blocks {
        Block(kernel, left);
      }
    }

    /** xTaskRemoveFromEventList */
    method WakeFirst(kernel: Kernel)
      requires kernel.Valid() && EventOf(id) < |kernel.events.rings| && kernel.WaitingFor(EventOf(id)) != []
      modifies kernel`lists, kernel`topReady, kernel`events
      ensures var t := old(kernel.WaitingFor(EventOf(id)))[0];
        && kernel.Valid() && kernel.View() == Perform(old(kernel.View()), NotifyStep(t))
        && HeadHasLeft(old(kernel.events), kernel.events, EventOf(id)) && IsUp(kernel.Tab(), kernel.suspended, t)
    {
      hide Perform, Kernel.Tables, Shape, Sound, States, HeadHasLeft, MadeReady, PriorityOrder;
      kernel.TablesMean({}, kernel.Earliest());
      ghost var before := kernel.Tab();
      kernel.NotifyMeans(EventOf(id));
      var higher, t := kernel.RemoveFromEventList(EventOf(id));
      if kernel.suspended == 0 {
        MadeReadyIsUp(before, kernel.Tab(), t);
      }
    }

    /** xQueueGenericSend without waiting: prvCopyDataToQueue gives the holder its priority back, then one task is woken. */
    method Give(kernel: Kernel) returns (ok: bool, ghost waiter: Option<TaskId>)
      requires kernel.Valid() && EventOf(id) < |kernel.events.rings|
      requires holder.Some? ==> holder.value in kernel.tcbs && kernel.lists.home[holder.value] < MAX_PRIORITIES
      modifies this, kernel`tcbs, kernel`lists, kernel`topReady, kernel`events
      ensures kernel.Valid()
      ensures ok == (old(messagesWaiting) < 1)
      ensures FindsWaiter(old(kernel.View()), id, waiter)
      ensures ok && waiter.Some? ==>
        HeadHasLeft(old(kernel.events), kernel.events, EventOf(id)) && IsUp(kernel.Tab(), kernel.suspended, waiter.value)
      ensures waiter == if old(kernel.WaitingFor(EventOf(id))) == [] then None else Some(old(kernel.WaitingFor(EventOf(id)))[0])
      ensures ok ==> Token() == Given(old(Token())) && kernel.View() == GiveBack(old(kernel.View()), old(Token()), waiter)
      ensures !ok ==> Token() == old(Token()) && kernel.View() == old(kernel.View())
    {
      hide Perform, Kernel.Tables, Shape, Sound, States, HeadHasLeft;
      kernel.TablesMean({}, kernel.Earliest());
      ListSaysWhoWaits(kernel, id);
      ghost var waiting := kernel.WaitingFor(EventOf(id));
      waiter := if waiting == [] then None else Some(waiting[0]);
      ok := messagesWaiting < 1;
      if ok {
        if holder.Some? {
          kernel.PriorityDisinherit(holder.value);
        }
        holder := None;
        messagesWaiting := messagesWaiting + 1;
        if kernel.WaitingFor(EventOf(id)) != [] {
          WakeFirst(kernel);
        }
      }
    }
  }
}
