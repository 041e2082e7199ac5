/** The kernel over its real data: intrusive lists, descriptors and counters, updated in place.
    Every entry point is proved to do to them what its step function says of the state. */
module KernelImpl {
  import opened Options
  import opened Sequences
  import opened Forests
  import opened Lists
  import opened ProcQueues
  import opened SemaphoreList
  import opened KernelState
  import opened Invariant
  import opened PidList
  import opened Killing
  import opened Runs
  import opened CpuTime
  import Creation
  import Effects
  import Fairness
  import Pids

  const FREEQ: nat := 0   // pcbFree_h
  const HIGHQ: nat := 1   // high_readyqueue
  const LOWQ: nat := 2    // low_readyqueue

  /** All PCBs free, no process yet. */
  function Blank(n: nat, cells: map<Key, int>): State
    requires 0 < n
  {
    State(
      free := seq(n, i => i), high := [], low := [],
      blocked := map[], semAdd := seq(n, _ => None), val := cells,
      parent := seq(n, _ => None), kids := seq(n, _ => []),
      prio := seq(n, _ => LowPrio), support := seq(n, _ => None),
      pids := [], pid := seq(n, _ => Pids.FREE_PID), currPid := 1,
      count := 0, soft := 0, curr := None, skip := None, mode := Running)
  }

  /** The running process is charged and gives up the processor. */
  ghost function LeaveCalls(s: State, t: State): seq<Op>
    requires s.curr.Some?
  {
    [Charge(s.curr.value)] + FlushIf(t.mode == Running)
  }

  /** What blocking on k charges: nothing if that ends in the PANIC for want of a descriptor. */
  ghost function BlockCalls(s: State, k: Key, t: State): seq<Op>
    requires s.curr.Some?
  {
    if NoFreeDescriptor(s, k) then [] else LeaveCalls(s, t)
  }

  /** The head of interruptHandler. */
  ghost function ChargeCalls(s: State): seq<Op> {
    if s.curr.Some? then [Charge(s.curr.value)] else []
  }

  /** _interruptHandlerExit. */
  ghost function ExitCalls(s: State, t: State): seq<Op> {
    [Discard] + FlushIf(s.curr == None && t.mode == Running)
  }

  lemma Joined(a: seq<Op>, b: seq<Op>, c: seq<Op>)
    ensures a + b + c == a + (b + c)
  {
  }

  class Kernel {
    const plist: RingFamily      // p_list: free list, ready queues, semaphore queues
    const asl: Asl
    const sib: RingFamily        // p_sib: the child list of every PCB
    const ids: PidTable
    const clock: CpuClock
    var parent: seq<Option<Proc>>
    var prio: seq<Prio>
    var support: seq<Option<nat>>
    var val: map<Key, int>
    var count: int
    var soft: int
    var curr: Option<Proc>
    var skip: Option<Proc>
    var mode: Mode

    /** initPcbs, initASL and the cleared globals of main. */
    constructor (n: nat, cells: map<Key, int>, tod: nat -> Reading)
      requires 0 < n < Pids.WORD
      ensures Linked() && fresh(Repr()) && View() == Blank(n, cells)
      ensures Timed() && fresh(clock) && clock.calls == [] && clock.tod == tod
    {
      var q, a, s, t, c := NewParts(n, tod);
      plist, asl, sib, ids, clock := q, a, s, t, c;
      parent, support, prio := seq(n, _ => None), seq(n, _ => None), seq(n, _ => LowPrio);
      val := cells;
      count, soft, curr, skip, mode := 0, 0, None, None, Running;
    }

    static method NewParts(n: nat, tod: nat -> Reading)
      returns (plist: RingFamily, asl: Asl, sib: RingFamily, ids: PidTable, clock: CpuClock)
      requires n < Pids.WORD
      ensures asl.Valid() && asl.plist == plist && Separate(asl, sib, ids) && fresh(ListsOf(asl, sib, ids))
      ensures |asl.key| == n && |plist.links| == n && asl.blocked == map[] && asl.semAdd == seq(n, _ => None)
      ensures |plist.contents| == SEMD + n && plist.contents[FREEQ] == seq(n, i => i)
      ensures plist.contents[HIGHQ] == [] && plist.contents[LOWQ] == []
      ensures sib.Valid() && |sib.heads| == |sib.links| == n && sib.contents == seq(n, _ => [])
      ensures ids.Valid() && ids.List() == [] && ids.pid == seq(n, _ => Pids.FREE_PID) && ids.currPid == 1
      ensures fresh(clock) && clock !in ListsOf(asl, sib, ids)
      ensures clock.Valid() && |clock.pTime| == n && clock.calls == [] && clock.tod == tod
    {
      clock := new CpuClock(n, tod);
      plist, asl, sib, ids := NewLists(n);
    }

    static method NewLists(n: nat) returns (plist: RingFamily, asl: Asl, sib: RingFamily, ids: PidTable)
      requires n < Pids.WORD
      ensures asl.Valid() && asl.plist == plist && Separate(asl, sib, ids) && fresh(ListsOf(asl, sib, ids))
      ensures |asl.key| == n && |plist.links| == n && asl.blocked == map[] && asl.semAdd == seq(n, _ => None)
      ensures |plist.contents| == SEMD + n && plist.contents[FREEQ] == seq(n, i => i)
      ensures plist.contents[HIGHQ] == [] && plist.contents[LOWQ] == []
      ensures sib.Valid() && |sib.heads| == |sib.links| == n && sib.contents == seq(n, _ => [])
      ensures ids.Valid() && ids.List() == [] && ids.pid == seq(n, _ => Pids.FREE_PID) && ids.currPid == 1
    {
      plist, asl := FreePcbs(n);
      ghost var repr := asl.Repr();
      sib := new RingFamily(n, n);
      assert sib !in repr && sib.nodes !! repr;
      ids := new PidTable(n);
      assert ids !in repr && ids.ring !in repr && ids.ring.nodes !! repr;
      assert ids.ring != sib && ids.ring.nodes !! sib.nodes;
    }

    /** The lists through p_list, with every PCB free, and the semaphore list over them. */
    static method FreePcbs(n: nat) returns (plist: RingFamily, asl: Asl)
      ensures asl.Valid() && asl.plist == plist && fresh(asl.Repr())
      ensures |asl.key| == n && |plist.links| == n && asl.blocked == map[] && asl.semAdd == seq(n, _ => None)
      ensures |plist.contents| == SEMD + n && plist.contents[FREEQ] == seq(n, i => i)
      ensures plist.contents[HIGHQ] == [] && plist.contents[LOWQ] == []
    {
      plist := new RingFamily(SEMD + n, n);
      asl := new Asl(plist, n);
      FillFree(asl, n);
    }

    static method FillFree(asl: Asl, n: nat)
      requires asl.Valid() && |asl.key| == n && |asl.plist.links| == n
      requires forall l :: 0 <= l < SEMD + n ==> asl.plist.contents[l] == []
      modifies asl.plist, asl.plist.nodes
      ensures asl.Valid() && |asl.plist.contents| == SEMD + n && asl.plist.contents[FREEQ] == seq(n, i => i)
      ensures asl.plist.contents[HIGHQ] == [] && asl.plist.contents[LOWQ] == []
    {
      var i: nat := n;
      while i > 0
        invariant i <= n && asl.Valid() && |asl.plist.contents| == SEMD + n
        invariant |asl.plist.contents[FREEQ]| == n - i
        invariant forall j :: 0 <= j < n - i ==> asl.plist.contents[FREEQ][j] == i + j
        invariant forall l :: 0 < l < SEMD + n ==> asl.plist.contents[l] == []
      {
        i := i - 1;
        ghost var queues := asl.plist.contents;
        asl.plist.ListAdd(FREEQ, i);
        ModelsFrame(asl.slink.contents[0], asl.key, queues, asl.plist.contents, asl.blocked);
      }
    }

    static ghost function ListsOf(asl: Asl, sib: RingFamily, ids: PidTable): set<object> {
      asl.Repr() + {sib, ids, ids.ring} + sib.nodes + ids.ring.nodes
    }

    /** The families of lists share no node. */
    static ghost predicate Separate(asl: Asl, sib: RingFamily, ids: PidTable) {
      && sib !in asl.Repr() && ids !in asl.Repr() && ids.ring !in asl.Repr() && ids.ring != sib
      && sib.nodes !! asl.Repr() && ids.ring.nodes !! asl.Repr() && sib.nodes !! ids.ring.nodes
    }

    ghost function Lists(): set<object> {
      ListsOf(asl, sib, ids)
    }

    ghost function Repr(): set<object> {
      {this} + Lists()
    }

    ghost predicate Shape() {
      && asl.plist == plist && asl.Shape()
      && this !in Lists()
      && Separate(asl, sib, ids)
      && |sib.heads| == |sib.links| == |plist.links| == |asl.slink.links| == |ids.ring.links|
    }

    ghost predicate Linked()
      reads Repr()
    {
      && Shape()
      && asl.Valid() && sib.Valid() && ids.Valid()
      && |parent| == |prio| == |support| == |asl.semAdd| == |plist.links|
    }

    /** The state the lists and fields stand for. */
    ghost function View(): State
      requires Linked()
      reads Repr()
    {
      State(
        free := plist.contents[FREEQ], high := plist.contents[HIGHQ], low := plist.contents[LOWQ],
        blocked := asl.blocked, semAdd := asl.semAdd, val := val,
        parent := parent, kids := sib.contents, prio := prio, support := support,
        pids := ids.List(), pid := ids.pid, currPid := ids.currPid,
        count := count, soft := soft, curr := curr, skip := skip, mode := mode)
    }

    /** The clock is apart from the lists, has a time for every PCB, and its variables are what the
        history of its use makes them. */
    ghost predicate Timed()
      reads clock
    {
      clock !in Lists() && clock.Valid() && |clock.pTime| == |plist.links|
    }

    // ----- moves between the free list and the ready queues -----

    method InsertReady(p: Proc)
      requires Linked() && p < |prio| && OnNone(plist.contents, p)
      modifies plist, plist.nodes
      ensures Linked()
      ensures View() == (if prio[p] == LowPrio then old(View()).(low := old(View()).low + [p])
                         else old(View()).(high := old(View()).high + [p]))
    {
      ghost var queues := plist.contents;
      var l := if prio[p] == LowPrio then LOWQ else HIGHQ;
      plist.ListAddTail(l, p);
      ModelsFrame(asl.slink.contents[0], asl.key, queues, plist.contents, asl.blocked);
    }

    /** A process off the queues of a state is on none of the lists through p_list. */
    lemma Loose(p: Proc)
      requires Linked() && p !in View().free && p !in View().high && p !in View().low
      requires forall k :: k in asl.blocked ==> p !in asl.blocked[k]
      ensures OnNone(plist.contents, p)
    {
      OffEveryList(asl.slink.contents[0], asl.key, plist.contents, asl.blocked, p);
    }

    /** removeProcQ of a ready queue. */
    method TakeHigh() returns (r: Option<Proc>)
      requires Linked() && View().high != []
      modifies plist, plist.nodes
      ensures Linked() && r == Some(old(View()).high[0]) && View() == old(View()).(high := old(View()).high[1..])
    {
      ghost var queues := plist.contents;
      r := RemoveProcQ(plist, HIGHQ);
      ModelsFrame(asl.slink.contents[0], asl.key, queues, plist.contents, asl.blocked);
    }

    method TakeLow() returns (r: Option<Proc>)
      requires Linked()
      modifies plist, plist.nodes
      ensures Linked()
      ensures old(View()).low == [] ==> r == None && View() == old(View())
      ensures old(View()).low != [] ==>
                r == Some(old(View()).low[0]) && View() == old(View()).(low := old(View()).low[1..])
    {
      ghost var queues := plist.contents;
      r := RemoveProcQ(plist, LOWQ);
      ModelsFrame(asl.slink.contents[0], asl.key, queues, plist.contents, asl.blocked);
    }

    /** The selection of _getNextProcess. */
    method PickReady() returns (next: Option<Proc>)
      requires Linked()
      modifies plist, plist.nodes
      ensures Linked()
      ensures var s := old(View());
              && (TakesHigh(s) ==> next == Some(s.high[0]) && View() == s.(high := s.high[1..]))
              && (!TakesHigh(s) && s.low != [] ==> next == Some(s.low[0]) && View() == s.(low := s.low[1..]))
              && (!TakesHigh(s) && s.low == [] ==> next == None && View() == s)
    {
      next := None;
      var high := HeadProcQ(plist, HIGHQ);
      if high.Some? {
        var noLow := plist.ListEmpty(LOWQ);
        if high != skip || noLow { next := TakeHigh(); }
      }
      if next == None { next := TakeLow(); }
    }

    method Dispatch(next: Option<Proc>)
      requires Timed() && Linked()
      modifies this`skip, this`curr, this`mode, clock
      ensures Linked()
      ensures View() == old(View()).(skip := None, curr := next,
                mode := if next.Some? then Running else if old(View()).soft > 0 then Waiting else Deadlock)
      ensures Timed() && clock.calls == old(clock.calls) + FlushIf(next.Some?)
    {
      SetCurrent(next);
      if next.Some? { clock.TimerFlush(); }
    }

    method SetCurrent(next: Option<Proc>)
      requires Linked()
      modifies this`skip, this`curr, this`mode
      ensures Linked()
      ensures View() == old(View()).(skip := None, curr := next,
                mode := if next.Some? then Running else if old(View()).soft > 0 then Waiting else Deadlock)
    {
      skip := None;
      curr := next;
      mode := if next.Some? then Running else if soft > 0 then Waiting else Deadlock;
    }

    method Scheduler()
      requires Timed() && Linked()
      modifies this, plist, plist.nodes, clock
      ensures Linked() && View() == Schedule(old(View()))
      ensures Timed() && clock.calls == old(clock.calls) + FlushIf(mode == Running)
    {
      if count == 0 {
        mode := Halted;
      } else {
        var next := PickReady();
        Dispatch(next);
      }
    }

    method SetProcessReady(p: Proc)
      requires Linked() && p < |prio| && OnNone(plist.contents, p)
      modifies plist, plist.nodes
      ensures Linked() && View() == SetReady(old(View()), p)
    {
      if ids.pid[p] != Pids.FREE_PID { InsertReady(p); }
    }

    /** There is a current process, and its p_list link is in no list: it may be queued. */
    ghost predicate Ready()
      reads Repr()
    {
      Linked() && curr.Some? && Sized(View()) && OnNone(plist.contents, curr.value)
    }

    // ----- P and V -----

    /** The first waiter of a semaphore becomes ready. */
    method WakeFirst(k: Key) returns (p: Proc)
      requires Linked() && Sized(View()) && Waited(View(), k)
      modifies plist, asl, asl.slink, plist.nodes, asl.slink.nodes
      ensures Linked() && p == old(View()).blocked[k][0] && View() == Wake(old(View()), k)
    {
      var r := asl.RemoveBlocked(k);
      p := r.value;
      SetProcessReady(p);
    }

    /** insertBlocked and what follows it in semP and semV. */
    method BlockCurrent(k: Key)
      requires Timed() && Ready()
      modifies this, plist, asl, asl.slink, plist.nodes, asl.slink.nodes, clock
      ensures Linked() && View() == Block(old(View()), k)
      ensures Timed() && clock.calls == old(clock.calls) + BlockCalls(old(View()), k, View())
    {
      ghost var s := View();
      var full := Enqueue(k, curr.value);
      if full {
        mode := NoDescriptor;
      } else {
        assert View() == InsertBlocked(s, k, s.curr.value);
        BlockAndSchedule();
      }
    }

    /** A process that no longer runs is charged, and another one selected. */
    method ChargeAndSchedule(c: Proc)
      requires Timed() && Linked() && c < |prio|
      modifies this, plist, plist.nodes, clock
      ensures Linked() && View() == Schedule(old(View()))
      ensures Timed() && clock.calls == old(clock.calls) + ([Charge(c)] + FlushIf(mode == Running))
    {
      ghost var s := View();
      clock.UpdateProcessCPUTime(c);
      assert View() == s;
      Scheduler();
      Joined(old(clock.calls), [Charge(c)], FlushIf(mode == Running));
    }

    /** setProcessBlocked of the current process, and scheduler. */
    method BlockAndSchedule()
      requires Timed() && Linked() && curr.Some? && curr.value < |prio|
      modifies this, plist, plist.nodes, clock
      ensures Linked() && View() == Schedule(old(View()))
      ensures Timed() && clock.calls == old(clock.calls) + LeaveCalls(old(View()), View())
    {
      ChargeAndSchedule(curr.value);
    }

    method Enqueue(k: Key, p: Proc) returns (full: bool)
      requires Linked() && p < |prio| && OnNone(plist.contents, p)
      modifies plist, asl, asl.slink, plist.nodes, asl.slink.nodes
      ensures Linked() && (full <==> k !in old(View()).blocked && |old(View()).blocked| == |prio|)
      ensures View() == if full then old(View()) else InsertBlocked(old(View()), k, p)
    {
      full := asl.InsertBlocked(k, p);
    }

    /** The second half of semP and semV: release the first waiter, or else set the cell. */
    method WakeOrSet(k: Key, v: int) returns (ready: Option<Proc>)
      requires Linked() && Sized(View()) && k in val
      modifies this`val, plist, asl, asl.slink, plist.nodes, asl.slink.nodes
      ensures Linked()
      ensures Waited(old(View()), k) ==> View() == Wake(old(View()), k) && ready == Some(old(View()).blocked[k][0])
      ensures !Waited(old(View()), k) ==> View() == old(View()).(val := old(View()).val[k := v]) && ready == None
    {
      ready := None;
      var h := asl.HeadBlocked(k);
      if h != None {
        var p := WakeFirst(k);
        ready := Some(p);
      } else {
        val := val[k := v];
      }
    }

    /** semP for the current process. */
    method SemP(k: Key)
      requires Timed() && Ready() && k in val
      modifies this, plist, asl, asl.slink, plist.nodes, asl.slink.nodes, clock
      ensures Linked() && View() == KernelState.SemP(old(View()), k)
      ensures Timed() && clock.calls == old(clock.calls)
              + if old(val[k]) == 0 then BlockCalls(old(View()), k, View()) else []
    {
      if val[k] == 0 {
        BlockCurrent(k);
      } else {
        var ready := WakeOrSet(k, 0);
      }
    }

    /** semV for the current process. */
    method SemV(k: Key)
      requires Timed() && Ready() && k in val
      modifies this, plist, asl, asl.slink, plist.nodes, asl.slink.nodes, clock
      ensures Linked() && View() == KernelState.SemV(old(View()), k)
      ensures Timed() && clock.calls == old(clock.calls)
              + if old(val[k]) == 1 then BlockCalls(old(View()), k, View()) else []
    {
      if val[k] == 1 {
        BlockCurrent(k);
      } else {
        var ready := WakeOrSet(k, 1);
      }
    }

    // ----- system calls on semaphores and devices, and YIELD -----

    method RaiseSoft()
      requires Ready()
      modifies this`soft
      ensures Ready() && View() == old(View()).(soft := old(View()).soft + 1)
    {
      soft := soft + 1;
    }

    /** _doIO once the device has its command, and _clockWait for SEMAPHORE_IT: the counter goes
        up before the P that is bound to block. */
    method DoIO(k: Key)
      requires Timed() && Ready() && k in val
      modifies this, plist, asl, asl.slink, plist.nodes, asl.slink.nodes, clock
      ensures Linked() && View() == KernelState.DoIO(old(View()), k)
      ensures Timed() && clock.calls == old(clock.calls)
              + if old(val[k]) == 0 then BlockCalls(old(View()), k, View()) else []
    {
      ghost var s := View();
      RaiseSoft();
      assert View() == s.(soft := s.soft + 1);
      SemP(k);
    }

    method YieldCpu()
      requires Timed() && Ready()
      modifies this, plist, plist.nodes, clock
      ensures Linked() && View() == KernelState.Yield(old(View()))
      ensures Timed() && clock.calls == old(clock.calls) + LeaveCalls(old(View()), View())
    {
      ghost var s := View();
      var c := curr.value;
      MarkSkip();
      Requeue();
      assert View() == SetReady(s.(skip := s.curr), c).(curr := None);
      ChargeAndSchedule(c);
    }

    method MarkSkip()
      requires Ready()
      modifies this`skip
      ensures Ready() && View() == old(View()).(skip := old(View()).curr)
    {
      skip := curr;
    }

    /** The running process leaves the processor for its ready queue. */
    method Requeue()
      requires Ready()
      modifies this`curr, plist, plist.nodes
      ensures Linked() && View() == SetReady(old(View()), old(View()).curr.value).(curr := None)
    {
      SetProcessReady(curr.value);
      curr := None;
    }

    // ----- interrupts -----

    /** _PLTHandler. */
    method PltHandler()
      requires Timed() && Ready()
      modifies this, plist, plist.nodes, clock
      ensures Linked() && View() == TimeSlice(old(View()))
      ensures Timed() && clock.calls == old(clock.calls) + LeaveCalls(old(View()), View())
    {
      ghost var s := View();
      clock.UpdateProcessCPUTime(curr.value);
      Requeue();
      assert View() == SetReady(s, s.curr.value).(curr := None);
      Scheduler();
      Joined(old(clock.calls), [Charge(s.curr.value)], FlushIf(mode == Running));
    }

    /** _interruptHandlerExit. */
    method InterruptExit()
      requires Timed() && Linked()
      modifies this, plist, plist.nodes, clock
      ensures Linked() && View() == Resume(old(View()))
      ensures Timed() && clock.calls == old(clock.calls) + ExitCalls(old(View()), View())
    {
      clock.TimerFlush();
      if curr != None { mode := Running; } else { Scheduler(); }
    }

    /** semV by an interrupt handler, with no process behind it: meant for a kernel semaphore at
        0 somebody waits on. */
    method InterruptV(k: Key) returns (ready: Option<Proc>)
      requires Linked() && Sized(View()) && Waited(View(), k) && k in val && val[k] != 1
      modifies this`val, plist, asl, asl.slink, plist.nodes, asl.slink.nodes
      ensures Linked() && ready == Some(old(View()).blocked[k][0])
      ensures View() == Wake(old(View()), k) && Sized(View())
    {
      WakeSized(View(), k);
      ready := WakeOrSet(k, 1);
    }

    /** A waiter of a kernel semaphore released, and softblocked_count brought down. */
    method ReleaseSoft(k: Key)
      requires Linked() && Sized(View()) && Waited(View(), k) && k in val && val[k] != 1
      modifies this`val, this`soft, plist, asl, asl.slink, plist.nodes, asl.slink.nodes
      ensures Linked() && var t := Wake(old(View()), k); View() == t.(soft := t.soft - 1)
    {
      var ready := InterruptV(k);
      soft := soft - 1;
    }

    /** _deviceInterruptReturn and the way out. */
    method DeviceInterrupt(k: Key)
      requires Timed() && Linked() && Sized(View()) && Waited(View(), k) && k in val && val[k] != 1
      modifies this, plist, asl, asl.slink, plist.nodes, asl.slink.nodes, clock
      ensures Linked() && View() == DeviceDone(old(View()), k)
      ensures Timed() && clock.calls == old(clock.calls) + ExitCalls(old(View()), View())
    {
      ghost var s := View();
      ReleaseSoft(k);
      ghost var t := Wake(s, k);
      assert View() == t.(soft := t.soft - 1);
      InterruptExit();
    }

    /** How many processes wait for the timer. */
    ghost function TimerWaiters(): nat
      reads asl
    {
      if SEMAPHORE_IT in asl.blocked then |asl.blocked[SEMAPHORE_IT]| else 0
    }

    /** The body of the loop of _ITHandler. */
    method WakeTimerWaiter()
      requires Linked() && Sized(View()) && Waited(View(), SEMAPHORE_IT) && SEMAPHORE_IT in val
               && val[SEMAPHORE_IT] != 1
      modifies this`val, this`soft, plist, asl, asl.slink, plist.nodes, asl.slink.nodes
      ensures Linked() && Sized(View()) && val == old(val) && TimerWaiters() < old(TimerWaiters())
      ensures DrainTimer(View()) == DrainTimer(old(View()))
    {
      DrainOnce(View());
      ReleaseSoft(SEMAPHORE_IT);
    }

    method DrainIt()
      requires Linked() && Sized(View()) && SEMAPHORE_IT in val && val[SEMAPHORE_IT] != 1
      modifies this`val, this`soft, plist, asl, asl.slink, plist.nodes, asl.slink.nodes
      ensures Linked() && View() == DrainTimer(old(View()))
    {
      while true
        invariant Linked() && Sized(View()) && val == old(val)
        invariant DrainTimer(View()) == DrainTimer(old(View()))
        decreases TimerWaiters()
      {
        var head := asl.HeadBlocked(SEMAPHORE_IT);
        if head == None { break; }
        WakeTimerWaiter();
      }
    }

    /** _ITHandler. */
    method ItHandler()
      requires Timed() && Linked() && Sized(View()) && SEMAPHORE_IT in val && val[SEMAPHORE_IT] != 1
      modifies this, plist, asl, asl.slink, plist.nodes, asl.slink.nodes, clock
      ensures Linked() && View() == IntervalTimer(old(View()))
      ensures Timed() && clock.calls == old(clock.calls) + ExitCalls(old(View()), View())
    {
      DrainIt();
      val := val[SEMAPHORE_IT := 0];
      InterruptExit();
    }

    // ----- process creation -----

    /** What allocPcb relies on: the first free PCB is off the tree and off the pid list, and the
        pid list is in order. */
    ghost predicate Allocatable()
      requires Linked()
      reads Repr()
    {
      && Pids.Sorted(ids.List(), ids.pid) && |Pids.PidsOf(ids.List(), ids.pid)| < Pids.WORD
      && (plist.contents[FREEQ] != [] ==>
            var p := plist.contents[FREEQ][0];
            p < |prio| && sib.contents[p] == [] && OnNone(sib.contents, p) && p !in ids.List())
    }

    method TakeFree() returns (r: Option<Proc>)
      requires Linked()
      modifies plist, plist.nodes
      ensures Linked()
      ensures old(View()).free == [] ==> r == None && View() == old(View())
      ensures old(View()).free != [] ==>
                && r == Some(old(View()).free[0]) && r.value < |prio|
                && OnNone(plist.contents, r.value) && View() == old(View()).(free := old(View()).free[1..])
    {
      ghost var queues := plist.contents;
      r := RemoveProcQ(plist, FREEQ);
      ModelsFrame(asl.slink.contents[0], asl.key, queues, plist.contents, asl.blocked);
    }

    /** _initPcb up to the identifier. */
    method InitPcb(p: Proc)
      requires Linked() && p < |prio| && OnNone(plist.contents, p) && OnNone(sib.contents, p) && sib.contents[p] == []
      modifies this`parent, this`support, asl`semAdd, plist.nodes, sib.nodes
      ensures Linked() && plist.contents == old(plist.contents) && sib.contents == old(sib.contents)
      ensures var s := old(View());
              View() == s.(parent := s.parent[p := None], kids := s.kids[p := []],
                           semAdd := s.semAdd[p := None], support := s.support[p := None])
    {
      ghost var s := View();
      InitLinks(p);
      assert View() == s && s.kids == s.kids[p := []];
      InitFields(p);
    }

    method InitFields(p: Proc)
      requires Linked() && p < |prio|
      modifies this`parent, this`support, asl`semAdd
      ensures Linked() && plist.contents == old(plist.contents) && sib.contents == old(sib.contents)
      ensures var s := old(View());
              View() == s.(parent := s.parent[p := None], semAdd := s.semAdd[p := None],
                           support := s.support[p := None])
    {
      ghost var s := View();
      asl.ClearSemAdd(p);
      assert Linked() && View() == s.(semAdd := s.semAdd[p := None]);
      parent, support := parent[p := None], support[p := None];
    }

    method InitLinks(p: Proc)
      requires Linked() && p < |prio| && OnNone(plist.contents, p) && OnNone(sib.contents, p) && sib.contents[p] == []
      modifies plist.nodes, sib.nodes
      ensures Linked() && View() == old(View()) && plist.contents == old(plist.contents)
    {
      plist.InitLink(p);
      sib.InitListHead(p);
      sib.InitLink(p);
    }

    /** _generatePid and _addPid. */
    method NamePcb(p: Proc)
      requires Linked() && p < |prio| && p !in ids.List()
      requires Pids.Sorted(ids.List(), ids.pid) && |Pids.PidsOf(ids.List(), ids.pid)| < Pids.WORD
      modifies ids, ids.ring, ids.ring.nodes
      ensures Linked()
      ensures var s := old(View());
              var x := Pids.FirstFree(Pids.PidsOf(s.pids, s.pid), Pids.Start(s.currPid));
              var table := s.pid[p := x];
              View() == s.(pid := table, pids := Pids.Insert(s.pids, table, p), currPid := Pids.Next(x))
    {
      var x := TakePid();
      ListPid(p, x);
    }

    /** _generatePid. */
    method TakePid() returns (x: nat)
      requires Linked() && Pids.Sorted(ids.List(), ids.pid) && |Pids.PidsOf(ids.List(), ids.pid)| < Pids.WORD
      modifies ids`currPid
      ensures Linked() && View() == old(View()).(currPid := Pids.Next(x))
      ensures x == Pids.FirstFree(Pids.PidsOf(View().pids, View().pid), Pids.Start(old(View()).currPid))
    {
      ghost var steps;
      x, steps := ids.GeneratePid();
    }

    /** _addPid with the pid generated. */
    method ListPid(p: Proc, x: nat)
      requires Linked() && p < |prio| && p !in ids.List() && InRange(ids.List(), |ids.pid|)
      modifies ids, ids.ring, ids.ring.nodes
      ensures Linked()
      ensures var s := old(View()); var table := s.pid[p := x];
              View() == s.(pid := table, pids := Pids.Insert(s.pids, table, p))
    {
      ids.pid := ids.pid[p := x];
      ids.AddPid(p);
    }

    method AllocPcb() returns (r: Option<Proc>)
      requires Timed() && Linked() && Sized(View()) && Allocatable()
      modifies this`parent, this`support, asl`semAdd, plist, plist.nodes, sib.nodes, ids, ids.ring, ids.ring.nodes,
               clock
      ensures Linked()
      ensures var s := old(View()); if s.free == [] then r == None && View() == s else
                && r == Some(s.free[0]) && r.value < |prio|
                && OnNone(plist.contents, r.value) && OnNone(sib.contents, r.value)
                && View() == KernelState.AllocPcb(s)
      ensures Timed()
      ensures clock.calls == old(clock.calls) + if old(View()).free == [] then [] else [Reset(old(View()).free[0])]
    {
      r := TakeFree();
      if r.Some? { PreparePcb(r.value); }
    }

    /** _initPcb of a PCB just taken from the free list. */
    method PreparePcb(p: Proc)
      requires Timed() && Linked() && Sized(View()) && p < |prio| && p !in ids.List()
      requires OnNone(plist.contents, p) && OnNone(sib.contents, p) && sib.contents[p] == []
      requires Pids.Sorted(ids.List(), ids.pid) && |Pids.PidsOf(ids.List(), ids.pid)| < Pids.WORD
      modifies this`parent, this`support, asl`semAdd, plist.nodes, sib.nodes, ids, ids.ring, ids.ring.nodes, clock
      ensures Linked() && plist.contents == old(plist.contents) && sib.contents == old(sib.contents)
      ensures View() == Prepared(old(View()), p)
      ensures Timed() && clock.calls == old(clock.calls) + [Reset(p)]
    {
      InitPcb(p);
      clock.ResetTime(p);
      NamePcb(p);
    }

    /** insertChild. */
    method InsertChild(g: Proc, p: Proc)
      requires Linked() && g < |prio| && p < |prio| && OnNone(sib.contents, p)
      modifies this`parent, sib, sib.nodes
      ensures Linked()
      ensures var s := old(View()); View() == s.(kids := s.kids[g := s.kids[g] + [p]], parent := s.parent[p := Some(g)])
    {
      sib.ListAddTail(g, p);
      parent := parent[p := Some(g)];
    }

    method CreateProcess(pr: Prio, sup: Option<nat>) returns (result: int)
      requires Timed() && Linked() && Sized(View()) && curr.Some? && Allocatable()
      modifies this, asl`semAdd, plist, plist.nodes, sib, sib.nodes, ids, ids.ring, ids.ring.nodes, clock
      ensures Linked() && View() == KernelState.CreateProcess(old(View()), pr, sup)
      ensures result == if old(View()).free == [] then -1 else KernelState.GeneratedPid(old(View()))
      ensures Timed()
      ensures clock.calls == old(clock.calls) + if old(View()).free == [] then [] else [Reset(old(View()).free[0])]
    {
      CreateIsLinkup(View(), pr, sup);
      result := CreateLinked(pr, sup);
    }

    method CreateLinked(pr: Prio, sup: Option<nat>) returns (result: int)
      requires Timed() && Linked() && Sized(View()) && curr.Some? && Allocatable()
      modifies this, asl`semAdd, plist, plist.nodes, sib, sib.nodes, ids, ids.ring, ids.ring.nodes, clock
      ensures Linked()
      ensures var s := old(View());
              View() == if s.free == [] then s else Linkup(KernelState.AllocPcb(s), s.free[0], pr, sup)
      ensures result == if old(View()).free == [] then -1 else KernelState.GeneratedPid(old(View()))
      ensures Timed()
      ensures clock.calls == old(clock.calls) + if old(View()).free == [] then [] else [Reset(old(View()).free[0])]
    {
      ghost var s := View();
      AllocatedPid(s);
      var r := AllocPcb();
      if r == None {
        result := -1;
      } else {
        ghost var a := View();
        assert a == KernelState.AllocPcb(s) && r.value == s.free[0];
        result := LinkNamed(r.value, pr, sup);
        assert View() == Linkup(a, s.free[0], pr, sup);
      }
    }

    method LinkNamed(p: Proc, pr: Prio, sup: Option<nat>) returns (pid: int)
      requires Timed() && Linked() && curr.Some? && curr.value < |prio| && p < |prio|
      requires OnNone(plist.contents, p) && OnNone(sib.contents, p)
      modifies this, plist, plist.nodes, sib, sib.nodes
      ensures Linked() && View() == Linkup(old(View()), p, pr, sup) && pid == old(View()).pid[p]
      ensures Timed() && clock.calls == old(clock.calls)
    {
      pid := ids.pid[p];
      LinkPcb(p, pr, sup);
    }

    /** _createProcess once it has a PCB. */
    method LinkPcb(p: Proc, pr: Prio, sup: Option<nat>)
      requires Linked() && curr.Some? && curr.value < |prio| && p < |prio|
      requires OnNone(plist.contents, p) && OnNone(sib.contents, p)
      modifies this, plist, plist.nodes, sib, sib.nodes
      ensures Linked() && View() == Linkup(old(View()), p, pr, sup)
    {
      ghost var s := View();
      FillPcb(p, pr, sup);
      ghost var b := s.(count := s.count + 1, prio := s.prio[p := pr], support := s.support[p := sup]);
      assert View() == if pr == LowPrio then b.(low := b.low + [p]) else b.(high := b.high + [p]);
      InsertChild(curr.value, p);
    }

    /** _createProcess between allocPcb and insertChild. */
    method FillPcb(p: Proc, pr: Prio, sup: Option<nat>)
      requires Linked() && p < |prio| && OnNone(plist.contents, p)
      modifies this`count, this`prio, this`support, plist, plist.nodes
      ensures Linked() && sib.contents == old(sib.contents)
      ensures var s := old(View()).(count := old(View()).count + 1, prio := old(View()).prio[p := pr],
                                    support := old(View()).support[p := sup]);
              View() == if pr == LowPrio then s.(low := s.low + [p]) else s.(high := s.high + [p])
    {
      ghost var s := View();
      count, prio, support := count + 1, prio[p := pr], support[p := sup];
      assert Linked() && View() == s.(count := s.count + 1, prio := s.prio[p := pr], support := s.support[p := sup]);
      InsertReady(p);
    }

    // ----- process destruction -----

    /** _removeFromTree, of the i-th child of g. */
    method RemoveFromTree(p: Proc, ghost g: Proc, ghost i: nat)
      requires Linked() && p < |prio| && g < |sib.contents| && i < |sib.contents[g]| && sib.contents[g][i] == p
      modifies this`parent, sib, sib.nodes
      ensures Linked()
      ensures var s := old(View());
              View() == s.(kids := s.kids[g := s.kids[g][..i] + s.kids[g][i + 1..]], parent := s.parent[p := None])
    {
      sib.ListDel(p, g, i);
      parent := parent[p := None];
    }

    /** outChild. */
    method OutChild(p: Proc)
      requires Linked() && Sized(View()) && p < |prio|
      requires parent[p].Some? ==> parent[p].value < |sib.contents| && p in sib.contents[parent[p].value]
      modifies this`parent, sib, sib.nodes
      ensures Linked() && View() == DropTree(old(View()), p)
    {
      if parent[p].Some? {
        ghost var g := parent[p].value;
        ghost var i :| 0 <= i < |sib.contents[g]| && sib.contents[g][i] == p;
        OnlyOn(sib, g, p);
        WithoutAt(sib.contents[g], i);
        RemoveFromTree(p, g, i);
      }
    }

    /** _killProcess, the part on semaphores. */
    method LeaveSemaphore(p: Proc)
      requires Linked() && p < |prio|
      requires asl.semAdd[p].Some? ==>
                 asl.semAdd[p].value in asl.blocked && p in asl.blocked[asl.semAdd[p].value]
      modifies this`soft, plist, asl, asl.slink, plist.nodes, asl.slink.nodes
      ensures Linked() && View() == DropSemaphore(old(View()), p)
    {
      if asl.semAdd[p].Some? {
        ghost var s := View();
        if IsSoft(asl.semAdd[p].value) { LowerSoft(); }
        assert View() == s.(soft := if IsSoft(s.semAdd[p].value) then s.soft - 1 else s.soft);
        var r := asl.OutBlocked(p);
      }
    }

    method LowerSoft()
      requires Linked()
      modifies this`soft
      ensures Linked() && View() == old(View()).(soft := old(View()).soft - 1)
    {
      soft := soft - 1;
    }

    /** outProcQ of the ready queue of p's priority. */
    method LeaveReady(p: Proc)
      requires Linked() && p < |prio|
      modifies plist, plist.nodes
      ensures Linked() && View() == DropReady(old(View()), p)
    {
      ghost var queues := plist.contents;
      var l := if prio[p] == LowPrio then LOWQ else HIGHQ;
      var r := OutProcQ(plist, l, p);
      ModelsFrame(asl.slink.contents[0], asl.key, queues, plist.contents, asl.blocked);
    }

    /** freePcb. */
    method FreePcb(p: Proc)
      requires Linked() && p < |prio| && OnNone(plist.contents, p) && p in ids.List()
      modifies plist, plist.nodes, ids, ids.ring, ids.ring.nodes
      ensures Linked() && View() == Release(old(View()), [p])
    {
      ghost var s := View();
      PutFree(p);
      assert View() == s.(free := [p] + s.free);
      ForgetPid(p);
      OneReleased(s, p);
    }

    method PutFree(p: Proc)
      requires Linked() && p < |prio| && OnNone(plist.contents, p)
      modifies plist, plist.nodes
      ensures Linked() && View() == old(View()).(free := [p] + old(View()).free)
    {
      ghost var queues := plist.contents;
      plist.ListAdd(FREEQ, p);
      ModelsFrame(asl.slink.contents[0], asl.key, queues, plist.contents, asl.blocked);
    }

    method ForgetPid(p: Proc)
      requires Linked() && p < |prio| && p in ids.List()
      modifies ids, ids.ring, ids.ring.nodes
      ensures Linked()
      ensures View() == old(View()).(pids := Without(old(View()).pids, {p}), pid := PidWithout(old(View()).pid, {p}))
    {
      UnlistPid(p);
      ids.pid := ids.pid[p := Pids.FREE_PID];
      assert ids.pid == PidWithout(old(ids.pid), {p});
    }

    /** list_del of the pid_list link. */
    method UnlistPid(p: Proc)
      requires Linked() && p < |prio| && p in ids.List()
      modifies ids.ring, ids.ring.nodes
      ensures Linked() && View() == old(View()).(pids := Without(old(View()).pids, {p}))
    {
      ghost var list := ids.List();
      ghost var i :| 0 <= i < |list| && list[i] == p;
      QueueNoDup(ids.ring, 0);
      WithoutAt(list, i);
      ids.ring.ListDel(p, 0, i);
    }

    /** removeChild. */
    method RemoveChild(p: Proc) returns (c: Option<Proc>)
      requires Linked() && p < |prio|
      modifies this`parent, sib, sib.nodes
      ensures Linked()
      ensures old(View()).kids[p] == [] ==> c == None && View() == old(View())
      ensures old(View()).kids[p] != [] ==>
                && c == Some(old(View()).kids[p][0]) && c.value < |prio|
                && View() == Orphan(old(View()), p)
    {
      c := HeadProcQ(sib, p);
      if c.Some? {
        assert sib.contents[p][..0] + sib.contents[p][1..] == sib.contents[p][1..];
        RemoveFromTree(c.value, p, 0);
      }
    }

    /** _killProcess before its loop. */
    method DetachOne(p: Proc)
      requires Linked() && p < |prio| && Coherent(View())
      modifies this, plist, asl, asl.slink, plist.nodes, asl.slink.nodes, sib, sib.nodes
      ensures Linked() && View() == Detach(old(View()), {p})
    {
      KidsNoDup(sib);
      DropIsDetach(View(), p);
      LeaveTree(p);
      LeaveQueues(p);
    }

    method LeaveTree(p: Proc)
      requires Linked() && Sized(View()) && p < |prio|
      requires parent[p].Some? ==> parent[p].value < |sib.contents| && p in sib.contents[parent[p].value]
      modifies this`parent, this`count, sib, sib.nodes
      ensures Linked() && View() == Uncounted(old(View()), p)
    {
      OutChild(p);
      count := count - 1;
    }

    method LeaveQueues(p: Proc)
      requires Linked() && p < |prio|
      requires asl.semAdd[p].Some? ==>
                 asl.semAdd[p].value in asl.blocked && p in asl.blocked[asl.semAdd[p].value]
      modifies this`soft, plist, asl, asl.slink, plist.nodes, asl.slink.nodes
      ensures Linked() && View() == DropReady(DropSemaphore(old(View()), p), p)
    {
      LeaveSemaphore(p);
      LeaveReady(p);
    }

    /** The loop of _killProcess over the children of p, `sub`. */
    method KillChildren(p: Proc, ghost sub: Forest)
      requires Linked() && Forked(View(), p, sub)
      modifies Repr()
      ensures Linked() && View() == Release(Detach(old(View()), Nodes(sub)), Post(sub))
      decreases Size(sub), 1
    {
      ghost var s := View();
      ghost var rest, dead, order := sub, {}, [];
      ProgressStart(s, p, sub);
      while true
        invariant Linked() && Progress(s, View(), p, sub, rest, dead, order)
        decreases Size(rest)
      {
        ghost var t := View();
        var found := KillFirstChild(p, rest);
        if !found {
          ProgressEnd(s, t, p, sub, dead, order);
          break;
        }
        ProgressStep(s, t, p, sub, rest, dead, order, View());
        dead, order := dead + (Nodes(rest.kids) + {rest.proc}), order + (Post(rest.kids) + [rest.proc]);
        rest := rest.rest;
      }
    }

    /** One turn of that loop. */
    method KillFirstChild(p: Proc, ghost rest: Forest) returns (found: bool)
      requires Linked() && Forked(View(), p, rest)
      modifies Repr()
      ensures Linked() && (found <==> rest.Cons?)
      ensures !found ==> View() == old(View())
      ensures found ==>
                var t := old(View());
                && t.kids[p] != [] && t.kids[p][0] == rest.proc && rest.proc < |t.parent|
                && View() == Destroyed(Orphan(t, p), rest.proc, rest.kids) && Forked(View(), p, rest.rest)
      decreases Size(rest), 0
    {
      if rest.Cons? {
        ChildKillable(View(), p, rest);
        AfterChild(View(), p, rest);
      }
      var c := RemoveChild(p);
      found := c.Some?;
      if found { KillProcess(c.value, rest.kids); }
    }

    /** _killProcess: recursive, list by list, it does what removing p and all its descendants at
        once would do. */
    method KillProcess(p: Proc, ghost sub: Forest)
      requires Linked() && Killable(View(), p, sub)
      modifies Repr()
      ensures Linked() && View() == Destroyed(old(View()), p, sub)
      decreases Size(sub), 2
    {
      KillPlan(View(), p, sub);
      DetachOne(p);
      KillChildren(p, sub);
      Loose(p);
      FreePcb(p);
    }

    /** _killProcess of a live process, from a state that keeps the invariant. */
    method KillLive(p: Proc)
      requires Linked() && p < |ids.pid| && ids.pid[p] != Pids.FREE_PID
      requires exists run :: Core(View(), run)
      modifies Repr()
      ensures Linked() && Sized(old(View())) && IsTree(old(View())) && p in LiveSet(old(View()).pid)
      ensures View() == Kill(old(View()), p)
    {
      ghost var run :| Core(View(), run);
      CoreKillable(View(), run, p);
      KillProcess(p, Sub(TreeOf(View()), p));
    }

    /** TERMPROCESS(0) and the die branch of _passUpOrDieHandler. */
    method Die()
      requires Timed() && Linked() && curr.Some? && Core(View(), curr)
      modifies Repr(), clock
      ensures Linked() && CanDie(old(View())) && View() == KernelState.Die(old(View()))
      ensures Timed() && clock.calls == old(clock.calls) + FlushIf(mode == Running)
    {
      RunnerLive(View());
      KillLive(curr.value);
      Scheduler();
    }

    method TermProcess(pid: nat)
      requires Timed() && Linked() && curr.Some? && Core(View(), curr)
      modifies Repr(), clock
      ensures Linked() && CanDie(old(View())) && View() == KernelState.TermProcess(old(View()), pid)
      ensures Timed()
      ensures clock.calls == old(clock.calls) +
                FlushIf(old(View()).curr.value !in LiveSet(View().pid) && mode == Running)
    {
      ghost var s := View();
      RunnerLive(s);
      if pid == 0 {
        SelfDies(s, s.curr.value);
        Die();
        ScheduleKeepsLive(Kill(s, s.curr.value));
      } else {
        TermPlan(s, pid);
        TermByPid(pid);
        assert View() == Ended(s, ProcessOf(s, pid));
      }
    }

    method TermByPid(pid: nat)
      requires Timed() && Linked() && curr.Some? && Core(View(), curr) && pid != 0
      modifies Repr(), clock
      ensures Linked() && Sized(old(View())) && View() == Ended(old(View()), ProcessOf(old(View()), pid))
      ensures Timed()
      ensures clock.calls == old(clock.calls) +
                FlushIf(old(View()).curr.value !in LiveSet(View().pid) && mode == Running)
    {
      var victim := FindVictim(pid);
      TerminateIf(victim);
    }

    method TerminateIf(victim: Option<Proc>)
      requires Timed() && Linked() && curr.Some? && Core(View(), curr)
      requires victim.Some? ==> victim.value < |ids.pid| && ids.pid[victim.value] != Pids.FREE_PID
      modifies Repr(), clock
      ensures Linked() && View() == Ended(old(View()), victim)
      ensures Timed()
      ensures clock.calls == old(clock.calls) +
                FlushIf(old(View()).curr.value !in LiveSet(View().pid) && mode == Running)
    {
      RunnerLive(View());
      if victim.Some? { Terminate(victim.value); }
    }

    method FindVictim(pid: nat) returns (victim: Option<Proc>)
      requires Timed() && Linked() && curr.Some? && Core(View(), curr) && pid != 0
      ensures Timed() && Linked() && View() == old(View())
      ensures Sized(View()) && victim == ProcessOf(View(), pid)
      ensures victim.Some? ==> victim.value < |ids.pid| && ids.pid[victim.value] != Pids.FREE_PID
    {
      TermPlan(View(), pid);
      victim := FindNamed(pid);
    }

    method FindNamed(pid: nat) returns (victim: Option<Proc>)
      requires Timed() && Linked() && Sized(View()) && Pids.Sorted(View().pids, View().pid)
      ensures Timed() && Linked() && View() == old(View()) && victim == ProcessOf(View(), pid)
    {
      victim := ids.GetProcessByPid(pid);
      FindPidIs(ids.List(), ids.pid, pid, victim);
    }

    /** TERMPROCESS of a process found by its identifier: it may be an ancestor of the caller. */
    method Terminate(p: Proc)
      requires Timed() && Linked() && curr.Some? && Core(View(), curr) && p < |ids.pid| && ids.pid[p] != Pids.FREE_PID
      modifies Repr(), clock
      ensures Linked() && CanDie(old(View())) && p in LiveSet(old(View()).pid)
      ensures View() == Terminated(old(View()), p)
      ensures Timed()
      ensures clock.calls == old(clock.calls) +
                FlushIf(old(View()).curr.value !in LiveSet(View().pid) && mode == Running)
    {
      ghost var s := View();
      RunnerLive(s);
      KillLive(p);
      assert View() == Kill(s, p);
      RescheduleIfDead();
    }

    method RescheduleIfDead()
      requires Timed() && Linked() && curr.Some? && curr.value < |ids.pid|
      modifies this, plist, plist.nodes, clock
      ensures Linked()
      ensures var s := old(View()); View() == if s.curr.value in LiveSet(s.pid) then s else Schedule(s)
      ensures Timed()
      ensures clock.calls == old(clock.calls) +
                FlushIf(old(View()).curr.value !in LiveSet(View().pid) && mode == Running)
    {
      ScheduleKeepsLive(View());
      if ids.pid[curr.value] == Pids.FREE_PID { Scheduler(); }
    }

    /** _passUpOrDieHandler; passing the exception up changes no kernel structure. */
    method TrapHandler()
      requires Timed() && Linked() && curr.Some? && Core(View(), curr)
      modifies Repr(), clock
      ensures Linked() && CanDie(old(View())) && View() == Trap(old(View()))
      ensures Timed() && clock.calls == old(clock.calls) + FlushIf(old(support[curr.value]) == None && mode == Running)
    {
      RunnerLive(View());
      if support[curr.value] == None { Die(); }
    }

    // ----- the kernel as a whole -----

    lemma RunnerReady()
      requires Linked() && curr.Some? && Core(View(), curr)
      ensures Ready()
    {
      OffQueues(View(), curr.value);
      Loose(curr.value);
    }

    lemma CanAllocate()
      requires Linked() && curr.Some? && Core(View(), curr)
      ensures Allocatable()
    {
      FreeIsAllocatable(View(), curr);
    }

    /** A system call or trap of the running process. */
    method HandleCall(e: Event)
      requires Timed() && Linked() && Valid(View()) && Enabled(View(), e) && mode == Running
      requires !IsInterrupt(e)
      modifies Repr(), clock
      ensures Linked() && View() == Step(old(View()), e)
      ensures Timed() && clock.calls == old(clock.calls) + CallsBy(old(View()), e, View())
    {
      if e.P? || e.V? || e.IO? || e.Clock? {
        HandleSemaphore(e);
      } else if e.Create? {
        HandleCreate(e);
      } else if e.Term? || e.Exception? {
        HandleDeath(e);
      } else {
        HandleOwn(e);
      }
    }

    method HandleSemaphore(e: Event)
      requires Timed() && Linked() && Valid(View()) && Enabled(View(), e) && mode == Running
      requires e.P? || e.V? || e.IO? || e.Clock?
      modifies Repr(), clock
      ensures Linked() && View() == Step(old(View()), e)
      ensures Timed() && clock.calls == old(clock.calls) + CallsBy(old(View()), e, View())
    {
      RunnerReady();
      match e
      case P(k) => SemP(k);
      case V(k) => SemV(k);
      case IO(k) =>
        CellOf(View(), curr, k);
        DoIO(k);
      case Clock => DoIO(SEMAPHORE_IT);
    }

    method HandleCreate(e: Event)
      requires Timed() && Linked() && Valid(View()) && Enabled(View(), e) && mode == Running && e.Create?
      modifies Repr(), clock
      ensures Linked() && View() == Step(old(View()), e)
      ensures Timed() && clock.calls == old(clock.calls) + CallsBy(old(View()), e, View())
    {
      FamilyIs(View(), e);
      CanAllocate();
      var result := CreateProcess(e.prio, e.support);
    }

    method HandleDeath(e: Event)
      requires Timed() && Linked() && Valid(View()) && Enabled(View(), e) && mode == Running
               && (e.Term? || e.Exception?)
      modifies Repr(), clock
      ensures Linked() && View() == Step(old(View()), e)
      ensures Timed() && clock.calls == old(clock.calls) + CallsBy(old(View()), e, View())
    {
      FamilyIs(View(), e);
      if e.Term? { TermProcess(e.pid); } else { TrapHandler(); }
    }

    method HandleOwn(e: Event)
      requires Timed() && Linked() && Valid(View()) && Enabled(View(), e) && mode == Running
      requires e.GetTime? || e.Query? || e.YieldCall?
      modifies Repr(), clock
      ensures Linked() && View() == Step(old(View()), e)
      ensures Timed() && clock.calls == old(clock.calls) + CallsBy(old(View()), e, View())
    {
      OwnIs(View(), e);
      RunnerReady();
      ServeOwn(e);
    }

    /** _getCPUTime: the time of the caller, up to now. */
    method GetCpuTime() returns (time: int)
      requires Timed() && Linked() && curr.Some? && curr.value < |prio|
      modifies clock
      ensures Linked() && View() == old(View())
      ensures Timed() && clock.calls == old(clock.calls) + [Charge(curr.value)]
      ensures time == old(clock.pTime)[curr.value] + (clock.tod(old(clock.used)).first - old(clock.timerStart))
      ensures clock.pTime == old(clock.pTime)[curr.value := time]
    {
      clock.UpdateProcessCPUTime(curr.value);
      time := clock.pTime[curr.value];
    }

    method ServeOwn(e: Event)
      requires Timed() && Ready() && (e.GetTime? || e.Query? || e.YieldCall?)
      modifies this, plist, plist.nodes, clock
      ensures Linked() && View() == if e.YieldCall? then KernelState.Yield(old(View())) else old(View())
      ensures Timed() && clock.calls == old(clock.calls) + CallsBy(old(View()), e, View())
    {
      match e
      case GetTime => var time := GetCpuTime();
      case Query =>
      case YieldCall => YieldCpu();
    }

    method HandleSlice()
      requires Timed() && Linked() && curr.Some? && Core(View(), curr)
      modifies Repr(), clock
      ensures Linked() && Sized(old(View())) && View() == TimeSlice(old(View()))
      ensures Timed() && clock.calls == old(clock.calls) + (ChargeCalls(old(View())) + LeaveCalls(old(View()), View()))
    {
      ghost var s := View();
      ChargeCurrent();
      assert View() == s;
      RunnerReady();
      PltHandler();
      Joined(old(clock.calls), ChargeCalls(s), LeaveCalls(s, View()));
    }

    method HandleTimer()
      requires Timed() && Linked() && Core(View(), Runner(View())) && (curr.Some? ==> curr.value < |prio|)
      modifies Repr(), clock
      ensures Linked() && Sized(old(View())) && View() == IntervalTimer(old(View()))
      ensures Timed() && clock.calls == old(clock.calls) + (ChargeCalls(old(View())) + ExitCalls(old(View()), View()))
    {
      ghost var s := View();
      CellOf(s, Runner(s), SEMAPHORE_IT);
      ChargeCurrent();
      assert View() == s;
      ItHandler();
      Joined(old(clock.calls), ChargeCalls(s), ExitCalls(s, View()));
    }

    method HandleDevice(k: Key)
      requires Timed() && Linked() && Core(View(), Runner(View())) && IsDevice(k) && Waited(View(), k)
      requires curr.Some? ==> curr.value < |prio|
      modifies Repr(), clock
      ensures Linked() && Sized(old(View())) && View() == DeviceDone(old(View()), k)
      ensures Timed() && clock.calls == old(clock.calls) + (ChargeCalls(old(View())) + ExitCalls(old(View()), View()))
    {
      ghost var s := View();
      DeviceIsSoft(k);
      CellOf(s, Runner(s), k);
      ChargeCurrent();
      assert View() == s;
      DeviceInterrupt(k);
      Joined(old(clock.calls), ChargeCalls(s), ExitCalls(s, View()));
    }

    method HandleSpurious()
      requires Timed() && Linked() && (curr.Some? ==> curr.value < |prio|)
      modifies this, plist, plist.nodes, clock
      ensures Linked() && View() == Resume(old(View()))
      ensures Timed() && clock.calls == old(clock.calls) + (ChargeCalls(old(View())) + ExitCalls(old(View()), View()))
    {
      ghost var s := View();
      ChargeCurrent();
      assert View() == s;
      InterruptExit();
      Joined(old(clock.calls), ChargeCalls(s), ExitCalls(s, View()));
    }

    method HandleInterrupt(e: Event)
      requires Timed() && Linked() && Valid(View()) && Enabled(View(), e)
      requires IsInterrupt(e)
      modifies Repr(), clock
      ensures Linked() && View() == Step(old(View()), e)
      ensures Timed() && clock.calls == old(clock.calls) + CallsBy(old(View()), e, View())
    {
      ghost var s := View();
      InterruptIs(s, e);
      ServeInterrupt(e);
      InterruptCalls(s, e, View());
    }

    /** interruptHandler. */
    method ServeInterrupt(e: Event)
      requires Timed() && Linked() && Core(View(), Runner(View())) && IsInterrupt(e)
      requires curr.Some? ==> curr.value < |prio|
      requires e.Slice? ==> curr.Some? && Core(View(), curr)
      requires e.Device? ==> IsDevice(e.k) && Waited(View(), e.k)
      modifies Repr(), clock
      ensures Linked() && Sized(old(View()))
      ensures View() == (if e.Slice? then TimeSlice(old(View())) else if e.Timer? then IntervalTimer(old(View()))
                         else if e.Device? then DeviceDone(old(View()), e.k) else Resume(old(View())))
      ensures Timed()
      ensures clock.calls == old(clock.calls) + (ChargeCalls(old(View())) +
                (if e.Slice? then LeaveCalls(old(View()), View()) else ExitCalls(old(View()), View())))
    {
      match e
      case Slice => HandleSlice();
      case Timer => HandleTimer();
      case Device(k) => HandleDevice(k);
      case Spurious => HandleSpurious();
    }

    method ChargeCurrent()
      requires Timed() && Linked() && (curr.Some? ==> curr.value < |prio|)
      modifies clock
      ensures Linked() && View() == old(View())
      ensures Timed() && clock.calls == old(clock.calls) + ChargeCalls(old(View()))
    {
      if curr != None { clock.UpdateProcessCPUTime(curr.value); }
    }

    /** One kernel entry, over the lists: it does what Step says, and the invariant holds again; and
        timer_start and p_time are those of the accounts that CpuTime.Ops leads to. */
    method Handle(e: Event)
      requires Timed() && Linked() && Valid(View()) && Enabled(View(), e)
      modifies Repr(), clock
      ensures Linked() && View() == Step(old(View()), e) && Valid(View()) && Effects.Does(old(View()), e, View())
      ensures Timed() && clock.timerStart == clock.Accounts().start && clock.pTime == clock.Accounts().time
      ensures var ops := ClockOps(old(View()), e);
              && clock.calls == old(clock.calls) + ops
              && Leads(old(clock.Accounts()), ops, Readings(clock.tod, old(|clock.calls|), |ops|), clock.Accounts())
    {
      ghost var s := View();
      OpsOf(s, e);
      Effects.EveryEntry(s, e);
      BooksGrow(|clock.pTime|, clock.calls, ClockOps(s, e), clock.tod);
      Enter(e);
    }

    method Enter(e: Event)
      requires Timed() && Linked() && Valid(View()) && Enabled(View(), e)
      modifies Repr(), clock
      ensures Linked() && View() == Step(old(View()), e) && Valid(View())
      ensures Timed() && clock.calls == old(clock.calls) + ClockOps(old(View()), e)
    {
      StepKeeps(View(), e);
      CallsAreOps(View(), e);
      if IsInterrupt(e) {
        HandleInterrupt(e);
      } else {
        HandleCall(e);
      }
    }

    /** main, from the initialised structures to the first dispatch. */
    method Start(ghost n: nat, ghost cells: map<Key, int>)
      requires Timed() && clock.calls == []
      requires 0 < n < Pids.WORD && Linked() && View() == Blank(n, cells)
      modifies Repr(), clock
      ensures Linked() && View() == Init(n, cells)
      ensures Timed() && clock.calls == [Reset(FIRST), Discard]
      ensures clock.tod(0).first <= clock.tod(1).second ==> Opening(clock.Accounts(), n, clock.tod(1).second)
    {
      CreateFirst(n, cells);
      Scheduler();
      if clock.tod(0).first <= clock.tod(1).second { BooksOpen(n, clock.tod); }
    }

    /** _createFirstProcess, its place on the low queue and in process_count. */
    method CreateFirst(ghost n: nat, ghost cells: map<Key, int>)
      requires Timed() && clock.calls == []
      requires 0 < n < Pids.WORD && Linked() && View() == Blank(n, cells)
      modifies Repr(), clock
      ensures Linked() && View() == Boot(n, cells)
      ensures Timed() && clock.calls == [Reset(FIRST)]
    {
      BlankAllocatable(n, cells);
      FirstProcess(n, cells);
      AllocFirst();
    }

    method AllocFirst()
      requires Timed() && Linked() && Sized(View()) && View().free != [] && Allocatable()
      modifies this, asl`semAdd, plist, plist.nodes, sib, sib.nodes, ids, ids.ring, ids.ring.nodes, clock
      ensures Linked()
      ensures var t := KernelState.AllocPcb(old(View()));
              var p := old(View()).free[0];
              View() == t.(count := t.count + 1, prio := t.prio[p := LowPrio], support := t.support[p := None],
                           low := t.low + [p])
      ensures Timed() && clock.calls == old(clock.calls) + [Reset(old(View()).free[0])]
    {
      ghost var s := View();
      var p := AllocPcb();
      ghost var t := KernelState.AllocPcb(s);
      assert View() == t;
      FillPcb(p.value, LowPrio, None);
      assert View() == t.(count := t.count + 1, prio := t.prio[p.value := LowPrio],
                          support := t.support[p.value := None], low := t.low + [p.value]);
    }
  }

  /** One turn of the loop of _ITHandler leaves its outcome alone, and one waiter fewer. */
  lemma DrainOnce(s: State)
    requires Sized(s) && Waited(s, SEMAPHORE_IT)
    ensures var t := Wake(s, SEMAPHORE_IT);
            && Sized(t) && DrainTimer(t.(soft := t.soft - 1)) == DrainTimer(s)
            && (if SEMAPHORE_IT in t.blocked then |t.blocked[SEMAPHORE_IT]| else 0) < |s.blocked[SEMAPHORE_IT]|
  {
    WakeSized(s, SEMAPHORE_IT);
  }

  lemma FreeIsAllocatable(s: State, run: Option<Proc>)
    requires Core(s, run)
    ensures Pids.Sorted(s.pids, s.pid) && |Pids.PidsOf(s.pids, s.pid)| < Pids.WORD
    ensures s.free != [] ==>
              var p := s.free[0];
              p < |s.prio| && s.kids[p] == [] && OnNone(s.kids, p) && p !in s.pids
  {
    Creation.UsedPids(s.pids, s.pid, s.free);
    if s.free != [] {
      var p := s.free[0];
      CoreLinks(s, run);
      assert Listed(s.pids, s.pid, s.free, p) && Unlinked(s.parent, s.kids, s.pid, p);
      forall g | 0 <= g < |s.kids| ensures p !in s.kids[g] { assert LinkAgrees(s.parent, s.kids, p, g); }
    }
  }

  lemma BlankAllocatable(n: nat, cells: map<Key, int>)
    requires 0 < n < Pids.WORD
    ensures var s := Blank(n, cells);
            && Sized(s) && Pids.Sorted(s.pids, s.pid) && |Pids.PidsOf(s.pids, s.pid)| < Pids.WORD
            && s.free != [] && s.kids[s.free[0]] == [] && OnNone(s.kids, s.free[0])
  {
    assert Pids.PidsOf([], seq(n, _ => Pids.FREE_PID)) == {};
  }

  /** main makes one low-priority process, with identifier 1. */
  lemma FirstProcess(n: nat, cells: map<Key, int>)
    requires 0 < n < Pids.WORD
    ensures var s := Blank(n, cells);
            && Sized(s) && s.free != []
            && var t := AllocPcb(s);
            s.free[0] == FIRST
            && t.(count := t.count + 1, prio := t.prio[FIRST := LowPrio], support := t.support[FIRST := None],
                  low := t.low + [FIRST]) == Boot(n, cells)
  {
    var s := Blank(n, cells);
    assert Pids.PidsOf([], s.pid) == {};
    var t, b := AllocPcb(s), Boot(n, cells);
    assert t.free == b.free && t.parent == b.parent && t.kids == b.kids && t.semAdd == b.semAdd;
    assert t.pid == b.pid && t.support == b.support && t.prio[FIRST := LowPrio] == b.prio;
    assert t.support[FIRST := None] == b.support;
  }

  /** The uses of the clock by an entry that leads from s to t, routine by routine. */
  ghost function CallsBy(s: State, e: Event, t: State): seq<Op>
    requires IsCall(e) ==> s.curr.Some? && s.curr.value < |s.support|
    requires (e.P? || e.V? || e.IO?) ==> e.k in s.val
    requires e.Clock? ==> SEMAPHORE_IT in s.val
  {
    match e
    case Create(_, _) => if s.free == [] then [] else [Reset(s.free[0])]
    case Term(_) => FlushIf(s.curr.value !in LiveSet(t.pid) && t.mode == Running)
    case P(k) => if s.val[k] == 0 then BlockCalls(s, k, t) else []
    case V(k) => if s.val[k] == 1 then BlockCalls(s, k, t) else []
    case IO(k) => if s.val[k] == 0 then BlockCalls(s, k, t) else []
    case Clock => if s.val[SEMAPHORE_IT] == 0 then BlockCalls(s, SEMAPHORE_IT, t) else []
    case GetTime => [Charge(s.curr.value)]
    case Query => []
    case YieldCall => LeaveCalls(s, t)
    case Exception => FlushIf(s.support[s.curr.value] == None && t.mode == Running)
    case Slice => ChargeCalls(s) + LeaveCalls(s, t)
    case _ => ChargeCalls(s) + ExitCalls(s, t)
  }

  lemma InterruptCalls(s: State, e: Event, t: State)
    requires IsInterrupt(e) && (e.Slice? ==> s.curr.Some? && s.curr.value < |s.support|)
    ensures CallsBy(s, e, t) == ChargeCalls(s) + if e.Slice? then LeaveCalls(s, t) else ExitCalls(s, t)
  {
  }

  /** Whether an entry from s to t ended in the scheduler. */
  ghost predicate Rescheduled(s: State, e: Event, t: State)
    requires IsCall(e) ==> s.curr.Some? && s.curr.value < |s.support|
    requires (e.P? || e.V?) ==> e.k in s.val
  {
    match e
    case P(k) => s.val[k] == 0
    case V(k) => s.val[k] == 1
    case Term(_) => s.curr.value !in LiveSet(t.pid)
    case Exception => s.support[s.curr.value] == None
    case Create(_, _) => false
    case GetTime => false
    case Query => false
    case Timer => s.curr == None
    case Device(_) => s.curr == None
    case Spurious => s.curr == None
    case _ => true
  }

  lemma RescheduledIs(s: State, e: Event)
    requires Valid(s) && Enabled(s, e)
    ensures IsCall(e) ==> s.curr.Some? && s.curr.value < |s.support|
    ensures (e.P? || e.V?) ==> e.k in s.val
    ensures Rescheduled(s, e, Step(s, e)) == Fairness.Reschedules(s, e)
  {
  }

  lemma CallsTable(s: State, e: Event, t: State)
    requires IsCall(e) ==> s.curr.Some? && s.curr.value < |s.support|
    requires (e.P? || e.V? || e.IO?) ==> e.k in s.val && !NoFreeDescriptor(s, e.k)
    requires e.IO? ==> s.val[e.k] == 0
    requires e.Clock? ==> SEMAPHORE_IT in s.val && s.val[SEMAPHORE_IT] == 0 && !NoFreeDescriptor(s, SEMAPHORE_IT)
    ensures CallsBy(s, e, t) == Ops(s, e, Rescheduled(s, e, t) && t.mode == Running)
  {
  }

  lemma SemaphoresReady(s: State, e: Event)
    requires Valid(s) && Enabled(s, e)
    ensures (e.P? || e.V? || e.IO?) ==> e.k in s.val && !NoFreeDescriptor(s, e.k)
    ensures e.IO? ==> s.val[e.k] == 0
    ensures e.Clock? ==> SEMAPHORE_IT in s.val && s.val[SEMAPHORE_IT] == 0 && !NoFreeDescriptor(s, SEMAPHORE_IT)
  {
    if e.IO? {
      DeviceIsSoft(e.k);
      CellOf(s, s.curr, e.k);
    }
    if e.Clock? {
      CellOf(s, s.curr, SEMAPHORE_IT);
      DescriptorLeft(s, s.curr.value, SEMAPHORE_IT);
    }
    if e.P? || e.V? || e.IO? { DescriptorLeft(s, s.curr.value, e.k); }
  }

  /** They are those the accounts of module CpuTime go by. */
  lemma CallsAreOps(s: State, e: Event)
    requires Valid(s) && Enabled(s, e)
    ensures IsCall(e) ==> s.curr.Some? && s.curr.value < |s.support|
    ensures (e.P? || e.V? || e.IO?) ==> e.k in s.val
    ensures e.Clock? ==> SEMAPHORE_IT in s.val
    ensures CallsBy(s, e, Step(s, e)) == ClockOps(s, e)
  {
    RescheduledIs(s, e);
    SemaphoresReady(s, e);
    CallsTable(s, e, Step(s, e));
  }

  lemma FamilyIs(s: State, e: Event)
    requires Valid(s) && Enabled(s, e) && s.mode == Running && (e.Create? || e.Term? || e.Exception?)
    ensures CanDie(s) && Core(s, s.curr)
    ensures e.Create? ==> Step(s, e) == KernelState.CreateProcess(s, e.prio, e.support)
    ensures e.Term? ==> Step(s, e) == KernelState.TermProcess(s, e.pid)
    ensures e.Exception? ==> Step(s, e) == Trap(s)
  {
    RunnerLive(s);
  }

  lemma OwnIs(s: State, e: Event)
    requires Valid(s) && Enabled(s, e) && s.mode == Running && (e.GetTime? || e.Query? || e.YieldCall?)
    ensures s.curr.Some? && Sized(s) && Step(s, e) == if e.YieldCall? then Yield(s) else s
  {
  }

  lemma ScheduleKeepsLive(s: State)
    ensures LiveSet(Schedule(s).pid) == LiveSet(s.pid)
  {
  }

  /** What becomes of s when the process found, if one is, is killed. */
  ghost function Ended(s: State, victim: Option<Proc>): State {
    if victim.Some? && CanDie(s) && victim.value in LiveSet(s.pid) then Terminated(s, victim.value) else s
  }

  lemma TermPlan(s: State, pid: nat)
    requires s.curr.Some? && Core(s, s.curr) && pid != 0
    ensures CanDie(s) && Pids.Sorted(s.pids, s.pid)
    ensures ProcessOf(s, pid) == None ==> KernelState.TermProcess(s, pid) == s && s.curr.value in LiveSet(s.pid)
    ensures ProcessOf(s, pid).Some? ==>
              var p := ProcessOf(s, pid).value;
              && p < |s.pid| && s.pid[p] != Pids.FREE_PID
              && KernelState.TermProcess(s, pid) == Terminated(s, p)
  {
    RunnerLive(s);
    NamedVictim(s, pid);
  }

  ghost predicate CanDie(s: State) {
    && Sized(s) && IsTree(s) && s.curr.Some? && s.curr.value in LiveSet(s.pid)
    && forall p :: p in s.pids ==> p in LiveSet(s.pid)
  }

  lemma RunnerLive(s: State)
    requires s.curr.Some? && Core(s, s.curr)
    ensures CanDie(s) && Pids.Sorted(s.pids, s.pid)
  {
    assert OnePlace(s.free, s.high, s.low, s.semAdd, s.curr, s.curr.value);
    assert Listed(s.pids, s.pid, s.free, s.curr.value);
    forall p | p in s.pids ensures p in LiveSet(s.pid) { assert Listed(s.pids, s.pid, s.free, p); }
  }

  /** With identifiers in strict order, whatever search finds a process finds this one. */
  lemma {:induction false} FindPidIs(list: seq<Proc>, pid: seq<nat>, x: nat, r: Option<Proc>)
    requires Pids.Sorted(list, pid)
    requires r.Some? ==> r.value in list && r.value < |pid| && pid[r.value] == x
    requires r.None? ==> forall p :: p in list ==> p < |pid| && pid[p] != x
    ensures Below(list, |pid|) && FindPid(list, pid, x) == r
  {
    if list != [] {
      var t := list[1..];
      forall i, j | 0 <= i < j < |t| ensures Pids.InOrder(t, pid, i, j) {
        assert Pids.InOrder(list, pid, i + 1, j + 1);
      }
      if pid[list[0]] == x {
        forall j | 0 < j < |list| ensures pid[list[j]] != x { assert Pids.InOrder(list, pid, 0, j); }
        assert list[0] in list;
      } else {
        FindPidIs(t, pid, x, r);
      }
    }
  }

  lemma KidsNoDup(f: RingFamily)
    requires f.Valid()
    ensures forall k :: 0 <= k < |f.contents| ==> NoDup(f.contents[k])
  {
    forall k | 0 <= k < |f.contents| ensures NoDup(f.contents[k]) { QueueNoDup(f, k); }
  }

  /** A record is on one list of its family at most. */
  lemma OnlyOn(f: RingFamily, k: nat, e: nat)
    requires f.Valid() && k < |f.contents| && e in f.contents[k]
    ensures NoDup(f.contents[k]) && e < |f.links|
    ensures forall l :: 0 <= l < |f.contents| && l != k ==> e !in f.contents[l]
  {
    QueueNoDup(f, k);
    forall l | 0 <= l < |f.contents| && l != k ensures e !in f.contents[l] {
      if l < k { assert Apart(f.contents[l], f.contents[k]); } else { assert Apart(f.contents[k], f.contents[l]); }
    }
  }

  function Linkup(s: State, p: Proc, prio: Prio, support: Option<nat>): State
    requires s.curr.Some? && s.curr.value < |s.kids| && p < |s.parent| && p < |s.prio| && p < |s.support|
  {
    var b := s.(count := s.count + 1, prio := s.prio[p := prio], support := s.support[p := support]);
    var c := if prio == LowPrio then b.(low := b.low + [p]) else b.(high := b.high + [p]);
    c.(kids := c.kids[s.curr.value := c.kids[s.curr.value] + [p]], parent := c.parent[p := s.curr])
  }

  lemma OneReleased(s: State, p: Proc)
    requires p < |s.pid|
    ensures Release(s, [p]) ==
      s.(free := [p] + s.free, pids := Without(s.pids, {p}), pid := PidWithout(s.pid, {p}))
  {
    assert Elements([p]) == {p} && Reverse([p]) == [p];
  }

  lemma AllocatedPid(s: State)
    requires Sized(s)
    ensures s.free != [] ==> AllocPcb(s).pid[s.free[0]] == KernelState.GeneratedPid(s)
  {
  }

  lemma CreateIsLinkup(s: State, prio: Prio, support: Option<nat>)
    requires Sized(s) && s.curr.Some?
    ensures CreateProcess(s, prio, support) == if s.free == [] then s else Linkup(AllocPcb(s), s.free[0], prio, support)
  {
  }

  lemma OffQueues(s: State, p: Proc)
    requires Core(s, Some(p))
    ensures p !in s.free && p !in s.high && p !in s.low && p < |s.pid| && s.semAdd[p] == None
    ensures forall k :: k in s.blocked ==> p !in s.blocked[k]
  {
    assert OnePlace(s.free, s.high, s.low, s.semAdd, Some(p), p);
    forall k | k in s.blocked ensures p !in s.blocked[k] { assert Queue(s.semAdd, k, s.blocked[k]); }
  }
}
