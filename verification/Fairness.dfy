/** Who runs next: the order of service of the two ready queues (phase2/scheduler.c). */
module Fairness {
  import opened Options
  import opened Sequences
  import opened Forests
  import opened KernelState
  import opened Invariant
  import opened Destruction
  import opened Runs
  import opened Semaphores
  import Creation
  import Pids

  /** Whether an entry ends in the scheduler, rather than back in the process it interrupted. */
  ghost predicate Reschedules(s: State, e: Event)
    requires Valid(s) && Enabled(s, e)
  {
    match e
    case P(k) => s.val[k] == 0
    case V(k) => s.val[k] == 1
    case IO(_) => true
    case Clock => true
    case YieldCall => true
    case Slice => true
    case Exception => RunningAlive(s); s.support[s.curr.value] == None
    case Term(pid) => s.curr.value !in LiveSet(Step(s, e).pid)
    case Timer => s.curr == None
    case Device(_) => s.curr == None
    case Spurious => s.curr == None
    case _ => false
  }

  /** m comes from s by killing some processes and queueing others at the back. */
  ghost predicate Grown(s: State, m: State, dead: set<Proc>) {
    && Without(s.high, dead) <= m.high
    && Without(s.low, dead) <= m.low
    && dead !! LiveSet(m.pid)
  }

  lemma NobodyDead(s: State, m: State)
    requires s.high <= m.high && s.low <= m.low
    ensures Grown(s, m, {})
  {
    WithoutNone(s.high, {});
    WithoutNone(s.low, {});
  }

  lemma WakeGrows(s: State, k: Key)
    requires Sized(s) && Waited(s, k)
    ensures s.high <= Wake(s, k).high && s.low <= Wake(s, k).low
  {
  }

  lemma WakePriorities(s: State, k: Key)
    requires Sized(s) && Waited(s, k) && Priorities(s.high, s.low, s.prio)
    ensures Priorities(Wake(s, k).high, Wake(s, k).low, Wake(s, k).prio)
  {
  }

  lemma {:induction false} DrainGrows(s: State)
    requires Sized(s)
    ensures s.high <= DrainTimer(s).high && s.low <= DrainTimer(s).low
    decreases if SEMAPHORE_IT in s.blocked then |s.blocked[SEMAPHORE_IT]| else 0
  {
    if Waited(s, SEMAPHORE_IT) {
      WakeSized(s, SEMAPHORE_IT);
      WakeGrows(s, SEMAPHORE_IT);
      var t := Wake(s, SEMAPHORE_IT);
      DrainGrows(t.(soft := t.soft - 1));
    }
  }

  lemma KillGrows(s: State, run: Option<Proc>, p: Proc)
    requires Core(s, run) && p in LiveSet(s.pid)
    ensures Grown(s, Kill(s, p), Dead(s, Kill(s, p)))
  {
    DeadAreDoomed(s, run, p);
  }

  /** Where process p of a queue stands after a change that kills others and queues behind. */
  lemma {:induction false} IndexAfterCut(q: seq<Proc>, dead: set<Proc>, i: nat) returns (j: nat)
    requires i < |q| && q[i] !in dead
    ensures j <= i && j < |Without(q, dead)| && Without(q, dead)[j] == q[i]
  {
    if q[0] in dead {
      j := IndexAfterCut(q[1..], dead, i - 1);
    } else if i == 0 {
      j := 0;
    } else {
      j := IndexAfterCut(q[1..], dead, i - 1);
      j := j + 1;
    }
  }

  /** m is the state in which an entry from s that ends in t reaches the scheduler or goes back to
      the process it interrupted. */
  ghost predicate Via(s: State, m: State, t: State, resched: bool) {
    && t == (if resched then Schedule(m) else m) && (!resched ==> t.curr == s.curr)
    && Grown(s, m, Dead(s, t)) && m.pid == t.pid && |m.pid| == |s.pid| && Priorities(m.high, m.low, m.prio)
    && (m.skip.Some? ==> m.skip == s.curr && m.skip.value !in s.high && m.skip.value !in s.low)
  }

  lemma ViaLiving(s: State, m: State, resched: bool)
    requires m.pid == s.pid && s.high <= m.high && s.low <= m.low && Priorities(m.high, m.low, m.prio)
    requires m.skip.Some? ==> m.skip == s.curr && m.skip.value !in s.high && m.skip.value !in s.low
    requires !resched ==> m.curr == s.curr
    ensures Via(s, m, if resched then Schedule(m) else m, resched)
  {
    var t := if resched then Schedule(m) else m;
    assert Dead(s, t) == {};
    NobodyDead(s, m);
  }

  lemma ViaSemaphore(s: State, k: Key, soft: int, op: bool) returns (m: State)
    requires Valid(s) && s.mode == Running && k in s.val
    ensures Sized(s.(soft := soft)) && s.skip == None
    ensures var u := s.(soft := soft);
            Via(s, m, if op then SemP(u, k) else SemV(u, k), s.val[k] == if op then 0 else 1)
  {
    RunnerFits(s, k);
    var u := s.(soft := soft);
    if s.val[k] == (if op then 0 else 1) {
      m := InsertBlocked(u, k, s.curr.value);
      ViaLiving(s, m, true);
    } else {
      m := if Waited(u, k) then Wake(u, k) else u.(val := u.val[k := if op then 0 else 1]);
      if Waited(u, k) { WakeGrows(u, k); WakeFrame(u, k, k); WakePriorities(u, k); }
      ViaLiving(s, m, false);
    }
  }

  lemma ViaCut(s: State, m: State, dead: set<Proc>)
    requires Grown(s, m, dead) && m.skip == None && m.curr == s.curr && dead == Dead(s, m)
             && Priorities(m.high, m.low, m.prio) && |m.pid| == |s.pid|
    ensures Via(s, m, m, false) && Via(s, m, Schedule(m), true)
  {
    ScheduleFrame(m, 0);
    assert Dead(s, Schedule(m)) == Dead(s, m);
  }

  lemma ViaKill(s: State, p: Proc)
    requires Core(s, s.curr) && s.skip == None && p in LiveSet(s.pid)
    ensures Via(s, Kill(s, p), Kill(s, p), false) && Via(s, Kill(s, p), Schedule(Kill(s, p)), true)
  {
    KillGrows(s, s.curr, p);
    KillKeepsQueues(s, s.curr, p);
    ViaCut(s, Kill(s, p), Dead(s, Kill(s, p)));
  }

  lemma ViaCreate(s: State, prio: Prio, support: Option<nat>)
    requires Valid(s) && s.mode == Running && (s.free == [] || GeneratedPid(s) != Pids.FREE_PID)
    ensures var t := CreateProcess(s, prio, support); Via(s, t, t, false)
  {
    var t := CreateProcess(s, prio, support);
    if s.free == [] {
      ViaLiving(s, s, false);
    } else {
      var x := GeneratedPid(s);
      Creation.CreateIs(s, s.curr.value, prio, support);
      Creation.NewLive(s.pid, s.free[0], x);
      Creation.CreatedQueues(s, s.curr.value, prio, support, x);
      assert Dead(s, t) == {};
      NobodyDead(s, t);
    }
  }

  lemma ViaResume(s: State, m: State)
    requires m.pid == s.pid && s.high <= m.high && s.low <= m.low && m.skip == None
    requires Priorities(m.high, m.low, m.prio)
    requires m.curr == s.curr && (m.curr.Some? ==> m.mode == Running)
    ensures Via(s, m, Resume(m), s.curr == None)
  {
    if m.curr.Some? { assert m.(mode := Running) == m; }
    ViaLiving(s, m, s.curr == None);
  }

  lemma MiddleTimer(s: State) returns (m: State)
    requires Core(s, Runner(s)) && Outcome(s) && (s.mode == Running || s.mode == Waiting)
    ensures Via(s, m, IntervalTimer(s), s.curr == None)
  {
    DrainGrows(s);
    DrainFrame(s, SEMAPHORE_IT + 1);
    DrainKeeps(s, Runner(s));
    m := DrainTimer(s);
    m := m.(val := m.val[SEMAPHORE_IT := 0]);
    ViaResume(s, m);
  }

  lemma MiddleDevice(s: State, k: Key) returns (m: State)
    requires Core(s, Runner(s)) && Outcome(s) && (s.mode == Running || s.mode == Waiting) && Waited(s, k)
    ensures Via(s, m, DeviceDone(s, k), s.curr == None)
  {
    WakeGrows(s, k);
    WakeFrame(s, k, k);
    WakePriorities(s, k);
    WakeUnaffected(s, Runner(s), k);
    m := Wake(s, k);
    m := m.(soft := m.soft - 1);
    ViaResume(s, m);
  }

  lemma MiddleInterrupt(s: State, e: Event) returns (m: State)
    requires Valid(s) && Enabled(s, e) && (e.Timer? || e.Device? || e.Spurious?)
    ensures Via(s, m, Step(s, e), s.curr == None)
  {
    match e
    case Timer => m := MiddleTimer(s);
    case Device(k) => m := MiddleDevice(s, k);
    case Spurious =>
      m := s;
      ViaResume(s, s);
  }

  lemma ViaReady(s: State)
    requires Valid(s) && s.mode == Running && s.curr.value !in s.high && s.curr.value !in s.low
    ensures var m := SetReady(s.(skip := s.curr), s.curr.value).(curr := None); Via(s, m, Yield(s), true)
    ensures var m := SetReady(s, s.curr.value).(curr := None); Via(s, m, TimeSlice(s), true)
  {
    ViaLiving(s, SetReady(s.(skip := s.curr), s.curr.value).(curr := None), true);
    ViaLiving(s, SetReady(s, s.curr.value).(curr := None), true);
  }

  lemma MiddleIO(s: State, k: Key) returns (m: State)
    requires Valid(s) && s.mode == Running && IsDevice(k)
    ensures k in s.val && Via(s, m, DoIO(s, k), true)
  {
    DeviceIsSoft(k);
    m := MiddleSoft(s, k);
  }

  lemma MiddleSoft(s: State, k: Key) returns (m: State)
    requires Valid(s) && s.mode == Running && (IsDevice(k) || k == SEMAPHORE_IT)
    ensures k in s.val && Sized(s) && s.curr.Some? && Via(s, m, DoIO(s, k), true)
  {
    CellOf(s, s.curr, k);
    if IsDevice(k) { DeviceIsSoft(k); }
    m := ViaSemaphore(s, k, s.soft + 1, true);
  }

  lemma ViaPV(s: State, k: Key, op: bool) returns (m: State)
    requires Valid(s) && s.mode == Running && k in s.val
    ensures Via(s, m, if op then SemP(s, k) else SemV(s, k), s.val[k] == if op then 0 else 1)
  {
    m := ViaSemaphore(s, k, s.soft, op);
    assert s.(soft := s.soft) == s;
  }

  lemma MiddleCall(s: State, e: Event) returns (m: State)
    requires Valid(s) && Enabled(s, e) && s.mode == Running && !(e.Timer? || e.Device? || e.Spurious?)
    ensures Via(s, m, Step(s, e), Reschedules(s, e))
  {
    RunningAlive(s);
    m := s;
    match e
    case Create(prio, support) =>
      ViaCreate(s, prio, support);
      m := CreateProcess(s, prio, support);
    case Term(pid) => m := MiddleTerm(s, pid);
    case P(k) => m := ViaPV(s, k, true);
    case V(k) => m := ViaPV(s, k, false);
    case IO(k) => m := MiddleIO(s, k);
    case Clock => m := MiddleClock(s);
    case GetTime => ViaLiving(s, s, false);
    case Query => ViaLiving(s, s, false);
    case YieldCall =>
      ViaReady(s);
      m := SetReady(s.(skip := s.curr), s.curr.value).(curr := None);
    case Exception => m := MiddleTrap(s);
    case Slice =>
      ViaReady(s);
      m := SetReady(s, s.curr.value).(curr := None);
  }

  lemma MiddleClock(s: State) returns (m: State)
    requires Valid(s) && s.mode == Running
    ensures Via(s, m, ClockWait(s), true)
  {
    m := MiddleSoft(s, SEMAPHORE_IT);
  }

  lemma MiddleTrap(s: State) returns (m: State)
    requires Valid(s) && s.mode == Running && s.curr.value in LiveSet(s.pid)
    ensures Via(s, m, Trap(s), s.support[s.curr.value] == None)
  {
    if s.support[s.curr.value] == None {
      ViaKill(s, s.curr.value);
      m := Kill(s, s.curr.value);
    } else {
      m := s;
      ViaLiving(s, s, false);
    }
  }

  lemma MiddleTerm(s: State, pid: nat) returns (m: State)
    requires Valid(s) && s.mode == Running && s.curr.value in LiveSet(s.pid)
    requires forall p :: p in s.pids ==> p in LiveSet(s.pid)
    ensures Via(s, m, TermProcess(s, pid), s.curr.value !in LiveSet(TermProcess(s, pid).pid))
  {
    var c := s.curr.value;
    var victim := ProcessOf(s, pid);
    if pid == 0 {
      ViaKill(s, c);
      SelfDies(s, c);
      m := Kill(s, c);
    } else if victim.Some? {
      ViaKill(s, victim.value);
      m := Kill(s, victim.value);
    } else {
      m := s;
      ViaLiving(s, s, false);
    }
  }

  lemma Middle(s: State, e: Event) returns (m: State)
    requires Valid(s) && Enabled(s, e)
    ensures Via(s, m, Step(s, e), Reschedules(s, e))
  {
    if e.Timer? || e.Device? || e.Spurious? {
      m := MiddleInterrupt(s, e);
    } else {
      m := MiddleCall(s, e);
    }
  }

  // ----- bounded bypass -----

  /** The entry makes the scheduler dispatch a process. */
  ghost predicate Selects(s: State, e: Event)
    requires Valid(s) && Enabled(s, e)
  {
    Reschedules(s, e) && Step(s, e).mode == Running
  }

  /** ... and it is one of low priority. */
  ghost predicate SelectsLow(s: State, e: Event)
    requires Valid(s) && Enabled(s, e)
  {
    Selects(s, e) && (StepKeeps(s, e); Step(s, e).prio[Step(s, e).curr.value] == LowPrio)
  }

  lemma NotHalted(t: State, p: Proc)
    requires Valid(t) && p in LiveSet(t.pid)
    ensures t.count != 0
  {
  }

  lemma ThroughHigh(s: State, m: State, t: State, resched: bool, p: Proc, i: nat) returns (j: nat)
    requires Via(s, m, t, resched) && t.count != 0 && i < |s.high| && s.high[i] == p && p !in Dead(s, t)
    ensures (t.mode == Running && t.curr == Some(p)) ||
            (j <= i && j < |t.high| && t.high[j] == p && (resched ==> j < i))
  {
    var q := Without(s.high, Dead(s, t));
    j := IndexAfterCut(s.high, Dead(s, t), i);
    assert m.high[j] == q[j] == p && m.high[0] == q[0] && q[0] in q;
    if resched && j > 0 { j := j - 1; }
  }

  lemma ThroughLow(s: State, m: State, t: State, resched: bool, p: Proc, i: nat) returns (j: nat)
    requires Via(s, m, t, resched) && t.count != 0 && i < |s.low| && s.low[i] == p && p !in Dead(s, t)
    ensures (t.mode == Running && t.curr == Some(p)) ||
            (j <= i && j < |t.low| && t.low[j] == p &&
              (resched && t.mode == Running && t.curr.Some? && t.curr.value < |t.prio|
               && t.prio[t.curr.value] == LowPrio ==>
                 j < i))
  {
    var q := Without(s.low, Dead(s, t));
    j := IndexAfterCut(s.low, Dead(s, t), i);
    assert m.low[j] == q[j] == p;
    if resched {
      if TakesHigh(m) { assert m.high[0] in m.high; } else if j > 0 { j := j - 1; }
    }
  }

  /** A process waiting on the high queue moves up with every selection, or is the one selected. */
  lemma HighMoves(s: State, e: Event, p: Proc, i: nat) returns (j: nat)
    requires Valid(s) && Enabled(s, e) && i < |s.high| && s.high[i] == p && p in LiveSet(Step(s, e).pid)
    ensures var t := Step(s, e);
            (t.mode == Running && t.curr == Some(p)) ||
            (j <= i && j < |t.high| && t.high[j] == p && (Reschedules(s, e) ==> j < i))
  {
    var m := Middle(s, e);
    StepKeeps(s, e);
    NotHalted(Step(s, e), p);
    j := ThroughHigh(s, m, Step(s, e), Reschedules(s, e), p, i);
  }

  lemma LowMoves(s: State, e: Event, p: Proc, i: nat) returns (j: nat)
    requires Valid(s) && Enabled(s, e) && i < |s.low| && s.low[i] == p && p in LiveSet(Step(s, e).pid)
    ensures var t := Step(s, e);
            (t.mode == Running && t.curr == Some(p)) ||
            (j <= i && j < |t.low| && t.low[j] == p && (SelectsLow(s, e) ==> j < i))
  {
    var m := Middle(s, e);
    StepKeeps(s, e);
    NotHalted(Step(s, e), p);
    j := ThroughLow(s, m, Step(s, e), Reschedules(s, e), p, i);
  }

  /** p stays ready, on the queue of its priority, all along the run. */
  ghost predicate Passed(s: State, es: seq<Event>, p: Proc, high: bool)
    requires Valid(s) && IsRun(s, es)
    decreases |es|
  {
    && p in (if high then s.high else s.low)
    && (es != [] ==> (StepKeeps(s, es[0]); Passed(Step(s, es[0]), es[1..], p, high)))
  }

  /** How many processes (or low-priority processes) a run dispatches. */
  ghost function Selections(s: State, es: seq<Event>, high: bool): nat
    requires Valid(s) && IsRun(s, es)
    decreases |es|
  {
    if es == [] then 0
    else
      StepKeeps(s, es[0]);
      (if (if high then Selects(s, es[0]) else SelectsLow(s, es[0])) then 1 else 0)
        + Selections(Step(s, es[0]), es[1..], high)
  }

  lemma ReadyIsLive(s: State, p: Proc)
    requires Valid(s) && (p in s.high || p in s.low)
    ensures p in LiveSet(s.pid) && !(s.mode == Running && s.curr == Some(p))
  {
    assert p < |s.pid|;
    assert OnePlace(s.free, s.high, s.low, s.semAdd, Runner(s), p) && Listed(s.pids, s.pid, s.free, p);
  }

  /** A high-priority process at index i of its queue is passed over by at most i dispatches, and a
      low-priority one by at most i dispatches of low-priority processes. */
  lemma {:induction false} BoundedBypass(s: State, es: seq<Event>, p: Proc, i: nat, high: bool)
    requires Valid(s) && IsRun(s, es) && Passed(s, es, p, high)
    requires var q := if high then s.high else s.low; i < |q| && q[i] == p
    ensures Selections(s, es, high) <= i
    decreases |es|
  {
    if es != [] {
      StepKeeps(s, es[0]);
      var t := Step(s, es[0]);
      assert Passed(t, es[1..], p, high);
      ReadyIsLive(t, p);
      var j: nat;
      if high { j := HighMoves(s, es[0], p, i); } else { j := LowMoves(s, es[0], p, i); }
      BoundedBypass(t, es[1..], p, j, high);
    }
  }

  /** YIELD gives the processor to the head of the high queue, failing that to the head of the low
      one, and back to the yielder only when nobody else is ready. */
  lemma YieldHandsOver(s: State)
    requires Valid(s) && s.mode == Running
    ensures var t := Yield(s);
            && t.mode == Running
            && t.curr == (if s.high != [] then Some(s.high[0]) else if s.low != [] then Some(s.low[0]) else s.curr)
            && (t.curr == s.curr <==> s.high == [] && s.low == [])
  {
    RunningAlive(s);
    NotHalted(s, s.curr.value);
    if s.high != [] { assert s.high[0] in s.high; }
    if s.low != [] { assert s.low[0] in s.low; }
  }
}
