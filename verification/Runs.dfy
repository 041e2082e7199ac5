/** Whole runs of the kernel: the invariant holds after every entry, whatever the sequence of
    system calls, traps and interrupts. */
module Runs {
  import opened Options
  import opened Sequences
  import opened Forests
  import opened KernelState
  import opened Invariant
  import opened Creation
  import opened Destruction
  import Pids

  /** What the machine and the processes may do next.  Processes do P and V on semaphores of
      their own only; a device completes an operation somebody waits for; and a process
      creation does not exhaust the identifiers. */
  ghost predicate Enabled(s: State, e: Event)
    requires Valid(s)
  {
    match e
    case Create(_, _) => s.mode == Running && (s.free == [] || GeneratedPid(s) != Pids.FREE_PID)
    case P(k) => s.mode == Running && k in s.val && !IsSoft(k)
    case V(k) => s.mode == Running && k in s.val && !IsSoft(k)
    case IO(k) => s.mode == Running && IsDevice(k)
    case Timer => s.mode == Running || s.mode == Waiting
    case Device(k) => (s.mode == Running || s.mode == Waiting) && IsDevice(k) && Waited(s, k)
    case Spurious => s.mode == Running || s.mode == Waiting
    case _ => s.mode == Running
  }

  lemma RunningAlive(s: State)
    requires Valid(s) && s.mode == Running
    ensures s.curr.Some? && s.curr.value in LiveSet(s.pid) && s.curr.value in s.pids
    ensures s.semAdd[s.curr.value] == None && s.curr.value !in s.high && s.curr.value !in s.low
    ensures forall p :: p in s.pids ==> p in LiveSet(s.pid)
  {
    var c := s.curr.value;
    assert OnePlace(s.free, s.high, s.low, s.semAdd, s.curr, c);
    assert Listed(s.pids, s.pid, s.free, c);
    forall p | p in s.pids ensures p in LiveSet(s.pid) { assert Listed(s.pids, s.pid, s.free, p); }
  }

  ghost function Step(s: State, e: Event): State
    requires Valid(s) && Enabled(s, e)
  {
    if s.mode == Running then RunningAlive(s); StepRunning(s, e) else StepWaiting(s, e)
  }

  ghost function StepRunning(s: State, e: Event): State
    requires Valid(s) && Enabled(s, e) && s.mode == Running && s.curr.value in LiveSet(s.pid)
    requires forall p :: p in s.pids ==> p in LiveSet(s.pid)
  {
    match e
    case Create(prio, support) => CreateProcess(s, prio, support)
    case Term(pid) => TermProcess(s, pid)
    case P(k) => SemP(s, k)
    case V(k) => SemV(s, k)
    case IO(k) => DoIO(s, k)
    case Clock => ClockWait(s)
    case GetTime => s
    case Query => s
    case YieldCall => Yield(s)
    case Exception => Trap(s)
    case Slice => TimeSlice(s)
    case Timer => IntervalTimer(s)
    case Device(k) => DeviceDone(s, k)
    case Spurious => Resume(s)
  }

  ghost function StepWaiting(s: State, e: Event): State
    requires Valid(s) && Enabled(s, e) && s.mode != Running
  {
    match e
    case Timer => IntervalTimer(s)
    case Device(k) => DeviceDone(s, k)
    case _ => Resume(s)
  }

  predicate IsInterrupt(e: Event) {
    e.Slice? || e.Timer? || e.Device? || e.Spurious?
  }

  lemma InterruptIs(s: State, e: Event)
    requires Valid(s) && Enabled(s, e) && IsInterrupt(e)
    ensures Core(s, Runner(s)) && Sized(s)
    ensures e.Slice? ==> s.curr.Some? && Core(s, s.curr) && Step(s, e) == TimeSlice(s)
    ensures e.Timer? ==> Step(s, e) == IntervalTimer(s)
    ensures e.Device? ==> IsDevice(e.k) && Waited(s, e.k) && Step(s, e) == DeviceDone(s, e.k)
    ensures e.Spurious? ==> Step(s, e) == Resume(s)
  {
  }

  // ----- each kind of entry -----

  lemma DeviceIsSoft(k: Key)
    requires IsDevice(k)
    ensures IsSoft(k)
  {
  }

  lemma CellOf(s: State, run: Option<Proc>, k: Key)
    requires Core(s, run) && (IsDevice(k) || k == SEMAPHORE_IT || k in s.val)
    ensures k in s.val && s.val[k] in {0, 1} && (IsSoft(k) ==> s.val[k] == 0)
  {
    if IsDevice(k) {
      var i :| 0 <= i < TOTAL_IO_DEVICES && k == DeviceSemaphore(i);
      assert DeviceSemaphore(i) in s.val;
    }
    assert Cell(s.val, k);
  }

  lemma BlockKeeps(s: State, k: Key)
    requires Valid(s) && s.mode == Running && k in s.val
    ensures var t := s.(soft := s.soft + Bit(IsSoft(k)));
            Sized(t) && Block(t, k) == Schedule(InsertBlocked(t, k, s.curr.value)) && Valid(Block(t, k))
  {
    var t := s.(soft := s.soft + Bit(IsSoft(k)));
    var c := s.curr.value;
    DescriptorLeft(s, c, k);
    InsertBlockedKeeps(s, k, c);
    assert InsertBlocked(t, k, c) == InsertBlocked(s, k, c).(soft := s.soft + Bit(IsSoft(k)));
    ScheduleKeeps(InsertBlocked(t, k, c));
  }

  lemma WakeStep(s: State, k: Key)
    requires Valid(s) && s.mode == Running && Waited(s, k) && !IsSoft(k)
    ensures Valid(Wake(s, k))
  {
    WakeKeeps(s, s.curr, k);
    WakeIs(s, s.curr, k);
    assert Wake(s, k).(soft := s.soft) == Wake(s, k);
  }

  lemma SetCell(s: State, k: Key, v: int)
    requires Valid(s) && s.mode == Running && k in s.val && !IsSoft(k) && v in {0, 1}
    ensures Valid(s.(val := s.val[k := v]))
  {
    var t := s.(val := s.val[k := v]);
    forall l | l in t.val ensures Cell(t.val, l) { if l != k { assert Cell(s.val, l); } }
    Requeued(s, s.curr, t, s.curr);
  }

  lemma HardBlockKeeps(s: State, k: Key)
    requires Valid(s) && s.mode == Running && k in s.val && !IsSoft(k)
    ensures Valid(Block(s, k))
  {
    assert s.(soft := s.soft + Bit(IsSoft(k))) == s;
    BlockKeeps(s, k);
  }

  lemma SemPKeeps(s: State, k: Key)
    requires Valid(s) && s.mode == Running && k in s.val && !IsSoft(k)
    ensures Valid(SemP(s, k))
  {
    if s.val[k] == 0 { HardBlockKeeps(s, k); }
    else if Waited(s, k) { WakeStep(s, k); }
    else { SetCell(s, k, 0); }
  }

  lemma SemVKeeps(s: State, k: Key)
    requires Valid(s) && s.mode == Running && k in s.val && !IsSoft(k)
    ensures Valid(SemV(s, k))
  {
    if s.val[k] == 1 { HardBlockKeeps(s, k); }
    else if Waited(s, k) { WakeStep(s, k); }
    else { SetCell(s, k, 1); }
  }

  /** DOIO and CLOCKWAIT always block: the counter they raise beforehand stays exact. */
  lemma DoIOKeeps(s: State, k: Key)
    requires Valid(s) && s.mode == Running && IsSoft(k) && k in s.val
    ensures Valid(DoIO(s, k)) && DoIO(s, k) == Schedule(InsertBlocked(s.(soft := s.soft + 1), k, s.curr.value))
  {
    CellOf(s, s.curr, k);
    BlockKeeps(s, k);
  }

  lemma ReadyAgain(s: State, skip: Option<Proc>)
    requires Valid(s) && s.mode == Running
    ensures Core(SetReady(s.(skip := skip), s.curr.value).(curr := None), None)
  {
    var t := s.(skip := skip);
    Requeued(s, s.curr, t, s.curr);
    SetReadyKeeps(t, s.curr.value);
    var u := SetReady(t, s.curr.value);
    Requeued(u, None, u.(curr := None), None);
  }

  lemma YieldKeeps(s: State)
    requires Valid(s) && s.mode == Running
    ensures Valid(Yield(s)) && Valid(TimeSlice(s))
  {
    ReadyAgain(s, s.curr);
    ScheduleKeeps(SetReady(s.(skip := s.curr), s.curr.value).(curr := None));
    ReadyAgain(s, s.skip);
    assert s.(skip := s.skip) == s;
    ScheduleKeeps(SetReady(s, s.curr.value).(curr := None));
  }

  lemma KillStep(s: State, p: Proc)
    requires Valid(s) && s.mode == Running && s.curr.value in LiveSet(s.pid) && p in LiveSet(s.pid)
    ensures var t := Kill(s, p);
            && t.curr == s.curr && t.mode == Running && t.skip == None
            && (if s.curr.value in LiveSet(t.pid) then Valid(t) else Valid(Schedule(t)))
    ensures Valid(Terminated(s, p))
  {
    KillKeeps(s, s.curr, p);
    if s.curr.value !in LiveSet(Kill(s, p).pid) { ScheduleKeeps(Kill(s, p)); }
  }

  lemma SelfDies(s: State, p: Proc)
    requires Sized(s) && IsTree(s) && p in LiveSet(s.pid)
    ensures p !in LiveSet(Kill(s, p).pid)
  {
    KillOrder(s, p);
    assert p in Post(Sub(TreeOf(s), p)) + [p];
  }

  lemma DieKeeps(s: State)
    requires Valid(s) && s.mode == Running && s.curr.value in LiveSet(s.pid)
    ensures Valid(Die(s))
  {
    SelfDies(s, s.curr.value);
    KillStep(s, s.curr.value);
  }

  lemma TermKeeps(s: State, pid: nat)
    requires Valid(s) && s.mode == Running && s.curr.value in LiveSet(s.pid)
    requires forall p :: p in s.pids ==> p in LiveSet(s.pid)
    ensures Valid(TermProcess(s, pid))
  {
    if pid == 0 { DieKeeps(s); } else { TermNamedKeeps(s, pid); }
  }

  lemma NamedVictim(s: State, pid: nat)
    requires Sized(s) && IsTree(s) && s.curr.Some? && s.curr.value in LiveSet(s.pid) && pid != 0
    requires forall p :: p in s.pids ==> p in LiveSet(s.pid)
    ensures var victim := ProcessOf(s, pid);
            && (victim == None ==> TermProcess(s, pid) == s)
            && (victim.Some? ==> victim.value in LiveSet(s.pid) && TermProcess(s, pid) == Terminated(s, victim.value))
  {
  }

  lemma TermNamedKeeps(s: State, pid: nat)
    requires Valid(s) && s.mode == Running && s.curr.value in LiveSet(s.pid) && pid != 0
    requires forall p :: p in s.pids ==> p in LiveSet(s.pid)
    ensures Valid(TermProcess(s, pid))
  {
    NamedVictim(s, pid);
    var victim := ProcessOf(s, pid);
    if victim.Some? {
      KillStep(s, victim.value);
    }
  }

  lemma ResumeKeeps(s: State)
    requires s.mode == Running || s.mode == Waiting
    requires s.mode == Running ==> s.curr.Some? && s.skip == None
    requires s.mode == Waiting ==> s.curr == None
    requires Core(s, Runner(s))
    ensures Valid(Resume(s))
  {
    if s.curr == None { ScheduleKeeps(s); } else { assert s.(mode := Running) == s; }
  }

  lemma WakeUnaffected(s: State, run: Option<Proc>, k: Key)
    requires Core(s, run) && k in s.blocked
    ensures Waited(s, k)
    ensures var t := Wake(s, k); t.curr == s.curr && t.mode == s.mode && t.skip == s.skip && t.val == s.val
  {
    WakeIs(s, run, k);
  }

  lemma DeviceKeeps(s: State, k: Key)
    requires Valid(s) && (s.mode == Running || s.mode == Waiting) && IsSoft(k) && Waited(s, k)
    ensures Valid(DeviceDone(s, k))
  {
    WakeKeeps(s, Runner(s), k);
    WakeUnaffected(s, Runner(s), k);
    var t := Wake(s, k);
    ResumeKeeps(t.(soft := t.soft - 1));
  }

  lemma {:induction false} DrainKeeps(s: State, run: Option<Proc>)
    requires Core(s, run)
    ensures var t := DrainTimer(s);
            && Core(t, run) && SEMAPHORE_IT !in t.blocked
            && t.curr == s.curr && t.mode == s.mode && t.skip == s.skip && t.val == s.val
    decreases if SEMAPHORE_IT in s.blocked then |s.blocked[SEMAPHORE_IT]| else 0
  {
    if SEMAPHORE_IT in s.blocked {
      WakeKeeps(s, run, SEMAPHORE_IT);
      WakeUnaffected(s, run, SEMAPHORE_IT);
      WakeShrinks(s, SEMAPHORE_IT);
      var t := Wake(s, SEMAPHORE_IT);
      DrainKeeps(t.(soft := t.soft - 1), run);
    }
  }

  lemma WakeShrinks(s: State, k: Key)
    requires Sized(s) && Waited(s, k)
    ensures k in Wake(s, k).blocked ==> |Wake(s, k).blocked[k]| < |s.blocked[k]|
  {
  }

  lemma TimerKeeps(s: State)
    requires Valid(s) && (s.mode == Running || s.mode == Waiting)
    ensures Valid(IntervalTimer(s))
  {
    DrainKeeps(s, Runner(s));
    var t := DrainTimer(s);
    CellOf(t, Runner(t), SEMAPHORE_IT);
    assert t.val[SEMAPHORE_IT := 0] == t.val;
    assert t.(val := t.val[SEMAPHORE_IT := 0]) == t;
    ResumeKeeps(t);
  }

  lemma StepRunningKeeps(s: State, e: Event)
    requires Valid(s) && Enabled(s, e) && s.mode == Running && s.curr.value in LiveSet(s.pid)
    requires forall p :: p in s.pids ==> p in LiveSet(s.pid)
    ensures Valid(StepRunning(s, e))
  {
    match e
    case Create(prio, support) => if s.free != [] { CreateStep(s, prio, support); }
    case Term(pid) => TermKeeps(s, pid);
    case P(k) => SemPKeeps(s, k);
    case V(k) => SemVKeeps(s, k);
    case IO(k) => CellOf(s, s.curr, k); DeviceIsSoft(k); DoIOKeeps(s, k);
    case Clock => DoIOKeeps(s, SEMAPHORE_IT);
    case GetTime =>
    case Query =>
    case YieldCall => YieldKeeps(s);
    case Exception => DieKeeps(s);
    case Slice => YieldKeeps(s);
    case Timer => TimerKeeps(s);
    case Device(k) => DeviceIsSoft(k); DeviceKeeps(s, k);
    case Spurious => ResumeKeeps(s);
  }

  /** Every kernel entry keeps the invariant. */
  lemma StepKeeps(s: State, e: Event)
    requires Valid(s) && Enabled(s, e)
    ensures Valid(Step(s, e))
  {
    if s.mode == Running {
      RunningAlive(s);
      StepRunningKeeps(s, e);
    } else {
      match e
      case Timer => TimerKeeps(s);
      case Device(k) => DeviceIsSoft(k); DeviceKeeps(s, k);
      case _ => ResumeKeeps(s);
    }
  }

  lemma CreateStep(s: State, prio: Prio, support: Option<nat>)
    requires Valid(s) && s.mode == Running && s.free != [] && GeneratedPid(s) != Pids.FREE_PID
    ensures Valid(CreateProcess(s, prio, support))
  {
    CreateIs(s, s.curr.value, prio, support);
    CreateKeeps(s, s.curr.value, prio, support);
  }

  // ----- the start, and every run -----

  /** The kernel's semaphores are there and 0, the others are binary. */
  ghost predicate GoodCells(cells: map<Key, int>) {
    Cells(cells, map[])
  }

  lemma BootCore(n: nat, cells: map<Key, int>)
    requires 0 < n < Pids.WORD && GoodCells(cells)
    ensures Core(Boot(n, cells), None)
  {
    var s := Boot(n, cells);
    forall p | 0 <= p < n ensures OnePlace(s.free, s.high, s.low, s.semAdd, None, p) {
      if p > 0 { assert s.free[p - 1] == p; }
    }
    forall p | 0 <= p < n ensures Listed(s.pids, s.pid, s.free, p) {
      if p > 0 { assert s.free[p - 1] == p; }
    }
    assert LiveSet(s.pid) == {FIRST};
    assert SoftSet(s.semAdd) == {} by { forall p | 0 <= p < n ensures !SoftAt(s.semAdd, p) { } }
    assert Tree(s.parent, s.kids, s.pid, Cons(FIRST, Nil, Nil));
  }

  lemma InitValid(n: nat, cells: map<Key, int>)
    requires 0 < n < Pids.WORD && GoodCells(cells)
    ensures Valid(Init(n, cells)) && Init(n, cells).mode == Running && Init(n, cells).curr == Some(FIRST)
    ensures var s := Init(n, cells);
            && LiveSet(s.pid) == {FIRST} && s.pid[FIRST] == 1 && s.prio[FIRST] == LowPrio && s.support[FIRST] == None
            && s.val == cells && s.blocked == map[] && s.high == [] && s.low == [] && |s.pid| == n
  {
    BootCore(n, cells);
    ScheduleKeeps(Boot(n, cells));
  }

  /** es is a run from s. */
  ghost predicate IsRun(s: State, es: seq<Event>)
    requires Valid(s)
    decreases |es|
  {
    es == [] || (Enabled(s, es[0]) && (StepKeeps(s, es[0]); IsRun(Step(s, es[0]), es[1..])))
  }

  ghost function Exec(s: State, es: seq<Event>): (t: State)
    requires Valid(s) && IsRun(s, es)
    ensures Valid(t)
    decreases |es|
  {
    if es == [] then s else StepKeeps(s, es[0]); Exec(Step(s, es[0]), es[1..])
  }

  // ----- what the invariant says -----

  /** Where a process is. */
  datatype Place = OnFree | OnHigh | OnLow | OnSemaphore(k: Key) | OnProcessor

  ghost predicate At(s: State, p: Proc, place: Place) {
    match place
    case OnFree => p in s.free
    case OnHigh => p in s.high
    case OnLow => p in s.low
    case OnSemaphore(k) => k in s.blocked && p in s.blocked[k]
    case OnProcessor => s.mode == Running && s.curr == Some(p)
  }

  /** p is at one place only, p_semAdd says so exactly when that is a semaphore queue, and the
      list that holds p holds it once. */
  ghost predicate PlacedOnce(s: State, p: Proc)
    requires p < |s.semAdd|
  {
    && (exists place :: At(s, p, place))
    && (forall a, b :: At(s, p, a) && At(s, p, b) ==> a == b)
    && (forall k: Key :: At(s, p, OnSemaphore(k)) <==> s.semAdd[p] == Some(k))
    && NoDup(s.free) && NoDup(s.high) && NoDup(s.low)
    && (forall k :: k in s.blocked ==> NoDup(s.blocked[k]))
  }

  lemma CorePlacedOnce(s: State, p: Proc)
    requires Valid(s) && p < |s.semAdd|
    ensures PlacedOnce(s, p)
  {
    assert OnePlace(s.free, s.high, s.low, s.semAdd, Runner(s), p);
    assert Queued(s.blocked, s.semAdd, p);
    forall k | k in s.blocked ensures NoDup(s.blocked[k]) && (p in s.blocked[k] ==> s.semAdd[p] == Some(k)) {
      assert Queue(s.semAdd, k, s.blocked[k]);
    }
    var place := if p in s.free then OnFree else if p in s.high then OnHigh else if p in s.low then OnLow
                 else if s.semAdd[p].Some? then OnSemaphore(s.semAdd[p].value) else OnProcessor;
    assert At(s, p, place);
  }

  /** The counters are exact, the PANIC for want of a descriptor is not reached, and the machine
      is halted, waiting or deadlocked for the right reason. */
  ghost predicate CountsAndVerdict(s: State) {
    && s.count == |LiveSet(s.pid)|
    && s.soft == |SoftSet(s.semAdd)|
    && s.mode != NoDescriptor
    && (s.mode == Halted <==> LiveSet(s.pid) == {})
    && (s.mode == Waiting <==> LiveSet(s.pid) != {} && s.mode != Running && SoftSet(s.semAdd) != {})
    && (s.mode == Deadlock <==> LiveSet(s.pid) != {} && s.mode != Running && SoftSet(s.semAdd) == {})
  }

  /** After every run from the start of the machine: every PCB is in exactly one place, and the
      counters and the outcome are right. */
  lemma EveryRun(n: nat, cells: map<Key, int>, es: seq<Event>)
    requires 0 < n < Pids.WORD && GoodCells(cells) && Valid(Init(n, cells)) && IsRun(Init(n, cells), es)
    ensures var s := Exec(Init(n, cells), es);
            CountsAndVerdict(s) && forall p :: 0 <= p < |s.semAdd| ==> PlacedOnce(s, p)
  {
    var s := Exec(Init(n, cells), es);
    forall p | 0 <= p < |s.semAdd| ensures PlacedOnce(s, p) { CorePlacedOnce(s, p); }
    if s.mode == Running { RunningAlive(s); }
  }

  // ----- the scheduler's verdict -----

  ghost predicate Waits(s: State, p: Proc, soft: bool) {
    exists k :: IsSoft(k) == soft && At(s, p, OnSemaphore(k))
  }

  lemma WaitsIs(s: State, p: Proc)
    requires Core(s, None)
    ensures Waits(s, p, true) <==> p in SoftSet(s.semAdd)
    ensures p in LiveSet(s.pid) ==>
              (Waits(s, p, true) || Waits(s, p, false) <==> p !in s.high && p !in s.low)
    ensures p in s.high || p in s.low ==> p in LiveSet(s.pid) && !Waits(s, p, false)
    ensures p in LiveSet(s.pid) && p in SoftSet(s.semAdd) ==> !Waits(s, p, false)
    ensures p in SoftSet(s.semAdd) ==> p in LiveSet(s.pid)
  {
    forall k | At(s, p, OnSemaphore(k)) ensures p < |s.semAdd| && s.semAdd[p] == Some(k) {
      assert Queue(s.semAdd, k, s.blocked[k]);
    }
    if p < |s.semAdd| {
      assert OnePlace(s.free, s.high, s.low, s.semAdd, None, p);
      assert Listed(s.pids, s.pid, s.free, p) && Queued(s.blocked, s.semAdd, p);
      if s.semAdd[p].Some? {
        assert At(s, p, OnSemaphore(s.semAdd[p].value)) && SoftAt(s.semAdd, p) == IsSoft(s.semAdd[p].value);
      }
    }
  }

  lemma SoftWaiters(s: State)
    requires Core(s, None)
    ensures s.soft > 0 <==> exists p :: Waits(s, p, true)
  {
    forall p ensures Waits(s, p, true) <==> p in SoftSet(s.semAdd) { WaitsIs(s, p); }
    if s.soft > 0 {
      var p :| p in SoftSet(s.semAdd);
      assert Waits(s, p, true);
    }
  }

  lemma AllOrdinary(s: State)
    requires Core(s, None)
    ensures s.high == [] && s.low == [] && s.soft == 0 <==> forall p :: p in LiveSet(s.pid) ==> Waits(s, p, false)
  {
    if s.high == [] && s.low == [] && s.soft == 0 {
      forall p | p in LiveSet(s.pid) ensures Waits(s, p, false) { WaitsIs(s, p); }
    }
    if s.high != [] { WaitsIs(s, s.high[0]); }
    if s.low != [] { WaitsIs(s, s.low[0]); }
    if s.soft > 0 {
      var p :| p in SoftSet(s.semAdd);
      WaitsIs(s, p);
    }
  }

  /** What the scheduler decides, from what is alive, ready and waiting when it is called: HALT
      with nothing alive; otherwise a process if one is ready; otherwise WAIT if somebody waits
      for the timer or a device, and PANIC if every live process waits on an ordinary
      semaphore. */
  lemma ScheduleVerdict(s: State)
    requires Core(s, None)
    ensures var m := Schedule(s).mode;
            && (m == Halted <==> LiveSet(s.pid) == {})
            && (m == Running <==> LiveSet(s.pid) != {} && (s.high != [] || s.low != []))
            && (m == Waiting <==> LiveSet(s.pid) != {} && s.high == [] && s.low == [] && exists p :: Waits(s, p, true))
            && (m == Deadlock <==> LiveSet(s.pid) != {} && forall p :: p in LiveSet(s.pid) ==> Waits(s, p, false))
  {
    SoftWaiters(s);
    AllOrdinary(s);
  }
}
