/** The semaphores of phase1/asl.c over whole runs: two-sided binary semaphores, on which V can
    block as well as P.  What is waiting, who is released when, and the conservation of
    completed operations. */
module Semaphores {
  import opened Options
  import opened Sequences
  import opened Forests
  import opened KernelState
  import opened Invariant
  import opened Destruction
  import opened Runs
  import opened BinarySemaphore
  import Creation
  import Pids

  /** Who waits on k, in order. */
  function QueueOf(s: State, k: Key): seq<Proc> {
    if k in s.blocked then s.blocked[k] else []
  }

  function SemOf(s: State, k: Key): Cell
    requires k in s.val
  {
    Cell(s.val[k], QueueOf(s, k))
  }

  /** An ordinary semaphore of the run. */
  ghost predicate Ordinary(s: State, k: Key) {
    k in s.val && !IsSoft(k)
  }

  // ----- what one step does to one semaphore -----

  lemma ScheduleFrame(s: State, k: Key)
    ensures var t := Schedule(s); t.val == s.val && QueueOf(t, k) == QueueOf(s, k) && t.pid == s.pid
  {
  }

  lemma WakeFrame(s: State, k: Key, l: Key)
    requires Sized(s) && Waited(s, l)
    ensures var t := Wake(s, l);
            && t.val == s.val && t.pid == s.pid
            && QueueOf(t, k) == (if k == l then QueueOf(s, k)[1..] else QueueOf(s, k))
  {
  }

  lemma BlockFrame(s: State, k: Key, l: Key)
    requires Sized(s) && s.curr.Some? && !NoFreeDescriptor(s, l)
    ensures var t := Block(s, l);
            && t.val == s.val && t.pid == s.pid
            && QueueOf(t, k) == (if k == l then QueueOf(s, k) + [s.curr.value] else QueueOf(s, k))
  {
  }

  lemma RunnerFits(s: State, l: Key)
    requires Valid(s) && s.mode == Running
    ensures Sized(s) && s.curr.Some? && !NoFreeDescriptor(s, l)
  {
    DescriptorLeft(s, s.curr.value, l);
  }

  lemma {:induction false} DrainFrame(s: State, k: Key)
    requires Sized(s) && k != SEMAPHORE_IT
    ensures var t := DrainTimer(s); t.val == s.val && t.pid == s.pid && QueueOf(t, k) == QueueOf(s, k)
    decreases if SEMAPHORE_IT in s.blocked then |s.blocked[SEMAPHORE_IT]| else 0
  {
    if Waited(s, SEMAPHORE_IT) {
      WakeSized(s, SEMAPHORE_IT);
      WakeFrame(s, k, SEMAPHORE_IT);
      var t := Wake(s, SEMAPHORE_IT);
      DrainFrame(t.(soft := t.soft - 1), k);
    }
  }

  /** The processes a step has killed. */
  ghost function Dead(s: State, t: State): set<Proc> {
    LiveSet(s.pid) - LiveSet(t.pid)
  }

  /** The cell of k has not moved, and its queue has lost the killed and nobody else. */
  ghost predicate OnlyKills(s: State, t: State, k: Key) {
    k in s.val && k in t.val && t.val[k] == s.val[k] && QueueOf(t, k) == Without(QueueOf(s, k), Dead(s, t))
  }

  lemma SamePids(s: State, t: State, k: Key)
    requires s.pid == t.pid && k in s.val && k in t.val && t.val[k] == s.val[k] && QueueOf(t, k) == QueueOf(s, k)
    ensures OnlyKills(s, t, k)
  {
    WithoutNone(QueueOf(s, k), {});
    assert Dead(s, t) == {};
  }

  lemma DeadAreDoomed(s: State, run: Option<Proc>, p: Proc)
    requires Core(s, run) && p in LiveSet(s.pid)
    ensures Dead(s, Kill(s, p)) == Doomed(s, p)
  {
    KillKeeps(s, run, p);
    KillOrder(s, p);
  }

  lemma CutFrame(s: State, d: set<Proc>, order: seq<Proc>, k: Key)
    ensures QueueOf(Release(Detach(s, d), order), k) == Without(QueueOf(s, k), d)
  {
  }

  lemma KillFrame(s: State, run: Option<Proc>, p: Proc, k: Key)
    requires Core(s, run) && p in LiveSet(s.pid) && k in s.val
    ensures OnlyKills(s, Kill(s, p), k) && OnlyKills(s, Schedule(Kill(s, p)), k)
  {
    DeadAreDoomed(s, run, p);
    CutFrame(s, Doomed(s, p), Post(Sub(TreeOf(s), p)) + [p], k);
    ScheduleFrame(Kill(s, p), k);
  }

  lemma CreateFrame(s: State, prio: Prio, support: Option<nat>, k: Key)
    requires Valid(s) && s.mode == Running && k in s.val && (s.free == [] || GeneratedPid(s) != Pids.FREE_PID)
    ensures OnlyKills(s, CreateProcess(s, prio, support), k)
  {
    if s.free == [] {
      SamePids(s, s, k);
    } else {
      var p, x := s.free[0], GeneratedPid(s);
      Creation.CreateIs(s, s.curr.value, prio, support);
      Creation.NewLive(s.pid, p, x);
      var t := CreateProcess(s, prio, support);
      assert Dead(s, t) == {};
      WithoutNone(QueueOf(s, k), {});
    }
  }

  /** Entries other than P and V of the semaphore itself leave it alone but for kills. */
  lemma OtherStep(s: State, e: Event, k: Key)
    requires Valid(s) && Enabled(s, e) && Ordinary(s, k) && e != P(k) && e != V(k)
    ensures OnlyKills(s, Step(s, e), k)
  {
    if s.mode == Running { RunningAlive(s); }
    if e.Timer? || e.Device? || e.Spurious? {
      OtherInterrupt(s, e, k);
    } else {
      OtherCall(s, e, k);
    }
  }

  lemma OtherTimer(s: State, k: Key)
    requires Sized(s) && k in s.val && !IsSoft(k)
    ensures OnlyKills(s, IntervalTimer(s), k)
  {
    DrainFrame(s, k);
    var t := DrainTimer(s);
    var u := t.(val := t.val[SEMAPHORE_IT := 0]);
    ScheduleFrame(u, k);
    SamePids(s, Resume(u), k);
  }

  lemma OtherDevice(s: State, k: Key, l: Key)
    requires Sized(s) && k in s.val && l != k && Waited(s, l)
    ensures OnlyKills(s, DeviceDone(s, l), k)
  {
    WakeFrame(s, k, l);
    var t := Wake(s, l);
    ScheduleFrame(t.(soft := t.soft - 1), k);
    SamePids(s, DeviceDone(s, l), k);
  }

  lemma OtherInterrupt(s: State, e: Event, k: Key)
    requires Valid(s) && Enabled(s, e) && Ordinary(s, k) && (e.Timer? || e.Device? || e.Spurious?)
    ensures OnlyKills(s, if e.Timer? then IntervalTimer(s) else if e.Device? then DeviceDone(s, e.k) else Resume(s), k)
  {
    match e
    case Timer => OtherTimer(s, k);
    case Device(l) =>
      DeviceIsSoft(l);
      OtherDevice(s, k, l);
    case Spurious =>
      ScheduleFrame(s, k);
      SamePids(s, Resume(s), k);
  }

  lemma OtherSemaphore(s: State, k: Key, l: Key)
    requires Sized(s) && s.curr.Some? && !NoFreeDescriptor(s, l) && k in s.val && l in s.val && l != k
    ensures OnlyKills(s, SemP(s, l), k) && OnlyKills(s, SemV(s, l), k)
  {
    BlockFrame(s, k, l);
    SamePids(s, Block(s, l), k);
    if Waited(s, l) {
      WakeFrame(s, k, l);
      SamePids(s, Wake(s, l), k);
    }
    SamePids(s, s.(val := s.val[l := 0]), k);
    SamePids(s, s.(val := s.val[l := 1]), k);
  }

  lemma OtherIO(s: State, k: Key, l: Key)
    requires Sized(s) && s.curr.Some? && !NoFreeDescriptor(s, l) && k in s.val && l in s.val && l != k && s.val[l] == 0
    ensures OnlyKills(s, DoIO(s, l), k)
  {
    var t := s.(soft := s.soft + 1);
    BlockFrame(t, k, l);
    SamePids(s, Block(t, l), k);
  }

  lemma ReadyFrame(s: State, k: Key)
    requires Sized(s) && s.curr.Some? && k in s.val
    ensures OnlyKills(s, Yield(s), k) && OnlyKills(s, TimeSlice(s), k)
  {
    RequeueFrame(s, s.curr, k);
    RequeueFrame(s, s.skip, k);
    assert s.(skip := s.skip) == s;
  }

  lemma RequeueFrame(s: State, skip: Option<Proc>, k: Key)
    requires Sized(s) && s.curr.Some? && k in s.val
    ensures OnlyKills(s, Schedule(SetReady(s.(skip := skip), s.curr.value).(curr := None)), k)
  {
    var t := SetReady(s.(skip := skip), s.curr.value).(curr := None);
    ScheduleFrame(t, k);
    SamePids(s, Schedule(t), k);
  }

  lemma OtherTerm(s: State, pid: nat, k: Key)
    requires Valid(s) && s.mode == Running && k in s.val && s.curr.value in LiveSet(s.pid)
    requires forall p :: p in s.pids ==> p in LiveSet(s.pid)
    ensures OnlyKills(s, TermProcess(s, pid), k)
  {
    SamePids(s, s, k);
    KillFrame(s, s.curr, s.curr.value, k);
    var victim := ProcessOf(s, pid);
    if victim.Some? { KillFrame(s, s.curr, victim.value, k); }
  }

  lemma OtherTrap(s: State, k: Key)
    requires Valid(s) && s.mode == Running && k in s.val && s.curr.value in LiveSet(s.pid)
    ensures OnlyKills(s, Trap(s), k)
  {
    SamePids(s, s, k);
    KillFrame(s, s.curr, s.curr.value, k);
  }

  lemma OtherPV(s: State, k: Key, l: Key)
    requires Valid(s) && s.mode == Running && k in s.val && l in s.val && l != k
    ensures OnlyKills(s, SemP(s, l), k) && OnlyKills(s, SemV(s, l), k)
  {
    RunnerFits(s, l);
    OtherSemaphore(s, k, l);
  }

  lemma OtherSoft(s: State, k: Key, l: Key)
    requires Valid(s) && s.mode == Running && Ordinary(s, k) && (IsDevice(l) || l == SEMAPHORE_IT)
    ensures l in s.val && OnlyKills(s, DoIO(s, l), k)
  {
    RunnerFits(s, l);
    CellOf(s, s.curr, l);
    if IsDevice(l) { DeviceIsSoft(l); }
    OtherIO(s, k, l);
  }

  lemma OtherCall(s: State, e: Event, k: Key)
    requires Valid(s) && Enabled(s, e) && Ordinary(s, k) && e != P(k) && e != V(k)
    requires s.mode == Running && s.curr.value in LiveSet(s.pid) && !(e.Timer? || e.Device? || e.Spurious?)
    requires forall p :: p in s.pids ==> p in LiveSet(s.pid)
    ensures OnlyKills(s, StepRunning(s, e), k)
  {
    match e
    case Create(prio, support) => CreateFrame(s, prio, support, k);
    case Term(pid) => OtherTerm(s, pid, k);
    case P(l) => OtherPV(s, k, l);
    case V(l) => OtherPV(s, k, l);
    case IO(l) => OtherSoft(s, k, l);
    case Clock => OtherSoft(s, k, SEMAPHORE_IT);
    case GetTime => SamePids(s, s, k);
    case Query => SamePids(s, s, k);
    case YieldCall => ReadyFrame(s, k);
    case Exception => OtherTrap(s, k);
    case Slice => ReadyFrame(s, k);
  }

  /** P and V of the semaphore itself are the calls of the lone semaphore, and kill nobody. */
  lemma OwnStep(s: State, e: Event, k: Key)
    requires Valid(s) && Enabled(s, e) && Ordinary(s, k) && (e == P(k) || e == V(k))
    ensures var t := Step(s, e);
            && k in t.val && t.pid == s.pid && Dead(s, t) == {}
            && SemOf(t, k) == Call(SemOf(s, k), if e == P(k) then OpP else OpV, s.curr.value)
  {
    CellOf(s, s.curr, k);
    RunnerFits(s, k);
    BlockFrame(s, k, k);
    if k in s.blocked {
      assert Queue(s.semAdd, k, s.blocked[k]);
      WakeFrame(s, k, k);
    }
  }

  /** A released waiter is the first one, and it becomes ready. */
  lemma ReleasedIsReady(s: State, e: Event, k: Key)
    requires Valid(s) && Enabled(s, e) && Ordinary(s, k) && (e == P(k) || e == V(k))
    requires Releases(SemOf(s, k), if e == P(k) then OpP else OpV)
    ensures var t, p := Step(s, e), QueueOf(s, k)[0];
            p < |s.prio| && if s.prio[p] == LowPrio then t.low == s.low + [p] else t.high == s.high + [p]
  {
    CellOf(s, s.curr, k);
    WakeIs(s, s.curr, k);
  }

  // ----- conservation -----

  ghost function RecordStep(s: State, e: Event, k: Key, l: Ledger): Ledger
    requires Valid(s) && Enabled(s, e) && Ordinary(s, k)
  {
    if e == P(k) then Record(SemOf(s, k), OpP, s.curr.value, l)
    else if e == V(k) then Record(SemOf(s, k), OpV, s.curr.value, l)
    else l
  }

  /** The ledger of semaphore k over a run. */
  ghost function RecordRun(s: State, es: seq<Event>, k: Key, l: Ledger): Ledger
    requires Valid(s) && IsRun(s, es) && Ordinary(s, k)
    decreases |es|
  {
    if es == [] then l
    else
      StepKeeps(s, es[0]);
      StillOrdinary(s, es[0], k);
      RecordRun(Step(s, es[0]), es[1..], k, RecordStep(s, es[0], k, l))
  }

  lemma StillOrdinary(s: State, e: Event, k: Key)
    requires Valid(s) && Enabled(s, e) && Ordinary(s, k)
    ensures Ordinary(Step(s, e), k)
  {
    if e == P(k) || e == V(k) { OwnStep(s, e, k); } else { OtherStep(s, e, k); }
  }

  lemma StepConserves(s: State, e: Event, k: Key, l: Ledger)
    requires Valid(s) && Enabled(s, e) && Ordinary(s, k) && OneSided(SemOf(s, k), l)
    ensures var t, m := Step(s, e), RecordStep(s, e, k, l);
            && Ordinary(t, k) && OneSided(SemOf(t, k), m)
            && Balance(m) - Balance(l) == t.val[k] - s.val[k]
  {
    if e == P(k) || e == V(k) {
      OwnStep(s, e, k);
      CallConserves(SemOf(s, k), if e == P(k) then OpP else OpV, s.curr.value, l);
    } else {
      OtherStep(s, e, k);
    }
  }

  /** Over every run, with whatever is killed on the way, completed V minus completed P is the
      change of the cell; the cell stays binary, and the waiters stay on one side. */
  lemma {:induction false} Conservation(s: State, es: seq<Event>, k: Key, l: Ledger)
    requires Valid(s) && IsRun(s, es) && Ordinary(s, k) && OneSided(SemOf(s, k), l)
    ensures var t, m := Exec(s, es), RecordRun(s, es, k, l);
            && Ordinary(t, k) && OneSided(SemOf(t, k), m)
            && Balance(m) - Balance(l) == t.val[k] - s.val[k]
    decreases |es|
  {
    if es != [] {
      StepKeeps(s, es[0]);
      StepConserves(s, es[0], k, l);
      Conservation(Step(s, es[0]), es[1..], k, RecordStep(s, es[0], k, l));
    }
  }

  /** From the start of the machine: the cell is what it was plus the V minus the P completed. */
  lemma ConservationFromInit(n: nat, cells: map<Key, int>, s: State, es: seq<Event>, k: Key)
    requires 0 < n < Pids.WORD && GoodCells(cells) && k in cells && !IsSoft(k)
    requires s == Init(n, cells) && Valid(s) && IsRun(s, es)
    ensures Ordinary(s, k) && k in Exec(s, es).val && Exec(s, es).val[k] in {0, 1}
    ensures Exec(s, es).val[k] == cells[k] + Balance(RecordRun(s, es, k, Ledger(map[], 0, 0)))
  {
    assert s.val == cells && s.blocked == map[];
    CellOf(s, Runner(s), k);
    Conservation(s, es, k, Ledger(map[], 0, 0));
  }

  // ----- order of release -----

  /** While a waits, nobody behind a is released: b is still behind it unless killed. */
  lemma NoOvertaking(s: State, e: Event, k: Key, a: Proc, b: Proc)
    requires Valid(s) && Enabled(s, e) && Ordinary(s, k) && Before(QueueOf(s, k), a, b)
    ensures var t := Step(s, e);
            a in QueueOf(t, k) && b in LiveSet(t.pid) ==> Before(QueueOf(t, k), a, b)
  {
    var t, q := Step(s, e), QueueOf(s, k);
    QueueFacts(s, Runner(s), k);
    if a in QueueOf(t, k) && b in LiveSet(t.pid) {
      if e == P(k) || e == V(k) {
        OwnStep(s, e, k);
        RunningAlive(s);
        CallKeepsOrder(SemOf(s, k), if e == P(k) then OpP else OpV, s.curr.value, a, b);
      } else {
        OtherStep(s, e, k);
        WithoutKeepsOrder(q, Dead(s, t), a, b);
      }
    }
  }

  lemma QueueFacts(s: State, run: Option<Proc>, k: Key)
    requires Core(s, run)
    ensures NoDup(QueueOf(s, k))
    ensures forall p :: p in QueueOf(s, k) ==> p < |s.semAdd| && s.semAdd[p] == Some(k) && p in LiveSet(s.pid)
  {
    if k in s.blocked {
      assert Queue(s.semAdd, k, s.blocked[k]);
      forall p | p in s.blocked[k] ensures p in LiveSet(s.pid) {
        assert OnePlace(s.free, s.high, s.low, s.semAdd, run, p) && Listed(s.pids, s.pid, s.free, p);
      }
    }
  }

  /** Along the run a keeps waiting on k and b stays alive. */
  ghost predicate Meanwhile(s: State, es: seq<Event>, k: Key, a: Proc, b: Proc)
    requires Valid(s) && IsRun(s, es)
    decreases |es|
  {
    && a in QueueOf(s, k) && b in LiveSet(s.pid)
    && (es != [] ==> (StepKeeps(s, es[0]); Meanwhile(Step(s, es[0]), es[1..], k, a, b)))
  }

  /** First come, first released, over every run and whatever is killed in between. */
  lemma {:induction false} FirstComeFirstReleased(s: State, es: seq<Event>, k: Key, a: Proc, b: Proc)
    requires Valid(s) && IsRun(s, es) && Ordinary(s, k)
    requires Before(QueueOf(s, k), a, b) && Meanwhile(s, es, k, a, b)
    ensures Before(QueueOf(Exec(s, es), k), a, b)
    decreases |es|
  {
    if es != [] {
      StepKeeps(s, es[0]);
      NoOvertaking(s, es[0], k, a, b);
      StillOrdinary(s, es[0], k);
      FirstComeFirstReleased(Step(s, es[0]), es[1..], k, a, b);
    }
  }
}
