/** What every kernel entry does to the queues a process can be on, to the process tree and to the
    processor, in terms of the lists before and after it: who joins which queue, in which order, who
    leaves one, who dies, who runs next, and that nothing else moves. */
module Effects {
  import opened Options
  import opened Sequences
  import opened Forests
  import opened KernelState
  import opened Invariant
  import opened Destruction
  import opened Runs
  import opened Semaphores
  import Creation
  import Names
  import Pids

  /** The processes of q with priority x, in their order. */
  function OfPrio(q: seq<Proc>, prio: seq<Prio>, x: Prio): seq<Proc> {
    if q == [] then []
    else (if q[0] < |prio| && prio[q[0]] == x then [q[0]] else []) + OfPrio(q[1..], prio, x)
  }

  /** The ready queues of s with the processes of q behind, each in the queue of its priority. */
  function HighWith(s: State, q: seq<Proc>): seq<Proc> { s.high + OfPrio(q, s.prio, HighPrio) }

  function LowWith(s: State, q: seq<Proc>): seq<Proc> { s.low + OfPrio(q, s.prio, LowPrio) }

  /** Nobody is born or dies, and nobody's place in the tree or priority changes. */
  ghost predicate SameProcesses(s: State, t: State) {
    && t.free == s.free && t.parent == s.parent && t.kids == s.kids && t.prio == s.prio && t.support == s.support
    && t.pids == s.pids && t.pid == s.pid && t.currPid == s.currPid && t.count == s.count
  }

  ghost predicate SameQueues(s: State, t: State, but: set<Key>) {
    forall k {:trigger QueueOf(t, k)} {:trigger QueueOf(s, k)} :: k !in but ==> QueueOf(t, k) == QueueOf(s, k)
  }

  /** The process of s goes on, with these ready queues. */
  ghost predicate GoesOn(s: State, t: State, high: seq<Proc>, low: seq<Proc>) {
    t.mode == Running && t.curr == s.curr && t.skip == s.skip && t.high == high && t.low == low
  }

  /** The processor goes to the head of the high queue, to that of the low one if there is no other or
      the former is to be skipped, and to nobody if both are empty: then the machine waits if somebody
      is soft-blocked, and is in deadlock otherwise. */
  ghost predicate HandsOver(t: State, high: seq<Proc>, low: seq<Proc>, skip: Option<Proc>) {
    && t.skip == None
    && if high != [] && !(low != [] && skip == Some(high[0])) then
         t.mode == Running && t.curr == Some(high[0]) && t.high == high[1..] && t.low == low
       else if low != [] then
         t.mode == Running && t.curr == Some(low[0]) && t.low == low[1..] && t.high == high
       else
         t.mode == (if t.soft > 0 then Waiting else Deadlock) && t.curr == None && t.high == [] && t.low == []
  }

  // ----- the scheduler, and a process that becomes ready or blocks -----

  lemma ScheduleDoes(s: State)
    requires s.count != 0
    ensures var t := Schedule(s);
            && HandsOver(t, s.high, s.low, s.skip)
            && t == s.(high := t.high, low := t.low, curr := t.curr, skip := None, mode := t.mode)
  {
  }

  /** ... as the end of an entry that leaves the rest as in m. */
  lemma ScheduleFrom(m: State)
    requires m.count != 0
    ensures var t := Schedule(m);
            && HandsOver(t, m.high, m.low, m.skip) && SameProcesses(m, t) && SameQueues(m, t, {})
            && t.val == m.val && t.soft == m.soft
  {
    ScheduleDoes(m);
  }

  lemma OneOfPrio(p: Proc, prio: seq<Prio>)
    requires p < |prio|
    ensures OfPrio([p], prio, LowPrio) == if prio[p] == LowPrio then [p] else []
    ensures OfPrio([p], prio, HighPrio) == if prio[p] == LowPrio then [] else [p]
  {
  }

  lemma ReadyDoes(s: State, p: Proc)
    requires p < |s.pid| == |s.prio| && s.pid[p] != Pids.FREE_PID
    ensures SetReady(s, p) == s.(high := HighWith(s, [p]), low := LowWith(s, [p]))
  {
    OneOfPrio(p, s.prio);
  }

  /** The first n waiters of k, and nobody else, have left their queue in t. */
  ghost predicate Released(s: State, t: State, k: Key, n: nat) {
    && SameProcesses(s, t) && t.val == s.val && SameQueues(s, t, {k})
    && n <= |QueueOf(s, k)| && QueueOf(t, k) == QueueOf(s, k)[n..]
  }

  lemma WakeDoes(s: State, k: Key)
    requires Sized(s) && Waited(s, k) && s.pid[s.blocked[k][0]] != Pids.FREE_PID
    ensures var t, w := Wake(s, k), QueueOf(s, k)[..1];
            && Released(s, t, k, 1) && t.high == HighWith(s, w) && t.low == LowWith(s, w)
            && t.soft == s.soft && t.curr == s.curr && t.skip == s.skip && t.mode == s.mode
  {
    assert QueueOf(s, k)[..1] == [s.blocked[k][0]];
    ReadyDoes(RemoveBlocked(s, k), s.blocked[k][0]);
  }

  lemma QueueLives(s: State, run: Option<Proc>, k: Key)
    requires Core(s, run)
    ensures forall p :: p in QueueOf(s, k) ==> p < |s.pid| && s.pid[p] != Pids.FREE_PID
    ensures k in s.blocked <==> QueueOf(s, k) != []
  {
    QueueFacts(s, run, k);
    if k in s.blocked { assert Queue(s.semAdd, k, s.blocked[k]); }
  }

  lemma SomebodyLives(s: State)
    requires Valid(s) && (s.mode == Running || s.mode == Waiting)
    ensures s.count != 0 && s.skip == None
  {
    if s.mode == Running { RunningAlive(s); }
  }

  // ----- interrupts -----

  /** After an interrupt, with these ready queues: back to the interrupted process, or to the head of
      a queue if there was none. */
  ghost predicate Back(s: State, t: State, high: seq<Proc>, low: seq<Proc>) {
    if s.mode == Running then GoesOn(s, t, high, low) else HandsOver(t, high, low, None)
  }

  lemma ResumeDoes(s: State, m: State)
    requires Valid(s) && (s.mode == Running || s.mode == Waiting)
    requires m.curr == s.curr && m.skip == s.skip && m.count == s.count
    ensures var t := Resume(m);
            && Back(s, t, m.high, m.low) && SameProcesses(m, t) && SameQueues(m, t, {})
            && t.val == m.val && t.soft == m.soft && t.blocked == m.blocked
  {
    SomebodyLives(s);
    if s.mode != Running { ScheduleFrom(m); }
  }

  lemma InterruptEnds(s: State, m: State, k: Key, n: nat)
    requires Valid(s) && (s.mode == Running || s.mode == Waiting) && Released(s, m, k, n)
    requires m.curr == s.curr && m.skip == s.skip
    ensures var t := Resume(m);
            Released(s, t, k, n) && t.soft == m.soft && t.blocked == m.blocked && Back(s, t, m.high, m.low)
  {
    ResumeDoes(s, m);
  }

  lemma CompletionEnds(s: State, m: State, k: Key)
    requires Valid(s) && (s.mode == Running || s.mode == Waiting) && Released(s, m, k, 1)
    requires m.curr == s.curr && m.skip == s.skip
    ensures var t := Resume(m.(soft := m.soft - 1));
            Released(s, t, k, 1) && t.soft == m.soft - 1 && Back(s, t, m.high, m.low)
  {
    InterruptEnds(s, m.(soft := m.soft - 1), k, 1);
  }

  lemma CompletionDoes(s: State, k: Key)
    requires Valid(s) && (s.mode == Running || s.mode == Waiting) && Waited(s, k)
    requires s.pid[s.blocked[k][0]] != Pids.FREE_PID
    ensures var t, w := DeviceDone(s, k), QueueOf(s, k);
            && Released(s, t, k, 1) && t.soft == s.soft - 1 && Back(s, t, HighWith(s, w[..1]), LowWith(s, w[..1]))
  {
    WakeDoes(s, k);
    CompletionEnds(s, Wake(s, k), k);
  }

  /** A device completes: the first of those who wait for it becomes ready. */
  ghost predicate Completed(s: State, t: State, k: Key) {
    var w := QueueOf(s, k);
    && w != [] && Released(s, t, k, 1) && t.soft == s.soft - 1
    && Back(s, t, HighWith(s, w[..1]), LowWith(s, w[..1]))
  }

  lemma DeviceDoes(s: State, k: Key)
    requires Valid(s) && Enabled(s, Device(k))
    ensures Completed(s, Step(s, Device(k)), k)
  {
    InterruptIs(s, Device(k));
    QueueLives(s, Runner(s), k);
    assert s.blocked[k][0] in QueueOf(s, k);
    CompletionDoes(s, k);
  }

  lemma {:induction false} OfPrioConcat(q: seq<Proc>, r: seq<Proc>, prio: seq<Prio>, x: Prio)
    ensures OfPrio(q + r, prio, x) == OfPrio(q, prio, x) + OfPrio(r, prio, x)
  {
    if q == [] {
      assert q + r == r;
    } else {
      assert (q + r)[1..] == q[1..] + r;
      OfPrioConcat(q[1..], r, prio, x);
    }
  }

  /** What the loop of the interval timer makes of s. */
  ghost predicate Drained(s: State, t: State) {
    var w := QueueOf(s, SEMAPHORE_IT);
    && Released(s, t, SEMAPHORE_IT, |w|) && t.soft == s.soft - |w|
    && t.high == HighWith(s, w) && t.low == LowWith(s, w)
    && t.curr == s.curr && t.skip == s.skip && t.mode == s.mode && !Waited(t, SEMAPHORE_IT)
  }

  lemma DrainedOn(s: State, m: State, t: State)
    requires var w := QueueOf(s, SEMAPHORE_IT);
             && w != [] && Released(s, m, SEMAPHORE_IT, 1) && m.soft == s.soft - 1
             && m.high == HighWith(s, w[..1]) && m.low == LowWith(s, w[..1])
             && m.curr == s.curr && m.skip == s.skip && m.mode == s.mode
    requires Drained(m, t)
    ensures Drained(s, t)
  {
    var w := QueueOf(s, SEMAPHORE_IT);
    assert w == w[..1] + w[1..] && w[1..][|w| - 1..] == w[|w|..];
    OfPrioConcat(w[..1], w[1..], s.prio, HighPrio);
    OfPrioConcat(w[..1], w[1..], s.prio, LowPrio);
    assert s.high + OfPrio(w[..1], s.prio, HighPrio) + OfPrio(w[1..], s.prio, HighPrio) == HighWith(s, w);
    assert s.low + OfPrio(w[..1], s.prio, LowPrio) + OfPrio(w[1..], s.prio, LowPrio) == LowWith(s, w);
  }

  lemma {:induction false} DrainDoes(s: State)
    requires Sized(s)
    requires forall p :: p in QueueOf(s, SEMAPHORE_IT) ==> p < |s.pid| && s.pid[p] != Pids.FREE_PID
    ensures Drained(s, DrainTimer(s))
    decreases |QueueOf(s, SEMAPHORE_IT)|
  {
    var w := QueueOf(s, SEMAPHORE_IT);
    if Waited(s, SEMAPHORE_IT) {
      WakeSized(s, SEMAPHORE_IT);
      assert w[0] in w;
      WakeDoes(s, SEMAPHORE_IT);
      var m := Wake(s, SEMAPHORE_IT).(soft := s.soft - 1);
      DrainDoes(m);
      DrainedOn(s, m, DrainTimer(m));
    }
  }

  lemma IntervalDoes(s: State)
    requires Valid(s) && (s.mode == Running || s.mode == Waiting)
    requires SEMAPHORE_IT in s.val && s.val[SEMAPHORE_IT] == 0
    requires forall p :: p in QueueOf(s, SEMAPHORE_IT) ==> p < |s.pid| && s.pid[p] != Pids.FREE_PID
    ensures var t, w := IntervalTimer(s), QueueOf(s, SEMAPHORE_IT);
            && Released(s, t, SEMAPHORE_IT, |w|) && t.soft == s.soft - |w| && Back(s, t, HighWith(s, w), LowWith(s, w))
            && !Waited(t, SEMAPHORE_IT)
  {
    DrainDoes(s);
    var d := DrainTimer(s);
    var m := d.(val := d.val[SEMAPHORE_IT := 0]);
    assert m.val == s.val && Released(s, m, SEMAPHORE_IT, |QueueOf(s, SEMAPHORE_IT)|);
    InterruptEnds(s, m, SEMAPHORE_IT, |QueueOf(s, SEMAPHORE_IT)|);
  }

  /** The interval timer: everybody who waits for it becomes ready, in order. */
  ghost predicate Ticked(s: State, t: State) {
    var w := QueueOf(s, SEMAPHORE_IT);
    && SEMAPHORE_IT !in t.blocked && Released(s, t, SEMAPHORE_IT, |w|) && t.soft == s.soft - |w|
    && Back(s, t, HighWith(s, w), LowWith(s, w))
  }

  lemma TimerDoes(s: State)
    requires Valid(s) && Enabled(s, Timer)
    ensures Ticked(s, Step(s, Timer))
  {
    InterruptIs(s, Timer);
    QueueLives(s, Runner(s), SEMAPHORE_IT);
    CellOf(s, Runner(s), SEMAPHORE_IT);
    IntervalDoes(s);
    StepKeeps(s, Timer);
    QueueLives(Step(s, Timer), Runner(Step(s, Timer)), SEMAPHORE_IT);
  }

  /** Any other interrupt changes nothing. */
  lemma SpuriousDoes(s: State)
    requires Valid(s) && Enabled(s, Spurious)
    ensures Step(s, Spurious) == s
  {
    InterruptIs(s, Spurious);
  }

  /** The running process at the end of the queue of its priority, and the processor handed over. */
  ghost predicate Requeued(s: State, t: State, skip: Option<Proc>) {
    && s.curr.Some? && SameProcesses(s, t) && SameQueues(s, t, {}) && t.val == s.val && t.soft == s.soft
    && HandsOver(t, HighWith(s, [s.curr.value]), LowWith(s, [s.curr.value]), skip)
  }

  lemma RequeueDoes(s: State, skip: Option<Proc>)
    requires s.curr.Some? && s.curr.value < |s.pid| == |s.prio| && s.pid[s.curr.value] != Pids.FREE_PID && s.count != 0
    ensures Requeued(s, Schedule(SetReady(s.(skip := skip), s.curr.value).(curr := None)), skip)
  {
    var r := s.(skip := skip);
    ReadyDoes(r, s.curr.value);
    ScheduleFrom(SetReady(r, s.curr.value).(curr := None));
  }

  /** The end of a time slice: nobody is skipped. */
  lemma SliceDoes(s: State)
    requires Valid(s) && Enabled(s, Slice)
    ensures Requeued(s, Step(s, Slice), None)
  {
    InterruptIs(s, Slice);
    RunningAlive(s);
    SomebodyLives(s);
    RequeueDoes(s, None);
    assert s.(skip := None) == s;
  }

  // ----- system calls of the running process alone -----

  /** YIELD: as the end of a time slice, but the caller is skipped if a low-priority process is ready. */
  lemma YieldDoes(s: State)
    requires Valid(s) && Enabled(s, YieldCall)
    ensures Requeued(s, Step(s, YieldCall), s.curr)
  {
    RunningAlive(s);
    SomebodyLives(s);
    RequeueDoes(s, s.curr);
  }

  lemma QueryDoes(s: State, e: Event)
    requires Valid(s) && Enabled(s, e) && (e.GetTime? || e.Query?)
    ensures Step(s, e) == s
  {
  }

  // ----- semaphores -----

  /** The caller is at the end of the queue of k, and the processor handed over. */
  ghost predicate Blocked(s: State, t: State, k: Key) {
    && s.curr.Some? && SameProcesses(s, t) && SameQueues(s, t, {k}) && t.val == s.val
    && QueueOf(t, k) == QueueOf(s, k) + [s.curr.value] && HandsOver(t, s.high, s.low, None)
  }

  lemma BlockDoes(s: State, k: Key)
    requires Sized(s) && s.curr.Some? && s.count != 0 && s.skip == None && !NoFreeDescriptor(s, k)
    ensures Blocked(s, Block(s, k), k) && Block(s, k).soft == s.soft
  {
    ScheduleFrom(InsertBlocked(s, k, s.curr.value));
  }

  lemma DoIODoes(s: State, k: Key)
    requires Sized(s) && s.curr.Some? && s.count != 0 && s.skip == None && !NoFreeDescriptor(s, k)
    requires k in s.val && s.val[k] == 0
    ensures Blocked(s, DoIO(s, k), k) && DoIO(s, k).soft == s.soft + 1
  {
    BlockDoes(s.(soft := s.soft + 1), k);
  }

  /** DOIO on the semaphore of a device, and CLOCKWAIT. */
  lemma WaitDoes(s: State, e: Event, k: Key)
    requires Valid(s) && Enabled(s, e) && (e == IO(k) || (e == Clock && k == SEMAPHORE_IT))
    ensures Blocked(s, Step(s, e), k) && Step(s, e).soft == s.soft + 1
  {
    RunningAlive(s);
    SomebodyLives(s);
    CellOf(s, s.curr, k);
    if e.IO? { DeviceIsSoft(k); }
    DescriptorLeft(s, s.curr.value, k);
    DoIODoes(s, k);
  }

  /** P where `closed` is 0, V where it is 1: the caller waits if the cell is `closed`; otherwise the
      first waiter is released, or the cell is closed if nobody waits, and the caller goes on. */
  ghost predicate Semaphored(s: State, t: State, k: Key, closed: int)
    requires k in s.val
  {
    var w := QueueOf(s, k);
    && t.soft == s.soft
    && if s.val[k] == closed then Blocked(s, t, k)
       else if w != [] then Released(s, t, k, 1) && GoesOn(s, t, HighWith(s, w[..1]), LowWith(s, w[..1]))
       else t == s.(val := s.val[k := closed])
  }

  lemma ReleaseDoes(s: State, k: Key)
    requires Valid(s) && s.mode == Running && Waited(s, k)
    ensures var t, w := Wake(s, k), QueueOf(s, k);
            Released(s, t, k, 1) && t.soft == s.soft && GoesOn(s, t, HighWith(s, w[..1]), LowWith(s, w[..1]))
  {
    QueueLives(s, s.curr, k);
    assert s.blocked[k][0] in QueueOf(s, k);
    WakeDoes(s, k);
  }

  lemma SemaphoreDoes(s: State, k: Key)
    requires Valid(s) && s.mode == Running && Ordinary(s, k)
    ensures s.curr.Some? && Sized(s) && Semaphored(s, SemP(s, k), k, 0) && Semaphored(s, SemV(s, k), k, 1)
  {
    SomebodyLives(s);
    RunnerFits(s, k);
    BlockDoes(s, k);
    QueueLives(s, s.curr, k);
    if Waited(s, k) { ReleaseDoes(s, k); }
  }

  lemma PDoes(s: State, k: Key)
    requires Valid(s) && Enabled(s, P(k))
    ensures Semaphored(s, Step(s, P(k)), k, 0)
  {
    RunningAlive(s);
    SemaphoreDoes(s, k);
  }

  lemma VDoes(s: State, k: Key)
    requires Valid(s) && Enabled(s, V(k))
    ensures Semaphored(s, Step(s, V(k)), k, 1)
  {
    RunningAlive(s);
    SemaphoreDoes(s, k);
  }

  // ----- process creation -----

  /** CREATEPROCESS: without a free PCB nothing happens.  Otherwise the first free one becomes a
      process with an identifier of its own, the last child of the caller, last on the ready queue of
      the priority given, with the support structure given; and the caller goes on. */
  ghost predicate Born(s: State, t: State, prio: Prio, support: Option<nat>)
    requires Sized(s) && s.curr.Some?
  {
    if s.free == [] then t == s
    else
      var p, c := s.free[0], s.curr.value;
      && p !in LiveSet(s.pid) && LiveSet(t.pid) == LiveSet(s.pid) + {p}
      && |t.pid| == |s.pid| && t.pid == s.pid[p := t.pid[p]]
      && (forall q :: q in LiveSet(s.pid) ==> s.pid[q] != t.pid[p])
      && t.free == s.free[1..] && t.count == s.count + 1
      && t.prio == s.prio[p := prio] && t.support == s.support[p := support]
      && t.parent == s.parent[p := Some(c)] && t.kids == s.kids[c := s.kids[c] + [p]]
      && t.blocked == s.blocked && t.semAdd == s.semAdd && t.val == s.val && t.soft == s.soft
      && (if prio == LowPrio then GoesOn(s, t, s.high, s.low + [p]) else GoesOn(s, t, s.high + [p], s.low))
  }

  lemma CreatedBorn(s: State, prio: Prio, support: Option<nat>, c: Proc, x: nat)
    requires Sized(s) && s.mode == Running && s.curr == Some(c) && s.free != [] && s.pid[s.free[0]] == Pids.FREE_PID
    requires x != Pids.FREE_PID && forall q :: 0 <= q < |s.pid| && s.pid[q] != Pids.FREE_PID ==> s.pid[q] != x
    ensures Born(s, Creation.Created(s, prio, support, c, x), prio, support)
  {
    Creation.NewLive(s.pid, s.free[0], x);
  }

  lemma CreateDoes(s: State, prio: Prio, support: Option<nat>)
    requires Valid(s) && Enabled(s, Create(prio, support))
    ensures s.curr.Some? && Born(s, Step(s, Create(prio, support)), prio, support)
  {
    RunningAlive(s);
    if s.free != [] {
      Creation.CreateIs(s, s.curr.value, prio, support);
      Creation.GeneratedPidFresh(s, s.curr);
      CreatedBorn(s, prio, support, s.curr.value, GeneratedPid(s));
    }
  }

  // ----- process destruction -----

  /** In t the processes of d are gone from every queue and from the tree, and nobody else is; their
      PCBs are at the front of the free list. */
  ghost predicate Gone(s: State, t: State, d: set<Proc>) {
    && |t.pid| == |s.pid| == |t.parent| == |s.parent| == |t.kids| == |s.kids|
    && LiveSet(t.pid) == LiveSet(s.pid) - d && t.count == s.count - |d| && t.prio == s.prio && t.support == s.support
    && t.val == s.val && |t.free| == |s.free| + |d| && t.free[|d|..] == s.free
    && (forall k {:trigger QueueOf(t, k)} {:trigger QueueOf(s, k)} :: QueueOf(t, k) == Without(QueueOf(s, k), d))
    && (forall q :: q in LiveSet(t.pid) ==>
          t.pid[q] == s.pid[q] && t.parent[q] == s.parent[q] && t.kids[q] == Without(s.kids[q], d))
  }

  /** The processor after the processes of d are gone: the machine halts if nobody is left; the running
      process goes on if it is; otherwise the processor is handed over. */
  ghost predicate Left(s: State, t: State, d: set<Proc>) {
    var high, low := Without(s.high, d), Without(s.low, d);
    if LiveSet(t.pid) == {} then t.mode == Halted
    else if s.curr.Some? && s.curr.value !in d then GoesOn(s, t, high, low)
    else HandsOver(t, high, low, None)
  }

  /** p and its descendants die, p last. */
  ghost predicate Ends(s: State, t: State, p: Proc) {
    && p in LiveSet(s.pid) && t.free != [] && t.free[0] == p
    && (forall q :: q in Dead(s, t) <==> q in LiveSet(s.pid) && Descendant(s.parent, q, p))
    && Gone(s, t, Dead(s, t)) && Left(s, t, Dead(s, t))
  }

  lemma {:induction false} LastInFront(order: seq<Proc>)
    requires order != []
    ensures Reverse(order)[0] == order[|order| - 1]
    decreases |order|
  {
    if |order| > 1 {
      LastInFront(order[1..]);
      assert Reverse(order)[0] == Reverse(order[1..])[0];
    } else {
      assert Reverse(order[1..]) == [];
    }
  }

  lemma CutGone(s: State, d: set<Proc>, order: seq<Proc>)
    requires Sized(s) && Elements(order) == d && d <= LiveSet(s.pid) && |order| == |d| && order != []
    ensures Release(Detach(s, d), order).free != [] && Release(Detach(s, d), order).free[0] == order[|order| - 1]
    ensures var t := Release(Detach(s, d), order);
            && Gone(s, t, d) && t.high == Without(s.high, d) && t.low == Without(s.low, d)
            && t.curr == s.curr && t.skip == s.skip && t.mode == s.mode
  {
    forall k ensures QueueOf(Release(Detach(s, d), order), k) == Without(QueueOf(s, k), d) { CutFrame(s, d, order, k); }
    LastInFront(order);
  }

  lemma KillGone(s: State, p: Proc)
    requires Sized(s) && IsTree(s) && p in LiveSet(s.pid)
    ensures var t, d := Kill(s, p), Doomed(s, p);
            && Gone(s, t, d) && t.high == Without(s.high, d) && t.low == Without(s.low, d)
            && t.curr == s.curr && t.skip == s.skip && t.mode == s.mode && t.free != [] && t.free[0] == p
  {
    KillOrder(s, p);
    CutGone(s, Doomed(s, p), Post(Sub(TreeOf(s), p)) + [p]);
  }

  lemma ScheduleEnds(s: State, m: State, d: set<Proc>)
    requires Gone(s, m, d) && m.high == Without(s.high, d) && m.low == Without(s.low, d) && m.skip == None
    requires m.count == |LiveSet(m.pid)|
    requires s.curr.Some? ==> s.curr.value in d
    ensures Gone(s, Schedule(m), d) && Left(s, Schedule(m), d) && Schedule(m).free == m.free
  {
    if m.count != 0 { ScheduleFrom(m); }
  }

  /** The kill, and what follows it: back to the caller if it lives, else to the scheduler. */
  lemma KilledEnds(s: State, p: Proc)
    requires Valid(s) && s.mode == Running && p in LiveSet(s.pid)
    ensures s.curr.Some? && s.curr.value in LiveSet(s.pid) && Ends(s, Terminated(s, p), p)
  {
    var m, d := Kill(s, p), Doomed(s, p);
    RunningAlive(s);
    SomebodyLives(s);
    KillGone(s, p);
    KillKeeps(s, s.curr, p);
    forall q ensures q in d <==> q in LiveSet(s.pid) && Descendant(s.parent, q, p) {
      DoomedAreDescendants(s, s.curr, p, q);
    }
    if s.curr.value in d { ScheduleEnds(s, m, d); }
    DeadIs(s, Terminated(s, p), d);
  }

  lemma DeadIs(s: State, t: State, d: set<Proc>)
    requires LiveSet(t.pid) == LiveSet(s.pid) - d && d <= LiveSet(s.pid)
    ensures Dead(s, t) == d
  {
  }

  lemma DieIs(s: State)
    requires Valid(s) && s.mode == Running
    ensures s.curr.Some? && s.curr.value in LiveSet(s.pid) && Die(s) == Terminated(s, s.curr.value)
  {
    RunningAlive(s);
    SelfDies(s, s.curr.value);
  }

  lemma {:induction false} FindPidFinds(pids: seq<Proc>, table: seq<nat>, pid: nat)
    requires Below(pids, |table|) && FindPid(pids, table, pid) == None
    ensures forall p :: p in pids ==> table[p] != pid
    decreases |pids|
  {
    if pids != [] {
      FindPidFinds(pids[1..], table, pid);
      forall p | p in pids ensures table[p] != pid { assert p == pids[0] || p in pids[1..]; }
    }
  }

  /** Whom TERMPROCESS finds: the one live process with that identifier. */
  lemma HolderFound(s: State, pid: nat, p: Proc)
    requires Valid(s) && s.mode == Running
    ensures ProcessOf(s, pid) == Some(p) <==> p in LiveSet(s.pid) && s.pid[p] == pid
  {
    var r := ProcessOf(s, pid);
    RunningAlive(s);
    if p in LiveSet(s.pid) && s.pid[p] == pid {
      assert Listed(s.pids, s.pid, s.free, p);
      if r == None { FindPidFinds(s.pids, s.pid, pid); }
      if r != Some(p) { Names.OneName(s, s.curr, r.value, p); }
    }
  }

  lemma TermSelf(s: State)
    requires Valid(s) && s.mode == Running && s.curr.Some? && s.curr.value in LiveSet(s.pid)
    requires forall p :: p in s.pids ==> p in LiveSet(s.pid)
    ensures Ends(s, TermProcess(s, 0), s.curr.value) && Ends(s, Die(s), s.curr.value)
  {
    DieIs(s);
    KilledEnds(s, s.curr.value);
  }

  lemma TermHolder(s: State, pid: nat, p: Proc)
    requires Valid(s) && s.mode == Running && s.curr.Some? && s.curr.value in LiveSet(s.pid)
    requires forall q :: q in s.pids ==> q in LiveSet(s.pid)
    requires pid != 0 && p in LiveSet(s.pid) && s.pid[p] == pid
    ensures Ends(s, TermProcess(s, pid), p)
  {
    HolderFound(s, pid, p);
    NamedVictim(s, pid);
    KilledEnds(s, p);
  }

  lemma TermNobody(s: State, pid: nat)
    requires Valid(s) && s.mode == Running && s.curr.Some? && s.curr.value in LiveSet(s.pid)
    requires forall q :: q in s.pids ==> q in LiveSet(s.pid)
    requires pid != 0 && forall p :: p in LiveSet(s.pid) ==> s.pid[p] != pid
    ensures TermProcess(s, pid) == s
  {
    NamedVictim(s, pid);
    var r := ProcessOf(s, pid);
    if r.Some? { HolderFound(s, pid, r.value); }
  }

  lemma StepIs(s: State, e: Event)
    requires Valid(s) && Enabled(s, e) && (e.Term? || e.Exception?)
    ensures s.mode == Running && s.curr.Some? && s.curr.value in LiveSet(s.pid) && s.curr.value < |s.support|
    ensures forall p :: p in s.pids ==> p in LiveSet(s.pid)
    ensures e.Term? ==> Step(s, e) == TermProcess(s, e.pid)
    ensures e.Exception? ==> Step(s, e) == if s.support[s.curr.value] == None then Die(s) else s
  {
    RunningAlive(s);
  }

  /** TERMPROCESS: of 0, the caller and its descendants die; of an identifier in use, its holder and the
      holder's; of any other, nobody, and nothing changes. */
  ghost predicate Terminates(s: State, t: State, pid: nat) {
    && s.curr.Some? && (pid == 0 ==> Ends(s, t, s.curr.value))
    && (forall p :: pid != 0 && p in LiveSet(s.pid) && s.pid[p] == pid ==> Ends(s, t, p))
    && (pid != 0 && (forall p :: p in LiveSet(s.pid) ==> s.pid[p] != pid) ==> t == s)
  }

  lemma TermDoes(s: State, pid: nat)
    requires Valid(s) && Enabled(s, Term(pid))
    ensures Terminates(s, Step(s, Term(pid)), pid)
  {
    StepIs(s, Term(pid));
    var t := TermProcess(s, pid);
    if pid == 0 {
      TermSelf(s);
    } else {
      forall p | p in LiveSet(s.pid) && s.pid[p] == pid ensures Ends(s, t, p) { TermHolder(s, pid, p); }
      if forall p :: p in LiveSet(s.pid) ==> s.pid[p] != pid { TermNobody(s, pid); }
    }
  }

  /** A trap: without a support structure the process dies with its descendants; with one, no kernel
      structure changes. */
  ghost predicate Trapped(s: State, t: State) {
    && s.curr.Some? && s.curr.value < |s.support|
    && if s.support[s.curr.value] == None then Ends(s, t, s.curr.value) else t == s
  }

  lemma ExceptionDoes(s: State)
    requires Valid(s) && Enabled(s, Exception)
    ensures Trapped(s, Step(s, Exception))
  {
    StepIs(s, Exception);
    TermSelf(s);
  }

  // ----- every entry -----

  /** What an entry that leads from s to t has to do. */
  ghost predicate Does(s: State, e: Event, t: State)
    requires Sized(s)
  {
    match e
    case Create(prio, support) => s.curr.Some? && Born(s, t, prio, support)
    case Term(pid) => Terminates(s, t, pid)
    case P(k) => k in s.val && Semaphored(s, t, k, 0)
    case V(k) => k in s.val && Semaphored(s, t, k, 1)
    case IO(k) => Blocked(s, t, k) && t.soft == s.soft + 1
    case Clock => Blocked(s, t, SEMAPHORE_IT) && t.soft == s.soft + 1
    case GetTime => t == s
    case Query => t == s
    case YieldCall => Requeued(s, t, s.curr)
    case Exception => Trapped(s, t)
    case Slice => Requeued(s, t, None)
    case Timer => Ticked(s, t)
    case Device(k) => Completed(s, t, k)
    case Spurious => t == s
  }

  lemma EveryCall(s: State, e: Event)
    requires Valid(s) && Enabled(s, e) && !IsInterrupt(e)
    ensures Does(s, e, Step(s, e))
  {
    match e
    case Create(prio, support) => CreateDoes(s, prio, support);
    case Term(pid) => TermDoes(s, pid);
    case P(k) => PDoes(s, k);
    case V(k) => VDoes(s, k);
    case IO(k) => WaitDoes(s, e, k);
    case Clock => WaitDoes(s, e, SEMAPHORE_IT);
    case GetTime => QueryDoes(s, e);
    case Query => QueryDoes(s, e);
    case YieldCall => YieldDoes(s);
    case Exception => ExceptionDoes(s);
  }

  lemma EveryInterrupt(s: State, e: Event)
    requires Valid(s) && Enabled(s, e) && IsInterrupt(e)
    ensures Does(s, e, Step(s, e))
  {
    match e
    case Slice => SliceDoes(s);
    case Timer => TimerDoes(s);
    case Device(k) => DeviceDoes(s, k);
    case Spurious => SpuriousDoes(s);
  }

  /** Every kernel entry does that. */
  lemma EveryEntry(s: State, e: Event)
    requires Valid(s) && Enabled(s, e)
    ensures Does(s, e, Step(s, e))
  {
    if IsInterrupt(e) { EveryInterrupt(s, e); } else { EveryCall(s, e); }
  }
}
