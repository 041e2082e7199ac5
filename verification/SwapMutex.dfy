/** The mutex around the swap pool: a two-sided binary semaphore behind the wrappers P and V of
    lib/utilities.c, which note the holder in user_asid, and the release protocol of
    trapExceptionHandler.  Each assignment and each system call is a step of its own, so other
    processes can run in every window between them.  The printer and terminal mutexes are used in
    the same way. */
module SwapMutex {
  import opened Sequences
  import opened BinarySemaphore

  const NOPROC: int := -1

  /** Why a process wants the mutex, or gives it back. */
  datatype Purpose =
    | ForFault    // _TLBInvalidHandler
    | ForDeath    // freeFrames
    | Undo        // releaseSwapPoolSem, for a process that dies inside _TLBInvalidHandler

  datatype Pc =
    | User
    | Asking(why: Purpose)     // about to do the PASSEREN of P
    | Queued(why: Purpose)     // blocked in it
    | Window(why: Purpose)     // past it, user_asid not yet written
    | Holding(why: Purpose)
    | Cleared(why: Purpose)    // V has written NOPROC, about to do its VERHOGEN
    | Trapped(inside: bool)    // in trapExceptionHandler; `inside` is history, the code does not have it
    | Done                     // past freeFrames

  datatype Mutex = Mutex(cell: Cell, owner: int, pc: map<nat, Pc>)

  datatype Event =
    | Start(a: nat)      // a new process
    | Begin(a: nat)      // a page fault
    | Terminate(a: nat)  // the TERMINATE system call
    | Trap(a: nat)       // an error, in user mode or while serving a page fault
    | Check(a: nat)      // the comparison in releaseSwapPoolSem
    | CallP(a: nat)
    | SetOwner(a: nat)
    | Clear(a: nat)
    | CallV(a: nat)

  ghost predicate Enabled(s: Mutex, e: Event) {
    (e.Start? || e.a in s.pc) &&
    match e
    case Start(a) => a !in s.pc
    case Begin(a) => s.pc[a] == User
    case Terminate(a) => s.pc[a] == User
    case Trap(a) => s.pc[a] == User || s.pc[a] == Holding(ForFault)
    case Check(a) => s.pc[a].Trapped?
    case CallP(a) => s.pc[a].Asking?
    case SetOwner(a) => s.pc[a].Window?
    case Clear(a) => s.pc[a].Holding?
    case CallV(a) => s.pc[a].Cleared?
  }

  /** Where a process goes on after its V. */
  function AfterV(why: Purpose): Pc {
    match why
    case ForFault => User
    case ForDeath => Done
    case Undo => Asking(ForDeath)
  }

  /** A process released from the semaphore goes on behind the system call it was blocked in. */
  ghost function Resume(pc: map<nat, Pc>, p: nat): map<nat, Pc> {
    if p !in pc then pc
    else if pc[p].Queued? then pc[p := Window(pc[p].why)]
    else if pc[p].Cleared? then pc[p := AfterV(pc[p].why)]
    else pc
  }

  ghost function Go(s: Mutex, a: nat, op: Op, after: Pc, waiting: Pc): Mutex {
    if Blocks(s.cell, op) then Mutex(Call(s.cell, op, a), s.owner, s.pc[a := waiting])
    else
      var pc := s.pc[a := after];
      Mutex(Call(s.cell, op, a), s.owner, if s.cell.queue == [] then pc else Resume(pc, s.cell.queue[0]))
  }

  ghost function Next(s: Mutex, e: Event): Mutex
    requires Enabled(s, e)
  {
    match e
    case Start(a) => s.(pc := s.pc[a := User])
    case Begin(a) => s.(pc := s.pc[a := Asking(ForFault)])
    case Terminate(a) => s.(pc := s.pc[a := Asking(ForDeath)])
    case Trap(a) => s.(pc := s.pc[a := Trapped(s.pc[a].Holding?)])
    case Check(a) => s.(pc := s.pc[a := if s.owner == a then Holding(Undo) else Asking(ForDeath)])
    case CallP(a) => Go(s, a, OpP, Window(s.pc[a].why), Queued(s.pc[a].why))
    case SetOwner(a) => s.(owner := a, pc := s.pc[a := Holding(s.pc[a].why)])
    case Clear(a) => s.(owner := NOPROC, pc := s.pc[a := Cleared(s.pc[a].why)])
    case CallV(a) => Go(s, a, OpV, AfterV(s.pc[a].why), s.pc[a])
  }

  /** Between the two system calls. */
  predicate Inside(x: Pc) { x.Window? || Marked(x) || x.Cleared? }

  /** Between the two assignments to user_asid. */
  predicate Marked(x: Pc) { x.Holding? || x == Trapped(true) }

  ghost predicate Consistent(s: Mutex) {
    && (s.cell.val == 0 || (s.cell.val == 1 && s.cell.queue == []))
    && NoDup(s.cell.queue)
    && (forall a :: a in s.cell.queue <==> a in s.pc && s.pc[a].Queued?)
    && (s.owner == NOPROC || (s.owner >= 0 && s.owner in s.pc && Marked(s.pc[s.owner])))
    && (forall a :: a in s.pc && Marked(s.pc[a]) ==> s.owner == a)
  }

  ghost predicate Exclusive(s: Mutex) {
    && (forall a, b :: a in s.pc && b in s.pc && Inside(s.pc[a]) && Inside(s.pc[b]) ==> a == b)
    && (s.cell.val == 1 <==> forall a :: a in s.pc ==> !Inside(s.pc[a]))
  }

  ghost predicate Inv(s: Mutex) { Consistent(s) && Exclusive(s) }

  /** initSwapStructs. */
  ghost predicate Boot(s: Mutex) {
    s.cell == Cell(1, []) && s.owner == NOPROC && forall a :: a in s.pc ==> s.pc[a] == User
  }

  ghost predicate IsRun(s: Mutex, es: seq<Event>)
    decreases |es|
  {
    es == [] || (Enabled(s, es[0]) && IsRun(Next(s, es[0]), es[1..]))
  }

  ghost function Exec(s: Mutex, es: seq<Event>): Mutex
    requires IsRun(s, es)
    decreases |es|
  {
    if es == [] then s else Exec(Next(s, es[0]), es[1..])
  }

  /** One process moves on without entering, leaving or asking. */
  lemma MovesOn(s: Mutex, a: nat, x: Pc)
    requires Inv(s) && a in s.pc && !s.pc[a].Queued? && !x.Queued? && Inside(s.pc[a]) == Inside(x)
    ensures Exclusive(s.(pc := s.pc[a := x]))
    ensures forall b :: b in s.cell.queue <==> b in s.pc[a := x] && s.pc[a := x][b].Queued?
  {
    var pc := s.pc[a := x];
    forall b | b in pc ensures Inside(pc[b]) == Inside(s.pc[b]) {}
    if s.cell.val != 1 {
      var h :| h in s.pc && Inside(s.pc[h]);
      assert h in pc && Inside(pc[h]);
    }
  }

  /** The steps that leave user_asid alone keep who is marked. */
  lemma QuietKeeps(s: Mutex, e: Event)
    requires Inv(s) && Enabled(s, e) && (e.Begin? || e.Terminate? || e.Trap? || e.Check?)
    ensures Inv(Next(s, e))
  {
    var x := Next(s, e).pc[e.a];
    assert Marked(x) == Marked(s.pc[e.a]);
    MovesOn(s, e.a, x);
  }

  lemma SetOwnerKeeps(s: Mutex, a: nat)
    requires Inv(s) && Enabled(s, SetOwner(a))
    ensures Inv(Next(s, SetOwner(a)))
  {
    MovesOn(s, a, Holding(s.pc[a].why));
    forall b | b in s.pc && Marked(s.pc[b]) ensures b == a { assert Inside(s.pc[b]) && Inside(s.pc[a]); }
  }

  lemma ClearKeeps(s: Mutex, a: nat)
    requires Inv(s) && Enabled(s, Clear(a))
    ensures Inv(Next(s, Clear(a)))
  {
    MovesOn(s, a, Cleared(s.pc[a].why));
    forall b | b in s.pc && Marked(s.pc[b]) ensures b == a { assert Inside(s.pc[b]) && Inside(s.pc[a]); }
  }

  lemma CallPKeeps(s: Mutex, a: nat)
    requires Inv(s) && Enabled(s, CallP(a))
    ensures Inv(Next(s, CallP(a)))
  {
    var t := Next(s, CallP(a));
    if Blocks(s.cell, OpP) {
      var h :| h in s.pc && Inside(s.pc[h]);
      assert h in t.pc && Inside(t.pc[h]);
    } else {
      assert a in t.pc && Inside(t.pc[a]);
    }
  }

  /** The VERHOGEN of V never blocks; it hands the mutex to the first waiter, if there is one. */
  lemma VNeverBlocks(s: Mutex, a: nat)
    requires Inv(s) && Enabled(s, CallV(a))
    ensures !Blocks(s.cell, OpV)
    ensures s.cell.queue != [] ==>
      var b := s.cell.queue[0];
      var t := Next(s, CallV(a));
      b in t.pc && t.pc[b] == Window(s.pc[b].why) && t.cell.queue == s.cell.queue[1..] && t.cell.val == 0
  {
    if s.cell.queue != [] { assert s.cell.queue[0] in s.cell.queue; }
  }

  lemma CallVKeeps(s: Mutex, a: nat)
    requires Inv(s) && Enabled(s, CallV(a))
    ensures Inv(Next(s, CallV(a)))
  {
    VNeverBlocks(s, a);
    if s.cell.queue != [] { HeadAndTail(s.cell.queue); }
  }

  lemma StartKeeps(s: Mutex, a: nat)
    requires Inv(s) && Enabled(s, Start(a))
    ensures Inv(Next(s, Start(a)))
  {
    var t := Next(s, Start(a));
    if s.cell.val != 1 {
      var h :| h in s.pc && Inside(s.pc[h]);
      assert h in t.pc && Inside(t.pc[h]);
    }
  }

  lemma StepKeeps(s: Mutex, e: Event)
    requires Inv(s) && Enabled(s, e)
    ensures Inv(Next(s, e))
  {
    match e
    case Start(a) => StartKeeps(s, a);
    case CallP(a) => CallPKeeps(s, a);
    case CallV(a) => CallVKeeps(s, a);
    case SetOwner(a) => SetOwnerKeeps(s, a);
    case Clear(a) => ClearKeeps(s, a);
    case _ => QuietKeeps(s, e);
  }

  lemma {:induction false} RunKeeps(s: Mutex, es: seq<Event>)
    requires Inv(s) && IsRun(s, es)
    ensures Inv(Exec(s, es))
    decreases |es|
  {
    if es != [] {
      StepKeeps(s, es[0]);
      RunKeeps(Next(s, es[0]), es[1..]);
    }
  }

  /** In every reachable state, whatever the interleaving: at most one process is between its P and
      its V; user_asid names a process only if that is the one; and a dying process passes the test
      of releaseSwapPoolSem exactly if it holds the pool. */
  lemma MutexHolds(s: Mutex, es: seq<Event>)
    requires Boot(s) && IsRun(s, es)
    ensures var t := Exec(s, es);
      && (forall a, b :: a in t.pc && b in t.pc && Inside(t.pc[a]) && Inside(t.pc[b]) ==> a == b)
      && (forall a, b :: a in t.pc && t.owner == a && b in t.pc && Inside(t.pc[b]) ==> b == a && Marked(t.pc[a]))
      && (forall a :: a in t.pc && t.pc[a].Trapped? ==> (t.owner == a <==> t.pc[a].inside))
      && (forall a :: a in t.pc && t.pc[a].Asking? && t.pc[a].why == ForDeath ==> t.owner != a)
  {
    RunKeeps(s, es);
  }

  /** Nobody takes the mutex along: once every process is out of it, it is free. */
  lemma FreeAtRest(s: Mutex, es: seq<Event>)
    requires Boot(s) && IsRun(s, es)
    requires forall a :: a in Exec(s, es).pc ==> Exec(s, es).pc[a].User? || Exec(s, es).pc[a].Done?
    ensures Exec(s, es).cell == Cell(1, []) && Exec(s, es).owner == NOPROC
  {
    RunKeeps(s, es);
  }

  /** As long as somebody wants the mutex or holds it, some process can take a step towards its V:
      the holder, or, when there is none, everybody who asks. */
  lemma NoDeadlock(s: Mutex, es: seq<Event>, a: nat) returns (e: Event)
    requires Boot(s) && IsRun(s, es) && a in Exec(s, es).pc
    requires !Exec(s, es).pc[a].User? && !Exec(s, es).pc[a].Done?
    ensures Enabled(Exec(s, es), e) && !e.Start? && !e.Begin? && !e.Terminate? && !e.Trap?
    ensures e.CallP? ==> e.a == a
  {
    RunKeeps(s, es);
    var t := Exec(s, es);
    var x := t.pc[a];
    e := if x.Asking? then CallP(a) else if x.Trapped? then Check(a) else Clear(a);
    if x.Queued? {
      assert a in t.cell.queue;
      var h :| h in t.pc && Inside(t.pc[h]);
      e := Onward(h, t.pc[h]);
    } else if Inside(x) {
      e := Onward(a, x);
    }
  }

  /** The next step of the holder. */
  function Onward(h: nat, x: Pc): Event
    requires Inside(x)
  {
    match x
    case Window(_) => SetOwner(h)
    case Cleared(_) => CallV(h)
    case Trapped(_) => Check(h)
    case _ => Clear(h)
  }

  // ----- the way out -----

  /** In trapExceptionHandler or _terminate, or past them. */
  predicate Dying(x: Pc) {
    match x
    case User => false
    case Trapped(_) => true
    case Done => true
    case _ => x.why != ForFault
  }

  /** How many steps of its own a dying process has before it at most: the test of releaseSwapPoolSem, a
      V if it holds the pool, P, freeFrames and V. */
  function ToGo(x: Pc): nat
    requires Dying(x)
  {
    match x
    case Trapped(_) => 8
    case Holding(why) => if why == Undo then 7 else 2
    case Cleared(why) => if why == Undo then 6 else 1
    case Asking(why) => if why == Undo then 10 else 5
    case Queued(why) => if why == Undo then 9 else 4
    case Window(why) => if why == Undo then 8 else 3
    case Done => 0
  }

  /** A dying process never comes back to the program, and each step of its own brings it closer to the
      end; steps of others can only bring it closer too. */
  lemma DyingGoesOn(s: Mutex, e: Event, a: nat)
    requires Inv(s) && Enabled(s, e) && a in s.pc && Dying(s.pc[a])
    ensures var t := Next(s, e);
      && a in t.pc && Dying(t.pc[a]) && ToGo(t.pc[a]) <= ToGo(s.pc[a])
      && (e.a == a ==> ToGo(t.pc[a]) < ToGo(s.pc[a]))
  {
    if s.cell.queue != [] { assert s.cell.queue[0] in s.cell.queue; }
    if e.CallV? { VNeverBlocks(s, e.a); }
  }

  /** Whoever is through has just held the pool for freeFrames, or was through before. */
  lemma DoneAfterSweep(s: Mutex, e: Event, a: nat)
    requires Inv(s) && Enabled(s, e) && a in s.pc
    ensures Next(s, e).pc[a] == Done ==> s.pc[a] == Done || s.pc[a] == Cleared(ForDeath)
    ensures Next(s, e).pc[a] == Cleared(ForDeath) ==> s.pc[a] == Cleared(ForDeath) || s.pc[a] == Holding(ForDeath)
  {
    if s.cell.queue != [] { assert s.cell.queue[0] in s.cell.queue; }
    if e.CallV? { VNeverBlocks(s, e.a); }
  }

  /** Somewhere along the run a is at x. */
  ghost predicate Visits(s: Mutex, es: seq<Event>, a: nat, x: Pc)
    requires IsRun(s, es)
    decreases |es|
  {
    (a in s.pc && s.pc[a] == x) || (es != [] && Visits(Next(s, es[0]), es[1..], a, x))
  }

  ghost predicate PastSweep(x: Pc) { x == Done || x == Cleared(ForDeath) }

  /** Nobody is through without freeFrames: over every run, a process that ends, whether by the system
      call or by a trap and with or without the pool in its hands, holds the pool for it on the way. */
  lemma {:induction false} SweepsBeforeDone(s: Mutex, es: seq<Event>, a: nat)
    requires Inv(s) && IsRun(s, es) && a in s.pc && !PastSweep(s.pc[a])
    ensures a in Exec(s, es).pc && (PastSweep(Exec(s, es).pc[a]) ==> Visits(s, es, a, Holding(ForDeath)))
    decreases |es|
  {
    if es != [] {
      var t := Next(s, es[0]);
      StepKeeps(s, es[0]);
      DoneAfterSweep(s, es[0], a);
      if PastSweep(t.pc[a]) {
        StillThere(t, es[1..], a);
      } else {
        SweepsBeforeDone(t, es[1..], a);
      }
    }
  }

  lemma {:induction false} StillThere(s: Mutex, es: seq<Event>, a: nat)
    requires IsRun(s, es) && a in s.pc
    ensures a in Exec(s, es).pc
    decreases |es|
  {
    if es != [] { StillThere(Next(s, es[0]), es[1..], a); }
  }

  ghost function StepsOf(es: seq<Event>, a: nat): nat {
    if es == [] then 0 else (if es[0].a == a then 1 else 0) + StepsOf(es[1..], a)
  }

  /** Over every run: once a process traps it is never in user mode again, and eight steps of its own at
      most, whatever the others do, bring it to its end. */
  lemma {:induction false} DeathIsShort(s: Mutex, es: seq<Event>, a: nat)
    requires Inv(s) && IsRun(s, es) && a in s.pc && Dying(s.pc[a])
    ensures a in Exec(s, es).pc && Dying(Exec(s, es).pc[a])
    ensures StepsOf(es, a) + ToGo(Exec(s, es).pc[a]) <= ToGo(s.pc[a])
    decreases |es|
  {
    if es != [] {
      StepKeeps(s, es[0]);
      DyingGoesOn(s, es[0], a);
      DeathIsShort(Next(s, es[0]), es[1..], a);
    }
  }
}
