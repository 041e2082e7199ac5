/** The pager behind its mutex.  Module Paging lets a page fault, or freeFrames, begin only while
    the swap pool is idle; here a process begins when it has passed its P, and nothing else keeps it
    back.  Every run of mutex and pager together is shown to be a run of Paging, so that paging is
    transparent because of the mutex. */
module PagedSystem {
  import opened Pager
  import Paging
  import SwapMutex

  datatype System = System(paging: Paging.Machine, mutex: SwapMutex.Mutex)

  datatype Event =
    | Access(a: nat, x: Paging.Event)     // a load, a store or a TLB refill in user mode
    | Fault(a: nat, vpn: nat, slot: nat)
    | Quit(a: nat, trap: bool)            // a trap, or the TERMINATE system call
    | Sync(m: SwapMutex.Event)            // a step of P, of V, or of releaseSwapPoolSem
    | Act(a: nat)                         // an action of _TLBInvalidHandler or freeFrames between P and V
    | Spawn(a: nat, textSize: int)

  /** What each process may do, from its own place in the code.  It begins its V when its work on
      the pool is done. */
  ghost predicate Enabled(disk: map<Vp, Page>, c: System, e: Event) {
    match e
    case Access(a, x) =>
      && a in c.mutex.pc && c.mutex.pc[a] == SwapMutex.User
      && (x.Load? || x.Store? || x.Refill?) && x.asid == a && Paging.Enabled(disk, c.paging, x)
    case Fault(a, vpn, slot) =>
      && a in c.mutex.pc && c.mutex.pc[a] == SwapMutex.User
      && Paging.Enabled(disk, c.paging, Paging.Fault(a, vpn, slot))
    case Quit(a, _) => a in c.mutex.pc && c.mutex.pc[a] == SwapMutex.User
    case Sync(m) =>
      && (m.Check? || m.CallP? || m.SetOwner? || m.Clear? || m.CallV?) && SwapMutex.Enabled(c.mutex, m)
      && (m.Clear? ==> c.paging.stage == Paging.Idle)
    case Act(a) => a in c.mutex.pc && c.mutex.pc[a].Holding? && c.paging.stage != Paging.Idle
    case Spawn(a, textSize) => a !in c.mutex.pc && Paging.Enabled(disk, c.paging, Paging.Spawn(a, textSize))
  }

  /** A refill, if this is one, is sound: see Paging.SoundRefill. */
  ghost predicate Sound(c: System, e: Event) {
    e.Access? ==> Paging.Sound(c.paging, e.x)
  }

  /** The event, had a refill found x behind the table. */
  function WithBehind(e: Event, x: TlbEntry): Event {
    if e.Access? then e.(x := Paging.WithBehind(e.x, x)) else e
  }

  /** The event of Paging that goes with an event, if there is one: a process that has passed its P
      begins its work as it writes user_asid. */
  ghost function Part(c: System, e: Event): seq<Paging.Event>
    requires e.Sync? && e.m.SetOwner? ==> e.m.a in c.mutex.pc && c.mutex.pc[e.m.a].Window?
  {
    match e
    case Access(_, x) => [x]
    case Fault(a, vpn, slot) => [Paging.Fault(a, vpn, slot)]
    case Quit(a, _) => [Paging.Exit(a)]
    case Sync(m) =>
      if !m.SetOwner? then []
      else if c.mutex.pc[m.a].why == SwapMutex.ForFault then [Paging.Acquire(m.a)]
      else [Paging.StartFree(m.a)]
    case Act(_) => [Paging.Pager]
    case Spawn(a, textSize) => [Paging.Spawn(a, textSize)]
  }

  ghost function NextMutex(c: System, e: Event): SwapMutex.Mutex
    requires e.Fault? || e.Quit? ==> e.a in c.mutex.pc && c.mutex.pc[e.a] == SwapMutex.User
    requires e.Sync? ==> SwapMutex.Enabled(c.mutex, e.m)
    requires e.Spawn? ==> e.a !in c.mutex.pc
  {
    match e
    case Fault(a, _, _) => SwapMutex.Next(c.mutex, SwapMutex.Begin(a))
    case Quit(a, trap) => SwapMutex.Next(c.mutex, if trap then SwapMutex.Trap(a) else SwapMutex.Terminate(a))
    case Sync(m) => SwapMutex.Next(c.mutex, m)
    case Spawn(a, _) => SwapMutex.Next(c.mutex, SwapMutex.Start(a))
    case _ => c.mutex
  }

  // ----- where a process is in both -----

  /** The status in Paging that goes with a place in the code of P, V and their callers. */
  ghost predicate Agrees(x: SwapMutex.Pc, status: Paging.Status, idle: bool) {
    match x
    case User => status == Paging.Running
    case Trapped(inside) => !inside && status == Paging.Exiting
    case Asking(why) => Before(why, status)
    case Queued(why) => Before(why, status)
    case Window(why) => Before(why, status)
    case Holding(ForFault) => status == Paging.Handling || (status == Paging.Running && idle)
    case Holding(ForDeath) => status == Paging.Freeing || (status == Paging.Gone && idle)
    case Holding(Undo) => false
    case Cleared(ForFault) => status == Paging.Running && idle
    case Cleared(ForDeath) => status == Paging.Gone && idle
    case Cleared(Undo) => false
    case Done => status == Paging.Gone
  }

  ghost predicate Before(why: SwapMutex.Purpose, status: Paging.Status) {
    if why == SwapMutex.ForFault then status.Waiting? else why == SwapMutex.ForDeath && status == Paging.Exiting
  }

  ghost predicate Tied(p: Paging.Machine, pc: map<nat, SwapMutex.Pc>, a: nat)
    requires a in pc
  {
    a in p.status && Agrees(pc[a], p.status[a], p.stage == Paging.Idle)
  }

  ghost predicate Ties(p: Paging.Machine, pc: map<nat, SwapMutex.Pc>) {
    && (forall a {:trigger Tied(p, pc, a)} :: a in pc ==> Tied(p, pc, a))
    && (forall a: int :: a in p.status ==> a >= 0 && a in pc)
  }

  ghost predicate Inv(disk: map<Vp, Page>, c: System) {
    Paging.Inv(disk, c.paging) && SwapMutex.Inv(c.mutex) && Ties(c.paging, c.mutex.pc)
  }

  /** Work on the pool is that of the one process inside the mutex. */
  lemma WorkerInside(disk: map<Vp, Page>, c: System) returns (h: nat)
    requires Inv(disk, c) && c.paging.stage != Paging.Idle
    ensures h in c.mutex.pc && c.mutex.pc[h].Holding?
    ensures forall a :: a in c.mutex.pc && SwapMutex.Inside(c.mutex.pc[a]) ==> a == h
    ensures h in c.paging.status && (c.paging.status[h] == Paging.Handling || c.paging.status[h] == Paging.Freeing)
  {
    var asid := if c.paging.stage.Sweeping? then c.paging.stage.asid else c.paging.stage.vp.asid;
    assert asid in c.paging.status && asid >= 0;
    h := asid;
    assert Tied(c.paging, c.mutex.pc, h);
  }

  /** Who has passed P finds the pool idle: the mutex is all the protection the pager needs. */
  lemma PartEnabled(disk: map<Vp, Page>, c: System, e: Event)
    requires Inv(disk, c) && Enabled(disk, c, e)
    ensures forall x :: x in Part(c, e) ==> Paging.Enabled(disk, c.paging, x)
  {
    match e
    case Quit(a, _) => assert Tied(c.paging, c.mutex.pc, a);
    case Act(a) =>
      Paging.NeverStuck(disk, c.paging, 0, 0, TlbEntry(0, 0, Pte(false, false, 0)));
    case Sync(m) =>
      if m.SetOwner? {
        assert Tied(c.paging, c.mutex.pc, m.a);
        if c.paging.stage != Paging.Idle {
          var h := WorkerInside(disk, c);
          assert false;
        }
      }
    case _ =>
  }

  ghost function Next(disk: map<Vp, Page>, c: System, e: Event): System
    requires Inv(disk, c) && Enabled(disk, c, e)
  {
    PartEnabled(disk, c, e);
    var part := Part(c, e);
    System(if part == [] then c.paging else assert part[0] in part; Paging.Next(disk, c.paging, part[0]),
           NextMutex(c, e))
  }

  lemma PagingKept(disk: map<Vp, Page>, c: System, e: Event)
    requires Inv(disk, c) && Enabled(disk, c, e) && Sound(c, e)
    ensures Paging.Inv(disk, Next(disk, c, e).paging)
  {
    PartEnabled(disk, c, e);
    if Part(c, e) != [] {
      assert Part(c, e)[0] in Part(c, e);
      Paging.StepKeeps(disk, c.paging, Part(c, e)[0]);
    }
  }

  lemma MutexKept(disk: map<Vp, Page>, c: System, e: Event)
    requires Inv(disk, c) && Enabled(disk, c, e)
    ensures SwapMutex.Inv(NextMutex(c, e))
  {
    match e
    case Fault(a, _, _) => SwapMutex.QuietKeeps(c.mutex, SwapMutex.Begin(a));
    case Quit(a, trap) => SwapMutex.QuietKeeps(c.mutex, if trap then SwapMutex.Trap(a) else SwapMutex.Terminate(a));
    case Sync(m) => SwapMutex.StepKeeps(c.mutex, m);
    case Spawn(a, _) => SwapMutex.StepKeeps(c.mutex, SwapMutex.Start(a));
    case _ =>
  }

  /** Steps of P, of V and of releaseSwapPoolSem that leave the pager alone. */
  lemma SyncTies(p: Paging.Machine, mutex: SwapMutex.Mutex, m: SwapMutex.Event)
    requires SwapMutex.Inv(mutex) && Ties(p, mutex.pc) && SwapMutex.Enabled(mutex, m)
    requires m.Check? || m.CallP? || m.CallV? || (m.Clear? && p.stage == Paging.Idle)
    requires m.Clear? ==> forall a :: a in p.status ==> !p.status[a].Handling? && !p.status[a].Freeing?
    ensures Ties(p, SwapMutex.Next(mutex, m).pc)
  {
    var pc := SwapMutex.Next(mutex, m).pc;
    if m.CallV? { SwapMutex.VNeverBlocks(mutex, m.a); }
    assert Tied(p, mutex.pc, m.a);
    forall a | a in pc ensures Tied(p, pc, a) { assert Tied(p, mutex.pc, a); }
  }

  lemma IdleHasNoWorker(disk: map<Vp, Page>, p: Paging.Machine)
    requires Paging.Inv(disk, p) && p.stage == Paging.Idle
    ensures forall a :: a in p.status ==> !p.status[a].Handling? && !p.status[a].Freeing?
  {
    forall a | a in p.status ensures Paging.StatusOk(p, a) {}
  }

  /** A process begins its work: a page fault, or freeFrames. */
  lemma BeginTies(disk: map<Vp, Page>, c: System, a: nat)
    requires Inv(disk, c) && Enabled(disk, c, Sync(SwapMutex.SetOwner(a)))
    ensures Ties(Next(disk, c, Sync(SwapMutex.SetOwner(a))).paging, NextMutex(c, Sync(SwapMutex.SetOwner(a))).pc)
  {
    var e := Sync(SwapMutex.SetOwner(a));
    var p, pc := Next(disk, c, e).paging, NextMutex(c, e).pc;
    PartEnabled(disk, c, e);
    assert Part(c, e)[0] in Part(c, e);
    assert Tied(c.paging, c.mutex.pc, a);
    forall b | b in pc ensures Tied(p, pc, b) { assert Tied(c.paging, c.mutex.pc, b); }
  }

  /** An action of the worker: it stays inside, and when it is done the pool is idle. */
  lemma ActTies(disk: map<Vp, Page>, c: System, a: nat)
    requires Inv(disk, c) && Enabled(disk, c, Act(a)) && Paging.Ready(c.paging)
    ensures Ties(Paging.Act(c.paging), c.mutex.pc)
  {
    var p, pc := Paging.Act(c.paging), c.mutex.pc;
    var h := WorkerInside(disk, c);
    forall b | b in pc ensures Tied(p, pc, b) { assert Tied(c.paging, pc, b); }
  }

  lemma UserTies(disk: map<Vp, Page>, c: System, e: Event)
    requires Inv(disk, c) && Enabled(disk, c, e) && (e.Access? || e.Fault? || e.Quit? || e.Spawn?)
    ensures Ties(Next(disk, c, e).paging, NextMutex(c, e).pc)
  {
    var p, pc := Next(disk, c, e).paging, NextMutex(c, e).pc;
    PartEnabled(disk, c, e);
    assert Part(c, e)[0] in Part(c, e);
    forall b | b in pc ensures Tied(p, pc, b) { if b in c.mutex.pc { assert Tied(c.paging, c.mutex.pc, b); } }
  }

  lemma StepKeeps(disk: map<Vp, Page>, c: System, e: Event)
    requires Inv(disk, c) && Enabled(disk, c, e) && Sound(c, e)
    ensures Inv(disk, Next(disk, c, e))
  {
    PagingKept(disk, c, e);
    MutexKept(disk, c, e);
    match e
    case Sync(m) =>
      if m.SetOwner? {
        BeginTies(disk, c, m.a);
      } else {
        if m.Clear? { IdleHasNoWorker(disk, c.paging); }
        SyncTies(c.paging, c.mutex, m);
      }
    case Act(a) =>
      PartEnabled(disk, c, e);
      assert Part(c, e)[0] in Part(c, e);
      ActTies(disk, c, a);
    case _ => UserTies(disk, c, e);
  }

  /** ... and with something or other behind the table, an unsound refill breaks it. */
  lemma StepKeepsIff(disk: map<Vp, Page>, c: System, e: Event)
    requires Inv(disk, c) && Enabled(disk, c, e)
    ensures forall x :: Enabled(disk, c, WithBehind(e, x))
    ensures (forall x :: Inv(disk, Next(disk, c, WithBehind(e, x)))) <==> Sound(c, e)
  {
    if e.Access? {
      Paging.InvKept(disk, c.paging, e.x);
      forall x ensures Enabled(disk, c, WithBehind(e, x)) {
        assert Paging.Enabled(disk, c.paging, Paging.WithBehind(e.x, x));
      }
    }
    if Sound(c, e) {
      forall x ensures Inv(disk, Next(disk, c, WithBehind(e, x))) { StepKeeps(disk, c, WithBehind(e, x)); }
    } else {
      var x :| !Paging.Inv(disk, Paging.Next(disk, c.paging, Paging.WithBehind(e.x, x)));
      assert !Inv(disk, Next(disk, c, WithBehind(e, x)));
    }
  }

  // ----- runs -----

  /** es is a run from c with sound refills. */
  ghost predicate IsRun(disk: map<Vp, Page>, c: System, es: seq<Event>)
    requires Inv(disk, c)
    decreases |es|
  {
    es == [] ||
    (&& Enabled(disk, c, es[0]) && Sound(c, es[0])
     && (StepKeeps(disk, c, es[0]); IsRun(disk, Next(disk, c, es[0]), es[1..])))
  }

  ghost function Exec(disk: map<Vp, Page>, c: System, es: seq<Event>): (d: System)
    requires Inv(disk, c) && IsRun(disk, c, es)
    ensures Inv(disk, d)
    decreases |es|
  {
    if es == [] then c else StepKeeps(disk, c, es[0]); Exec(disk, Next(disk, c, es[0]), es[1..])
  }

  /** What a run does to the pager. */
  ghost function Parts(disk: map<Vp, Page>, c: System, es: seq<Event>): seq<Paging.Event>
    requires Inv(disk, c) && IsRun(disk, c, es)
    decreases |es|
  {
    if es == [] then []
    else StepKeeps(disk, c, es[0]); Part(c, es[0]) + Parts(disk, Next(disk, c, es[0]), es[1..])
  }

  lemma RunFrom(disk: map<Vp, Page>, p: Paging.Machine, x: Paging.Event, rest: seq<Paging.Event>)
    requires Paging.Enabled(disk, p, x) && Paging.IsRun(disk, Paging.Next(disk, p, x), rest)
    requires Paging.Sound(p, x) && Paging.AllSound(disk, Paging.Next(disk, p, x), rest)
    ensures Paging.IsRun(disk, p, [x] + rest) && Paging.AllSound(disk, p, [x] + rest)
    ensures Paging.Exec(disk, p, [x] + rest) == Paging.Exec(disk, Paging.Next(disk, p, x), rest)
  {
    assert ([x] + rest)[1..] == rest;
  }

  lemma {:induction false} RunIsPaging(disk: map<Vp, Page>, c: System, es: seq<Event>)
    requires Inv(disk, c) && IsRun(disk, c, es)
    ensures Paging.IsRun(disk, c.paging, Parts(disk, c, es)) && Paging.AllSound(disk, c.paging, Parts(disk, c, es))
    ensures Paging.Exec(disk, c.paging, Parts(disk, c, es)) == Exec(disk, c, es).paging
    decreases |es|
  {
    if es != [] {
      var d, part := Next(disk, c, es[0]), Part(c, es[0]);
      StepKeeps(disk, c, es[0]);
      PartEnabled(disk, c, es[0]);
      RunIsPaging(disk, d, es[1..]);
      var rest := Parts(disk, d, es[1..]);
      if part == [] {
        assert part + rest == rest;
      } else {
        assert part == [part[0]] && part[0] in part;
        RunFrom(disk, c.paging, part[0], rest);
      }
    }
  }

  /** The start: no user process yet. */
  ghost predicate Boot(disk: map<Vp, Page>, c: System) {
    Paging.Boot(disk, c.paging) && SwapMutex.Boot(c.mutex) && c.mutex.pc == map[]
  }

  lemma BootInv(disk: map<Vp, Page>, c: System)
    requires Boot(disk, c)
    ensures Inv(disk, c)
  {
    Paging.BootInv(disk, c.paging);
  }

  /** Mutex and pager together: in every run with sound refills, with every preemption, the loads and stores of the
      user processes are those of flat private memory. */
  lemma MutexMakesTransparent(disk: map<Vp, Page>, c: System, es: seq<Event>)
    requires Boot(disk, c) && Inv(disk, c) && IsRun(disk, c, es)
    ensures Paging.IsFlatRun(disk, map[], Parts(disk, c, es))
    ensures Paging.Inv(disk, Exec(disk, c, es).paging)
    ensures Paging.Abstract(disk, Exec(disk, c, es).paging) == Paging.FlatExec(disk, map[], Parts(disk, c, es))
  {
    RunIsPaging(disk, c, es);
    Paging.TransparentFromBoot(disk, c.paging, Parts(disk, c, es));
  }
}
