/** The swap pool mutex inside the kernel.  Kernel entries of every kind, by processes of every
    kind, interleave with what the user processes do between two system calls; where a process is
    in the code of P and V follows from what the kernel did with it.  Every such run is shown to be a
    run of SwapMutex, so that what is proved there holds of the kernel's semaphore. */
module KernelMutex {
  import opened Sequences
  import opened KernelState
  import opened BinarySemaphore
  import opened Identifiers
  import opened Names
  import Pids
  import Runs
  import Semaphores
  import SwapMutex

  datatype System = System(kernel: State, owner: int, pc: map<nat, SwapMutex.Pc>)

  datatype Step =
    | Entry(e: Event, joins: bool)  // a kernel entry; `joins`: the process it creates will page
    | Local(m: SwapMutex.Event)     // the running process goes on without entering P or V

  ghost function Mutex(c: System, k: Key): SwapMutex.Mutex
    requires k in c.kernel.val
  {
    SwapMutex.Mutex(Lone(c.kernel, k), c.owner, c.pc)
  }

  predicate IsLocal(m: SwapMutex.Event) {
    m.Begin? || m.Terminate? || m.Trap? || m.Check? || m.SetOwner? || m.Clear?
  }

  /** The programs do P and V on k from the wrappers only, and their processes are killed only when
      they are through with it.  Nothing else is asked of an entry. */
  ghost predicate Follows(c: System, k: Key, e: Event)
    requires Invariant.Valid(c.kernel) && Runs.Enabled(c.kernel, e)
  {
    var s := c.kernel;
    && (e == P(k) ==> s.curr.Some? && Me(s) in c.pc && c.pc[Me(s)].Asking?)
    && (e == V(k) ==> s.curr.Some? && Me(s) in c.pc && c.pc[Me(s)].Cleared?)
    && Spared(c, Runs.Step(s, e))
  }

  /** Of the processes that page only those past freeFrames are dead in t. */
  ghost predicate Spared(c: System, t: State) {
    forall p :: p in Semaphores.Dead(c.kernel, t) && NameOf(c.kernel.pid, p) in c.pc ==>
      c.pc[NameOf(c.kernel.pid, p)] == SwapMutex.Done
  }

  ghost predicate Enabled(c: System, k: Key, x: Step)
    requires Invariant.Valid(c.kernel) && k in c.kernel.val
  {
    match x
    case Local(m) =>
      && c.kernel.mode == Running && c.kernel.curr.Some? && m.a == Me(c.kernel)
      && IsLocal(m) && SwapMutex.Enabled(Mutex(c, k), m)
    case Entry(e, joins) =>
      Runs.Enabled(c.kernel, e) && Follows(c, k, e) && (joins ==> e.Create? && c.kernel.free != [])
  }

  /** Behind the system call. */
  function Past(x: SwapMutex.Pc): SwapMutex.Pc {
    match x
    case Asking(why) => SwapMutex.Window(why)
    case Queued(why) => SwapMutex.Window(why)
    case Cleared(why) => SwapMutex.AfterV(why)
    case _ => x
  }

  /** Where a process is after an entry, from where it was: `calls` if the entry is its own P or V;
      `was` and `stays`: it was, and is now, on the queue. */
  function After(x: SwapMutex.Pc, calls: bool, was: bool, stays: bool): SwapMutex.Pc {
    if calls && stays then (if x.Asking? then SwapMutex.Queued(x.why) else x)
    else if calls || (was && !stays) then Past(x)
    else x
  }

  ghost function Moved(c: System, k: Key, e: Event, t: State): map<nat, SwapMutex.Pc> {
    map a | a in c.pc ::
      After(c.pc[a], (e == P(k) || e == V(k)) && c.kernel.curr.Some? && a == Me(c.kernel),
            WaitsOn(c.kernel, k, a), WaitsOn(t, k, a))
  }

  ghost function Next(c: System, k: Key, x: Step): System
    requires Invariant.Valid(c.kernel) && k in c.kernel.val && Enabled(c, k, x)
  {
    match x
    case Local(m) =>
      var n := SwapMutex.Next(Mutex(c, k), m);
      System(c.kernel, n.owner, n.pc)
    case Entry(e, joins) =>
      var t := Runs.Step(c.kernel, e);
      var pc := Moved(c, k, e, t);
      System(t, c.owner, if joins then pc[NameOf(t.pid, c.kernel.free[0]) := SwapMutex.User] else pc)
  }

  /** What a step does to the mutex. */
  ghost function Part(c: System, k: Key, x: Step): seq<SwapMutex.Event>
    requires Invariant.Valid(c.kernel) && k in c.kernel.val && Enabled(c, k, x)
  {
    match x
    case Local(m) => [m]
    case Entry(e, joins) =>
      if e == P(k) then [SwapMutex.CallP(Me(c.kernel))]
      else if e == V(k) then [SwapMutex.CallV(Me(c.kernel))]
      else if joins then [SwapMutex.Start(c.kernel.currPid)]
      else []
  }

  ghost predicate Inv(c: System, k: Key) {
    && Invariant.Valid(c.kernel) && Ascending(c.kernel) && Semaphores.Ordinary(c.kernel, k)
    && SwapMutex.Inv(Mutex(c, k)) && forall a :: a in c.pc ==> a < c.kernel.currPid
  }

  // ----- one step -----

  lemma EntryKeeps(c: System, k: Key, e: Event)
    requires Inv(c, k) && Runs.Enabled(c.kernel, e)
    ensures var t := Runs.Step(c.kernel, e);
            && Invariant.Valid(t) && Ascending(t) && Semaphores.Ordinary(t, k) && c.kernel.currPid <= t.currPid
            && Counts(c.kernel, e, t)
  {
    Runs.StepKeeps(c.kernel, e);
    StepAscends(c.kernel, e);
    Semaphores.StillOrdinary(c.kernel, e, k);
    StepNames(c.kernel, e);
  }

  /** What Moved makes of the places when the queue of the mutex goes from q to r. */
  ghost predicate MovedTo(pc: map<nat, SwapMutex.Pc>, q: seq<nat>, me: nat, r: seq<nat>, pc': map<nat, SwapMutex.Pc>) {
    && pc'.Keys == pc.Keys
    && forall a :: a in pc ==> pc'[a] == After(pc[a], a == me, a in q, a in r)
  }

  lemma CallMoves(m: SwapMutex.Mutex, x: SwapMutex.Event, pc': map<nat, SwapMutex.Pc>)
    requires SwapMutex.Inv(m) && SwapMutex.Enabled(m, x) && (x.CallP? || x.CallV?)
    requires MovedTo(m.pc, m.cell.queue, x.a, Call(m.cell, if x.CallP? then OpP else OpV, x.a).queue, pc')
    ensures SwapMutex.Next(m, x).pc == pc'
  {
    if x.CallV? { SwapMutex.VNeverBlocks(m, x.a); }
    if m.cell.queue != [] { HeadAndTail(m.cell.queue); }
  }

  /** The call of the mutex that P(k) or V(k) is. */
  function CallOf(c: System, k: Key, e: Event): SwapMutex.Event
    requires c.kernel.curr.Some?
  {
    if e == P(k) then SwapMutex.CallP(Me(c.kernel)) else SwapMutex.CallV(Me(c.kernel))
  }

  lemma CallEnds(c: System, k: Key, e: Event, t: State)
    requires k in c.kernel.val && k in t.val && c.kernel.curr.Some? && (e == P(k) || e == V(k))
    requires SwapMutex.Inv(Mutex(c, k)) && SwapMutex.Enabled(Mutex(c, k), CallOf(c, k, e))
    requires Lone(t, k) == Call(Lone(c.kernel, k), if e == P(k) then OpP else OpV, Me(c.kernel))
    ensures SwapMutex.Mutex(Lone(t, k), c.owner, Moved(c, k, e, t)) == SwapMutex.Next(Mutex(c, k), CallOf(c, k, e))
  {
    CallMoves(Mutex(c, k), CallOf(c, k, e), Moved(c, k, e, t));
  }

  lemma OwnEntry(c: System, k: Key, e: Event)
    requires Inv(c, k) && Runs.Enabled(c.kernel, e) && Follows(c, k, e) && (e == P(k) || e == V(k))
    ensures var t := Runs.Step(c.kernel, e);
            && k in t.val && c.kernel.curr.Some? && SwapMutex.Enabled(Mutex(c, k), CallOf(c, k, e))
            && SwapMutex.Mutex(Lone(t, k), c.owner, Moved(c, k, e, t)) == SwapMutex.Next(Mutex(c, k), CallOf(c, k, e))
  {
    OwnLone(c.kernel, e, k);
    CallEnds(c, k, e, Runs.Step(c.kernel, e));
  }

  /** Whoever waits is alive afterwards, since who waits is not through. */
  lemma NobodyWaitingDies(c: System, k: Key, t: State)
    requires k in c.kernel.val && SwapMutex.Inv(Mutex(c, k)) && Spared(c, t)
    ensures WaitersLive(c.kernel, t, k)
  {
    var s, q := c.kernel, Semaphores.QueueOf(c.kernel, k);
    forall p | p in q ensures p !in Semaphores.Dead(s, t) {
      var i :| 0 <= i < |q| && q[i] == p;
      assert NamesOf(s.pid, q)[i] == NameOf(s.pid, p);
    }
  }

  lemma NobodyMoves(c: System, k: Key, e: Event, t: State)
    requires k in c.kernel.val && k in t.val && Lone(t, k) == Lone(c.kernel, k) && e != P(k) && e != V(k)
    ensures Moved(c, k, e, t) == c.pc
  {
  }

  lemma OtherEntry(c: System, k: Key, e: Event)
    requires Inv(c, k) && Runs.Enabled(c.kernel, e) && Follows(c, k, e) && e != P(k) && e != V(k)
    ensures var t := Runs.Step(c.kernel, e);
            k in t.val && Lone(t, k) == Lone(c.kernel, k) && Moved(c, k, e, t) == c.pc
  {
    NobodyWaitingDies(c, k, Runs.Step(c.kernel, e));
    OtherLone(c.kernel, e, k);
    NobodyMoves(c, k, e, Runs.Step(c.kernel, e));
  }

  /** From m to n there is the one event of part, or nothing. */
  ghost predicate Leads(m: SwapMutex.Mutex, part: seq<SwapMutex.Event>, n: SwapMutex.Mutex) {
    if part == [] then n == m
    else |part| == 1 && SwapMutex.Enabled(m, part[0]) && n == SwapMutex.Next(m, part[0])
  }

  lemma LeadsKeeps(m: SwapMutex.Mutex, part: seq<SwapMutex.Event>, n: SwapMutex.Mutex)
    requires SwapMutex.Inv(m) && Leads(m, part, n)
    ensures SwapMutex.Inv(n)
  {
    if part != [] { SwapMutex.StepKeeps(m, part[0]); }
  }

  lemma EntryLeads(c: System, k: Key, e: Event, joins: bool)
    requires Inv(c, k) && Enabled(c, k, Entry(e, joins))
    ensures var d := Next(c, k, Entry(e, joins));
            k in d.kernel.val && Leads(Mutex(c, k), Part(c, k, Entry(e, joins)), Mutex(d, k))
  {
    if e == P(k) || e == V(k) {
      OwnEntry(c, k, e);
    } else {
      OtherEntry(c, k, e);
      EntryKeeps(c, k, e);
    }
  }

  lemma EntryIsMutex(c: System, k: Key, e: Event, joins: bool)
    requires Inv(c, k) && Enabled(c, k, Entry(e, joins))
    ensures var x := Entry(e, joins);
            Inv(Next(c, k, x), k) && Leads(Mutex(c, k), Part(c, k, x), Mutex(Next(c, k, x), k))
  {
    EntryKeeps(c, k, e);
    EntryLeads(c, k, e, joins);
    LeadsKeeps(Mutex(c, k), Part(c, k, Entry(e, joins)), Mutex(Next(c, k, Entry(e, joins)), k));
  }

  lemma LocalIsMutex(c: System, k: Key, m: SwapMutex.Event)
    requires Inv(c, k) && Enabled(c, k, Local(m))
    ensures Inv(Next(c, k, Local(m)), k) && Leads(Mutex(c, k), [m], Mutex(Next(c, k, Local(m)), k))
  {
    SwapMutex.StepKeeps(Mutex(c, k), m);
  }

  /** A step of the system is a step of SwapMutex, or changes nothing there. */
  lemma StepIsMutex(c: System, k: Key, x: Step)
    requires Inv(c, k) && Enabled(c, k, x)
    ensures Inv(Next(c, k, x), k) && Leads(Mutex(c, k), Part(c, k, x), Mutex(Next(c, k, x), k))
  {
    match x
    case Local(m) => LocalIsMutex(c, k, m);
    case Entry(e, joins) => EntryIsMutex(c, k, e, joins);
  }

  // ----- runs -----

  ghost predicate IsRun(c: System, k: Key, xs: seq<Step>)
    requires Inv(c, k)
    decreases |xs|
  {
    xs == [] || (Enabled(c, k, xs[0]) && (StepIsMutex(c, k, xs[0]); IsRun(Next(c, k, xs[0]), k, xs[1..])))
  }

  ghost function Exec(c: System, k: Key, xs: seq<Step>): (d: System)
    requires Inv(c, k) && IsRun(c, k, xs)
    ensures Inv(d, k)
    decreases |xs|
  {
    if xs == [] then c else StepIsMutex(c, k, xs[0]); Exec(Next(c, k, xs[0]), k, xs[1..])
  }

  ghost function Parts(c: System, k: Key, xs: seq<Step>): seq<SwapMutex.Event>
    requires Inv(c, k) && IsRun(c, k, xs)
    decreases |xs|
  {
    if xs == [] then []
    else StepIsMutex(c, k, xs[0]); Part(c, k, xs[0]) + Parts(Next(c, k, xs[0]), k, xs[1..])
  }

  lemma RunFrom(m: SwapMutex.Mutex, part: seq<SwapMutex.Event>, n: SwapMutex.Mutex, rest: seq<SwapMutex.Event>)
    requires Leads(m, part, n) && SwapMutex.IsRun(n, rest)
    ensures SwapMutex.IsRun(m, part + rest) && SwapMutex.Exec(m, part + rest) == SwapMutex.Exec(n, rest)
  {
    if part == [] {
      assert part + rest == rest;
    } else {
      assert (part + rest)[1..] == rest;
    }
  }

  /** Every run of kernel and programs is, for the semaphore of the swap pool, a run of SwapMutex. */
  lemma {:induction false} RunIsMutex(c: System, k: Key, xs: seq<Step>)
    requires Inv(c, k) && IsRun(c, k, xs)
    ensures SwapMutex.IsRun(Mutex(c, k), Parts(c, k, xs))
    ensures SwapMutex.Exec(Mutex(c, k), Parts(c, k, xs)) == Mutex(Exec(c, k, xs), k)
    decreases |xs|
  {
    if xs != [] {
      var d := Next(c, k, xs[0]);
      StepIsMutex(c, k, xs[0]);
      RunIsMutex(d, k, xs[1..]);
      RunFrom(Mutex(c, k), Part(c, k, xs[0]), Mutex(d, k), Parts(d, k, xs[1..]));
    }
  }

  /** initSwapStructs has run in the kernel's first process, and nobody pages yet. */
  ghost predicate Start(c: System, k: Key) {
    && Invariant.Valid(c.kernel) && Ascending(c.kernel) && Semaphores.Ordinary(c.kernel, k)
    && c.kernel.val[k] == 1 && k !in c.kernel.blocked && c.owner == SwapMutex.NOPROC && c.pc == map[]
  }

  /** In the kernel, whatever else runs on it: at most one process is inside; user_asid names it if
      it is marked, and nobody else; and the semaphore is 1 exactly when nobody is inside. */
  lemma MutexInKernel(c: System, k: Key, xs: seq<Step>)
    requires Start(c, k) && Inv(c, k) && IsRun(c, k, xs)
    ensures var d := Exec(c, k, xs);
      && (forall a, b :: a in d.pc && b in d.pc && SwapMutex.Inside(d.pc[a]) && SwapMutex.Inside(d.pc[b]) ==> a == b)
      && (forall a :: a in d.pc ==> (d.owner == a <==> SwapMutex.Marked(d.pc[a])))
      && (d.kernel.val[k] == 1 <==> forall a :: a in d.pc ==> !SwapMutex.Inside(d.pc[a]))
      && (d.kernel.val[k] == 1 ==> k !in d.kernel.blocked)
  {
    RunIsMutex(c, k, xs);
    var d := Exec(c, k, xs);
    SwapMutex.MutexHolds(Mutex(c, k), Parts(c, k, xs));
    QueueNotEmpty(d.kernel, k);
  }

  lemma QueueNotEmpty(s: State, k: Key)
    requires Invariant.Valid(s)
    ensures k in s.blocked <==> Semaphores.QueueOf(s, k) != []
  {
    if k in s.blocked { assert Invariant.Queue(s.semAdd, k, s.blocked[k]); }
  }

  lemma StartInv(c: System, k: Key)
    requires Start(c, k)
    ensures Inv(c, k)
  {
    assert Lone(c.kernel, k) == Cell(1, []);
  }

  /** The start of the machine is one, once the semaphore is set. */
  lemma InitStarts(n: nat, cells: map<Key, int>, k: Key)
    requires 0 < n < Pids.WORD && Runs.GoodCells(cells) && k in cells && cells[k] == 1
    ensures Start(System(Init(n, cells), SwapMutex.NOPROC, map[]), k)
  {
    Runs.InitValid(n, cells);
    var s := Init(n, cells);
    Runs.CellOf(s, s.curr, k);
  }
}
