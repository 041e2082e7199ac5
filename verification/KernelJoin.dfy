/** The end of `test` inside the kernel.  Kernel entries of every kind, by processes of every kind,
    interleave with the P of test and the V of the user processes on master_sem.  Every such run is
    shown to be a run of Join. */
module KernelJoin {
  import opened Sequences
  import opened KernelState
  import opened BinarySemaphore
  import opened Identifiers
  import opened Names
  import Pids
  import Runs
  import Semaphores
  import Join

  /** The ledger of master_sem, the processes that have not begun their V, and those whose V has
      returned, are history. */
  datatype System = System(kernel: State, ledger: Ledger, todo: set<nat>, signalled: set<nat>)

  ghost function Group(c: System, k: Key): Join.Group
    requires k in c.kernel.val
  {
    Join.Group(Lone(c.kernel, k), c.ledger, c.todo, c.signalled)
  }

  /** Only test does P on k, n times at most, and the processes of the group do V, once each; and who
      waits on k is not killed.  Nothing else is asked of an entry. */
  ghost predicate Enabled(c: System, k: Key, n: nat, e: Event)
    requires Invariant.Valid(c.kernel)
  {
    && Runs.Enabled(c.kernel, e)
    && (e == P(k) ==> c.kernel.curr.Some? && Me(c.kernel) == Join.TEST && c.ledger.doneP < n)
    && (e == V(k) ==> c.kernel.curr.Some? && Me(c.kernel) in c.todo)
    && WaitersLive(c.kernel, Runs.Step(c.kernel, e), k)
  }

  /** Whose V returns with the entry from c.kernel to t: the caller's, if it does not wait, and that
      of whoever of the group waited and no longer does. */
  ghost function Returned(c: System, k: Key, e: Event, t: State): set<nat> {
    (set a | a in NamesOf(c.kernel.pid, Semaphores.QueueOf(c.kernel, k)) && !WaitsOn(t, k, a) && a != Join.TEST)
    + (if e == V(k) && c.kernel.curr.Some? && !WaitsOn(t, k, Me(c.kernel)) then {Me(c.kernel)} else {})
  }

  ghost function After(c: System, k: Key, e: Event, t: State): System
    requires k in c.kernel.val && ((e == P(k) || e == V(k)) ==> c.kernel.curr.Some?)
  {
    System(t,
      if e == P(k) || e == V(k) then Record(Lone(c.kernel, k), if e == P(k) then OpP else OpV, Me(c.kernel), c.ledger)
      else c.ledger,
      if e == V(k) then c.todo - {Me(c.kernel)} else c.todo,
      c.signalled + Returned(c, k, e, t))
  }

  ghost function Next(c: System, k: Key, n: nat, e: Event): System
    requires Invariant.Valid(c.kernel) && k in c.kernel.val && Enabled(c, k, n, e)
  {
    After(c, k, e, Runs.Step(c.kernel, e))
  }

  function Part(c: System, k: Key, e: Event): seq<Join.Event>
    requires (e == P(k) || e == V(k)) ==> c.kernel.curr.Some?
  {
    if e == P(k) then [Join.Wait] else if e == V(k) then [Join.Signal(Me(c.kernel))] else []
  }

  ghost predicate Inv(c: System, k: Key, all: set<nat>) {
    && Invariant.Valid(c.kernel) && Ascending(c.kernel) && Semaphores.Ordinary(c.kernel, k)
    && Join.Inv(Group(c, k), all, |all|)
  }

  // ----- one step -----

  /** From g to h there is the one event of part, or nothing. */
  ghost predicate Leads(g: Join.Group, n: nat, part: seq<Join.Event>, h: Join.Group) {
    if part == [] then h == g
    else |part| == 1 && Join.Enabled(g, n, part[0]) && h == Join.Next(g, n, part[0])
  }

  lemma LeadsKeeps(g: Join.Group, all: set<nat>, part: seq<Join.Event>, h: Join.Group)
    requires Join.Inv(g, all, |all|) && Leads(g, |all|, part, h)
    ensures Join.Inv(h, all, |all|)
  {
    if part != [] {
      if part[0].Wait? { Join.WaitKeeps(g, all, |all|); } else { Join.SignalKeeps(g, all, |all|, part[0].a); }
    }
  }

  /** The identifiers that leave the queue of a lone semaphore with a call. */
  lemma CallLeaves(c: Cell, op: Op, me: nat, x: nat)
    requires NoDup(c.queue) && me !in c.queue
    ensures x in c.queue && x !in Call(c, op, me).queue <==> Releases(c, op) && x == c.queue[0]
    ensures me in Call(c, op, me).queue <==> Blocks(c, op)
  {
    if c.queue != [] { HeadAndTail(c.queue); }
  }

  function Left(c: Cell, op: Op): set<nat> {
    if Releases(c, op) && c.queue[0] != Join.TEST then {c.queue[0]} else {}
  }

  lemma ReturnedByWait(c: System, k: Key, t: State)
    requires k in c.kernel.val && k in t.val && NoDup(Lone(c.kernel, k).queue)
    requires Lone(t, k) == Call(Lone(c.kernel, k), OpP, Join.TEST) && !WaitsOn(c.kernel, k, Join.TEST)
    ensures Returned(c, k, P(k), t) == Left(Lone(c.kernel, k), OpP)
  {
    forall x ensures x in Returned(c, k, P(k), t) <==> x in Left(Lone(c.kernel, k), OpP) {
      CallLeaves(Lone(c.kernel, k), OpP, Join.TEST, x);
    }
  }

  lemma WaitEnds(c: System, k: Key, all: set<nat>, t: State)
    requires k in c.kernel.val && k in t.val && Join.Inv(Group(c, k), all, |all|)
    requires c.kernel.curr.Some? && Me(c.kernel) == Join.TEST && c.ledger.doneP < |all|
    requires Lone(t, k) == Call(Lone(c.kernel, k), OpP, Join.TEST) && !WaitsOn(c.kernel, k, Join.TEST)
    ensures Leads(Group(c, k), |all|, [Join.Wait], Group(After(c, k, P(k), t), k))
  {
    ReturnedByWait(c, k, t);
    assert c.todo - {Join.TEST} == c.todo;
    assert c.signalled + Left(Lone(c.kernel, k), OpP) + {} == c.signalled + Left(Lone(c.kernel, k), OpP);
  }

  lemma ReturnedBySignal(c: System, k: Key, t: State)
    requires k in c.kernel.val && k in t.val && NoDup(Lone(c.kernel, k).queue)
    requires c.kernel.curr.Some? && Me(c.kernel) != Join.TEST
    requires Lone(t, k) == Call(Lone(c.kernel, k), OpV, Me(c.kernel)) && !WaitsOn(c.kernel, k, Me(c.kernel))
    ensures Returned(c, k, V(k), t) ==
      Left(Lone(c.kernel, k), OpV) + (if Blocks(Lone(c.kernel, k), OpV) then {} else {Me(c.kernel)})
  {
    var g, me := Lone(c.kernel, k), Me(c.kernel);
    CallLeaves(g, OpV, me, me);
    forall x ensures x in Returned(c, k, V(k), t) <==>
      x in Left(g, OpV) + (if Blocks(g, OpV) then {} else {me})
    {
      CallLeaves(g, OpV, me, x);
    }
  }

  lemma Grouped(a: set<nat>, b: set<nat>, c: set<nat>)
    ensures a + (b + c) == a + b + c
  {
  }

  lemma SignalEnds(c: System, k: Key, all: set<nat>, t: State)
    requires k in c.kernel.val && k in t.val && Join.Inv(Group(c, k), all, |all|)
    requires c.kernel.curr.Some? && Me(c.kernel) in c.todo && !WaitsOn(c.kernel, k, Me(c.kernel))
    requires Lone(t, k) == Call(Lone(c.kernel, k), OpV, Me(c.kernel))
    ensures Leads(Group(c, k), |all|, [Join.Signal(Me(c.kernel))], Group(After(c, k, V(k), t), k))
  {
    var g, me := Lone(c.kernel, k), Me(c.kernel);
    assert me in all;
    ReturnedBySignal(c, k, t);
    Grouped(c.signalled, Left(g, OpV), if Blocks(g, OpV) then {} else {me});
  }

  lemma OtherEnds(c: System, k: Key, n: nat, e: Event, t: State)
    requires k in c.kernel.val && k in t.val && Lone(t, k) == Lone(c.kernel, k) && e != P(k) && e != V(k)
    ensures Leads(Group(c, k), n, [], Group(After(c, k, e, t), k))
  {
    assert Returned(c, k, e, t) == {};
  }

  lemma EntryLeads(c: System, k: Key, all: set<nat>, e: Event)
    requires Inv(c, k, all) && Enabled(c, k, |all|, e)
    ensures var t := Runs.Step(c.kernel, e);
            && k in t.val && (e == P(k) || e == V(k) ==> c.kernel.curr.Some?)
            && Leads(Group(c, k), |all|, Part(c, k, e), Group(After(c, k, e, t), k))
  {
    var t := Runs.Step(c.kernel, e);
    if e == P(k) {
      OwnLone(c.kernel, e, k);
      RunnerDoesNotWait(c.kernel, k);
      WaitEnds(c, k, all, t);
    } else if e == V(k) {
      OwnLone(c.kernel, e, k);
      RunnerDoesNotWait(c.kernel, k);
      SignalEnds(c, k, all, t);
    } else {
      OtherLone(c.kernel, e, k);
      OtherEnds(c, k, |all|, e, t);
    }
  }

  /** A kernel entry is a step of Join, or changes nothing there. */
  lemma StepIsJoin(c: System, k: Key, all: set<nat>, e: Event)
    requires Inv(c, k, all) && Enabled(c, k, |all|, e)
    ensures (e == P(k) || e == V(k)) ==> c.kernel.curr.Some?
    ensures var d := Next(c, k, |all|, e);
            Inv(d, k, all) && Leads(Group(c, k), |all|, Part(c, k, e), Group(d, k))
  {
    Runs.StepKeeps(c.kernel, e);
    StepAscends(c.kernel, e);
    Semaphores.StillOrdinary(c.kernel, e, k);
    EntryLeads(c, k, all, e);
    LeadsKeeps(Group(c, k), all, Part(c, k, e), Group(Next(c, k, |all|, e), k));
  }

  // ----- runs -----

  ghost predicate IsRun(c: System, k: Key, all: set<nat>, es: seq<Event>)
    requires Inv(c, k, all)
    decreases |es|
  {
    es == [] ||
    (Enabled(c, k, |all|, es[0]) && (StepIsJoin(c, k, all, es[0]); IsRun(Next(c, k, |all|, es[0]), k, all, es[1..])))
  }

  ghost function Exec(c: System, k: Key, all: set<nat>, es: seq<Event>): (d: System)
    requires Inv(c, k, all) && IsRun(c, k, all, es)
    ensures Inv(d, k, all)
    decreases |es|
  {
    if es == [] then c else StepIsJoin(c, k, all, es[0]); Exec(Next(c, k, |all|, es[0]), k, all, es[1..])
  }

  ghost function Parts(c: System, k: Key, all: set<nat>, es: seq<Event>): seq<Join.Event>
    requires Inv(c, k, all) && IsRun(c, k, all, es)
    decreases |es|
  {
    if es == [] then []
    else StepIsJoin(c, k, all, es[0]); Part(c, k, es[0]) + Parts(Next(c, k, |all|, es[0]), k, all, es[1..])
  }

  lemma RunFrom(g: Join.Group, n: nat, part: seq<Join.Event>, h: Join.Group, rest: seq<Join.Event>)
    requires Leads(g, n, part, h) && Join.IsRun(h, n, rest)
    ensures Join.IsRun(g, n, part + rest) && Join.Exec(g, n, part + rest) == Join.Exec(h, n, rest)
  {
    if part == [] {
      assert part + rest == rest;
    } else {
      assert (part + rest)[1..] == rest;
    }
  }

  /** Every run of the kernel with test and its group is, for master_sem, a run of Join. */
  lemma {:induction false} RunIsJoin(c: System, k: Key, all: set<nat>, es: seq<Event>)
    requires Inv(c, k, all) && IsRun(c, k, all, es)
    ensures Join.IsRun(Group(c, k), |all|, Parts(c, k, all, es))
    ensures Join.Exec(Group(c, k), |all|, Parts(c, k, all, es)) == Group(Exec(c, k, all, es), k)
    decreases |es|
  {
    if es != [] {
      var d := Next(c, k, |all|, es[0]);
      StepIsJoin(c, k, all, es[0]);
      RunIsJoin(d, k, all, es[1..]);
      RunFrom(Group(c, k), |all|, Part(c, k, es[0]), Group(d, k), Parts(d, k, all, es[1..]));
    }
  }

  /** When master_sem is 0 and nobody has done anything with it yet, that is the start of Join. */
  lemma StartInv(c: System, k: Key, all: set<nat>)
    requires Invariant.Valid(c.kernel) && Ascending(c.kernel) && Semaphores.Ordinary(c.kernel, k)
    requires c.kernel.val[k] == 0 && k !in c.kernel.blocked
    requires c.ledger == Ledger(map[], 0, 0) && c.todo == all && c.signalled == {} && Join.TEST !in all
    ensures Inv(c, k, all) && Join.Start(Group(c, k), all)
  {
    assert Lone(c.kernel, k) == Cell(0, []);
    Join.StartInv(Group(c, k), all);
  }

  /** The start of the machine is one. */
  lemma InitStarts(n: nat, cells: map<Key, int>, k: Key, all: set<nat>)
    requires 0 < n < Pids.WORD && Runs.GoodCells(cells) && k in cells && cells[k] == 0 && !IsSoft(k)
             && Join.TEST !in all
    ensures var c := System(Init(n, cells), Ledger(map[], 0, 0), all, {});
            Inv(c, k, all) && Join.Start(Group(c, k), all) && c.kernel.curr.Some? && Me(c.kernel) == Join.TEST
  {
    Runs.InitValid(n, cells);
    StartInv(System(Init(n, cells), Ledger(map[], 0, 0), all, {}), k, all);
  }

  lemma RunEnds(g: Join.Group, all: set<nat>, es: seq<Join.Event>)
    requires Join.Start(g, all) && Join.IsRun(g, |all|, es)
    ensures var h := Join.Exec(g, |all|, es);
      && (h.ledger.doneP == |all| ==> h.signalled == all)
      && (h.todo == {} && h.ledger.doneP < |all| ==> Join.TEST !in h.cell.queue)
  {
    if Join.Exec(g, |all|, es).ledger.doneP == |all| { Join.JoinIsComplete(g, all, es); }
    if Join.Exec(g, |all|, es).todo == {} { Join.NoLostSignal(g, all, es); }
  }

  /** In the kernel, whatever else runs on it: when test has made its last pass every V of the group
      has returned; and once all of them have been called, test does not wait while it has passes to
      make. */
  lemma JoinInKernel(c: System, k: Key, all: set<nat>, es: seq<Event>)
    requires Inv(c, k, all) && Join.Start(Group(c, k), all) && IsRun(c, k, all, es)
    ensures var d := Exec(c, k, all, es);
      && (d.ledger.doneP == |all| ==> d.signalled == all)
      && (d.todo == {} && d.ledger.doneP < |all| ==> !WaitsOn(d.kernel, k, Join.TEST))
  {
    RunIsJoin(c, k, all, es);
    RunEnds(Group(c, k), all, Parts(c, k, all, es));
  }
}
