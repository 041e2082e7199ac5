/** The end of `test`: it passes P on master_sem once for every user process, and every user
    process passes V once, as it terminates.  The semaphore is binary, so a V that finds it at 1 has
    to wait. */
module Join {
  import opened Sequences
  import opened BinarySemaphore

  const TEST: nat := 1 // its process identifier

  datatype Group = Group(
    cell: Cell,              // master_sem
    ledger: Ledger,
    todo: set<nat>,          // processes that have not called signalProcessTermination
    signalled: set<nat>)     // processes whose V has completed

  datatype Event = Wait | Signal(a: nat)

  /** test has n passes to make and makes one at a time; a process signals once. */
  ghost predicate Enabled(g: Group, n: nat, e: Event) {
    match e
    case Wait => TEST !in g.cell.queue && g.ledger.doneP < n
    case Signal(a) => a in g.todo
  }

  ghost function Next(g: Group, n: nat, e: Event): Group
    requires Enabled(g, n, e)
  {
    var op := if e.Wait? then OpP else OpV;
    var caller := if e.Wait? then TEST else e.a;
    var released := if Releases(g.cell, op) && g.cell.queue[0] != TEST then {g.cell.queue[0]} else {};
    var passed := if e.Signal? && !Blocks(g.cell, op) then {e.a} else {};
    Group(Call(g.cell, op, caller), Record(g.cell, op, caller, g.ledger),
      g.todo - {caller}, g.signalled + released + passed)
  }

  /** Where the processes of the group are: each has yet to signal, is blocked in its V, or is
      through. */
  ghost predicate Partition(g: Group, all: set<nat>) {
    && TEST !in all && NoDup(g.cell.queue)
    && (forall a :: a in all <==> a in g.todo || (a in g.cell.queue && a != TEST) || a in g.signalled)
    && g.todo !! g.signalled
    && (forall a :: a in g.cell.queue ==> a !in g.todo && a !in g.signalled)
    && (forall a :: a in g.cell.queue ==>
          a in g.ledger.pending && g.ledger.pending[a] == if a == TEST then OpP else OpV)
  }

  ghost predicate Inv(g: Group, all: set<nat>, n: nat) {
    && OneSided(g.cell, g.ledger) && Partition(g, all)
    && Balance(g.ledger) == g.cell.val
    && |g.signalled| == g.ledger.doneV
    && (TEST in g.cell.queue ==> g.ledger.doneP < n)
    && g.ledger.doneP <= n
  }

  ghost predicate Start(g: Group, all: set<nat>) {
    g == Group(Cell(0, []), Ledger(map[], 0, 0), all, {}) && TEST !in all
  }

  lemma StartInv(g: Group, all: set<nat>)
    requires Start(g, all)
    ensures Inv(g, all, |all|)
  {
  }

  ghost predicate IsRun(g: Group, n: nat, es: seq<Event>)
    decreases |es|
  {
    es == [] || (Enabled(g, n, es[0]) && IsRun(Next(g, n, es[0]), n, es[1..]))
  }

  ghost function Exec(g: Group, n: nat, es: seq<Event>): Group
    requires IsRun(g, n, es)
    decreases |es|
  {
    if es == [] then g else Exec(Next(g, n, es[0]), n, es[1..])
  }

  /** While test waits in its P it waits alone: at 0 nobody is blocked in a V. */
  lemma TestWaitsAlone(g: Group, all: set<nat>, n: nat)
    requires Inv(g, all, n) && TEST in g.cell.queue
    ensures g.cell.val == 0 && forall a :: a in g.cell.queue ==> a == TEST
  {
  }

  lemma WaitKeeps(g: Group, all: set<nat>, n: nat)
    requires Inv(g, all, n) && Enabled(g, n, Wait)
    ensures Inv(Next(g, n, Wait), all, n)
  {
    CallConserves(g.cell, OpP, TEST, g.ledger);
    if Releases(g.cell, OpP) { HeadAndTail(g.cell.queue); }
  }

  lemma SignalKeeps(g: Group, all: set<nat>, n: nat, a: nat)
    requires Inv(g, all, n) && Enabled(g, n, Signal(a))
    ensures Inv(Next(g, n, Signal(a)), all, n)
  {
    CallConserves(g.cell, OpV, a, g.ledger);
    if Releases(g.cell, OpV) { HeadAndTail(g.cell.queue); }
  }

  lemma {:induction false} RunKeeps(g: Group, all: set<nat>, n: nat, es: seq<Event>)
    requires Inv(g, all, n) && IsRun(g, n, es)
    ensures Inv(Exec(g, n, es), all, n)
    decreases |es|
  {
    if es != [] {
      if es[0].Wait? { WaitKeeps(g, all, n); } else { SignalKeeps(g, all, n, es[0].a); }
      RunKeeps(Next(g, n, es[0]), all, n, es[1..]);
    }
  }

  /** test makes its last pass only after every process of the group has completed its V. */
  lemma JoinIsComplete(g: Group, all: set<nat>, es: seq<Event>)
    requires Start(g, all) && IsRun(g, |all|, es) && Exec(g, |all|, es).ledger.doneP == |all|
    ensures Exec(g, |all|, es).signalled == all && Exec(g, |all|, es).ledger.doneV == |all|
  {
    RunKeeps(g, all, |all|, es);
    var t := Exec(g, |all|, es);
    Subset(t.signalled, all);
  }

  /** No signal is lost: once every process has called V, whether that V has completed or waits,
      test is not blocked as long as passes are left to make. */
  lemma NoLostSignal(g: Group, all: set<nat>, es: seq<Event>)
    requires Start(g, all) && IsRun(g, |all|, es) && Exec(g, |all|, es).todo == {}
    ensures Exec(g, |all|, es).ledger.doneP < |all| ==> Enabled(Exec(g, |all|, es), |all|, Wait)
    ensures forall k {:trigger Waits(k)} :: k == |all| - Exec(g, |all|, es).ledger.doneP ==>
      IsRun(Exec(g, |all|, es), |all|, Waits(k)) && Exec(Exec(g, |all|, es), |all|, Waits(k)).ledger.doneP == |all|
  {
    RunKeeps(g, all, |all|, es);
    var t := Exec(g, |all|, es);
    if t.ledger.doneP < |all| { Unblocked(t, all); }
    Finishes(t, all, |all| - t.ledger.doneP);
  }

  function Waits(k: int): seq<Event> { seq(if k < 0 then 0 else k, _ => Wait) }

  lemma Subset(a: set<nat>, b: set<nat>)
    requires a <= b && |a| >= |b|
    ensures a == b
  {
    assert |b - a| == |b| - |a|;
  }

  lemma AllSignalled(g: Group, all: set<nat>, n: nat)
    requires Inv(g, all, n) && g.todo == {} && forall a :: a in g.cell.queue ==> a == TEST
    ensures g.signalled == all && g.ledger.doneV == |all|
  {
    assert g.signalled == all;
  }

  lemma Unblocked(g: Group, all: set<nat>)
    requires Inv(g, all, |all|) && g.todo == {} && g.ledger.doneP < |all|
    ensures TEST !in g.cell.queue
  {
    if TEST in g.cell.queue {
      TestWaitsAlone(g, all, |all|);
      AllSignalled(g, all, |all|);
    }
  }

  /** With all signals given, the passes that are left complete one after another. */
  lemma {:induction false} Finishes(g: Group, all: set<nat>, k: nat)
    requires Inv(g, all, |all|) && g.todo == {} && k == |all| - g.ledger.doneP
    ensures IsRun(g, |all|, Waits(k)) && Exec(g, |all|, Waits(k)).ledger.doneP == |all|
    decreases k
  {
    if k > 0 {
      Unblocked(g, all);
      WaitKeeps(g, all, |all|);
      var h := Next(g, |all|, Wait);
      if Blocks(g.cell, OpP) {
        assert TEST in h.cell.queue;
        Unblocked(h, all);
        assert false;
      }
      assert Waits(k)[0] == Wait && Waits(k)[1..] == Waits(k - 1);
      Finishes(h, all, k - 1);
    }
  }
}
