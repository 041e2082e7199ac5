/** One two-sided binary semaphore of phase1/asl.c by itself: a cell that is 0 or 1, the queue of
    those blocked on it, and semP and semV as changes of the two. */
module BinarySemaphore {
  import opened Sequences
  import opened Forests

  datatype Op = OpP | OpV

  datatype Cell = Cell(val: int, queue: seq<Proc>)

  /** P waits at 0, V waits at 1. */
  predicate Blocks(c: Cell, op: Op) {
    c.val == if op == OpP then 0 else 1
  }

  /** An operation that finds somebody waiting on the other side releases the first of them. */
  predicate Releases(c: Cell, op: Op) {
    !Blocks(c, op) && c.queue != []
  }

  function Call(c: Cell, op: Op, caller: Proc): Cell {
    if Blocks(c, op) then c.(queue := c.queue + [caller])
    else if c.queue != [] then c.(queue := c.queue[1..])
    else c.(val := if op == OpP then 0 else 1)
  }

  /** What an observer knows: the operation each blocked process is in the middle of, and how many
      of each kind have completed, that is, returned to their caller. */
  datatype Ledger = Ledger(pending: map<Proc, Op>, doneP: nat, doneV: nat)

  function Complete(l: Ledger, op: Op): Ledger {
    if op == OpP then l.(doneP := l.doneP + 1) else l.(doneV := l.doneV + 1)
  }

  function Record(c: Cell, op: Op, caller: Proc, l: Ledger): Ledger {
    if Blocks(c, op) then l.(pending := l.pending[caller := op])
    else if c.queue != [] then
      Complete(Complete(l, op), if c.queue[0] in l.pending then l.pending[c.queue[0]] else op)
    else Complete(l, op)
  }

  /** At 0 everybody who waits is in a P, at 1 everybody is in a V. */
  ghost predicate OneSided(c: Cell, l: Ledger) {
    && c.val in {0, 1}
    && forall p :: p in c.queue ==> p in l.pending && l.pending[p] == if c.val == 0 then OpP else OpV
  }

  function Balance(l: Ledger): int { l.doneV - l.doneP }

  /** Completed V minus completed P moves with the cell.  When an operation releases a waiter, two
      operations of opposite kinds complete and the cell stays. */
  lemma CallConserves(c: Cell, op: Op, caller: Proc, l: Ledger)
    requires OneSided(c, l)
    ensures OneSided(Call(c, op, caller), Record(c, op, caller, l))
    ensures Balance(Record(c, op, caller, l)) - Balance(l) == Call(c, op, caller).val - c.val
  {
    var d := Call(c, op, caller);
    if Blocks(c, op) {
      assert forall p :: p in d.queue <==> p in c.queue || p == caller;
    } else if c.queue != [] {
      assert c.queue[0] in c.queue && forall p :: p in d.queue ==> p in c.queue;
    }
  }

  /** The waiters who remain keep their order; a new one comes last. */
  lemma CallKeepsOrder(c: Cell, op: Op, caller: Proc, a: Proc, b: Proc)
    requires NoDup(c.queue) && Before(c.queue, a, b) && a in Call(c, op, caller).queue
    requires Blocks(c, op) ==> caller !in c.queue
    ensures Before(Call(c, op, caller).queue, a, b)
  {
    var q := c.queue;
    var i, j :| 0 <= i < j < |q| && q[i] == a && q[j] == b;
    if Blocks(c, op) {
      assert (q + [caller])[i] == a && (q + [caller])[j] == b;
    } else if q != [] {
      HeadAndTail(q);
      assert i > 0 && q[1..][i - 1] == a && q[1..][j - 1] == b;
    }
  }
}
