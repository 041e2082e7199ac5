/** A semaphore of the kernel by the identifiers of the processes that wait on it, which is how the
    programs know each other.  P and V are the calls of the lone semaphore, and every other kernel
    entry leaves it alone as long as nobody who waits on it is killed. */
module Names {
  import opened Options
  import opened Sequences
  import opened Forests
  import opened KernelState
  import opened Invariant
  import opened Runs
  import opened BinarySemaphore
  import opened Semaphores
  import opened Identifiers
  import Pids

  function NameOf(pid: seq<nat>, p: Proc): nat {
    if p < |pid| then pid[p] else Pids.FREE_PID
  }

  function NamesOf(pid: seq<nat>, q: seq<Proc>): seq<nat> {
    seq(|q|, i requires 0 <= i < |q| => NameOf(pid, q[i]))
  }

  function Named(pid: seq<nat>, c: Cell): Cell {
    Cell(c.val, NamesOf(pid, c.queue))
  }

  /** The semaphore with its queue of identifiers. */
  function Lone(s: State, k: Key): Cell
    requires k in s.val
  {
    Named(s.pid, SemOf(s, k))
  }

  /** Who runs. */
  function Me(s: State): nat
    requires s.curr.Some?
  {
    NameOf(s.pid, s.curr.value)
  }

  /** The process of that name waits on k. */
  predicate WaitsOn(s: State, k: Key, a: nat) { a in NamesOf(s.pid, QueueOf(s, k)) }

  lemma CallNamed(pid: seq<nat>, c: Cell, op: Op, p: Proc)
    ensures Named(pid, Call(c, op, p)) == Call(Named(pid, c), op, NameOf(pid, p))
  {
    assert NamesOf(pid, c.queue + [p]) == NamesOf(pid, c.queue) + [NameOf(pid, p)];
    if c.queue != [] { assert NamesOf(pid, c.queue[1..]) == NamesOf(pid, c.queue)[1..]; }
  }

  /** P and V of the semaphore itself. */
  lemma OwnLone(s: State, e: Event, k: Key)
    requires Valid(s) && Enabled(s, e) && Ordinary(s, k) && (e == P(k) || e == V(k))
    ensures var t := Step(s, e);
            && s.curr.Some? && k in t.val && t.pid == s.pid && Dead(s, t) == {}
            && Lone(t, k) == Call(Lone(s, k), if e == P(k) then OpP else OpV, Me(s))
  {
    OwnStep(s, e, k);
    CallNamed(s.pid, SemOf(s, k), if e == P(k) then OpP else OpV, s.curr.value);
  }

  /** The entry from s to t kills nobody who waits on k. */
  ghost predicate WaitersLive(s: State, t: State, k: Key) {
    forall p :: p in QueueOf(s, k) ==> p !in Dead(s, t)
  }

  lemma SameQueue(s: State, t: State, k: Key)
    requires OnlyKills(s, t, k) && WaitersLive(s, t, k)
    ensures QueueOf(t, k) == QueueOf(s, k)
  {
    WithoutNone(QueueOf(s, k), Dead(s, t));
  }

  lemma SameNamesOf(s: State, t: State, q: seq<Proc>)
    requires NamesKept(s, t) && forall p :: p in q ==> p in LiveSet(s.pid) && p !in Dead(s, t)
    ensures NamesOf(t.pid, q) == NamesOf(s.pid, q)
  {
    forall i | 0 <= i < |q| ensures NameOf(t.pid, q[i]) == NameOf(s.pid, q[i]) { assert q[i] in q; }
  }

  /** Everything else. */
  lemma OtherLone(s: State, e: Event, k: Key)
    requires Valid(s) && Enabled(s, e) && Ascending(s) && Ordinary(s, k) && e != P(k) && e != V(k)
    requires WaitersLive(s, Step(s, e), k)
    ensures k in Step(s, e).val && Lone(Step(s, e), k) == Lone(s, k)
  {
    var t := Step(s, e);
    OtherStep(s, e, k);
    SameQueue(s, t, k);
    StepNames(s, e);
    QueueFacts(s, Runner(s), k);
    SameNamesOf(s, t, QueueOf(s, k));
  }

  /** Live processes have different identifiers. */
  lemma OneName(s: State, run: Option<Proc>, p: Proc, q: Proc)
    requires Core(s, run) && p in LiveSet(s.pid) && q in LiveSet(s.pid) && p != q
    ensures NameOf(s.pid, p) != NameOf(s.pid, q)
  {
    assert Listed(s.pids, s.pid, s.free, p) && Listed(s.pids, s.pid, s.free, q);
    var i :| 0 <= i < |s.pids| && s.pids[i] == p;
    var j :| 0 <= j < |s.pids| && s.pids[j] == q;
    if i < j { assert Pids.InOrder(s.pids, s.pid, i, j); } else { assert Pids.InOrder(s.pids, s.pid, j, i); }
  }

  /** Who runs does not wait. */
  lemma RunnerDoesNotWait(s: State, k: Key)
    requires Valid(s) && s.mode == Running
    ensures s.curr.Some? && !WaitsOn(s, k, Me(s))
  {
    var q := QueueOf(s, k);
    RunningAlive(s);
    QueueFacts(s, s.curr, k);
    forall i | 0 <= i < |q| ensures NameOf(s.pid, q[i]) != Me(s) {
      assert q[i] in q;
      OneName(s, s.curr, q[i], s.curr.value);
    }
  }
}
