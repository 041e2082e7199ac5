/** The invariant every kernel entry keeps. */
module Invariant {
  import opened Options
  import opened Sequences
  import opened Forests
  import opened KernelState
  import Pids

  function Bit(b: bool): nat { if b then 1 else 0 }

  /** Process p is in exactly one place: the free list, a ready queue, the queue of the
      semaphore p_semAdd names, or the processor (`run`). */
  ghost predicate OnePlace(free: seq<Proc>, high: seq<Proc>, low: seq<Proc>, semAdd: seq<Option<Key>>,
                           run: Option<Proc>, p: Proc)
    requires p < |semAdd|
  {
    Bit(p in free) + Bit(p in high) + Bit(p in low) + Bit(semAdd[p].Some?) + Bit(run == Some(p)) == 1
  }

  ghost predicate Places(free: seq<Proc>, high: seq<Proc>, low: seq<Proc>, semAdd: seq<Option<Key>>,
                         run: Option<Proc>) {
    && NoDup(free) && NoDup(high) && NoDup(low)
    && (run.Some? ==> run.value < |semAdd|)
    && (forall p {:trigger OnePlace(free, high, low, semAdd, run, p)} :: 0 <= p < |semAdd| ==>
          OnePlace(free, high, low, semAdd, run, p))
  }

  /** A process of a semaphore queue says so in p_semAdd. */
  ghost predicate Queue(semAdd: seq<Option<Key>>, k: Key, q: seq<Proc>) {
    && q != [] && NoDup(q)
    && (forall p :: p in q ==> p < |semAdd| && semAdd[p] == Some(k))
  }

  ghost predicate Queued(blocked: map<Key, seq<Proc>>, semAdd: seq<Option<Key>>, p: Proc)
    requires p < |semAdd|
  {
    semAdd[p].Some? ==> semAdd[p].value in blocked && p in blocked[semAdd[p].value]
  }

  ghost predicate Queues(blocked: map<Key, seq<Proc>>, semAdd: seq<Option<Key>>) {
    && (forall k {:trigger Queue(semAdd, k, blocked[k])} :: k in blocked ==> Queue(semAdd, k, blocked[k]))
    && (forall p {:trigger Queued(blocked, semAdd, p)} :: 0 <= p < |semAdd| ==> Queued(blocked, semAdd, p))
  }

  ghost predicate Priorities(high: seq<Proc>, low: seq<Proc>, prio: seq<Prio>) {
    && (forall p :: p in high ==> p < |prio| && prio[p] == HighPrio)
    && (forall p :: p in low ==> p < |prio| && prio[p] == LowPrio)
  }

  /** The pid list holds the live processes in strictly increasing order of identifier, and
      the dead are the free PCBs. */
  ghost predicate PidTable(pids: seq<Proc>, pid: seq<nat>, free: seq<Proc>) {
    && Pids.Sorted(pids, pid)
    && (forall p {:trigger Listed(pids, pid, free, p)} :: 0 <= p < |pid| ==> Listed(pids, pid, free, p))
  }

  ghost predicate Listed(pids: seq<Proc>, pid: seq<nat>, free: seq<Proc>, p: Proc)
    requires p < |pid|
  {
    && 0 < pid[p] <= Pids.FREE_PID
    && (p in free <==> pid[p] == Pids.FREE_PID)
    && (p in pids <==> pid[p] != Pids.FREE_PID)
  }

  ghost predicate Cell(val: map<Key, int>, k: Key)
    requires k in val
  {
    val[k] == 0 || (val[k] == 1 && !IsSoft(k))
  }

  /** The kernel's own semaphores are 0 and the others binary, at every step boundary. */
  ghost predicate Cells(val: map<Key, int>, blocked: map<Key, seq<Proc>>) {
    && (forall k {:trigger Cell(val, k)} :: k in val ==> Cell(val, k))
    && blocked.Keys <= val.Keys
    && SEMAPHORE_IT in val
    && (forall i {:trigger DeviceSemaphore(i)} :: 0 <= i < TOTAL_IO_DEVICES ==> DeviceSemaphore(i) in val)
  }

  ghost predicate DeadUnlinked(parent: seq<Option<Proc>>, kids: seq<seq<Proc>>, pid: seq<nat>)
    requires |parent| == |kids| == |pid|
  {
    forall p {:trigger Unlinked(parent, kids, pid, p)} :: 0 <= p < |pid| ==> Unlinked(parent, kids, pid, p)
  }

  ghost predicate Unlinked(parent: seq<Option<Proc>>, kids: seq<seq<Proc>>, pid: seq<nat>, p: Proc)
    requires |parent| == |kids| == |pid| && p < |pid|
  {
    pid[p] == Pids.FREE_PID ==> parent[p] == None && kids[p] == []
  }

  /** Everything but the outcome of the last step, with `run` on the processor. */
  ghost predicate Core(s: State, run: Option<Proc>) {
    && Sized(s)
    && Places(s.free, s.high, s.low, s.semAdd, run)
    && Queues(s.blocked, s.semAdd)
    && Priorities(s.high, s.low, s.prio)
    && PidTable(s.pids, s.pid, s.free)
    && s.currPid < Pids.WORD
    && s.count == |LiveSet(s.pid)|
    && s.soft == |SoftSet(s.semAdd)|
    && Cells(s.val, s.blocked)
    && IsTree(s) && DeadUnlinked(s.parent, s.kids, s.pid)
  }

  ghost predicate Outcome(s: State) {
    match s.mode
    case Running => s.curr.Some? && s.skip == None
    case Waiting => s.curr == None && s.skip == None && s.high == [] && s.low == [] && s.count > 0 && s.soft > 0
    case Deadlock => s.curr == None && s.skip == None && s.high == [] && s.low == [] && s.count > 0 && s.soft == 0
    case Halted => s.count == 0
    case NoDescriptor => false
  }

  function Runner(s: State): Option<Proc> {
    if s.mode == Running then s.curr else None
  }

  ghost predicate Valid(s: State) {
    Core(s, Runner(s)) && Outcome(s)
  }

  /** A step that moves processes between the processor, the ready queues and the semaphore
      queues keeps the invariant if it keeps what speaks of those. */
  lemma Requeued(s: State, run: Option<Proc>, t: State, run': Option<Proc>)
    requires Core(s, run)
    requires t == s.(high := t.high, low := t.low, blocked := t.blocked, semAdd := t.semAdd, val := t.val,
                     soft := t.soft, curr := t.curr, skip := t.skip, mode := t.mode)
    requires |t.semAdd| == |s.semAdd| && (t.curr.Some? ==> t.curr.value < |t.pid|)
    requires Places(t.free, t.high, t.low, t.semAdd, run') && Priorities(t.high, t.low, t.prio)
    requires Queues(t.blocked, t.semAdd) && t.soft == |SoftSet(t.semAdd)| && Cells(t.val, t.blocked)
    ensures Core(t, run')
  {
    assert Below(t.high, |t.pid|) by {
      forall i | 0 <= i < |t.high| ensures t.high[i] < |t.pid| { assert t.high[i] in t.high; }
    }
    assert Below(t.low, |t.pid|) by {
      forall i | 0 <= i < |t.low| ensures t.low[i] < |t.pid| { assert t.low[i] in t.low; }
    }
    forall k | k in t.blocked ensures Below(t.blocked[k], |t.pid|) {
      assert Queue(t.semAdd, k, t.blocked[k]);
      forall i | 0 <= i < |t.blocked[k]| ensures t.blocked[k][i] < |t.pid| { assert t.blocked[k][i] in t.blocked[k]; }
    }
    assert Tree(t.parent, t.kids, t.pid, TreeOf(s));
  }

  // ----- the scheduler -----

  lemma DequeuePlaces(free: seq<Proc>, high: seq<Proc>, low: seq<Proc>, semAdd: seq<Option<Key>>)
    requires Places(free, high, low, semAdd, None)
    requires Below(high, |semAdd|) && Below(low, |semAdd|)
    ensures high != [] ==> Places(free, high[1..], low, semAdd, Some(high[0]))
    ensures low != [] ==> Places(free, high, low[1..], semAdd, Some(low[0]))
  {
    forall p | 0 <= p < |semAdd|
      ensures high != [] ==> OnePlace(free, high[1..], low, semAdd, Some(high[0]), p)
      ensures low != [] ==> OnePlace(free, high, low[1..], semAdd, Some(low[0]), p)
    {
      assert OnePlace(free, high, low, semAdd, None, p);
    }
  }

  lemma ScheduleKeeps(s: State)
    requires Core(s, None)
    ensures Valid(Schedule(s))
  {
    var t := Schedule(s);
    DequeuePlaces(s.free, s.high, s.low, s.semAdd);
    Requeued(s, None, t, Runner(t));
  }

  // ----- ready queues -----

  lemma EnqueuePlaces(free: seq<Proc>, high: seq<Proc>, low: seq<Proc>, semAdd: seq<Option<Key>>, p: Proc)
    requires Places(free, high, low, semAdd, Some(p))
    ensures Places(free, high + [p], low, semAdd, None)
    ensures Places(free, high, low + [p], semAdd, None)
  {
    assert OnePlace(free, high, low, semAdd, Some(p), p);
    forall q | 0 <= q < |semAdd|
      ensures OnePlace(free, high + [p], low, semAdd, None, q)
      ensures OnePlace(free, high, low + [p], semAdd, None, q)
    {
      assert OnePlace(free, high, low, semAdd, Some(p), q);
    }
    NoDupConcat(high, [p]);
    NoDupConcat(low, [p]);
  }

  /** A process that leaves the processor or a semaphore queue is alive, so setProcessReady
      puts it on the queue of its priority. */
  lemma SetReadyKeeps(s: State, p: Proc)
    requires Core(s, Some(p))
    ensures Core(SetReady(s, p), None)
    ensures SetReady(s, p) == if s.prio[p] == LowPrio then s.(low := s.low + [p]) else s.(high := s.high + [p])
  {
    assert OnePlace(s.free, s.high, s.low, s.semAdd, Some(p), p);
    assert Listed(s.pids, s.pid, s.free, p);
    EnqueuePlaces(s.free, s.high, s.low, s.semAdd, p);
    Requeued(s, Some(p), SetReady(s, p), None);
  }

  // ----- semaphore queues -----

  lemma SoftSetAdd(semAdd: seq<Option<Key>>, p: Proc, k: Key)
    requires p < |semAdd| && semAdd[p] == None
    ensures |SoftSet(semAdd[p := Some(k)])| == |SoftSet(semAdd)| + Bit(IsSoft(k))
  {
    var a := semAdd[p := Some(k)];
    assert forall q :: 0 <= q < |a| && q != p ==> SoftAt(a, q) == SoftAt(semAdd, q);
    assert SoftAt(a, p) == IsSoft(k) && !SoftAt(semAdd, p);
    assert SoftSet(a) == if IsSoft(k) then SoftSet(semAdd) + {p} else SoftSet(semAdd);
  }

  lemma SoftSetRemove(semAdd: seq<Option<Key>>, p: Proc, k: Key)
    requires p < |semAdd| && semAdd[p] == Some(k)
    ensures |SoftSet(semAdd[p := None])| == |SoftSet(semAdd)| - Bit(IsSoft(k))
  {
    var b := semAdd[p := None];
    assert forall q :: 0 <= q < |b| && q != p ==> SoftAt(b, q) == SoftAt(semAdd, q);
    assert SoftAt(semAdd, p) == IsSoft(k) && !SoftAt(b, p);
    assert SoftSet(b) == if IsSoft(k) then SoftSet(semAdd) - {p} else SoftSet(semAdd);
  }

  /** p_semAdd names the semaphore that queues the process, and no other queues it: so outBlocked of
      a process with a p_semAdd finds it. */
  lemma NamedIsQueued(s: State, run: Option<Proc>, p: Proc, k: Key)
    requires Core(s, run) && p < |s.semAdd|
    ensures s.semAdd[p] == Some(k) <==> k in s.blocked && p in s.blocked[k]
  {
    assert Queued(s.blocked, s.semAdd, p);
    if k in s.blocked { assert Queue(s.semAdd, k, s.blocked[k]); }
  }

  lemma InsertBlockedQueues(blocked: map<Key, seq<Proc>>, semAdd: seq<Option<Key>>, k: Key, p: Proc)
    requires Queues(blocked, semAdd) && p < |semAdd| && semAdd[p] == None
    ensures Queues(blocked[k := (if k in blocked then blocked[k] else []) + [p]], semAdd[p := Some(k)])
  {
    var q := if k in blocked then blocked[k] else [];
    var blocked' := blocked[k := q + [p]];
    var semAdd' := semAdd[p := Some(k)];
    forall l | l in blocked' ensures Queue(semAdd', l, blocked'[l]) {
      if l in blocked { assert Queue(semAdd, l, blocked[l]); }
      if l == k { NoDupConcat(q, [p]); }
    }
    forall x | 0 <= x < |semAdd'| ensures Queued(blocked', semAdd', x) {
      assert Queued(blocked, semAdd, x);
    }
  }

  lemma BlockPlaces(free: seq<Proc>, high: seq<Proc>, low: seq<Proc>, semAdd: seq<Option<Key>>, p: Proc, k: Key)
    requires Places(free, high, low, semAdd, Some(p))
    ensures semAdd[p] == None
    ensures Places(free, high, low, semAdd[p := Some(k)], None)
  {
    assert OnePlace(free, high, low, semAdd, Some(p), p);
    var semAdd' := semAdd[p := Some(k)];
    forall q | 0 <= q < |semAdd| ensures OnePlace(free, high, low, semAdd', None, q) {
      assert OnePlace(free, high, low, semAdd, Some(p), q);
    }
  }

  /** insertBlocked of the running process, with the matching count of soft-blocked ones. */
  lemma InsertBlockedKeeps(s: State, k: Key, p: Proc)
    requires Core(s, Some(p)) && k in s.val
    ensures Core(InsertBlocked(s, k, p).(soft := s.soft + Bit(IsSoft(k))), None)
  {
    var t := InsertBlocked(s, k, p).(soft := s.soft + Bit(IsSoft(k)));
    BlockPlaces(s.free, s.high, s.low, s.semAdd, p, k);
    InsertBlockedQueues(s.blocked, s.semAdd, k, p);
    SoftSetAdd(s.semAdd, p, k);
    Requeued(s, Some(p), t, None);
  }

  lemma RemoveBlockedQueues(blocked: map<Key, seq<Proc>>, semAdd: seq<Option<Key>>, k: Key)
    requires Queues(blocked, semAdd) && k in blocked
    ensures blocked[k] != [] && blocked[k][0] < |semAdd| && semAdd[blocked[k][0]] == Some(k)
    ensures Queues(if |blocked[k]| == 1 then blocked - {k} else blocked[k := blocked[k][1..]],
                   semAdd[blocked[k][0] := None])
  {
    assert Queue(semAdd, k, blocked[k]);
    var q := blocked[k];
    var p := q[0];
    HeadAndTail(q);
    var blocked' := if |q| == 1 then blocked - {k} else blocked[k := q[1..]];
    var semAdd' := semAdd[p := None];
    forall l | l in blocked' ensures Queue(semAdd', l, blocked'[l]) {
      assert Queue(semAdd, l, blocked[l]);
      if l != k { assert p !in blocked[l]; }
    }
    forall x | 0 <= x < |semAdd'| ensures Queued(blocked', semAdd', x) {
      assert Queued(blocked, semAdd, x);
      if x != p && semAdd[x] == Some(k) { assert x in q && x in q[1..]; }
    }
  }

  lemma WakePlaces(
    free: seq<Proc>, high: seq<Proc>, low: seq<Proc>, semAdd: seq<Option<Key>>, run: Option<Proc>, p: Proc)
    requires Places(free, high, low, semAdd, run) && p < |semAdd| && semAdd[p].Some?
    ensures p !in free && run != Some(p)
    ensures Places(free, high + [p], low, semAdd[p := None], run)
    ensures Places(free, high, low + [p], semAdd[p := None], run)
  {
    assert OnePlace(free, high, low, semAdd, run, p);
    var high', low', semAdd' := high + [p], low + [p], semAdd[p := None];
    forall q | 0 <= q < |semAdd|
      ensures OnePlace(free, high', low, semAdd', run, q)
      ensures OnePlace(free, high, low', semAdd', run, q)
    {
      assert OnePlace(free, high, low, semAdd, run, q);
    }
    NoDupConcat(high, [p]);
    NoDupConcat(low, [p]);
  }

  /** The process woken is alive, so it does reach the ready queue of its priority. */
  lemma WakeIs(s: State, run: Option<Proc>, k: Key)
    requires Core(s, run) && k in s.blocked
    ensures Waited(s, k) && s.blocked[k][0] < |s.semAdd|
    ensures Wake(s, k) == WokenTo(s, k, s.prio[s.blocked[k][0]])
  {
    RemoveBlockedQueues(s.blocked, s.semAdd, k);
    WakePlaces(s.free, s.high, s.low, s.semAdd, run, s.blocked[k][0]);
    assert Listed(s.pids, s.pid, s.free, s.blocked[k][0]);
  }

  function WokenTo(s: State, k: Key, prio: Prio): State
    requires Waited(s, k) && s.blocked[k][0] < |s.semAdd|
  {
    var t := RemoveBlocked(s, k);
    if prio == LowPrio then t.(low := s.low + [s.blocked[k][0]]) else t.(high := s.high + [s.blocked[k][0]])
  }

  /** What changes whichever queue it joins. */
  lemma WokenParts(s: State, run: Option<Proc>, k: Key)
    requires Core(s, run) && k in s.blocked && Waited(s, k) && s.blocked[k][0] < |s.semAdd|
    ensures var t, p := RemoveBlocked(s, k), s.blocked[k][0];
            && Queues(t.blocked, t.semAdd) && Cells(t.val, t.blocked)
            && s.soft - Bit(IsSoft(k)) == |SoftSet(t.semAdd)|
            && Places(s.free, s.high + [p], s.low, t.semAdd, run) && Places(s.free, s.high, s.low + [p], t.semAdd, run)
  {
    var p := s.blocked[k][0];
    RemoveBlockedQueues(s.blocked, s.semAdd, k);
    WakePlaces(s.free, s.high, s.low, s.semAdd, run, p);
    SoftSetRemove(s.semAdd, p, k);
    assert RemoveBlocked(s, k).blocked.Keys <= s.blocked.Keys;
  }

  lemma WokenLowKeeps(s: State, run: Option<Proc>, k: Key)
    requires Core(s, run) && k in s.blocked && Waited(s, k) && s.blocked[k][0] < |s.semAdd|
    requires s.prio[s.blocked[k][0]] == LowPrio
    ensures Core(WokenTo(s, k, LowPrio).(soft := s.soft - Bit(IsSoft(k))), run)
  {
    WokenParts(s, run, k);
    Requeued(s, run, WokenTo(s, k, LowPrio).(soft := s.soft - Bit(IsSoft(k))), run);
  }

  lemma WokenHighKeeps(s: State, run: Option<Proc>, k: Key)
    requires Core(s, run) && k in s.blocked && Waited(s, k) && s.blocked[k][0] < |s.semAdd|
    requires s.prio[s.blocked[k][0]] == HighPrio
    ensures Core(WokenTo(s, k, HighPrio).(soft := s.soft - Bit(IsSoft(k))), run)
  {
    WokenParts(s, run, k);
    Requeued(s, run, WokenTo(s, k, HighPrio).(soft := s.soft - Bit(IsSoft(k))), run);
  }

  /** The first waiter leaves its semaphore for a ready queue. */
  lemma WakeKeeps(s: State, run: Option<Proc>, k: Key)
    requires Core(s, run) && k in s.blocked
    ensures Waited(s, k)
    ensures Core(Wake(s, k).(soft := s.soft - Bit(IsSoft(k))), run)
  {
    WakeIs(s, run, k);
    if s.prio[s.blocked[k][0]] == LowPrio { WokenLowKeeps(s, run, k); } else { WokenHighKeeps(s, run, k); }
  }

  /** The first waiters of the active semaphores: one process per semaphore. */
  ghost function FirstWaiters(blocked: map<Key, seq<Proc>>, keys: set<Key>): set<Proc>
    requires keys <= blocked.Keys && forall k :: k in keys ==> blocked[k] != []
  {
    set k | k in keys :: blocked[k][0]
  }

  lemma {:induction false} FirstWaitersCount(blocked: map<Key, seq<Proc>>, semAdd: seq<Option<Key>>, keys: set<Key>)
    requires keys <= blocked.Keys && Queues(blocked, semAdd)
    requires forall k :: k in keys ==> blocked[k] != []
    ensures |FirstWaiters(blocked, keys)| == |keys|
    decreases |keys|
  {
    if keys != {} {
      var k :| k in keys;
      var rest := keys - {k};
      FirstWaitersCount(blocked, semAdd, rest);
      assert FirstWaiters(blocked, keys) == FirstWaiters(blocked, rest) + {blocked[k][0]};
      assert blocked[k][0] !in FirstWaiters(blocked, rest) by {
        assert Queue(semAdd, k, blocked[k]) && blocked[k][0] in blocked[k];
        forall l | l in rest ensures blocked[l][0] != blocked[k][0] {
          assert Queue(semAdd, l, blocked[l]) && blocked[l][0] in blocked[l];
        }
      }
    }
  }

  /** With a process that waits nowhere, fewer semaphores are waited on than there are processes. */
  lemma FewerSemaphores(blocked: map<Key, seq<Proc>>, semAdd: seq<Option<Key>>, p: Proc)
    requires Queues(blocked, semAdd) && p < |semAdd| && semAdd[p] == None
    ensures |blocked| < |semAdd|
  {
    forall l | l in blocked ensures blocked[l] != [] { assert Queue(semAdd, l, blocked[l]); }
    var first := FirstWaiters(blocked, blocked.Keys);
    FirstWaitersCount(blocked, semAdd, blocked.Keys);
    forall x | x in first ensures x < |semAdd| && x != p {
      var l :| l in blocked && blocked[l][0] == x;
      assert Queue(semAdd, l, blocked[l]) && x in blocked[l];
    }
    BelowCardinality(first + {p}, |semAdd|);
    assert |first + {p}| == |first| + 1;
  }

  /** A running process never meets the "no free semaphore" PANIC: each active descriptor has
      a waiter of its own, and the caller waits nowhere. */
  lemma DescriptorLeft(s: State, p: Proc, k: Key)
    requires Core(s, Some(p))
    ensures |s.blocked| < |s.pid| && !NoFreeDescriptor(s, k)
  {
    assert OnePlace(s.free, s.high, s.low, s.semAdd, Some(p), p);
    FewerSemaphores(s.blocked, s.semAdd, p);
  }
}
