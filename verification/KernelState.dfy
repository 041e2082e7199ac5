/** The kernel as a state machine over values: what every kernel entry does to the PCB
    queues, the semaphores, the process tree and the counters (phases 1 and 2).

    A process is the index of its PCB in pcbFree_table; the N of the model is the length of
    the per-PCB tables (MAXPROC).  A semaphore is the address of its integer.  Each of the
    step functions below is one kernel entry, from the exception to the LDST, WAIT, HALT or
    PANIC that ends it. */
module KernelState {
  import opened Options
  import opened Sequences
  import opened Forests
  import Pids

  type Key = nat

  datatype Prio = LowPrio | HighPrio

  // How the last kernel entry ended; NoDescriptor is the PANIC of semP and semV.
  datatype Mode = Running | Waiting | Halted | Deadlock | NoDescriptor

  datatype State = State(
    free: seq<Proc>,                      // pcbFree_h
    high: seq<Proc>, low: seq<Proc>,      // high_readyqueue, low_readyqueue
    blocked: map<Key, seq<Proc>>,         // the active semaphore list, as a map
    semAdd: seq<Option<Key>>,             // p_semAdd
    val: map<Key, int>,                   // the semaphore cells in memory
    parent: seq<Option<Proc>>,            // p_parent
    kids: seq<seq<Proc>>,                 // p_child
    prio: seq<Prio>,                      // p_prio
    support: seq<Option<nat>>,            // p_supportStruct
    pids: seq<Proc>,                      // pid_list_h
    pid: seq<nat>,                        // p_pid
    currPid: nat,                         // curr_pid
    count: int,                           // process_count
    soft: int,                            // softblocked_count
    curr: Option<Proc>,                   // curr_process
    skip: Option<Proc>,                   // process_to_skip
    mode: Mode)

  const SEMAPHORE_IT: Key            // &semaphore_it
  const SEMAPHORE_DEVICES: Key       // &semaphore_devices[0]
  const TOTAL_IO_DEVICES: nat := 48
  const WORDLEN: nat := 4

  function DeviceSemaphore(i: nat): Key { SEMAPHORE_DEVICES + WORDLEN * i }

  /** isSoftBlocked, of the semaphore a process waits on. */
  predicate IsSoft(k: Key) {
    k == SEMAPHORE_IT || DeviceSemaphore(0) <= k <= DeviceSemaphore(TOTAL_IO_DEVICES - 1)
  }

  predicate IsDevice(k: Key) {
    exists i {:trigger DeviceSemaphore(i)} :: 0 <= i < TOTAL_IO_DEVICES && k == DeviceSemaphore(i)
  }

  predicate SoftAt(semAdd: seq<Option<Key>>, p: Proc)
    requires p < |semAdd|
  {
    semAdd[p].Some? && IsSoft(semAdd[p].value)
  }

  /** The soft-blocked processes. */
  function SoftSet(semAdd: seq<Option<Key>>): set<Proc> {
    set p | 0 <= p < |semAdd| && SoftAt(semAdd, p)
  }

  /** The live processes: IS_ALIVE. */
  function LiveSet(pid: seq<nat>): set<Proc> {
    set p | 0 <= p < |pid| && pid[p] != Pids.FREE_PID
  }

  /** All per-PCB tables have one length, and no queue names a PCB beyond it. */
  ghost predicate Sized(s: State) {
    && 0 < |s.pid| < Pids.WORD
    && |s.semAdd| == |s.parent| == |s.kids| == |s.prio| == |s.support| == |s.pid|
    && Below(s.free, |s.pid|) && Below(s.high, |s.pid|) && Below(s.low, |s.pid|) && Below(s.pids, |s.pid|)
    && (forall k :: k in s.blocked ==> Below(s.blocked[k], |s.pid|))
    && (s.curr.Some? ==> s.curr.value < |s.pid|)
  }

  ghost predicate Below(q: seq<Proc>, n: nat) {
    forall i :: 0 <= i < |q| ==> q[i] < n
  }

  // ----- phase1/asl.c -----

  predicate Waited(s: State, k: Key) {  // headBlocked(k) != NULL
    k in s.blocked && s.blocked[k] != []
  }

  /** insertBlocked, for a semaphore that is active or for which a descriptor is free. */
  function InsertBlocked(s: State, k: Key, p: Proc): State
    requires p < |s.semAdd|
  {
    s.(blocked := s.blocked[k := (if k in s.blocked then s.blocked[k] else []) + [p]],
       semAdd := s.semAdd[p := Some(k)])
  }

  predicate NoFreeDescriptor(s: State, k: Key) {
    k !in s.blocked && |s.blocked| >= |s.pid|
  }

  /** removeBlocked, of a semaphore with waiters. */
  function RemoveBlocked(s: State, k: Key): State
    requires Waited(s, k) && s.blocked[k][0] < |s.semAdd|
  {
    s.(blocked := if |s.blocked[k]| == 1 then s.blocked - {k} else s.blocked[k := s.blocked[k][1..]],
       semAdd := s.semAdd[s.blocked[k][0] := None])
  }

  // ----- phase2/scheduler.c -----

  /** setProcessReady. */
  function SetReady(s: State, p: Proc): State
    requires p < |s.pid| == |s.prio|
  {
    if s.pid[p] == Pids.FREE_PID then s
    else if s.prio[p] == LowPrio then s.(low := s.low + [p])
    else s.(high := s.high + [p])
  }

  /** The choice of _getNextProcess: the head of the high queue, unless that is the process
      that has just yielded and a low-priority process is ready. */
  predicate TakesHigh(s: State) {
    s.high != [] && (s.skip != Some(s.high[0]) || s.low == [])
  }

  function Schedule(s: State): State {
    if s.count == 0 then s.(mode := Halted)
    else if TakesHigh(s) then
      s.(high := s.high[1..], curr := Some(s.high[0]), skip := None, mode := Running)
    else if s.low != [] then
      s.(low := s.low[1..], curr := Some(s.low[0]), skip := None, mode := Running)
    else
      s.(curr := None, skip := None, mode := if s.soft > 0 then Waiting else Deadlock)
  }

  // ----- P and V -----

  function Wake(s: State, k: Key): State
    requires Sized(s) && Waited(s, k)
  {
    SetReady(RemoveBlocked(s, k), s.blocked[k][0])
  }

  function Block(s: State, k: Key): State
    requires Sized(s) && s.curr.Some?
  {
    if NoFreeDescriptor(s, k) then s.(mode := NoDescriptor)
    else Schedule(InsertBlocked(s, k, s.curr.value))
  }

  /** semP by the current process. */
  function SemP(s: State, k: Key): State
    requires Sized(s) && s.curr.Some? && k in s.val
  {
    if s.val[k] == 0 then Block(s, k)
    else if Waited(s, k) then Wake(s, k)
    else s.(val := s.val[k := 0])
  }

  /** semV by the current process. */
  function SemV(s: State, k: Key): State
    requires Sized(s) && s.curr.Some? && k in s.val
  {
    if s.val[k] == 1 then Block(s, k)
    else if Waited(s, k) then Wake(s, k)
    else s.(val := s.val[k := 1])
  }

  // ----- process creation and destruction -----

  function GeneratedPid(s: State): nat
    requires Sized(s)
  {
    Pids.FirstFree(Pids.PidsOf(s.pids, s.pid), Pids.Start(s.currPid))
  }

  /** _initPcb. */
  function Prepared(s: State, p: Proc): State
    requires Sized(s) && p < |s.pid|
  {
    var pid := GeneratedPid(s);
    var table := s.pid[p := pid];
    s.(parent := s.parent[p := None], kids := s.kids[p := []], semAdd := s.semAdd[p := None],
       support := s.support[p := None],
       pid := table, pids := Pids.Insert(s.pids, table, p), currPid := Pids.Next(pid))
  }

  /** allocPcb, of a non-empty free list. */
  function AllocPcb(s: State): State
    requires Sized(s) && s.free != []
  {
    Prepared(s, s.free[0]).(free := s.free[1..])
  }

  function CreateProcess(s: State, prio: Prio, support: Option<nat>): State
    requires Sized(s) && s.curr.Some?
  {
    if s.free == [] then s
    else
      var p := s.free[0];
      var a := AllocPcb(s);
      var b := a.(count := a.count + 1, prio := a.prio[p := prio], support := a.support[p := support]);
      var c := if prio == LowPrio then b.(low := b.low + [p]) else b.(high := b.high + [p]);
      c.(kids := c.kids[s.curr.value := c.kids[s.curr.value] + [p]], parent := c.parent[p := s.curr])
  }

  function Clear(t: seq<Option<nat>>, d: set<Proc>): (r: seq<Option<nat>>)
    ensures |r| == |t| && forall i :: 0 <= i < |t| ==> r[i] == if i in d then None else t[i]
  {
    seq(|t|, i requires 0 <= i < |t| => if i in d then None else t[i])
  }

  function KidsWithout(t: seq<seq<Proc>>, d: set<Proc>): (r: seq<seq<Proc>>)
    ensures |r| == |t| && forall i :: 0 <= i < |t| ==> r[i] == Without(t[i], d)
  {
    seq(|t|, i requires 0 <= i < |t| => Without(t[i], d))
  }

  function BlockedWithout(m: map<Key, seq<Proc>>, d: set<Proc>): (r: map<Key, seq<Proc>>)
    ensures forall k :: k in r <==> k in m && Without(m[k], d) != []
    ensures forall k :: k in r ==> r[k] == Without(m[k], d)
  {
    map k | k in m && Without(m[k], d) != [] :: Without(m[k], d)
  }

  function PidWithout(t: seq<nat>, d: set<Proc>): (r: seq<nat>)
    ensures |r| == |t| && forall i :: 0 <= i < |t| ==> r[i] == if i in d then Pids.FREE_PID else t[i]
  {
    seq(|t|, i requires 0 <= i < |t| => if i in d then Pids.FREE_PID else t[i])
  }

  /** The processes of d cut out of every queue, of the tree and of both counters. */
  function Detach(s: State, d: set<Proc>): State {
    s.(high := Without(s.high, d), low := Without(s.low, d),
       blocked := BlockedWithout(s.blocked, d), semAdd := Clear(s.semAdd, d),
       parent := Clear(s.parent, d), kids := KidsWithout(s.kids, d),
       count := s.count - |d|, soft := s.soft - |SoftSet(s.semAdd) * d|)
  }

  /** The PCBs of `order` given back to the free list, one by one. */
  function Release(s: State, order: seq<Proc>): State {
    s.(free := Reverse(order) + s.free,
       pids := Without(s.pids, Elements(order)), pid := PidWithout(s.pid, Elements(order)))
  }

  // ----- the process tree -----

  const FIRST: Proc := 0  // the PCB of the process made by main

  ghost predicate Tree(parent: seq<Option<Proc>>, kids: seq<seq<Proc>>, pid: seq<nat>, f: Forest)
    requires |parent| == |kids| == |pid|
  {
    && (f.Cons? ==> f.proc == FIRST && f.rest == Nil)
    && Distinct(f)
    && Rep(parent, kids, None, f)
    && Nodes(f) == LiveSet(pid)
  }

  ghost predicate IsTree(s: State)
    requires Sized(s)
  {
    exists f :: Tree(s.parent, s.kids, s.pid, f)
  }

  ghost function TreeOf(s: State): (f: Forest)
    requires Sized(s) && IsTree(s)
    ensures Tree(s.parent, s.kids, s.pid, f)
  {
    var f :| Tree(s.parent, s.kids, s.pid, f); f
  }

  /** _killProcess: p and its descendants vanish from everything at once, and their PCBs go
      back to the free list children first. */
  ghost function Kill(s: State, p: Proc): State
    requires Sized(s) && IsTree(s) && p in LiveSet(s.pid)
  {
    var sub := Sub(TreeOf(s), p);
    Release(Detach(s, Nodes(sub) + {p}), Post(sub) + [p])
  }

  // ----- the other system calls, the trap and the interrupts -----

  /** Once the kernel has run on behalf of a process that may be gone: back to it, or to the
      scheduler. */
  function Resume(s: State): State {
    if s.curr.Some? then s.(mode := Running) else Schedule(s)
  }

  /** The die branch of _passUpOrDieHandler, and TERMPROCESS(0). */
  ghost function Die(s: State): State
    requires Sized(s) && IsTree(s) && s.curr.Some? && s.curr.value in LiveSet(s.pid)
  {
    Schedule(Kill(s, s.curr.value))
  }

  /** getProcessByPid. */
  function ProcessOf(s: State, pid: nat): Option<Proc>
    requires Sized(s)
  {
    FindPid(s.pids, s.pid, pid)
  }

  function FindPid(pids: seq<Proc>, table: seq<nat>, pid: nat): (r: Option<Proc>)
    requires Below(pids, |table|)
    ensures r.Some? ==> r.value in pids && r.value < |table| && table[r.value] == pid
  {
    if pids == [] then None
    else if table[pids[0]] == pid then Some(pids[0])
    else FindPid(pids[1..], table, pid)
  }

  /** p is killed, and another process selected if that was the end of the running one. */
  ghost function Terminated(s: State, p: Proc): State
    requires Sized(s) && IsTree(s) && s.curr.Some? && p in LiveSet(s.pid)
  {
    var t := Kill(s, p);
    if s.curr.value in LiveSet(t.pid) then t else Schedule(t)
  }

  ghost function TermProcess(s: State, pid: nat): State
    requires Sized(s) && IsTree(s) && s.curr.Some? && s.curr.value in LiveSet(s.pid)
    requires forall p :: p in s.pids ==> p in LiveSet(s.pid)
  {
    if pid == 0 then Die(s)
    else
      var victim := ProcessOf(s, pid);
      if victim == None then s else Terminated(s, victim.value)
  }

  function DoIO(s: State, k: Key): State
    requires Sized(s) && s.curr.Some? && k in s.val
  {
    SemP(s.(soft := s.soft + 1), k)
  }

  function ClockWait(s: State): State
    requires Sized(s) && s.curr.Some? && SEMAPHORE_IT in s.val
  {
    DoIO(s, SEMAPHORE_IT)
  }

  function Yield(s: State): State
    requires Sized(s) && s.curr.Some?
  {
    Schedule(SetReady(s.(skip := s.curr), s.curr.value).(curr := None))
  }

  ghost function Trap(s: State): State
    requires Sized(s) && IsTree(s) && s.curr.Some? && s.curr.value in LiveSet(s.pid)
  {
    if s.support[s.curr.value] == None then Die(s) else s
  }

  function TimeSlice(s: State): State  // _PLTHandler
    requires Sized(s) && s.curr.Some?
  {
    Schedule(SetReady(s, s.curr.value).(curr := None))
  }

  lemma WakeSized(s: State, k: Key)
    requires Sized(s) && Waited(s, k)
    ensures Sized(Wake(s, k))
  {
    var q := s.blocked[k];
    assert q[0] < |s.pid|;
    var t := RemoveBlocked(s, k);
    forall l | l in t.blocked ensures Below(t.blocked[l], |s.pid|) {
      assert Below(s.blocked[l], |s.pid|);
    }
  }

  /** The loop of _ITHandler. */
  function DrainTimer(s: State): State
    requires Sized(s)
    decreases if SEMAPHORE_IT in s.blocked then |s.blocked[SEMAPHORE_IT]| else 0
  {
    if !Waited(s, SEMAPHORE_IT) then s
    else
      WakeSized(s, SEMAPHORE_IT);
      var t := Wake(s, SEMAPHORE_IT);
      DrainTimer(t.(soft := t.soft - 1))
  }

  function IntervalTimer(s: State): State  // _ITHandler
    requires Sized(s)
  {
    var t := DrainTimer(s);
    Resume(t.(val := t.val[SEMAPHORE_IT := 0]))
  }

  function DeviceDone(s: State, k: Key): State  // _deviceInterruptReturn and the exit
    requires Sized(s) && Waited(s, k)
  {
    var t := Wake(s, k);
    Resume(t.(soft := t.soft - 1))
  }

  // ----- runs -----

  datatype Event =
    | Create(prio: Prio, support: Option<nat>)
    | Term(pid: nat)
    | P(k: Key)
    | V(k: Key)
    | IO(k: Key)
    | Clock
    | GetTime        // GETTIME: only the CPU clock moves, which module CpuTime follows
    | Query          // GETSUPPORTPTR, GETPROCESSID
    | YieldCall
    | Exception      // any trap handed to _passUpOrDieHandler
    | Slice          // processor local timer
    | Timer          // interval timer
    | Device(k: Key) // a device completes the operation of the first process waiting on it
    | Spurious       // an interrupt with no line of interest

  /** Start of the machine: `main` before its call of scheduler, with the given semaphore cells
      in memory. */
  function Boot(n: nat, cells: map<Key, int>): State
    requires 0 < n < Pids.WORD
  {
    State(
      free := seq(n - 1, i => i + 1), high := [], low := [FIRST],
      blocked := map[], semAdd := seq(n, _ => None), val := cells,
      parent := seq(n, _ => None), kids := seq(n, _ => []),
      prio := seq(n, _ => LowPrio), support := seq(n, _ => None),
      pids := [FIRST], pid := seq(n, i => if i == FIRST then 1 else Pids.FREE_PID), currPid := 2,
      count := 1, soft := 0, curr := None, skip := None, mode := Running)
  }

  function Init(n: nat, cells: map<Key, int>): State
    requires 0 < n < Pids.WORD
  {
    Schedule(Boot(n, cells))
  }
}
