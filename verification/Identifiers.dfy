/** Process identifiers over whole runs.  The counter only goes up and every identifier in use is
    below it, so there is never a collision; and the counter can reach the value that marks a free
    PCB. */
module Identifiers {
  import opened Options
  import opened Sequences
  import opened Forests
  import opened KernelState
  import opened Invariant
  import opened Creation
  import opened Runs
  import Pids

  /** All identifiers in use are below curr_pid, which has not wrapped. */
  ghost predicate Ascending(s: State) {
    && 0 < s.currPid <= Pids.FREE_PID
    && forall p :: 0 <= p < |s.pid| && s.pid[p] != Pids.FREE_PID ==> s.pid[p] < s.currPid
  }

  /** No collision: the counter itself is the identifier. */
  lemma NextPid(s: State, run: Option<Proc>)
    requires Core(s, run) && Ascending(s)
    ensures GeneratedPid(s) == s.currPid
  {
    UsedPids(s.pids, s.pid, s.free);
    assert s.currPid !in Pids.PidsOf(s.pids, s.pid);
  }

  /** t names nobody that s does not name. */
  ghost predicate NamesNobody(s: State, t: State) {
    && t.currPid == s.currPid && |t.pid| == |s.pid|
    && forall p :: 0 <= p < |s.pid| ==> t.pid[p] == s.pid[p] || t.pid[p] == Pids.FREE_PID
  }

  predicate SameNames(s: State, t: State) { t.pid == s.pid && t.currPid == s.currPid }

  lemma ScheduleNames(s: State)
    ensures SameNames(s, Schedule(s)) && SameNames(s, Resume(s))
  {
  }

  lemma WakeNames(s: State, k: Key)
    requires Sized(s) && Waited(s, k)
    ensures SameNames(s, Wake(s, k)) && Sized(Wake(s, k))
  {
    WakeSized(s, k);
  }

  lemma DeviceNames(s: State, k: Key)
    requires Sized(s) && Waited(s, k)
    ensures SameNames(s, DeviceDone(s, k))
  {
    WakeNames(s, k);
    var t := Wake(s, k);
    ScheduleNames(t.(soft := t.soft - 1));
  }

  lemma {:induction false} DrainNames(s: State)
    requires Sized(s)
    ensures SameNames(s, DrainTimer(s))
    decreases if SEMAPHORE_IT in s.blocked then |s.blocked[SEMAPHORE_IT]| else 0
  {
    if Waited(s, SEMAPHORE_IT) {
      WakeNames(s, SEMAPHORE_IT);
      var t := Wake(s, SEMAPHORE_IT);
      DrainNames(t.(soft := t.soft - 1));
    }
  }

  lemma TimerNames(s: State)
    requires Sized(s)
    ensures SameNames(s, IntervalTimer(s))
  {
    DrainNames(s);
    var t := DrainTimer(s);
    ScheduleNames(t.(val := t.val[SEMAPHORE_IT := 0]));
  }

  lemma ReadyNames(s: State)
    requires Sized(s) && s.curr.Some?
    ensures SameNames(s, Yield(s)) && SameNames(s, TimeSlice(s))
  {
    ScheduleNames(SetReady(s.(skip := s.curr), s.curr.value).(curr := None));
    ScheduleNames(SetReady(s, s.curr.value).(curr := None));
  }

  lemma BlockNames(s: State, k: Key)
    requires Sized(s) && s.curr.Some?
    ensures SameNames(s, Block(s, k))
  {
    ScheduleNames(InsertBlocked(s, k, s.curr.value));
  }

  lemma SemaphoreNames(s: State, k: Key)
    requires Sized(s) && s.curr.Some? && k in s.val
    ensures SameNames(s, SemP(s, k)) && SameNames(s, SemV(s, k))
  {
    BlockNames(s, k);
    if Waited(s, k) { WakeNames(s, k); }
  }

  lemma SoftNames(s: State, k: Key)
    requires Sized(s) && s.curr.Some? && k in s.val
    ensures SameNames(s, DoIO(s, k))
  {
    SemaphoreNames(s.(soft := s.soft + 1), k);
  }

  lemma CutNames(s: State, d: set<Proc>, order: seq<Proc>)
    ensures var t := Release(Detach(s, d), order); NamesNobody(s, t) && NamesNobody(s, Schedule(t))
  {
    ScheduleNames(Release(Detach(s, d), order));
  }

  lemma KillNames(s: State, p: Proc)
    requires Sized(s) && IsTree(s) && p in LiveSet(s.pid)
    ensures NamesNobody(s, Kill(s, p)) && NamesNobody(s, Schedule(Kill(s, p)))
  {
    var sub := Sub(TreeOf(s), p);
    CutNames(s, Nodes(sub) + {p}, Post(sub) + [p]);
  }

  lemma TermNames(s: State, pid: nat)
    requires Sized(s) && IsTree(s) && s.curr.Some? && s.curr.value in LiveSet(s.pid)
    requires forall p :: p in s.pids ==> p in LiveSet(s.pid)
    ensures NamesNobody(s, TermProcess(s, pid))
  {
    if pid == 0 {
      KillNames(s, s.curr.value);
    } else {
      var victim := ProcessOf(s, pid);
      if victim.Some? { KillNames(s, victim.value); }
    }
  }

  lemma InterruptNames(s: State, e: Event)
    requires Sized(s) && IsInterrupt(e) && (e.Slice? ==> s.curr.Some?) && (e.Device? ==> Waited(s, e.k))
    ensures SameNames(s, if e.Slice? then TimeSlice(s) else if e.Timer? then IntervalTimer(s)
                         else if e.Device? then DeviceDone(s, e.k) else Resume(s))
  {
    match e
    case Slice => ReadyNames(s);
    case Timer => TimerNames(s);
    case Device(k) => DeviceNames(s, k);
    case Spurious => ScheduleNames(s);
  }

  lemma CallNames(s: State, e: Event)
    requires Valid(s) && Enabled(s, e) && s.mode == Running && !IsInterrupt(e) && !e.Create?
    requires s.curr.value in LiveSet(s.pid) && forall p :: p in s.pids ==> p in LiveSet(s.pid)
    ensures NamesNobody(s, StepRunning(s, e))
  {
    match e
    case Term(pid) => TermNames(s, pid);
    case P(k) => SemaphoreNames(s, k);
    case V(k) => SemaphoreNames(s, k);
    case IO(k) =>
      CellOf(s, s.curr, k);
      SoftNames(s, k);
    case Clock =>
      CellOf(s, s.curr, SEMAPHORE_IT);
      SoftNames(s, SEMAPHORE_IT);
    case GetTime =>
    case Query =>
    case YieldCall => ReadyNames(s);
    case Exception => KillNames(s, s.curr.value);
  }

  lemma CreatedPid(s: State, prio: Prio, support: Option<nat>, c: Proc, x: nat)
    requires Sized(s) && s.free != [] && c < |s.pid|
    ensures var t := Created(s, prio, support, c, x); t.pid == s.pid[s.free[0] := x] && t.currPid == Pids.Next(x)
  {
  }

  lemma CreatePids(s: State, prio: Prio, support: Option<nat>)
    requires s.curr.Some? && Core(s, s.curr) && Ascending(s) && s.free != [] && GeneratedPid(s) != Pids.FREE_PID
    ensures var t, p := CreateProcess(s, prio, support), s.free[0];
            && p < |s.pid| && s.pid[p] == Pids.FREE_PID && s.currPid < Pids.FREE_PID
            && t.pid == s.pid[p := s.currPid] && t.currPid == Pids.Next(s.currPid)
  {
    NextPid(s, s.curr);
    CreateIs(s, s.curr.value, prio, support);
    CreatedPid(s, prio, support, s.curr.value, s.currPid);
  }

  lemma PidAdded(pid: seq<nat>, c: nat, p: Proc, t: seq<nat>, d: nat)
    requires p < |pid| && t == pid[p := c] && 0 < c < Pids.FREE_PID && d == Pids.Next(c)
    requires forall q :: 0 <= q < |pid| && pid[q] != Pids.FREE_PID ==> pid[q] < c
    ensures 0 < d <= Pids.FREE_PID && forall q :: 0 <= q < |t| && t[q] != Pids.FREE_PID ==> t[q] < d
  {
  }

  lemma CreateAscends(s: State, prio: Prio, support: Option<nat>)
    requires Valid(s) && s.mode == Running && Ascending(s) && (s.free == [] || GeneratedPid(s) != Pids.FREE_PID)
    ensures Ascending(CreateProcess(s, prio, support))
  {
    if s.free != [] {
      var t := CreateProcess(s, prio, support);
      CreatePids(s, prio, support);
      PidAdded(s.pid, s.currPid, s.free[0], t.pid, t.currPid);
    }
  }

  lemma StepAscends(s: State, e: Event)
    requires Valid(s) && Enabled(s, e) && Ascending(s)
    ensures Ascending(Step(s, e))
  {
    if IsInterrupt(e) {
      InterruptIs(s, e);
      InterruptNames(s, e);
    } else {
      RunningAlive(s);
      if e.Create? { CreateAscends(s, e.prio, e.support); } else { CallNames(s, e); }
    }
  }

  /** Who lives through a step keeps its identifier. */
  ghost predicate NamesKept(s: State, t: State) {
    && |t.pid| == |s.pid|
    && forall p :: p in LiveSet(s.pid) && p in LiveSet(t.pid) ==> t.pid[p] == s.pid[p]
  }

  /** The counter passes over what it gives to a new process, and over nothing else. */
  ghost predicate Counts(s: State, e: Event, t: State) {
    if e.Create? && s.free != [] then
      s.free[0] < |t.pid| && t.pid[s.free[0]] == s.currPid < t.currPid
    else t.currPid == s.currPid
  }

  lemma NameAdded(s: State, e: Event, t: State)
    requires e.Create? && s.free != [] && s.free[0] < |s.pid| && s.pid[s.free[0]] == Pids.FREE_PID
    requires s.currPid < Pids.FREE_PID && t.pid == s.pid[s.free[0] := s.currPid] && t.currPid == Pids.Next(s.currPid)
    ensures NamesKept(s, t) && Counts(s, e, t)
  {
  }

  lemma CreateNames(s: State, prio: Prio, support: Option<nat>)
    requires s.curr.Some? && Core(s, s.curr) && Ascending(s) && (s.free == [] || GeneratedPid(s) != Pids.FREE_PID)
    ensures NamesKept(s, CreateProcess(s, prio, support))
    ensures Counts(s, Create(prio, support), CreateProcess(s, prio, support))
  {
    if s.free != [] {
      CreatePids(s, prio, support);
      NameAdded(s, Create(prio, support), CreateProcess(s, prio, support));
    }
  }

  lemma StepNames(s: State, e: Event)
    requires Valid(s) && Enabled(s, e) && Ascending(s)
    ensures NamesKept(s, Step(s, e)) && Counts(s, e, Step(s, e))
  {
    if IsInterrupt(e) {
      InterruptIs(s, e);
      InterruptNames(s, e);
    } else {
      RunningAlive(s);
      if e.Create? { CreateNames(s, e.prio, e.support); } else { CallNames(s, e); }
    }
  }

  lemma {:induction false} RunAscends(s: State, es: seq<Event>)
    requires Valid(s) && IsRun(s, es) && Ascending(s)
    ensures Ascending(Exec(s, es))
    decreases |es|
  {
    if es != [] {
      StepKeeps(s, es[0]);
      StepAscends(s, es[0]);
      RunAscends(Step(s, es[0]), es[1..]);
    }
  }

  lemma CreateCounts(s: State, prio: Prio, support: Option<nat>)
    requires Valid(s) && s.mode == Running && Ascending(s)
    ensures GeneratedPid(s) == s.currPid
    ensures Core(CreateProcess(s, prio, support), s.curr) <==> !(s.free != [] && s.currPid == Pids.FREE_PID)
  {
    NextPid(s, s.curr);
    GeneratedPidFresh(s, s.curr);
    CreateKeepsIff(s, s.curr.value, prio, support);
  }

  lemma InitAscends(n: nat, cells: map<Key, int>)
    requires 0 < n < Pids.WORD
    ensures Ascending(Init(n, cells))
  {
  }

  lemma CountsAfterRun(s: State, es: seq<Event>, prio: Prio, support: Option<nat>, t: State)
    requires Valid(s) && Ascending(s) && IsRun(s, es) && t == Exec(s, es) && t.mode == Running
    ensures GeneratedPid(t) == t.currPid
    ensures Core(CreateProcess(t, prio, support), t.curr) <==> !(t.free != [] && t.currPid == Pids.FREE_PID)
  {
    RunAscends(s, es);
    CreateCounts(t, prio, support);
  }

  /** After every run from the start of the machine the identifier of the next process is the
      counter itself, without a collision; and creating it keeps the invariant unless a PCB is free
      and the counter has come to the reserved value. */
  lemma CreateAfterRun(n: nat, cells: map<Key, int>, es: seq<Event>, prio: Prio, support: Option<nat>)
    requires 0 < n < Pids.WORD && GoodCells(cells) && Valid(Init(n, cells)) && IsRun(Init(n, cells), es)
    requires Exec(Init(n, cells), es).mode == Running
    ensures var s := Exec(Init(n, cells), es);
      && GeneratedPid(s) == s.currPid
      && (Core(CreateProcess(s, prio, support), s.curr) <==> !(s.free != [] && s.currPid == Pids.FREE_PID))
  {
    InitAscends(n, cells);
    CountsAfterRun(Init(n, cells), es, prio, support, Exec(Init(n, cells), es));
  }

  // ----- a run to the reserved identifier -----

  /** The first process alone, with the counter at x. */
  function Alone(n: nat, cells: map<Key, int>, x: nat): State
    requires 1 < n < Pids.WORD
  {
    Init(n, cells).(currPid := x)
  }

  /** ... and with one child. */
  function WithChild(n: nat, cells: map<Key, int>, x: nat): State
    requires 1 < n < Pids.WORD
  {
    var s := Alone(n, cells, x);
    s.(free := s.free[1..], low := [1], count := 2, pids := [0, 1], pid := s.pid[1 := x],
       kids := s.kids[0 := [1]], parent := s.parent[1 := Some(0)], currPid := Pids.Next(x))
  }

  lemma ChildMade(n: nat, cells: map<Key, int>, x: nat)
    requires 1 < n < Pids.WORD && 2 <= x < Pids.FREE_PID && Valid(Alone(n, cells, x))
    ensures CreateProcess(Alone(n, cells, x), LowPrio, None) == WithChild(n, cells, x)
    ensures GeneratedPid(Alone(n, cells, x)) == x
  {
    var s, t := Alone(n, cells, x), WithChild(n, cells, x);
    assert Ascending(s);
    NextPid(s, s.curr);
    CreateIs(s, 0, LowPrio, None);
    var u := CreateProcess(s, LowPrio, None);
    assert u.prio == t.prio && u.support == t.support && u.pids == t.pids && u.low == t.low;
    assert u.kids == t.kids && u.parent == t.parent && u.pid == t.pid;
  }

  lemma ChildFound(n: nat, cells: map<Key, int>, x: nat)
    requires 1 < n < Pids.WORD && 2 <= x < Pids.FREE_PID
    ensures var s := WithChild(n, cells, x); Sized(s) && ProcessOf(s, x) == Some(1)
  {
    var s := WithChild(n, cells, x);
    assert s.pids == [0, 1] && s.pid[0] == 1 && s.pid[1] == x;
    FindSecond(s.pids, s.pid, x);
  }

  lemma FindSecond(pids: seq<Proc>, table: seq<nat>, x: nat)
    requires |pids| == 2 && Below(pids, |table|) && table[pids[0]] != x && table[pids[1]] == x
    ensures FindPid(pids, table, x) == Some(pids[1])
  {
    assert pids[1..] == [pids[1]];
    assert FindPid(pids[1..], table, x) == Some(pids[1]);
  }

  /** The child is the leaf of the tree, so it alone is destroyed. */
  lemma ChildAlone(s: State)
    requires Sized(s) && IsTree(s) && 1 in LiveSet(s.pid) && s.kids[1] == []
    ensures Kill(s, 1) == Release(Detach(s, {1}), [1])
  {
    SubRep(s.parent, s.kids, None, TreeOf(s), 1);
    var sub := Sub(TreeOf(s), 1);
    assert Roots(sub) == [];
    assert sub == Nil;
    assert Nodes(sub) + {1} == {1} && Post(sub) + [1] == [1];
  }

  lemma ChildLists()
    ensures Without([1], {1}) == [] && Without([0, 1], {1}) == [0] && Elements([1]) == {1} && Reverse([1]) == [1]
  {
    assert [0, 1][1..] == [1];
  }

  lemma ChildTables(n: nat, x: nat)
    requires 1 < n
    ensures KidsWithout(seq(n, _ => [])[0 := [1]], {1}) == seq(n, _ => [])
    ensures Clear(seq(n, _ => None)[1 := Some(0)], {1}) == seq(n, _ => None)
    ensures Clear(seq(n, _ => None), {1}) == seq(n, _ => None)
    ensures var pid := seq(n, i => if i == FIRST then 1 else Pids.FREE_PID); PidWithout(pid[1 := x], {1}) == pid
  {
    ChildLists();
  }

  lemma NobodyWaits(n: nat)
    ensures SoftSet(seq(n, _ => None)) == {} && BlockedWithout(map[], {1}) == map[]
  {
    var none: seq<Option<Key>> := seq(n, _ => None);
    forall p | 0 <= p < n ensures !SoftAt(none, p) {}
  }

  lemma ChildGone(n: nat, cells: map<Key, int>, x: nat)
    requires 1 < n < Pids.WORD && 2 <= x < Pids.FREE_PID
    ensures Release(Detach(WithChild(n, cells, x), {1}), [1]) == Alone(n, cells, x + 1)
  {
    var s, t := WithChild(n, cells, x), Alone(n, cells, x + 1);
    ChildLists();
    ChildTables(n, x);
    NobodyWaits(n);
    assert [1] + s.free == t.free;
  }

  lemma ChildTerm(n: nat, cells: map<Key, int>, x: nat)
    requires 1 < n < Pids.WORD && 2 <= x < Pids.FREE_PID
    requires var s := WithChild(n, cells, x); Sized(s) && IsTree(s) && forall p :: p in s.pids ==> p in LiveSet(s.pid)
    ensures var s := WithChild(n, cells, x);
      s.curr.Some? && s.curr.value in LiveSet(s.pid) && TermProcess(s, x) == Alone(n, cells, x + 1)
  {
    var s := WithChild(n, cells, x);
    ChildFound(n, cells, x);
    assert 1 in s.pids && s.curr == Some(0) && s.pid[0] == 1;
    ChildAlone(s);
    ChildGone(n, cells, x);
    TermOther(s, x, 1, Alone(n, cells, x + 1));
  }

  lemma TermOther(s: State, x: nat, v: Proc, t: State)
    requires Sized(s) && IsTree(s) && s.curr.Some? && s.curr.value in LiveSet(s.pid)
    requires forall p :: p in s.pids ==> p in LiveSet(s.pid)
    requires x != 0 && ProcessOf(s, x) == Some(v) && v in LiveSet(s.pid)
    requires Kill(s, v) == t && s.curr.value < |t.pid| && t.pid[s.curr.value] != Pids.FREE_PID
    ensures TermProcess(s, x) == t
  {
  }

  lemma TermStep(s: State, x: nat)
    requires Valid(s) && s.mode == Running
    ensures Sized(s) && IsTree(s) && s.curr.Some? && s.curr.value in LiveSet(s.pid)
    ensures forall p :: p in s.pids ==> p in LiveSet(s.pid)
    ensures Step(s, Term(x)) == TermProcess(s, x)
  {
    RunningAlive(s);
  }

  lemma CreateStepIs(s: State)
    requires Valid(s) && s.mode == Running && (s.free == [] || GeneratedPid(s) != Pids.FREE_PID)
    ensures Step(s, Create(LowPrio, None)) == CreateProcess(s, LowPrio, None)
  {
  }

  /** One more event in front of a run. */
  lemma RunFrom(s: State, e: Event, t: State, es: seq<Event>)
    requires Valid(s) && Enabled(s, e) && t == Step(s, e) && Valid(t) && IsRun(t, es)
    ensures IsRun(s, [e] + es) && Exec(s, [e] + es) == Exec(t, es)
  {
    assert ([e] + es)[0] == e && ([e] + es)[1..] == es;
  }

  /** The state once a process has been created and, by its identifier x, terminated. */
  ghost function AfterTurn(s: State, x: nat): Option<State> {
    if !Valid(s) || !Enabled(s, Create(LowPrio, None)) then None
    else
      var r := Step(s, Create(LowPrio, None));
      if !Valid(r) || !Enabled(r, Term(x)) then None
      else
        var t := Step(r, Term(x));
        if Valid(t) then Some(t) else None
  }

  lemma TurnIs(s: State, x: nat, r: State, t: State)
    requires Valid(s) && Enabled(s, Create(LowPrio, None)) && Step(s, Create(LowPrio, None)) == r
    requires Valid(r) && Enabled(r, Term(x)) && Step(r, Term(x)) == t && Valid(t)
    ensures AfterTurn(s, x) == Some(t)
  {
  }

  lemma TurnFrom(s: State, x: nat, t: State, rest: seq<Event>) returns (es: seq<Event>)
    requires AfterTurn(s, x) == Some(t) && IsRun(t, rest)
    ensures IsRun(s, es) && Exec(s, es) == Exec(t, rest)
  {
    var r := Step(s, Create(LowPrio, None));
    RunFrom(r, Term(x), t, rest);
    RunFrom(s, Create(LowPrio, None), r, [Term(x)] + rest);
    es := [Create(LowPrio, None)] + ([Term(x)] + rest);
  }

  /** Turns with the identifiers from x up to m lead from s to t, where `turn` says what one does. */
  ghost predicate Turns(turn: (State, nat) -> Option<State>, s: State, x: nat, t: State, m: nat)
    decreases m - x
  {
    if x >= m then s == t else turn(s, x).Some? && Turns(turn, turn(s, x).value, x + 1, t, m)
  }

  /** Turn by turn through the states f(x) to f(m). */
  lemma {:induction false} TurnByTurn(turn: (State, nat) -> Option<State>, f: nat -> State, x: nat, m: nat)
    requires x <= m && forall i {:trigger turn(f(i), i)} :: x <= i < m ==> turn(f(i), i) == Some(f(i + 1))
    ensures Turns(turn, f(x), x, f(m), m)
    decreases m - x
  {
    if x < m {
      TurnByTurn(turn, f, x + 1, m);
      assert turn(f(x), x) == Some(f(x + 1));
    }
  }

  lemma {:induction false} TurnsRun(s: State, x: nat, t: State, m: nat) returns (es: seq<Event>)
    requires Valid(s) && Turns(AfterTurn, s, x, t, m)
    ensures IsRun(s, es) && Exec(s, es) == t
    decreases m - x
  {
    if x >= m {
      es := [];
    } else {
      var r := AfterTurn(s, x).value;
      var rest := TurnsRun(r, x + 1, t, m);
      es := TurnFrom(s, x, r, rest);
    }
  }

  lemma AloneValid(n: nat, cells: map<Key, int>, x: nat)
    requires 1 < n < Pids.WORD && GoodCells(cells) && x < Pids.WORD
    ensures Valid(Alone(n, cells, x))
  {
    InitValid(n, cells);
  }

  lemma ChildTurn(n: nat, cells: map<Key, int>, x: nat)
    requires 1 < n < Pids.WORD && 2 <= x < Pids.FREE_PID && GoodCells(cells)
    ensures AfterTurn(Alone(n, cells, x), x) == Some(Alone(n, cells, x + 1))
  {
    var r, s := Alone(n, cells, x), WithChild(n, cells, x);
    AloneValid(n, cells, x);
    ChildMade(n, cells, x);
    CreateStepIs(r);
    StepKeeps(r, Create(LowPrio, None));
    TermStep(s, x);
    ChildTerm(n, cells, x);
    StepKeeps(s, Term(x));
    TurnIs(r, x, s, Alone(n, cells, x + 1));
  }

  lemma AloneTurns(n: nat, cells: map<Key, int>, f: nat -> State)
    requires 1 < n < Pids.WORD && GoodCells(cells) && forall x :: f(x) == Alone(n, cells, x)
    ensures forall i {:trigger AfterTurn(f(i), i)} :: 2 <= i < Pids.FREE_PID ==> AfterTurn(f(i), i) == Some(f(i + 1))
  {
    forall i {:trigger AfterTurn(f(i), i)} | 2 <= i < Pids.FREE_PID ensures AfterTurn(f(i), i) == Some(f(i + 1)) {
      ChildTurn(n, cells, i);
    }
  }

  /** With two PCBs or more the kernel gets there: after a run of creations and terminations the
      next creation hands out the reserved identifier, and breaks the invariant. */
  lemma ReservedReached(n: nat, cells: map<Key, int>) returns (es: seq<Event>)
    requires 1 < n < Pids.WORD && GoodCells(cells) && Valid(Init(n, cells))
    ensures IsRun(Init(n, cells), es)
    ensures var s := Exec(Init(n, cells), es);
      && s.mode == Running && s.free != [] && GeneratedPid(s) == Pids.FREE_PID
      && !Core(CreateProcess(s, LowPrio, None), s.curr)
  {
    var f := (x: nat) => Alone(n, cells, x);
    AloneTurns(n, cells, f);
    TurnByTurn(AfterTurn, f, 2, Pids.FREE_PID);
    assert f(2) == Init(n, cells);
    es := TurnsRun(f(2), 2, f(Pids.FREE_PID), Pids.FREE_PID);
    CreateAfterRun(n, cells, es, LowPrio, None);
  }
}
