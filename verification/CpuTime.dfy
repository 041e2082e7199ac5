/** CPU time accounting: `timerFlush`, `updateProcessCPUTime` and the kernel entries that call
    them (phase2/initial.c, scheduler.c, interrupts.c, exceptions.c).  Readings of the time of
    day clock are inputs; times are mathematical integers. */
module CpuTime {
  import opened Options
  import opened Forests
  import opened KernelState
  import opened Invariant
  import opened Runs
  import opened Fairness
  import Pids

  /** The clock state: timer_start and every p_time; and, for the statements only, the last
      reading of the time of day, when every process was created, and all time ever charged. */
  datatype Account = Account(start: int, now: int, time: seq<int>, born: seq<int>, total: int)

  datatype Op =
    | Discard          // timerFlush, its result unused
    | Charge(p: Proc)  // updateProcessCPUTime with p current
    | Reset(p: Proc)   // p_time := 0 in allocPcb

  // timerFlush reads the clock twice: for the difference, and for the new start.
  datatype Reading = Reading(first: int, second: int)

  predicate Later(c: Account, r: Reading) {
    c.now <= r.first <= r.second
  }

  /** timer_start and p_time after an operation that reads the clock as r. */
  function StartAfter(op: Op, start: int, r: Reading): int {
    if op.Reset? then start else r.second
  }

  function TimeAfter(op: Op, start: int, time: seq<int>, r: Reading): seq<int>
    requires op.Discard? || op.p < |time|
  {
    match op
    case Discard => time
    case Charge(p) => time[p := time[p] + (r.first - start)]
    case Reset(p) => time[p := 0]
  }

  function Apply(c: Account, op: Op, r: Reading): Account
    requires op.Discard? || op.p < |c.time| == |c.born|
  {
    Account(StartAfter(op, c.start, r), r.second, TimeAfter(op, c.start, c.time, r),
            if op.Reset? then c.born[op.p := r.first] else c.born,
            if op.Charge? then c.total + (r.first - c.start) else c.total)
  }

  /** The accounts after a history of uses of the clock, the i-th of which finds the time of day
      tod(i).  Before the first one everything is zero. */
  ghost function Books(n: nat, ops: seq<Op>, tod: nat -> Reading): (c: Account)
    ensures |c.time| == |c.born| == n
    decreases |ops|
  {
    if ops == [] then Account(0, 0, seq(n, _ => 0), seq(n, _ => tod(0).first), 0)
    else
      var k := |ops| - 1;
      var c := Books(n, ops[..k], tod);
      if ops[k].Discard? || ops[k].p < n then Apply(c, ops[k], tod(k)) else c
  }

  /** The CPU clock of the kernel.  `calls` is the history of its use, for specifications only;
      timer_start and every p_time are what the accounts of that history say. */
  class CpuClock {
    const tod: nat -> Reading // the time of day as each use of the clock finds it
    var used: nat
    var timerStart: int       // the static timer_start
    var pTime: seq<int>       // p_time of every PCB
    ghost var calls: seq<Op>

    ghost function Accounts(): (c: Account)
      reads this
      ensures |c.time| == |c.born| == |pTime|
    {
      Books(|pTime|, calls, tod)
    }

    ghost predicate Valid()
      reads this
    {
      used == |calls| && timerStart == Accounts().start && pTime == Accounts().time
    }

    constructor (n: nat, tod: nat -> Reading)
      ensures Valid() && |pTime| == n && calls == [] && this.tod == tod
    {
      this.tod := tod;
      used, timerStart, pTime, calls := 0, 0, seq(n, _ => 0), [];
    }

    /** The history before one more use of the clock was as given. */
    ghost predicate Did(op: Op, n: nat, before: seq<Op>)
      reads this
    {
      Valid() && |pTime| == n && calls == before + [op]
    }

    lemma Recorded(op: Op, before: seq<Op>)
      requires calls == before + [op] && (op.Discard? || op.p < |pTime|)
      ensures Accounts() == Apply(Books(|pTime|, before, tod), op, tod(|before|))
    {
      assert calls[..|before|] == before;
    }

    /** timerFlush: the difference from the first reading, the new start from the second. */
    method Flush() returns (diff: int)
      modifies this`timerStart, this`used
      ensures used == old(used) + 1
      ensures diff == tod(old(used)).first - old(timerStart) && timerStart == tod(old(used)).second
    {
      var r := tod(used);
      diff := r.first - timerStart;
      timerStart := r.second;
      used := used + 1;
    }

    /** timerFlush, its result unused. */
    method TimerFlush()
      requires Valid()
      modifies this
      ensures Did(Discard, old(|pTime|), old(calls))
      ensures pTime == old(pTime) && timerStart == tod(old(used)).second
    {
      var diff := Flush();
      calls := calls + [Discard];
      Recorded(Discard, old(calls));
    }

    method UpdateProcessCPUTime(p: Proc)
      requires Valid() && p < |pTime|
      modifies this
      ensures Did(Charge(p), old(|pTime|), old(calls))
      ensures pTime == old(pTime)[p := old(pTime)[p] + (tod(old(used)).first - old(timerStart))]
      ensures timerStart == tod(old(used)).second
    {
      var diff := Flush();
      pTime := pTime[p := pTime[p] + diff];
      calls := calls + [Charge(p)];
      Recorded(Charge(p), old(calls));
    }

    /** p_time := 0 in _initPcb. */
    method ResetTime(p: Proc)
      requires Valid() && p < |pTime|
      modifies this
      ensures Did(Reset(p), old(|pTime|), old(calls))
      ensures pTime == old(pTime)[p := 0] && timerStart == old(timerStart)
    {
      pTime := pTime[p := 0];
      used := used + 1;
      calls := calls + [Reset(p)];
      Recorded(Reset(p), old(calls));
    }
  }

  predicate IsCall(e: Event) {
    !(e.Timer? || e.Device? || e.Spurious?)
  }

  /** scheduler flushes the clock when it dispatches a process. */
  function FlushIf(dispatch: bool): seq<Op> { if dispatch then [Discard] else [] }

  /** The clock operations of one kernel entry, in order; `dispatch` says whether the scheduler
      ends it by dispatching a process. */
  function Ops(s: State, e: Event, dispatch: bool): seq<Op>
    requires IsCall(e) ==> s.curr.Some?
    requires (e.P? || e.V?) ==> e.k in s.val
  {
    var flush := FlushIf(dispatch);
    match e
    case Create(_, _) => if s.free == [] then [] else [Reset(s.free[0])]
    case Term(_) => flush
    case P(k) => (if s.val[k] == 0 then [Charge(s.curr.value)] else []) + flush
    case V(k) => (if s.val[k] == 1 then [Charge(s.curr.value)] else []) + flush
    case IO(_) => [Charge(s.curr.value)] + flush
    case Clock => [Charge(s.curr.value)] + flush
    case GetTime => [Charge(s.curr.value)]
    case Query => []
    case YieldCall => [Charge(s.curr.value)] + flush
    case Exception => flush
    case Slice => [Charge(s.curr.value), Charge(s.curr.value)] + flush
    case _ => (if s.curr.Some? then [Charge(s.curr.value)] else []) + [Discard] + flush
  }

  ghost function ClockOps(s: State, e: Event): seq<Op>
    requires Valid(s) && Enabled(s, e)
  {
    Ops(s, e, Selects(s, e))
  }

  ghost predicate Fits(c: Account, ops: seq<Op>) {
    |c.time| == |c.born| && forall i :: 0 <= i < |ops| ==> ops[i].Discard? || ops[i].p < |c.time|
  }

  /** The readings never run backwards. */
  ghost predicate Forward(c: Account, ops: seq<Op>, rs: seq<Reading>)
    requires Fits(c, ops) && |rs| == |ops|
    decreases |ops|
  {
    ops == [] || (Later(c, rs[0]) && Forward(Apply(c, ops[0], rs[0]), ops[1..], rs[1..]))
  }

  ghost function ApplyAll(c: Account, ops: seq<Op>, rs: seq<Reading>): (d: Account)
    requires Fits(c, ops) && |rs| == |ops|
    ensures |d.time| == |d.born| == |c.time|
    decreases |ops|
  {
    if ops == [] then c else ApplyAll(Apply(c, ops[0], rs[0]), ops[1..], rs[1..])
  }

  function Readings(tod: nat -> Reading, from: nat, n: nat): seq<Reading> {
    seq(n, i requires 0 <= i => tod(from + i))
  }

  /** Operations ops on readings rs take the accounts from c to d. */
  ghost predicate Leads(c: Account, ops: seq<Op>, rs: seq<Reading>, d: Account) {
    Fits(c, ops) && |rs| == |ops| && d == ApplyAll(c, ops, rs)
  }

  /** The accounts of a longer history: those of its beginning, taken on by the rest. */
  lemma {:induction false} BooksGrow(n: nat, before: seq<Op>, ops: seq<Op>, tod: nat -> Reading)
    requires forall i :: 0 <= i < |ops| ==> ops[i].Discard? || ops[i].p < n
    ensures Leads(Books(n, before, tod), ops, Readings(tod, |before|, |ops|), Books(n, before + ops, tod))
    decreases |ops|
  {
    if ops == [] {
      assert before + ops == before;
    } else {
      var one := before + [ops[0]];
      assert one[..|before|] == before && one + ops[1..] == before + ops;
      BooksGrow(n, one, ops[1..], tod);
      assert Readings(tod, |before|, |ops|)[1..] == Readings(tod, |one|, |ops| - 1);
    }
  }

  /** No process has been charged more than has passed since it was created, nor all of them
      together more than has passed since `origin`. */
  ghost predicate Fair(c: Account, origin: int) {
    && |c.time| == |c.born|
    && origin <= c.start <= c.now
    && c.total <= c.start - origin
    && forall p :: 0 <= p < |c.time| ==>
         && 0 <= c.time[p] && c.born[p] <= c.now
         && (c.time[p] == 0 || c.time[p] <= c.start - c.born[p])
  }

  /** `curr` was created before the running interval began. */
  ghost predicate Ongoing(c: Account, curr: Option<Proc>) {
    curr.Some? ==> curr.value < |c.born| && c.born[curr.value] <= c.start
  }

  /** p has been charged, between accounts c and d, no more than the time that has passed. */
  ghost predicate ChargedWithin(c: Account, d: Account, p: Proc) {
    p < |c.time| == |d.time| && c.time[p] <= d.time[p] && d.time[p] - c.time[p] <= d.start - c.start
  }

  /** Only `curr` is charged. */
  ghost predicate ChargesOnly(ops: seq<Op>, curr: Option<Proc>) {
    forall i :: 0 <= i < |ops| ==>
      (ops[i].Charge? ==> curr == Some(ops[i].p)) && (ops[i].Reset? ==> curr != Some(ops[i].p))
  }

  lemma OpKeepsFair(c: Account, op: Op, r: Reading, curr: Option<Proc>, origin: int)
    requires Fair(c, origin) && Ongoing(c, curr) && Later(c, r) && (op.Discard? || op.p < |c.time|)
    requires (op.Charge? ==> curr == Some(op.p)) && (op.Reset? ==> curr != Some(op.p))
    ensures var d := Apply(c, op, r);
            && Fair(d, origin) && Ongoing(d, curr) && |d.time| == |c.time| && c.now <= d.now && c.start <= d.start
            && (op.Discard? ==> d.start == d.now)
            && (forall p :: 0 <= p < |c.time| && op != Reset(p) ==>
                  c.time[p] <= d.time[p] && d.time[p] - c.time[p] <= d.start - c.start && d.born[p] == c.born[p])
  {
  }

  lemma {:induction false} OpsKeepFair(c: Account, ops: seq<Op>, rs: seq<Reading>, curr: Option<Proc>, origin: int)
    requires Fair(c, origin) && Ongoing(c, curr) && ChargesOnly(ops, curr)
    requires Fits(c, ops) && |rs| == |ops| && Forward(c, ops, rs)
    ensures var d := ApplyAll(c, ops, rs);
            && Fair(d, origin) && Ongoing(d, curr) && |d.time| == |c.time| && c.now <= d.now && c.start <= d.start
            && (ops != [] && ops[|ops| - 1].Discard? ==> d.start == d.now)
    decreases |ops|
  {
    if ops != [] {
      var d := Apply(c, ops[0], rs[0]);
      OpKeepsFair(c, ops[0], rs[0], curr, origin);
      OpsKeepFair(d, ops[1..], rs[1..], curr, origin);
      if ops[1..] == [] { assert ApplyAll(d, ops[1..], rs[1..]) == d; }
    }
  }

  /** ... and charge a process no more than the time that passes meanwhile. */
  lemma {:induction false} OpsChargeWithin(c: Account, ops: seq<Op>, rs: seq<Reading>, curr: Option<Proc>, origin: int,
                                           p: Proc)
    requires Fair(c, origin) && Ongoing(c, curr) && ChargesOnly(ops, curr)
    requires Fits(c, ops) && |rs| == |ops| && Forward(c, ops, rs)
    requires p < |c.time| && Reset(p) !in ops
    ensures var d := ApplyAll(c, ops, rs); ChargedWithin(c, d, p) && d.born[p] == c.born[p]
    decreases |ops|
  {
    if ops != [] {
      assert ops[0] != Reset(p) && Reset(p) !in ops[1..];
      OpKeepsFair(c, ops[0], rs[0], curr, origin);
      OpsChargeWithin(Apply(c, ops[0], rs[0]), ops[1..], rs[1..], curr, origin, p);
    }
  }

  // ----- over runs of the kernel -----

  /** Accounts and kernel agree: fair so far, and the running process is younger than its interval
      at no moment. */
  ghost predicate Keeps(s: State, c: Account, origin: int) {
    Fair(c, origin) && |c.time| == |s.pid| && Ongoing(c, Runner(s))
  }

  lemma OpsCharge(s: State, e: Event, dispatch: bool)
    requires (IsCall(e) ==> s.curr.Some?) && ((e.P? || e.V?) ==> e.k in s.val)
    requires s.curr.Some? ==> s.curr.value < |s.pid|
    requires s.free != [] ==> s.free[0] < |s.pid| && s.curr != Some(s.free[0])
    ensures var ops := Ops(s, e, dispatch);
            && ChargesOnly(ops, s.curr)
            && (forall i :: 0 <= i < |ops| ==> ops[i].Discard? || ops[i].p < |s.pid|)
  {
  }

  lemma OpsShape(s: State, e: Event, dispatch: bool)
    requires (IsCall(e) ==> s.curr.Some?) && ((e.P? || e.V?) ==> e.k in s.val)
    ensures var ops := Ops(s, e, dispatch);
            && (dispatch && !e.Create? && !e.GetTime? && !e.Query? ==> ops != [] && ops[|ops| - 1] == Discard)
            && (forall p :: Reset(p) in ops ==> s.free != [] && p == s.free[0])
  {
  }

  lemma RunnerNotFree(s: State)
    requires Valid(s) && (s.mode == Running || s.mode == Waiting)
    ensures s.curr == Runner(s)
    ensures s.curr.Some? ==> s.curr.value < |s.pid|
    ensures s.free != [] ==> s.free[0] < |s.pid| && s.free[0] !in LiveSet(s.pid) && s.curr != Some(s.free[0])
  {
    if s.free != [] {
      assert OnePlace(s.free, s.high, s.low, s.semAdd, Runner(s), s.free[0]);
      assert Listed(s.pids, s.pid, s.free, s.free[0]);
    }
  }

  /** An entry that selects a process is none of the three that go straight back. */
  lemma SelectsShape(s: State, e: Event)
    requires Valid(s) && Enabled(s, e)
    ensures Selects(s, e) ==> !e.Create? && !e.GetTime? && !e.Query?
  {
  }

  lemma OpsFor(s: State, e: Event, dispatch: bool)
    requires Valid(s) && Enabled(s, e) && (dispatch ==> !e.Create? && !e.GetTime? && !e.Query?)
    ensures (IsCall(e) ==> s.curr.Some?) && ((e.P? || e.V?) ==> e.k in s.val)
    ensures var ops := Ops(s, e, dispatch);
            && ChargesOnly(ops, Runner(s))
            && (forall i :: 0 <= i < |ops| ==> ops[i].Discard? || ops[i].p < |s.pid|)
            && (dispatch ==> ops != [] && ops[|ops| - 1] == Discard)
            && (forall p :: p in LiveSet(s.pid) ==> Reset(p) !in ops)
  {
    RunnerNotFree(s);
    OpsCharge(s, e, dispatch);
    OpsShape(s, e, dispatch);
  }

  /** What the clock operations of an entry are like. */
  lemma OpsOf(s: State, e: Event)
    requires Valid(s) && Enabled(s, e)
    ensures var ops := ClockOps(s, e);
            && ChargesOnly(ops, Runner(s))
            && (forall i :: 0 <= i < |ops| ==> ops[i].Discard? || ops[i].p < |s.pid|)
            && (Selects(s, e) ==> ops != [] && ops[|ops| - 1] == Discard)
            && (forall p :: p in LiveSet(s.pid) ==> Reset(p) !in ops)
  {
    SelectsShape(s, e);
    OpsFor(s, e, Selects(s, e));
  }

  /** Whether the entry finds a running process that it stops, if only for an interrupt, or that asks
      for its time. */
  ghost predicate Stops(s: State, e: Event)
    requires (e.P? || e.V?) ==> e.k in s.val
  {
    match e
    case P(k) => s.val[k] == 0
    case V(k) => s.val[k] == 1
    case IO(_) => true
    case Clock => true
    case GetTime => true
    case YieldCall => true
    case Create(_, _) => false
    case Term(_) => false
    case Query => false
    case Exception => false
    case _ => s.curr.Some?
  }

  /** p is charged that much more, and nobody else. */
  ghost predicate Given(c: Account, d: Account, p: Proc, more: int) {
    && p < |c.time| == |d.time| && d.time[p] == c.time[p] + more && d.total == c.total + more
    && forall q :: 0 <= q < |c.time| && q != p ==> d.time[q] == c.time[q]
  }

  lemma GivenOn(c: Account, d: Account, f: Account, p: Proc, more: int, yet: int)
    requires Given(c, d, p, more) && Given(d, f, p, yet)
    ensures Given(c, f, p, more + yet)
  {
  }

  /** What an entry charges, exactly: the running process, if the entry stops it, for the whole time
      since timer_start, and at the end of a time slice once more for the time since; nobody else; and a
      new process starts at 0. */
  ghost predicate ChargesExactly(s: State, e: Event, c: Account, rs: seq<Reading>, d: Account)
    requires (IsCall(e) ==> s.curr.Some?) && ((e.P? || e.V?) ==> e.k in s.val) && |c.time| == |s.pid|
  {
    if Stops(s, e) then
      && s.curr.Some? && s.curr.value < |c.time| && |rs| >= (if e.Slice? then 2 else 1)
      && Given(c, d, s.curr.value, (rs[0].first - c.start) + if e.Slice? then rs[1].first - rs[0].second else 0)
    else if e.Create? && s.free != [] then
      s.free[0] < |c.time| && d.time == c.time[s.free[0] := 0] && d.total == c.total
    else d.time == c.time && d.total == c.total
  }

  /** How often an entry uses the clock: when it stops a process, at the end of a time slice twice; on
      the way out of any other interrupt, so that what the handler took is charged to nobody; and at a
      dispatch, where the next interval begins. */
  ghost function Uses(s: State, e: Event, dispatch: bool): nat
    requires (e.P? || e.V?) ==> e.k in s.val
  {
    (if Stops(s, e) then 1 else 0) + (if e.Slice? || e.Timer? || e.Device? || e.Spurious? then 1 else 0)
    + (if e.Create? && s.free != [] then 1 else 0)
    + (if dispatch && !e.Create? && !e.GetTime? && !e.Query? then 1 else 0)
  }

  /** timerFlush alone charges nobody. */
  lemma {:induction false} Discards(c: Account, ops: seq<Op>, rs: seq<Reading>)
    requires Fits(c, ops) && |rs| == |ops| && forall i :: 0 <= i < |ops| ==> ops[i] == Discard
    ensures var d := ApplyAll(c, ops, rs);
            && d.time == c.time && d.total == c.total
            && d.start == if ops == [] then c.start else rs[|rs| - 1].second
    decreases |ops|
  {
    if ops != [] {
      Discards(Apply(c, ops[0], rs[0]), ops[1..], rs[1..]);
    }
  }

  lemma ChargesThen(c: Account, ops: seq<Op>, rs: seq<Reading>, p: Proc)
    requires Fits(c, ops) && |rs| == |ops| && ops != [] && ops[0] == Charge(p)
    requires forall i :: 1 <= i < |ops| ==> ops[i] == Discard
    ensures var d := ApplyAll(c, ops, rs);
            && Given(c, d, p, rs[0].first - c.start)
            && d.start == rs[|rs| - 1].second
  {
    Discards(Apply(c, ops[0], rs[0]), ops[1..], rs[1..]);
  }

  lemma ChargesTwice(c: Account, ops: seq<Op>, rs: seq<Reading>, p: Proc)
    requires Fits(c, ops) && |rs| == |ops| >= 2 && ops[0] == ops[1] == Charge(p)
    requires forall i :: 2 <= i < |ops| ==> ops[i] == Discard
    ensures var d := ApplyAll(c, ops, rs);
            && Given(c, d, p, (rs[0].first - c.start) + (rs[1].first - rs[0].second))
            && d.start == rs[|rs| - 1].second
  {
    var d := Apply(c, ops[0], rs[0]);
    ChargesThen(d, ops[1..], rs[1..], p);
    GivenOn(c, d, ApplyAll(c, ops, rs), p, rs[0].first - c.start, rs[1].first - d.start);
  }

  lemma OpsNumber(s: State, e: Event, dispatch: bool)
    requires (IsCall(e) ==> s.curr.Some?) && ((e.P? || e.V?) ==> e.k in s.val)
    ensures var ops := Ops(s, e, dispatch);
            && |ops| == Uses(s, e, dispatch)
            && (Stops(s, e) ==> s.curr.Some? && ops[0] == Charge(s.curr.value))
            && (e.Slice? ==> ops[1] == ops[0] && forall i :: 2 <= i < |ops| ==> ops[i] == Discard)
            && (Stops(s, e) && !e.Slice? ==> forall i :: 1 <= i < |ops| ==> ops[i] == Discard)
            && (!Stops(s, e) && !(e.Create? && s.free != []) ==> forall i :: 0 <= i < |ops| ==> ops[i] == Discard)
            && (e.Create? && s.free != [] ==> ops == [Reset(s.free[0])])
  {
  }

  lemma ChargesFor(s: State, e: Event, ops: seq<Op>, c: Account, rs: seq<Reading>)
    requires (IsCall(e) ==> s.curr.Some?) && ((e.P? || e.V?) ==> e.k in s.val) && |c.time| == |s.pid|
    requires s.curr.Some? ==> s.curr.value < |s.pid|
    requires Fits(c, ops) && |rs| == |ops|
    requires Stops(s, e) ==> s.curr.Some? && ops != [] && ops[0] == Charge(s.curr.value)
    requires e.Slice? ==> |ops| >= 2 && ops[1] == ops[0] && forall i :: 2 <= i < |ops| ==> ops[i] == Discard
    requires Stops(s, e) && !e.Slice? ==> forall i :: 1 <= i < |ops| ==> ops[i] == Discard
    requires !Stops(s, e) && !(e.Create? && s.free != []) ==> forall i :: 0 <= i < |ops| ==> ops[i] == Discard
    requires e.Create? && s.free != [] ==> ops == [Reset(s.free[0])]
    ensures var d := ApplyAll(c, ops, rs);
            && ChargesExactly(s, e, c, rs, d)
            && d.start == if |rs| == 0 || (e.Create? && s.free != []) then c.start else rs[|rs| - 1].second
  {
    if e.Slice? {
      ChargesTwice(c, ops, rs, s.curr.value);
    } else if Stops(s, e) {
      ChargesThen(c, ops, rs, s.curr.value);
    } else if e.Create? && s.free != [] {
      assert ApplyAll(c, ops, rs) == ApplyAll(Apply(c, ops[0], rs[0]), [], []);
    } else {
      Discards(c, ops, rs);
    }
  }

  /** Each kernel entry charges exactly that. */
  lemma StepCharges(s: State, e: Event, c: Account, rs: seq<Reading>)
    requires Valid(s) && Enabled(s, e) && |c.time| == |s.pid|
    requires Fits(c, ClockOps(s, e)) && |rs| == |ClockOps(s, e)|
    ensures (IsCall(e) ==> s.curr.Some?) && ((e.P? || e.V?) ==> e.k in s.val)
    ensures |rs| == Uses(s, e, Selects(s, e)) && ChargesExactly(s, e, c, rs, ApplyAll(c, ClockOps(s, e), rs))
    ensures var d := ApplyAll(c, ClockOps(s, e), rs);
            d.start == if |rs| == 0 || e.Create? then c.start else rs[|rs| - 1].second
  {
    RunnerNotFree(s);
    SelectsShape(s, e);
    OpsNumber(s, e, Selects(s, e));
    ChargesFor(s, e, ClockOps(s, e), c, rs);
  }

  lemma OpsFit(s: State, e: Event, c: Account)
    requires Valid(s) && Enabled(s, e) && |c.time| == |c.born| == |s.pid|
    ensures Fits(c, ClockOps(s, e))
  {
    OpsOf(s, e);
  }

  lemma StepFair(s: State, e: Event, c: Account, rs: seq<Reading>, origin: int)
    requires Valid(s) && Enabled(s, e) && Keeps(s, c, origin)
    requires Fits(c, ClockOps(s, e)) && |rs| == |ClockOps(s, e)| && Forward(c, ClockOps(s, e), rs)
    ensures Keeps(Step(s, e), ApplyAll(c, ClockOps(s, e), rs), origin)
    ensures var d := ApplyAll(c, ClockOps(s, e), rs);
            && c.start <= d.start && c.now <= d.now && |d.time| == |c.time|
            && forall p :: p in LiveSet(s.pid) && p < |c.time| ==> ChargedWithin(c, d, p) && d.born[p] == c.born[p]
  {
    OpsOf(s, e);
    OpsKeepFair(c, ClockOps(s, e), rs, Runner(s), origin);
    var d := ApplyAll(c, ClockOps(s, e), rs);
    forall p | p in LiveSet(s.pid) && p < |c.time| ensures ChargedWithin(c, d, p) && d.born[p] == c.born[p] {
      OpsChargeWithin(c, ClockOps(s, e), rs, Runner(s), origin, p);
    }
    StepKeeps(s, e);
    var m := Middle(s, e);
  }

  /** A run with clock readings, one per clock operation and never backwards, takes the accounts
      from c to d. */
  ghost predicate TimedRun(s: State, es: seq<Event>, c: Account, rss: seq<seq<Reading>>, d: Account)
    requires Valid(s) && IsRun(s, es)
    decreases |es|
  {
    if es == [] then d == c
    else
      && |rss| == |es| && |c.time| == |c.born| == |s.pid|
      && (StepKeeps(s, es[0]); OpsFit(s, es[0], c);
          var ops := ClockOps(s, es[0]);
          && |rss[0]| == |ops| && Forward(c, ops, rss[0])
          && TimedRun(Step(s, es[0]), es[1..], ApplyAll(c, ops, rss[0]), rss[1..], d))
  }

  ghost predicate AliveThroughout(s: State, es: seq<Event>, p: Proc)
    requires Valid(s) && IsRun(s, es)
    decreases |es|
  {
    p in LiveSet(s.pid) && (es != [] ==> (StepKeeps(s, es[0]); AliveThroughout(Step(s, es[0]), es[1..], p)))
  }

  /** Over every run the books stay fair. */
  lemma {:induction false} RunFair(s: State, es: seq<Event>, c: Account, rss: seq<seq<Reading>>, d: Account,
                                   origin: int)
    requires Valid(s) && IsRun(s, es) && TimedRun(s, es, c, rss, d) && Keeps(s, c, origin)
    ensures Fair(d, origin) && |d.time| == |c.time|
    decreases |es|
  {
    if es != [] {
      StepKeeps(s, es[0]);
      OpsFit(s, es[0], c);
      StepFair(s, es[0], c, rss[0], origin);
      RunFair(Step(s, es[0]), es[1..], ApplyAll(c, ClockOps(s, es[0]), rss[0]), rss[1..], d, origin);
    }
  }

  /** Between two moments of its life, two GETTIME calls say, a process is charged at most the time
      in between. */
  lemma {:induction false} ChargedAtMostElapsed(
    s: State, es: seq<Event>, c: Account, rss: seq<seq<Reading>>, d: Account, origin: int, p: Proc)
    requires Valid(s) && IsRun(s, es) && TimedRun(s, es, c, rss, d) && Keeps(s, c, origin)
    requires AliveThroughout(s, es, p) && p < |c.time|
    ensures ChargedWithin(c, d, p)
    decreases |es|
  {
    if es != [] {
      StepKeeps(s, es[0]);
      OpsFit(s, es[0], c);
      StepFair(s, es[0], c, rss[0], origin);
      var c' := ApplyAll(c, ClockOps(s, es[0]), rss[0]);
      ChargedAtMostElapsed(Step(s, es[0]), es[1..], c', rss[1..], d, origin, p);
    }
  }

  /** Nothing charged yet, and no process younger than the interval that begins at start. */
  ghost predicate Opening(c: Account, n: nat, start: int) {
    && c.start == c.now == start && c.time == seq(n, _ => 0) && c.total == 0
    && |c.born| == n && forall p :: 0 <= p < n ==> c.born[p] <= start
  }

  /** The accounts at the first dispatch, after main has made the first process. */
  lemma BooksOpen(n: nat, tod: nat -> Reading)
    requires n > 0 && tod(0).first <= tod(1).second
    ensures Opening(Books(n, [Reset(FIRST), Discard], tod), n, tod(1).second)
  {
    var ops := [Reset(FIRST), Discard];
    assert ops[..1] == [Reset(FIRST)] && ops[..1][..0] == [];
    var c := Books(n, [], tod);
    assert c.time[FIRST := 0] == c.time;
    assert Books(n, ops[..1], tod) == Apply(c, Reset(FIRST), tod(0));
  }

  /** From the first dispatch on: all processes together have been charged no more than the time of
      day since then, and none more than its own age. */
  lemma NeverOvercharged(n: nat, cells: map<Key, int>, s: State, es: seq<Event>, start: int,
                         c: Account, rss: seq<seq<Reading>>, d: Account, p: Proc)
    requires 0 < n < Pids.WORD && GoodCells(cells) && s == Init(n, cells) && Valid(s) && IsRun(s, es)
    requires Opening(c, n, start) && TimedRun(s, es, c, rss, d)
    requires p < n
    ensures d.total <= d.now - start
    ensures |d.time| == |d.born| == n && 0 <= d.time[p] <= d.now - d.born[p]
  {
    RunFair(s, es, c, rss, d, start);
  }
}
