/** CREATEPROCESS keeps the invariant, exactly when the identifier it gets is not the reserved
    one. */
module Creation {
  import opened Options
  import opened Sequences
  import opened Forests
  import opened KernelState
  import opened Invariant
  import Pids

  lemma AllocPlaces(free: seq<Proc>, high: seq<Proc>, low: seq<Proc>, semAdd: seq<Option<Key>>, run: Option<Proc>)
    requires Places(free, high, low, semAdd, run) && free != [] && free[0] < |semAdd|
    ensures run != Some(free[0]) && semAdd[free[0]] == None
    ensures Places(free[1..], high + [free[0]], low, semAdd, run)
    ensures Places(free[1..], high, low + [free[0]], semAdd, run)
  {
    var p, rest := free[0], free[1..];
    var high', low' := high + [p], low + [p];
    HeadAndTail(free);
    assert OnePlace(free, high, low, semAdd, run, p);
    forall q | 0 <= q < |semAdd|
      ensures OnePlace(rest, high', low, semAdd, run, q)
      ensures OnePlace(rest, high, low', semAdd, run, q)
    {
      assert OnePlace(free, high, low, semAdd, run, q);
    }
    NoDupConcat(high, [p]);
    NoDupConcat(low, [p]);
  }

  /** Facts about the identifiers in use that the search relies on. */
  lemma UsedPids(pids: seq<Proc>, pid: seq<nat>, free: seq<Proc>)
    requires PidTable(pids, pid, free) && |pid| < Pids.WORD
    ensures Below(pids, |pid|)
    ensures |Pids.PidsOf(pids, pid)| < Pids.WORD
    ensures forall x :: x in Pids.PidsOf(pids, pid) ==> 0 < x < Pids.FREE_PID
    ensures NoDup(pids)
  {
    forall i, j | 0 <= i < j < |pids| ensures pids[i] != pids[j] { assert Pids.InOrder(pids, pid, i, j); }
    Pids.PidsOfCount(pids, pid);
    NoDupCardinality(pids);
    BelowCardinality(Elements(pids), |pid|);
    forall p | p in pids ensures 0 < pid[p] < Pids.FREE_PID { assert Listed(pids, pid, free, p); }
  }

  ghost predicate AllTaken(used: set<nat>, from: nat) {
    forall x :: from <= x < Pids.FREE_PID ==> x in used
  }

  /** The identifier of a new process is no live process's, and never 0; it is the reserved
      value iff all identifiers from curr_pid up to it are taken. */
  lemma GeneratedPidFresh(s: State, run: Option<Proc>)
    requires Core(s, run)
    ensures forall p :: 0 <= p < |s.pid| && s.pid[p] != Pids.FREE_PID ==> s.pid[p] != GeneratedPid(s)
    ensures GeneratedPid(s) !in Pids.PidsOf(s.pids, s.pid)
    ensures 0 < GeneratedPid(s) <= Pids.FREE_PID
    ensures GeneratedPid(s) == Pids.FREE_PID <==> AllTaken(Pids.PidsOf(s.pids, s.pid), Pids.Start(s.currPid))
  {
    UsedPids(s.pids, s.pid, s.free);
    var used := Pids.PidsOf(s.pids, s.pid);
    Pids.ReservedIff(used, Pids.Start(s.currPid));
    var steps := Pids.FirstFreeIsFirst(used, Pids.Start(s.currPid));
    forall p | 0 <= p < |s.pid| && s.pid[p] != Pids.FREE_PID ensures s.pid[p] in used {
      assert Listed(s.pids, s.pid, s.free, p);
    }
  }

  lemma NewPid(pids: seq<Proc>, pid: seq<nat>, free: seq<Proc>, x: nat)
    requires PidTable(pids, pid, free) && NoDup(free) && free != [] && free[0] < |pid| < Pids.WORD
    requires 0 < x < Pids.FREE_PID && x !in Pids.PidsOf(pids, pid)
    ensures PidTable(Pids.Insert(pids, pid[free[0] := x], free[0]), pid[free[0] := x], free[1..])
  {
    var p, rest, table := free[0], free[1..], pid[free[0] := x];
    assert Listed(pids, pid, free, p);
    HeadAndTail(free);
    forall i, j | 0 <= i < j < |pids| ensures Pids.InOrder(pids, table, i, j) {
      assert Pids.InOrder(pids, pid, i, j) && pids[i] in pids && pids[j] in pids;
    }
    forall q | q in pids ensures table[q] != table[p] { }
    Pids.InsertSorted(pids, table, p);
    var list := Pids.Insert(pids, table, p);
    forall q | 0 <= q < |table| ensures Listed(list, table, rest, q) { assert Listed(pids, pid, free, q); }
  }

  lemma NewLive(pid: seq<nat>, p: Proc, x: nat)
    requires p < |pid| && pid[p] == Pids.FREE_PID && x != Pids.FREE_PID
    ensures LiveSet(pid[p := x]) == LiveSet(pid) + {p} && p !in LiveSet(pid)
  {
  }

  lemma NewChild(parent: seq<Option<Proc>>, kids: seq<seq<Proc>>, pid: seq<nat>, f: Forest, g: Proc, p: Proc, x: nat)
    requires |parent| == |kids| == |pid| && Tree(parent, kids, pid, f)
    requires g < |pid| && pid[g] != Pids.FREE_PID && p < |pid| && pid[p] == Pids.FREE_PID && x != Pids.FREE_PID
    requires kids[p] == []
    ensures Tree(parent[p := Some(g)], kids[g := kids[g] + [p]], pid[p := x], Graft(f, g, p))
  {
    NewLive(pid, p, x);
    assert g in Nodes(f);
    GraftRep(parent, kids, None, f, g, p);
  }

  lemma DeadUnlinkedCreate(parent: seq<Option<Proc>>, kids: seq<seq<Proc>>, pid: seq<nat>, g: Proc, p: Proc, x: nat)
    requires |parent| == |kids| == |pid| && DeadUnlinked(parent, kids, pid)
    requires g < |pid| && pid[g] != Pids.FREE_PID && p < |pid| && x != Pids.FREE_PID
    ensures DeadUnlinked(parent[p := Some(g)], kids[g := kids[g] + [p]], pid[p := x])
  {
    var parent', kids', pid' := parent[p := Some(g)], kids[g := kids[g] + [p]], pid[p := x];
    forall q | 0 <= q < |pid| ensures Unlinked(parent', kids', pid', q) { assert Unlinked(parent, kids, pid, q); }
  }

  /** What CREATEPROCESS comes to on a kernel state: the fields of the PCB that allocPcb resets
      already have their reset values. */
  function Created(s: State, prio: Prio, support: Option<nat>, c: Proc, pid: nat): State
    requires Sized(s) && s.free != [] && c < |s.pid|
  {
    var p := s.free[0];
    var t := s.(free := s.free[1..], pid := s.pid[p := pid], pids := Pids.Insert(s.pids, s.pid[p := pid], p),
                currPid := Pids.Next(pid), count := s.count + 1,
                prio := s.prio[p := prio], support := s.support[p := support],
                parent := s.parent[p := Some(c)], kids := s.kids[c := s.kids[c] + [p]]);
    if prio == LowPrio then t.(low := t.low + [p]) else t.(high := t.high + [p])
  }

  lemma FirstFreeIsBlank(s: State, c: Proc)
    requires Core(s, Some(c)) && s.free != []
    ensures var p := s.free[0];
            && p < |s.pid| && c < |s.pid| && p != c && s.pid[c] != Pids.FREE_PID && s.pid[p] == Pids.FREE_PID
            && s.semAdd[p] == None && s.kids[p] == []
  {
    var p := s.free[0];
    AllocPlaces(s.free, s.high, s.low, s.semAdd, Some(c));
    assert Listed(s.pids, s.pid, s.free, p) && Unlinked(s.parent, s.kids, s.pid, p);
    assert OnePlace(s.free, s.high, s.low, s.semAdd, Some(c), c) && Listed(s.pids, s.pid, s.free, c);
  }

  lemma CreateIs(s: State, c: Proc, prio: Prio, support: Option<nat>)
    requires Core(s, Some(c)) && s.curr == Some(c) && s.free != []
    ensures CreateProcess(s, prio, support) == Created(s, prio, support, c, GeneratedPid(s))
    ensures c != s.free[0] && s.pid[c] != Pids.FREE_PID && s.pid[s.free[0]] == Pids.FREE_PID
    ensures s.kids[s.free[0]] == []
  {
    var p := s.free[0];
    FirstFreeIsBlank(s, c);
    assert s.semAdd[p := None] == s.semAdd && s.kids[p := []] == s.kids;
    assert s.parent[p := None][p := Some(c)] == s.parent[p := Some(c)];
    assert s.support[p := None][p := support] == s.support[p := support];
  }

  lemma CreatedPriorities(s: State, p: Proc, prio: Prio)
    requires Priorities(s.high, s.low, s.prio) && p < |s.prio| && p !in s.high && p !in s.low
    ensures Priorities(s.high, s.low, s.prio[p := prio])
    ensures if prio == LowPrio then Priorities(s.high, s.low + [p], s.prio[p := prio])
            else Priorities(s.high + [p], s.low, s.prio[p := prio])
  {
  }

  lemma CreatedSized(s: State, prio: Prio, support: Option<nat>, c: Proc, pid: nat)
    requires Sized(s) && s.free != [] && c < |s.pid|
    ensures Sized(Created(s, prio, support, c, pid))
  {
    var t := Created(s, prio, support, c, pid);
    forall i | 0 <= i < |t.pids| ensures t.pids[i] < |t.pid| { assert t.pids[i] in t.pids; }
  }

  lemma CreatedQueues(s: State, c: Proc, prio: Prio, support: Option<nat>, x: nat)
    requires Core(s, Some(c)) && s.free != []
    ensures var t := Created(s, prio, support, c, x);
            Places(t.free, t.high, t.low, t.semAdd, Some(c)) && Priorities(t.high, t.low, t.prio)
  {
    AllocPlaces(s.free, s.high, s.low, s.semAdd, Some(c));
    assert OnePlace(s.free, s.high, s.low, s.semAdd, Some(c), s.free[0]);
    CreatedPriorities(s, s.free[0], prio);
  }

  lemma CreatedNames(s: State, c: Proc, prio: Prio, support: Option<nat>, x: nat)
    requires Core(s, Some(c)) && s.curr == Some(c) && s.free != []
    requires 0 < x < Pids.FREE_PID && x !in Pids.PidsOf(s.pids, s.pid)
    ensures var t := Created(s, prio, support, c, x);
            && PidTable(t.pids, t.pid, t.free) && t.count == |LiveSet(t.pid)|
            && DeadUnlinked(t.parent, t.kids, t.pid)
            && Tree(t.parent, t.kids, t.pid, Graft(TreeOf(s), c, s.free[0]))
  {
    CreateIs(s, c, prio, support);
    NewPid(s.pids, s.pid, s.free, x);
    NewLive(s.pid, s.free[0], x);
    DeadUnlinkedCreate(s.parent, s.kids, s.pid, c, s.free[0], x);
    NewChild(s.parent, s.kids, s.pid, TreeOf(s), c, s.free[0], x);
  }

  lemma CreateKeeps(s: State, c: Proc, prio: Prio, support: Option<nat>)
    requires Core(s, Some(c)) && s.curr == Some(c) && s.free != [] && GeneratedPid(s) != Pids.FREE_PID
    ensures Core(CreateProcess(s, prio, support), Some(c))
  {
    var x := GeneratedPid(s);
    GeneratedPidFresh(s, Some(c));
    CreateIs(s, c, prio, support);
    CreatedSized(s, prio, support, c, x);
    CreatedQueues(s, c, prio, support, x);
    CreatedNames(s, c, prio, support, x);
  }

  /** The precise limit of the above: with the reserved identifier the new process is
      created, queued and counted, but counts as dead. */
  lemma CreateKeepsIff(s: State, c: Proc, prio: Prio, support: Option<nat>)
    requires Core(s, Some(c)) && s.curr == Some(c)
    ensures Core(CreateProcess(s, prio, support), Some(c))
            <==> s.free == [] || !AllTaken(Pids.PidsOf(s.pids, s.pid), Pids.Start(s.currPid))
  {
    GeneratedPidFresh(s, Some(c));
    if s.free != [] {
      if GeneratedPid(s) != Pids.FREE_PID {
        CreateKeeps(s, c, prio, support);
      } else {
        CreateIs(s, c, prio, support);
        HeadAndTail(s.free);
        var t := CreateProcess(s, prio, support);
        assert t.free == s.free[1..];
        assert Core(t, Some(c)) ==> Listed(t.pids, t.pid, t.free, s.free[0]);
      }
    }
  }
}
