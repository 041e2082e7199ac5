/** Identifiers of PCBs and the list of those in use (phase1/pcb.c). */
module PidList {
  import opened Options
  import opened Lists
  import opened Pids

  class PidTable {
    const ring: RingFamily      // pid_list_h, through pid_list
    var pid: seq<nat>           // p_pid
    var currPid: nat            // curr_pid

    ghost predicate Valid()
      reads this, ring, ring.nodes
    {
      && ring.Valid() && |ring.heads| == 1 && |pid| == |ring.links| < WORD
      && currPid < WORD
    }

    ghost function List(): seq<nat>
      requires Valid()
      reads this, ring, ring.nodes
    {
      ring.contents[0]
    }

    constructor (n: nat)
      requires n < WORD
      ensures Valid() && fresh(ring) && fresh(ring.nodes) && List() == [] && |pid| == n
      ensures currPid == 1 && pid == seq(n, _ => FREE_PID)
    {
      ring := new RingFamily(1, n);
      pid := seq(n, _ => FREE_PID);
      currPid := 1;
    }

    /** getProcessByPid: the search stops at the first greater identifier. */
    method GetProcessByPid(x: nat) returns (r: Option<nat>)
      requires Valid() && Sorted(List(), pid)
      ensures r.Some? ==> r.value in List() && r.value < |pid| && pid[r.value] == x
      ensures r.None? ==> forall p :: p in List() ==> p < |pid| && pid[p] != x
    {
      ghost var list := List();
      ghost var i: nat := 0;
      var iter := ring.NextEntry(0, None, 0);
      while iter.Some? && pid[iter.value] < x
        invariant i <= |list|
        invariant iter == if i < |list| then Some(list[i]) else None
        invariant forall j :: 0 <= j < i ==> pid[list[j]] < x
        decreases |list| - i
      {
        i := i + 1;
        iter := ring.NextEntry(0, iter, i);
      }
      if iter.Some? && pid[iter.value] == x { return iter; }
      forall j | 0 <= j < |list| ensures pid[list[j]] != x {
        if j > i { assert InOrder(list, pid, i, j); }
      }
      r := None;
    }

    /** _generatePid: the collision search is skipped when even the greatest identifier in use is
        below curr_pid; otherwise it takes at most one step more than there are processes. */
    method GeneratePid() returns (x: nat, ghost steps: nat)
      requires Valid() && Sorted(List(), pid) && |PidsOf(List(), pid)| < WORD
      modifies this`currPid
      ensures Valid() && x == FirstFree(PidsOf(List(), pid), Start(old(currPid)))
      ensures currPid == Next(x)
      ensures steps <= |PidsOf(List(), pid)| + 1
    {
      ghost var used := PidsOf(List(), pid);
      if currPid == 0 { currPid := 1; }
      ghost var c := currPid;
      ghost var far := FirstFreeIsFirst(used, c);
      assert Ahead(c, 0) == c;
      steps := 0;
      var last := ring.PrevEntry(0, None, 0);
      if last.Some? {
        var greatest := pid[last.value];
        if greatest >= currPid {
          var found := GetProcessByPid(currPid);
          steps := 1;
          while found.Some?
            invariant 1 <= steps <= far + 1
            invariant currPid == Ahead(c, steps - 1)
            invariant found.Some? <==> currPid in used
            decreases far + 1 - steps
          {
            NextAhead(c, steps - 1);
            currPid := Next(currPid);
            found := GetProcessByPid(currPid);
            steps := steps + 1;
          }
        } else {
          AllBelow(List(), pid, c);
        }
      }
      x := currPid;
      currPid := Next(currPid);
    }

    /** _addPid: from the back, behind the first entry whose identifier is not greater. */
    method AddPid(p: nat)
      requires Valid() && p < |pid| && p !in List() && InRange(List(), |pid|)
      modifies ring, ring.nodes
      ensures Valid() && List() == Insert(old(List()), pid, p)
    {
      ghost var list := List();
      ghost var i: nat := 0;
      var iter := ring.PrevEntry(0, None, 0);
      while iter.Some? && pid[p] < pid[iter.value]
        invariant Valid() && List() == list
        invariant i <= |list|
        invariant iter == if i < |list| then Some(list[|list| - 1 - i]) else None
        invariant forall j :: |list| - i <= j < |list| ==> pid[p] < pid[list[j]]
        decreases |list| - i
      {
        i := i + 1;
        iter := ring.PrevEntry(0, iter, i);
      }
      InsertAt(list, pid, p, |list| - i);
      if iter.Some? {
        ring.ListAddAfter(0, p, iter.value, |list| - 1 - i);
      } else {
        assert list[..0] + [p] + list[0..] == [p] + list;
        ring.ListAdd(0, p);
      }
    }
  }

  /** Where the backward search stops is where Insert puts p. */
  lemma {:induction false} InsertAt(list: seq<nat>, pid: seq<nat>, p: nat, i: nat)
    requires InRange(list, |pid|) && p < |pid| && i <= |list|
    requires forall j :: i <= j < |list| ==> pid[p] < pid[list[j]]
    requires i > 0 ==> pid[list[i - 1]] <= pid[p]
    ensures Insert(list, pid, p) == list[..i] + [p] + list[i..]
  {
    if i < |list| {
      var front := list[..|list| - 1];
      InsertAt(front, pid, p, i);
      assert front[..i] == list[..i] && front[i..] + [list[|list| - 1]] == list[i..];
    } else {
      assert list[..i] == list && list[i..] == [];
    }
  }

  lemma AllBelow(list: seq<nat>, pid: seq<nat>, c: nat)
    requires Sorted(list, pid) && list != [] && pid[list[|list| - 1]] < c
    ensures c !in PidsOf(list, pid)
  {
    forall i | 0 <= i < |list| ensures pid[list[i]] < c {
      if i < |list| - 1 { assert InOrder(list, pid, i, |list| - 1); }
    }
  }
}
