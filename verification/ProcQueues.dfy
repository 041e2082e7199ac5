/** The process queues of phase1/pcb.c: the lists threaded through p_list. */
module ProcQueues {
  import opened Options
  import opened Sequences
  import opened Lists

  lemma QueueNoDup(f: RingFamily, k: nat)
    requires f.Valid() && k < |f.contents|
    ensures NoDup(f.contents[k]) && InRange(f.contents[k], |f.links|)
  {
    assert InRange(f.contents[k], |f.links|);
  }

  method HeadProcQ(f: RingFamily, k: nat) returns (r: Option<nat>)
    requires f.Valid() && k < |f.heads|
    ensures r == if f.contents[k] == [] then None else Some(f.contents[k][0])
    ensures r.Some? ==> r.value < |f.links|
  {
    QueueNoDup(f, k);
    var empty := f.ListEmpty(k);
    if empty { return None; }
    r := f.NextEntry(k, None, 0);
  }

  method RemoveProcQ(f: RingFamily, k: nat) returns (r: Option<nat>)
    requires f.Valid() && k < |f.heads|
    modifies f, f.nodes
    ensures f.Valid()
    ensures old(f.contents[k]) == [] ==> r == None && f.contents == old(f.contents)
    ensures old(f.contents[k]) != [] ==>
              r == Some(old(f.contents[k][0])) && r.value < |f.links| && OnNone(f.contents, r.value)
              && f.contents == old(f.contents)[k := old(f.contents[k])[1..]]
  {
    r := HeadProcQ(f, k);
    if r.Some? {
      QueueNoDup(f, k);
      f.ListDel(r.value, k, 0);
      assert old(f.contents[k])[..0] + old(f.contents[k])[1..] == old(f.contents[k])[1..];
    }
  }

  /** outProcQ looks the process up before it unlinks it. */
  method OutProcQ(f: RingFamily, k: nat, p: nat) returns (r: Option<nat>)
    requires f.Valid() && k < |f.heads|
    modifies f, f.nodes
    ensures f.Valid()
    ensures r == if p in old(f.contents[k]) then Some(p) else None
    ensures f.contents == old(f.contents)[k := Without(old(f.contents[k]), {p})]
    ensures r.Some? ==> OnNone(f.contents, p)
  {
    QueueNoDup(f, k);
    ghost var q := f.contents[k];
    ghost var i: nat := 0;
    var pos := f.NextEntry(k, None, 0);
    while pos.Some? && pos.value != p
      invariant f.Valid() && f.contents == old(f.contents)
      invariant i <= |q|
      invariant pos == if i < |q| then Some(q[i]) else None
      invariant p !in q[..i]
      decreases |q| - i
    {
      assert q[..i + 1] == q[..i] + [q[i]];
      i := i + 1;
      pos := f.NextEntry(k, pos, i);
    }
    if pos.Some? {
      WithoutAt(q, i);
      f.ListDel(p, k, i);
    } else {
      assert q[..i] == q;
      WithoutNone(q, {p});
      assert f.contents[k := q] == f.contents;
    }
    r := pos;
  }
}
