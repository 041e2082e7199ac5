/** The intrusive circular lists of lib/listx.h.

    A `ListHead` is the C struct: two pointers, either embedded in a record as its link
    or standing alone as the sentinel of a list.  A `RingFamily` is every list whose
    entries are threaded through the same link field, so an entry can be on at most one of
    them.  The source has four: `p_list` (the free list, the two ready queues and the queue
    of every semaphore descriptor), `p_sib` (one child list per PCB), `pid_list`, and
    `s_link` (active and free descriptors).  `contents` says what is on each list; every
    operation is proved to rewrite the pointers so that exactly the intended list changes. */
module Lists {
  import opened Options
  import opened Sequences

  class ListHead {
    var next: ListHead
    var prev: ListHead
    const owner: nat  // what container_of computes: the position of the enclosing record

    constructor (owner: nat)
      ensures next == this && prev == this && this.owner == owner
    {
      next, prev := this, this;
      this.owner := owner;
    }
  }

  /** The lists `cs` hold records numbered below n, and no record twice. */
  ghost predicate Layout(cs: seq<seq<nat>>, n: nat) {
    && (forall k {:trigger InRange(cs[k], n)} :: 0 <= k < |cs| ==> InRange(cs[k], n) && NoDup(cs[k]))
    && (forall k, l {:trigger Apart(cs[k], cs[l])} :: 0 <= k < l < |cs| ==> Apart(cs[k], cs[l]))
  }

  ghost predicate InRange(c: seq<nat>, n: nat) {
    forall i :: 0 <= i < |c| ==> c[i] < n
  }

  ghost predicate Apart(c: seq<nat>, d: seq<nat>) {
    forall i, j :: 0 <= i < |c| && 0 <= j < |d| ==> c[i] != d[j]
  }

  ghost predicate OnNone(cs: seq<seq<nat>>, e: nat) {
    forall k :: 0 <= k < |cs| ==> e !in cs[k]
  }

  lemma LayoutInsert(cs: seq<seq<nat>>, n: nat, k: nat, i: nat, e: nat)
    requires Layout(cs, n) && k < |cs| && i <= |cs[k]| && e < n && OnNone(cs, e)
    ensures Layout(cs[k := cs[k][..i] + [e] + cs[k][i..]], n)
  {
    var cs' := cs[k := cs[k][..i] + [e] + cs[k][i..]];
    forall l | 0 <= l < |cs'| ensures InRange(cs'[l], n) && NoDup(cs'[l]) {
      assert InRange(cs[l], n) && e !in cs[k];
    }
    forall l, m | 0 <= l < m < |cs'| ensures Apart(cs'[l], cs'[m]) {
      assert Apart(cs[l], cs[m]) && e !in cs[l] && e !in cs[m];
    }
  }

  lemma LayoutRemove(cs: seq<seq<nat>>, n: nat, k: nat, i: nat)
    requires Layout(cs, n) && k < |cs| && i < |cs[k]|
    ensures Layout(cs[k := cs[k][..i] + cs[k][i + 1..]], n)
    ensures OnNone(cs[k := cs[k][..i] + cs[k][i + 1..]], cs[k][i])
  {
    var cs' := cs[k := cs[k][..i] + cs[k][i + 1..]];
    forall l | 0 <= l < |cs'| ensures InRange(cs'[l], n) && NoDup(cs'[l]) && cs[k][i] !in cs'[l] {
      assert InRange(cs[l], n) && InRange(cs[k], n);
      if l < k { assert Apart(cs[l], cs[k]); } else if k < l { assert Apart(cs[k], cs[l]); }
    }
    forall l, m | 0 <= l < m < |cs'| ensures Apart(cs'[l], cs'[m]) {
      assert Apart(cs[l], cs[m]);
    }
  }

  class RingFamily {
    const heads: seq<ListHead>
    const links: seq<ListHead>
    ghost const nodes: set<ListHead>  // all of them
    ghost var contents: seq<seq<nat>>

    ghost predicate NodesDistinct() {
      && NoDup(heads)
      && NoDup(links)
      && (forall i :: 0 <= i < |heads| ==> heads[i] in nodes)
      && (forall j :: 0 <= j < |links| ==> links[j] in nodes)
      && (forall i, j :: 0 <= i < |heads| && 0 <= j < |links| ==> heads[i] != links[j])
      && (forall j :: 0 <= j < |links| ==> links[j].owner == j)
    }

    /** The i-th node around ring k holding entries c: the sentinel, the entries in order,
        then the sentinel again. */
    ghost function Cell(k: nat, c: seq<nat>, i: nat): (n: ListHead)
      requires k < |heads| && InRange(c, |links|) && NodesDistinct()
      ensures n in nodes
    {
      if 1 <= i <= |c| then links[c[i - 1]] else heads[k]
    }

    ghost predicate Closed(k: nat, c: seq<nat>)
      requires k < |heads| && InRange(c, |links|) && NodesDistinct()
      reads nodes
    {
      forall i {:trigger Cell(k, c, i)} :: 0 <= i <= |c| ==>
        Cell(k, c, i).next == Cell(k, c, i + 1) && Cell(k, c, i + 1).prev == Cell(k, c, i)
    }

    ghost predicate RingOk(k: nat)
      requires k < |heads| == |contents| && NodesDistinct()
      reads this, nodes
    {
      InRange(contents[k], |links|) && Closed(k, contents[k])
    }

    ghost predicate Valid()
      reads this, nodes
    {
      && NodesDistinct()
      && |contents| == |heads|
      && Layout(contents, |links|)
      && (forall k {:trigger RingOk(k)} :: 0 <= k < |contents| ==> RingOk(k))
    }

    /** Every list empty: INIT_LIST_HEAD on every sentinel. */
    constructor (nHeads: nat, nLinks: nat)
      ensures Valid() && fresh(nodes)
      ensures |heads| == nHeads && |links| == nLinks
      ensures contents == seq(nHeads, _ => [])
    {
      var hs: seq<ListHead>, ls: seq<ListHead> := [], [];
      for i := 0 to nHeads
        invariant |hs| == i
        invariant forall j :: 0 <= j < i ==> fresh(hs[j]) && hs[j].next == hs[j] && hs[j].prev == hs[j]
        invariant forall j, k :: 0 <= j < k < i ==> hs[j] != hs[k]
      {
        var h := new ListHead(i);
        hs := hs + [h];
      }
      for i := 0 to nLinks
        invariant |ls| == i
        invariant forall j :: 0 <= j < i ==> fresh(ls[j]) && ls[j].owner == j
        invariant forall j, k :: 0 <= j < k < i ==> ls[j] != ls[k]
        invariant forall j, k :: 0 <= j < nHeads && 0 <= k < i ==> hs[j] != ls[k]
        invariant forall j :: 0 <= j < nHeads ==> hs[j].next == hs[j] && hs[j].prev == hs[j]
      {
        var l := new ListHead(i);
        ls := ls + [l];
      }
      heads, links, nodes := hs, ls, (set h | h in hs) + (set l | l in ls);
      contents := seq(nHeads, _ => []);
      new;
      forall k, l | 0 <= k < l < nHeads ensures Apart(contents[k], contents[l]) { }
      forall k | 0 <= k < nHeads ensures RingOk(k) { }
    }

    /** Two positions of one list, or positions of two different lists, are different nodes. */
    lemma CellsDiffer(k: nat, c: seq<nat>, i: nat, l: nat, d: seq<nat>, j: nat)
      requires NodesDistinct() && k < |heads| && l < |heads|
      requires InRange(c, |links|) && InRange(d, |links|) && NoDup(c)
      requires if k == l then c == d && i != j else Apart(c, d) || Apart(d, c)
      requires i <= |c| && j <= |d|
      ensures Cell(k, c, i) != Cell(l, d, j)
    {
    }

    /** Which nodes an update of the neighbours at position i of list k leaves alone. */
    lemma Untouched(k: nat, i: nat, l: nat, j: nat)
      requires Valid() && k < |heads| && l < |heads| && RingOk(k) && RingOk(l)
      requires i <= |contents[k]| && j <= |contents[l]| && (k != l || i != j)
      ensures Cell(k, contents[k], i) != Cell(l, contents[l], j)
    {
      assert NoDup(contents[k]) by { assert InRange(contents[k], |links|); }
      assert k < l ==> Apart(contents[k], contents[l]);
      assert l < k ==> Apart(contents[l], contents[k]);
      CellsDiffer(k, contents[k], i, l, contents[l], j);
    }

    /** The nodes __list_add writes at position i of ring k are on no other ring. */
    lemma NeighboursLocal(k: nat, i: nat, e: nat)
      requires Valid() && k < |heads| && e < |links| && OnNone(contents, e)
      requires RingOk(k) && i <= |contents[k]|
      ensures forall l :: 0 <= l < |contents| && l != k ==> RingOk(l)
      ensures forall l, j {:trigger Cell(l, contents[l], j)} ::
                0 <= l < |contents| && l != k && RingOk(l) && 0 <= j <= |contents[l]| ==>
                Cell(l, contents[l], j) !in
                  {links[e], Cell(k, contents[k], i), Cell(k, contents[k], i + 1)}
    {
      forall l, j | 0 <= l < |contents| && l != k && 0 <= j <= |contents[l]|
        ensures RingOk(l)
        ensures Cell(l, contents[l], j) !in
                  {links[e], Cell(k, contents[k], i), Cell(k, contents[k], i + 1)}
      {
        assert RingOk(l) && e !in contents[l];
        Untouched(k, i, l, j);
        Untouched(k, if i == |contents[k]| then 0 else i + 1, l, j);
      }
    }

    lemma CellsAfterInsert(k: nat, c: seq<nat>, i: nat, e: nat, j: nat)
      requires NodesDistinct() && k < |heads| && InRange(c, |links|) && e < |links| && i <= |c| && j <= |c| + 2
      ensures Cell(k, c[..i] + [e] + c[i..], j)
           == if j == i + 1 then links[e] else Cell(k, c, if j <= i then j else j - 1)
    {
    }

    lemma CellsOfRingDiffer(k: nat)
      requires NodesDistinct() && k < |heads| == |contents| && Layout(contents, |links|)
      requires InRange(contents[k], |links|)
      ensures forall i, j {:trigger Cell(k, contents[k], i), Cell(k, contents[k], j)} ::
                0 <= i < j <= |contents[k]| ==> Cell(k, contents[k], i) != Cell(k, contents[k], j)
    {
    }

    /** The four pointer writes of __list_add. */
    method Splice(k: nat, e: nat, prev: ListHead, next: ListHead, ghost i: nat)
      requires Valid() && k < |heads| && e < |links| && OnNone(contents, e)
      requires i <= |contents[k]|
      requires RingOk(k) && prev == Cell(k, contents[k], i) && next == Cell(k, contents[k], i + 1)
      modifies nodes
      ensures InRange(contents[k][..i] + [e] + contents[k][i..], |links|)
      ensures Closed(k, contents[k][..i] + [e] + contents[k][i..])
      ensures forall l :: 0 <= l < |contents| && l != k ==> InRange(contents[l], |links|) && Closed(l, contents[l])
    {
      var node := links[e];
      ghost var c := contents[k];
      NeighboursLocal(k, i, e);
      CellsOfRingDiffer(k);
      assert forall j {:trigger Cell(k, c, j)} :: 0 <= j <= |c| + 1 ==> Cell(k, c, j) != node;
      next.prev := node;
      node.next := next;
      node.prev := prev;
      prev.next := node;
      forall l | 0 <= l < |contents| && l != k ensures InRange(contents[l], |links|) && Closed(l, contents[l]) {
        assert old(RingOk(l));
        forall j | 0 <= j <= |contents[l]|
          ensures Cell(l, contents[l], j).next == Cell(l, contents[l], j + 1)
          ensures Cell(l, contents[l], j + 1).prev == Cell(l, contents[l], j)
        {
          assert Cell(l, contents[l], j) !in {node, prev, next};
          assert Cell(l, contents[l], if j == |contents[l]| then 0 else j + 1) !in {node, prev, next};
        }
      }
      ghost var c' := c[..i] + [e] + c[i..];
      forall j | 0 <= j <= |c'|
        ensures Cell(k, c', j).next == Cell(k, c', j + 1) && Cell(k, c', j + 1).prev == Cell(k, c', j)
      {
        CellsAfterInsert(k, c, i, e, j);
        CellsAfterInsert(k, c, i, e, j + 1);
        if j < i {
          assert Cell(k, c, j) != prev && Cell(k, c, j + 1) != next;
        } else if i + 1 < j {
          assert Cell(k, c, j - 1) != prev && Cell(k, c, j) != next;
        }
      }
    }

    /** __list_add: put record e between two neighbours of list k. */
    method ListAddBetween(k: nat, e: nat, prev: ListHead, next: ListHead, ghost i: nat)
      requires Valid() && k < |heads| && e < |links| && OnNone(contents, e)
      requires i <= |contents[k]|
      requires RingOk(k) && prev == Cell(k, contents[k], i) && next == Cell(k, contents[k], i + 1)
      modifies this, nodes
      ensures Valid()
      ensures contents == old(contents)[k := old(contents[k])[..i] + [e] + old(contents[k])[i..]]
    {
      LayoutInsert(contents, |links|, k, i, e);
      Splice(k, e, prev, next, i);
      contents := contents[k := contents[k][..i] + [e] + contents[k][i..]];
      forall l | 0 <= l < |contents| ensures RingOk(l) { }
    }

    /** list_add: put record e at the front of list k. */
    method ListAdd(k: nat, e: nat)
      requires Valid() && k < |heads| && e < |links| && OnNone(contents, e)
      modifies this, nodes
      ensures Valid()
      ensures contents == old(contents)[k := [e] + old(contents[k])]
    {
      assert RingOk(k);
      var head := heads[k];
      assert head == Cell(k, contents[k], 0);
      ListAddBetween(k, e, head, head.next, 0);
      assert old(contents[k])[..0] + [e] + old(contents[k])[0..] == [e] + old(contents[k]);
    }

    /** list_add_tail: put record e at the back of list k. */
    method ListAddTail(k: nat, e: nat)
      requires Valid() && k < |heads| && e < |links| && OnNone(contents, e)
      modifies this, nodes
      ensures Valid()
      ensures contents == old(contents)[k := old(contents[k]) + [e]]
    {
      assert RingOk(k);
      var head := heads[k];
      ghost var n := |contents[k]|;
      assert head == Cell(k, contents[k], n + 1);
      ListAddBetween(k, e, head.prev, head, n);
      assert old(contents[k])[..n] + [e] + old(contents[k])[n..] == old(contents[k]) + [e];
    }

    /** __list_add just before record x, the i-th of list k. */
    method ListAddBefore(k: nat, e: nat, x: nat, ghost i: nat)
      requires Valid() && k < |heads| && e < |links| && OnNone(contents, e)
      requires i < |contents[k]| && contents[k][i] == x && x < |links|
      modifies this, nodes
      ensures Valid()
      ensures contents == old(contents)[k := old(contents[k])[..i] + [e] + old(contents[k])[i..]]
    {
      assert RingOk(k);
      assert links[x] == Cell(k, contents[k], i + 1) && Cell(k, contents[k], i) == Cell(k, contents[k], i + 1).prev;
      ListAddBetween(k, e, links[x].prev, links[x], i);
    }

    /** __list_add just after record x, the i-th of list k. */
    method ListAddAfter(k: nat, e: nat, x: nat, ghost i: nat)
      requires Valid() && k < |heads| && e < |links| && OnNone(contents, e)
      requires i < |contents[k]| && contents[k][i] == x && x < |links|
      modifies this, nodes
      ensures Valid()
      ensures contents == old(contents)[k := old(contents[k])[..i + 1] + [e] + old(contents[k])[i + 1..]]
    {
      assert RingOk(k);
      assert links[x] == Cell(k, contents[k], i + 1);
      ListAddBetween(k, e, links[x], links[x].next, i + 1);
    }

    /** INIT_LIST_HEAD on a list that is empty already. */
    method InitListHead(k: nat)
      requires Valid() && k < |heads| && contents[k] == []
      modifies nodes
      ensures Valid() && contents == old(contents)
    {
      assert RingOk(k) && Cell(k, contents[k], 0) == heads[k] && Cell(k, contents[k], 1) == heads[k];
      heads[k].next := heads[k];
      heads[k].prev := heads[k];
      forall l | 0 <= l < |contents| ensures RingOk(l) { assert old(RingOk(l)); }
    }

    /** INIT_LIST_HEAD on the link of a record that is on no list. */
    method InitLink(e: nat)
      requires Valid() && e < |links| && OnNone(contents, e)
      modifies nodes
      ensures Valid() && contents == old(contents)
    {
      forall l | 0 <= l < |contents|
        ensures RingOk(l) && forall j {:trigger Cell(l, contents[l], j)} :: 0 <= j <= |contents[l]| + 1 ==>
                  Cell(l, contents[l], j) != links[e]
      {
        assert RingOk(l) && e !in contents[l];
      }
      links[e].next := links[e];
      links[e].prev := links[e];
      forall l | 0 <= l < |contents| ensures RingOk(l) { assert old(RingOk(l)); }
    }

    lemma CellsAfterRemove(k: nat, c: seq<nat>, i: nat, j: nat)
      requires NodesDistinct() && k < |heads| && InRange(c, |links|) && i < |c| && j <= |c|
      ensures InRange(c[..i] + c[i + 1..], |links|)
      ensures Cell(k, c[..i] + c[i + 1..], j) == Cell(k, c, if j <= i then j else j + 1)
    {
    }

    /** The two pointer writes of list_del. */
    method Unsplice(e: nat, ghost k: nat, ghost i: nat)
      requires Valid() && k < |heads| && i < |contents[k]| && contents[k][i] == e && e < |links|
      modifies nodes
      ensures InRange(contents[k][..i] + contents[k][i + 1..], |links|)
      ensures Closed(k, contents[k][..i] + contents[k][i + 1..])
      ensures forall l :: 0 <= l < |contents| && l != k ==> InRange(contents[l], |links|) && Closed(l, contents[l])
    {
      ghost var c := contents[k];
      ghost var c' := c[..i] + c[i + 1..];
      assert RingOk(k);
      var prev, next := links[e].prev, links[e].next;
      assert links[e] == Cell(k, c, i + 1) && prev == Cell(k, c, i) && next == Cell(k, c, i + 2);
      OtherRingsApart(k, i);
      CellsOfRingDiffer(k);
      next.prev := prev;
      prev.next := next;
      forall l | 0 <= l < |contents| && l != k ensures InRange(contents[l], |links|) && Closed(l, contents[l]) {
        assert old(RingOk(l));
        forall j | 0 <= j <= |contents[l]|
          ensures Cell(l, contents[l], j).next == Cell(l, contents[l], j + 1)
          ensures Cell(l, contents[l], j + 1).prev == Cell(l, contents[l], j)
        {
          assert Cell(l, contents[l], j) !in {prev, next};
          assert Cell(l, contents[l], if j == |contents[l]| then 0 else j + 1) !in {prev, next};
        }
      }
      assert InRange(c', |links|);
      forall j | 0 <= j <= |c'|
        ensures Cell(k, c', j).next == Cell(k, c', j + 1) && Cell(k, c', j + 1).prev == Cell(k, c', j)
      {
        CellsAfterRemove(k, c, i, j);
        CellsAfterRemove(k, c, i, j + 1);
        if j < i {
          assert Cell(k, c, j) != prev && Cell(k, c, j + 1) != next;
        } else if i < j {
          assert Cell(k, c, j + 1) != prev && Cell(k, c, j + 2) != next;
        }
      }
    }

    /** list_del: take record e, the i-th of list k, out of its list.  The record's own two
        pointers are left as they were. */
    method ListDel(e: nat, ghost k: nat, ghost i: nat)
      requires Valid() && k < |heads| && i < |contents[k]| && contents[k][i] == e && e < |links|
      modifies this, nodes
      ensures Valid() && OnNone(contents, e)
      ensures contents == old(contents)[k := old(contents[k])[..i] + old(contents[k])[i + 1..]]
    {
      LayoutRemove(contents, |links|, k, i);
      Unsplice(e, k, i);
      contents := contents[k := contents[k][..i] + contents[k][i + 1..]];
      forall l | 0 <= l < |contents| ensures RingOk(l) { }
    }

    /** The nodes list_del writes for entry i of ring k are on no other ring. */
    lemma OtherRingsApart(k: nat, i: nat)
      requires Valid() && k < |heads| && RingOk(k) && i < |contents[k]|
      ensures forall l :: 0 <= l < |contents| && l != k ==> RingOk(l)
      ensures forall l, j {:trigger Cell(l, contents[l], j)} ::
                0 <= l < |contents| && l != k && RingOk(l) && 0 <= j <= |contents[l]| ==>
                Cell(l, contents[l], j) !in {Cell(k, contents[k], i), Cell(k, contents[k], i + 2)}
    {
      forall l, j | 0 <= l < |contents| && l != k && 0 <= j <= |contents[l]|
        ensures RingOk(l)
        ensures Cell(l, contents[l], j) !in {Cell(k, contents[k], i), Cell(k, contents[k], i + 2)}
      {
        assert RingOk(l);
        Untouched(k, i, l, j);
        Untouched(k, if i + 1 == |contents[k]| then 0 else i + 2, l, j);
      }
    }

    /** list_empty. */
    method ListEmpty(k: nat) returns (empty: bool)
      requires Valid() && k < |heads|
      ensures empty <==> contents[k] == []
    {
      assert RingOk(k);
      empty := heads[k].next == heads[k];
      assert Cell(k, contents[k], 0) == heads[k];
    }

    /** One step of list_for_each_entry: the record after the sentinel (e is None) or after
        record e, the i-th of the list; None when that is the sentinel again. */
    method NextEntry(k: nat, e: Option<nat>, ghost i: nat) returns (r: Option<nat>)
      requires Valid() && k < |heads| && i <= |contents[k]|
      requires if i == 0 then e == None else e == Some(contents[k][i - 1])
      ensures r == if i < |contents[k]| then Some(contents[k][i]) else None
    {
      assert RingOk(k);
      var node := if e.None? then heads[k] else links[e.value];
      assert node == Cell(k, contents[k], i);
      if node.next == heads[k] { r := None; } else { r := Some(node.next.owner); }
    }

    /** One step of list_for_each_entry_reverse, i entries from the back already seen. */
    method PrevEntry(k: nat, e: Option<nat>, ghost i: nat) returns (r: Option<nat>)
      requires Valid() && k < |heads| && i <= |contents[k]|
      requires if i == 0 then e == None else e == Some(contents[k][|contents[k]| - i])
      ensures r == if i < |contents[k]| then Some(contents[k][|contents[k]| - i - 1]) else None
    {
      assert RingOk(k);
      var node := if e.None? then heads[k] else links[e.value];
      ghost var n := |contents[k]|;
      assert node == Cell(k, contents[k], n + 1 - i);
      assert node.prev == Cell(k, contents[k], n - i);
      if node.prev == heads[k] { r := None; } else { r := Some(node.prev.owner); }
    }
  }
}
