/** The active semaphore list (phase1/asl.c): descriptors in increasing order of key, each
    with a queue of blocked processes, and the free descriptors.

    The list is proved to be a map from keys to non-empty queues. */
module SemaphoreList {
  import opened Options
  import opened Sequences
  import opened Forests
  import opened Lists
  import opened ProcQueues
  import opened KernelState

  const SEMD: nat := 3  // the heads of p_list lists before semd_table[0].s_procq

  ghost predicate KeysInOrder(active: seq<nat>, key: seq<Key>, i: nat, j: nat)
    requires i < |active| && j < |active| && InRange(active, |key|)
  {
    i < j ==> key[active[i]] < key[active[j]]
  }

  ghost predicate Entry(active: seq<nat>, key: seq<Key>, queues: seq<seq<Proc>>, m: map<Key, seq<Proc>>, i: nat)
    requires i < |active| && InRange(active, |key|) && |queues| == SEMD + |key|
  {
    && key[active[i]] in m
    && m[key[active[i]]] == queues[SEMD + active[i]]
    && queues[SEMD + active[i]] != []
  }

  ghost predicate HasEntry(active: seq<nat>, key: seq<Key>, k: Key)
    requires InRange(active, |key|)
  {
    exists i :: 0 <= i < |active| && key[active[i]] == k
  }

  ghost predicate Idle(active: seq<nat>, queues: seq<seq<Proc>>, d: nat)
    requires SEMD + d < |queues|
  {
    d !in active ==> queues[SEMD + d] == []
  }

  /** The descriptors of `active`, in strict key order and each with waiters, are the map m. */
  ghost predicate Models(active: seq<nat>, key: seq<Key>, queues: seq<seq<Proc>>, m: map<Key, seq<Proc>>) {
    && InRange(active, |key|) && |queues| == SEMD + |key| && NoDup(active)
    && |m| == |active|
    && (forall i, j {:trigger KeysInOrder(active, key, i, j)} :: 0 <= i < |active| && 0 <= j < |active| ==>
          KeysInOrder(active, key, i, j))
    && (forall i {:trigger Entry(active, key, queues, m, i)} :: 0 <= i < |active| ==> Entry(active, key, queues, m, i))
    && (forall k {:trigger HasEntry(active, key, k)} :: k in m ==> HasEntry(active, key, k))
    && (forall d {:trigger Idle(active, queues, d)} :: 0 <= d < |key| ==> Idle(active, queues, d))
  }

  /** Only the semaphore queues matter. */
  lemma ModelsFrame(active: seq<nat>, key: seq<Key>, queues: seq<seq<Proc>>, queues': seq<seq<Proc>>,
                    m: map<Key, seq<Proc>>)
    requires Models(active, key, queues, m) && |queues'| == |queues|
    requires forall d :: SEMD <= d < |queues| ==> queues'[d] == queues[d]
    ensures Models(active, key, queues', m)
  {
    forall i | 0 <= i < |active| ensures Entry(active, key, queues', m, i) { assert Entry(active, key, queues, m, i); }
    forall d | 0 <= d < |key| ensures Idle(active, queues', d) { assert Idle(active, queues, d); }
  }

  /** A key without an entry takes a fresh descriptor, at the place the search stopped. */
  lemma ModelsNew(active: seq<nat>, key: seq<Key>, queues: seq<seq<Proc>>, m: map<Key, seq<Proc>>,
                  i: nat, d: nat, k: Key, p: Proc)
    requires Models(active, key, queues, m) && d < |key| && d !in active && k !in m && i <= |active|
    requires forall j :: 0 <= j < i ==> key[active[j]] < k
    requires i < |active| ==> k < key[active[i]]
    ensures Models(active[..i] + [d] + active[i..], key[d := k], queues[SEMD + d := [p]], m[k := [p]])
  {
    var active', key', queues', m' := active[..i] + [d] + active[i..], key[d := k],
                                      queues[SEMD + d := [p]], m[k := [p]];
    NewInOrder(active, key, i, d, k);
    forall x | 0 <= x < |active'| ensures Entry(active', key', queues', m', x) {
      if x != i { assert Entry(active, key, queues, m, if x < i then x else x - 1); }
    }
    forall l | l in m' ensures HasEntry(active', key', l) {
      assert l in m ==> HasEntry(active, key, l);
      NewHasEntry(active, key, m, i, d, k, l);
    }
    forall e | 0 <= e < |key'| ensures Idle(active', queues', e) {
      assert Idle(active, queues, e) && active'[i] == d;
      if e in active {
        var x :| 0 <= x < |active| && active[x] == e;
        assert active'[if x < i then x else x + 1] == e;
      }
    }
  }

  lemma NewInOrder(active: seq<nat>, key: seq<Key>, i: nat, d: nat, k: Key)
    requires InRange(active, |key|) && NoDup(active) && d < |key| && d !in active && i <= |active|
    requires forall x, y {:trigger KeysInOrder(active, key, x, y)} ::
               0 <= x < |active| && 0 <= y < |active| ==> KeysInOrder(active, key, x, y)
    requires forall j :: 0 <= j < i ==> key[active[j]] < k
    requires i < |active| ==> k < key[active[i]]
    ensures InRange(active[..i] + [d] + active[i..], |key|) && NoDup(active[..i] + [d] + active[i..])
    ensures forall x, y {:trigger KeysInOrder(active[..i] + [d] + active[i..], key[d := k], x, y)} ::
              0 <= x <= |active| && 0 <= y <= |active| ==>
                KeysInOrder(active[..i] + [d] + active[i..], key[d := k], x, y)
  {
    var active', key' := active[..i] + [d] + active[i..], key[d := k];
    forall x, y | 0 <= x < |active'| && 0 <= y < |active'| ensures KeysInOrder(active', key', x, y) {
      var x0, y0 := if x < i then x else x - 1, if y < i then y else y - 1;
      if x != i && y != i { assert KeysInOrder(active, key, x0, y0); }
      else if x == i && y > i { assert KeysInOrder(active, key, i, y0); }
    }
  }

  lemma NewHasEntry(active: seq<nat>, key: seq<Key>, m: map<Key, seq<Proc>>, i: nat, d: nat, k: Key, l: Key)
    requires InRange(active, |key|) && d < |key| && d !in active && i <= |active|
    requires l == k || (l in m && HasEntry(active, key, l))
    ensures HasEntry(active[..i] + [d] + active[i..], key[d := k], l)
  {
    var active', key' := active[..i] + [d] + active[i..], key[d := k];
    if l == k {
      assert key'[active'[i]] == k;
    } else {
      var x :| 0 <= x < |active| && key[active[x]] == l;
      var y := if x < i then x else x + 1;
      assert active'[y] == active[x] && active[x] in active && key'[active'[y]] == l;
    }
  }

  /** The queue of an entry changes to another non-empty one. */
  lemma ModelsChange(active: seq<nat>, key: seq<Key>, queues: seq<seq<Proc>>, m: map<Key, seq<Proc>>, i: nat,
                     q: seq<Proc>)
    requires Models(active, key, queues, m) && i < |active| && q != []
    ensures key[active[i]] in m
    ensures Models(active, key, queues[SEMD + active[i] := q], m[key[active[i]] := q])
  {
    var d, k := active[i], key[active[i]];
    var queues', m' := queues[SEMD + d := q], m[k := q];
    assert Entry(active, key, queues, m, i);
    forall x | 0 <= x < |active| ensures Entry(active, key, queues', m', x) {
      assert Entry(active, key, queues, m, x);
      if x != i { assert KeysInOrder(active, key, x, i) && KeysInOrder(active, key, i, x); }
    }
    forall l | l in m' ensures HasEntry(active, key, l) { assert l in m ==> HasEntry(active, key, l); }
    forall e | 0 <= e < |key| ensures Idle(active, queues', e) { assert Idle(active, queues, e); }
    assert m'.Keys == m.Keys;
  }

  /** The last waiter of an entry leaves, and its descriptor with it. */
  lemma ModelsDrop(active: seq<nat>, key: seq<Key>, queues: seq<seq<Proc>>, m: map<Key, seq<Proc>>, i: nat)
    requires Models(active, key, queues, m) && i < |active|
    ensures key[active[i]] in m
    ensures Models(active[..i] + active[i + 1..], key, queues[SEMD + active[i] := []], m - {key[active[i]]})
  {
    var d, k := active[i], key[active[i]];
    var active', queues', m' := active[..i] + active[i + 1..], queues[SEMD + d := []], m - {k};
    assert Entry(active, key, queues, m, i);
    forall x, y | 0 <= x < |active'| && 0 <= y < |active'| ensures KeysInOrder(active', key, x, y) {
      assert KeysInOrder(active, key, if x < i then x else x + 1, if y < i then y else y + 1);
    }
    forall x | 0 <= x < |active'| ensures Entry(active', key, queues', m', x) {
      var x0 := if x < i then x else x + 1;
      assert Entry(active, key, queues, m, x0);
      assert KeysInOrder(active, key, x0, i) && KeysInOrder(active, key, i, x0);
    }
    forall l | l in m' ensures HasEntry(active', key, l) {
      assert HasEntry(active, key, l);
      var x :| 0 <= x < |active| && key[active[x]] == l;
      assert active'[if x < i then x else x - 1] == active[x];
    }
    forall e | 0 <= e < |key| ensures Idle(active', queues', e) {
      assert Idle(active, queues, e);
      if e != d && e in active {
        var x :| 0 <= x < |active| && active[x] == e;
        assert active'[if x < i then x else x - 1] == e;
      }
    }
    assert m'.Keys == m.Keys - {k};
    assert |m.Keys| == |m'.Keys| + 1;
  }

  /** A process on none of the kernel's own queues and on no semaphore queue is on no list. */
  lemma OffEveryList(active: seq<nat>, key: seq<Key>, queues: seq<seq<Proc>>, m: map<Key, seq<Proc>>, p: Proc)
    requires Models(active, key, queues, m)
    requires forall l :: 0 <= l < SEMD ==> p !in queues[l]
    requires forall k :: k in m ==> p !in m[k]
    ensures OnNone(queues, p)
  {
    forall l | 0 <= l < |queues| ensures p !in queues[l] {
      if l >= SEMD {
        var d := l - SEMD;
        assert Idle(active, queues, d);
        if d in active {
          var i :| 0 <= i < |active| && active[i] == d;
          assert Entry(active, key, queues, m, i);
        }
      }
    }
  }

  /** Where the search stops decides: all keys before are smaller, all from there on greater. */
  lemma NotThere(active: seq<nat>, key: seq<Key>, queues: seq<seq<Proc>>, m: map<Key, seq<Proc>>, i: nat, k: Key)
    requires Models(active, key, queues, m) && i <= |active|
    requires forall j :: 0 <= j < i ==> key[active[j]] < k
    requires i < |active| ==> k < key[active[i]]
    ensures k !in m
  {
    forall j | 0 <= j < |active| ensures key[active[j]] != k {
      if j > i { assert KeysInOrder(active, key, i, j); }
    }
    assert k in m ==> HasEntry(active, key, k);
  }

  class Asl {
    const plist: RingFamily   // all lists through p_list
    const slink: RingFamily   // the two lists through s_link
    var key: seq<Key>         // s_key of every descriptor
    var semAdd: seq<Option<Key>>  // p_semAdd of every PCB
    ghost var blocked: map<Key, seq<Proc>>

    const ACTIVE: nat := 0  // semd_h
    const FREE: nat := 1    // semdFree_h

    ghost function Repr(): set<object> {
      {this, plist, slink} + plist.nodes + slink.nodes
    }

    ghost predicate Shape() {
      && |slink.heads| == 2
      && |plist.heads| == SEMD + |slink.links|
      && plist != slink && plist.nodes !! slink.nodes
    }

    /** `blocked` is what the active list means; with the free list it accounts for every
        descriptor. */
    ghost predicate Valid()
      reads Repr()
    {
      && Shape() && plist.Valid() && slink.Valid()
      && |key| == |slink.links|
      && |slink.contents[ACTIVE]| + |slink.contents[FREE]| == |key|
      && Models(slink.contents[ACTIVE], key, plist.contents, blocked)
    }

    /** initASL, over the given process lists, all of them empty. */
    constructor (plist: RingFamily, n: nat)
      requires plist.Valid() && |plist.heads| == SEMD + n && |plist.links| == n
      requires forall k :: 0 <= k < |plist.contents| ==> plist.contents[k] == []
      ensures Valid() && fresh(Repr() - {plist} - plist.nodes)
      ensures this.plist == plist && |key| == n && blocked == map[] && semAdd == seq(n, _ => None)
    {
      var free := FreeList(n);
      this.plist, this.slink := plist, free;
      key := seq(n, _ => 0);
      semAdd := seq(n, _ => None);
      blocked := map[];
      new;
      assert Models(slink.contents[ACTIVE], key, plist.contents, blocked);
    }

    /** The descriptors on the free list, the first of the table in front. */
    static method FreeList(n: nat) returns (slink: RingFamily)
      ensures slink.Valid() && fresh(slink) && fresh(slink.nodes)
      ensures |slink.heads| == 2 && |slink.links| == n
      ensures |slink.contents| == 2 && slink.contents[0] == [] && |slink.contents[1]| == n
      ensures forall j :: 0 <= j < n ==> slink.contents[1][j] == j
    {
      slink := new RingFamily(2, n);
      var i: nat := n;
      while i > 0
        invariant i <= n && slink.Valid() && fresh(slink) && fresh(slink.nodes)
        invariant |slink.heads| == 2 && |slink.links| == n
        invariant |slink.contents| == 2 && slink.contents[0] == [] && |slink.contents[1]| == n - i
        invariant forall j :: 0 <= j < n - i ==> slink.contents[1][j] == i + j
      {
        i := i - 1;
        slink.ListAdd(1, i);
      }
    }

    /** _peekActiveSemaphore: the search stops at the first greater key. */
    method PeekActive(k: Key) returns (d: Option<nat>, ghost i: nat)
      requires Valid()
      ensures d.Some? <==> k in blocked
      ensures d.Some? ==>
                i < |slink.contents[ACTIVE]| && slink.contents[ACTIVE][i] == d.value < |key| && key[d.value] == k
    {
      ghost var active := slink.contents[ACTIVE];
      i := 0;
      var iter := slink.NextEntry(ACTIVE, None, 0);
      while iter.Some? && key[iter.value] < k
        invariant i <= |active|
        invariant iter == if i < |active| then Some(active[i]) else None
        invariant forall j :: 0 <= j < i ==> key[active[j]] < k
        decreases |active| - i
      {
        i := i + 1;
        iter := slink.NextEntry(ACTIVE, iter, i);
      }
      if iter.Some? && key[iter.value] == k {
        assert Entry(active, key, plist.contents, blocked, i);
        return iter, i;
      }
      NotThere(active, key, plist.contents, blocked, i, k);
      d := None;
    }

    /** _addActiveSemaphore: before the first greater key, or at the end. */
    method AddActive(d: nat) returns (ghost i: nat)
      requires Shape() && slink.Valid() && |key| == |slink.links| && d < |key|
      requires OnNone(slink.contents, d)
      requires InRange(slink.contents[ACTIVE], |key|)
      modifies slink, slink.nodes
      ensures slink.Valid()
      ensures var active := old(slink.contents[ACTIVE]);
              && i <= |active|
              && slink.contents == old(slink.contents)[ACTIVE := active[..i] + [d] + active[i..]]
              && (forall j :: 0 <= j < i ==> key[active[j]] <= key[d])
              && (i < |active| ==> key[d] < key[active[i]])
    {
      ghost var active := slink.contents[ACTIVE];
      i := 0;
      var iter := slink.NextEntry(ACTIVE, None, 0);
      while iter.Some? && key[iter.value] <= key[d]
        invariant slink.Valid() && slink.contents == old(slink.contents)
        invariant i <= |active|
        invariant iter == if i < |active| then Some(active[i]) else None
        invariant forall j :: 0 <= j < i ==> key[active[j]] <= key[d]
        decreases |active| - i
      {
        i := i + 1;
        iter := slink.NextEntry(ACTIVE, iter, i);
      }
      if iter.Some? {
        slink.ListAddBefore(ACTIVE, d, iter.value, i);
      } else {
        assert active[..i] + [d] + active[i..] == active + [d];
        slink.ListAddTail(ACTIVE, d);
      }
    }

    /** insertBlocked: TRUE, and nothing changes, when the key needs a descriptor and none is
        free; otherwise p joins the queue of its semaphore. */
    method InsertBlocked(k: Key, p: Proc) returns (full: bool)
      requires Valid() && p < |semAdd| == |plist.links| && OnNone(plist.contents, p)
      modifies this, plist, slink, plist.nodes, slink.nodes
      ensures Valid() && |key| == old(|key|)
      ensures full <==> k !in old(blocked) && old(|blocked|) == |key|
      ensures full ==> blocked == old(blocked) && semAdd == old(semAdd) && plist.contents == old(plist.contents)
      ensures !full ==>
                && blocked == old(blocked)[k := (if k in old(blocked) then old(blocked)[k] else []) + [p]]
                && semAdd == old(semAdd)[p := Some(k)]
                && |plist.contents| == old(|plist.contents|)
                && forall l :: 0 <= l < SEMD ==> plist.contents[l] == old(plist.contents)[l]
    {
      var sem, i := PeekActive(k);
      if sem.None? {
        full := InsertNew(k, p);
        assert [] + [p] == [p];
      } else {
        ghost var active, queues := slink.contents[ACTIVE], plist.contents;
        assert Entry(active, key, queues, blocked, i);
        ModelsChange(active, key, queues, blocked, i, queues[SEMD + sem.value] + [p]);
        plist.ListAddTail(SEMD + sem.value, p);
        blocked := blocked[k := blocked[k] + [p]];
        full := false;
      }
      if !full { semAdd := semAdd[p := Some(k)]; }
    }

    /** _initSemaphore: the first free descriptor, if any, takes key k and enters the active
        list; its queue is still empty. */
    method InitSemaphore(k: Key) returns (d: Option<nat>, ghost i: nat)
      requires Valid() && k !in blocked
      modifies this`key, plist.nodes, slink, slink.nodes
      ensures plist.Valid() && slink.Valid() && plist.contents == old(plist.contents)
      ensures |key| == old(|key|)
      ensures d.None? ==> old(|blocked|) == |key| && Valid() && key == old(key)
      ensures d.Some? ==>
                var active := old(slink.contents[ACTIVE]);
                && d.value < |key| && d.value !in active && i <= |active| < |key|
                && key == old(key)[d.value := k]
                && slink.contents[ACTIVE] == active[..i] + [d.value] + active[i..]
                && |slink.contents[FREE]| == old(|slink.contents[FREE]|) - 1
                && (forall j :: 0 <= j < i ==> old(key)[active[j]] < k)
                && (i < |active| ==> k < old(key)[active[i]])
    {
      ghost var active := slink.contents[ACTIVE];
      i := 0;
      d := RemoveProcQ(slink, FREE);
      if d.None? { return; }
      assert d.value !in slink.contents[ACTIVE] && slink.contents[ACTIVE] == active;
      QueueNoDup(slink, ACTIVE);
      assert Idle(active, plist.contents, d.value);
      key := key[d.value := k];
      plist.InitListHead(SEMD + d.value);
      i := AddActive(d.value);
      forall j | 0 <= j < i ensures old(key)[active[j]] < k {
        assert Entry(active, old(key), plist.contents, blocked, j);
      }
    }

    /** insertBlocked of a key without a descriptor. */
    method InsertNew(k: Key, p: Proc) returns (full: bool)
      requires Valid() && p < |plist.links| && OnNone(plist.contents, p) && k !in blocked
      modifies this`key, this`blocked, plist, slink, plist.nodes, slink.nodes
      ensures Valid() && |key| == old(|key|)
      ensures full <==> old(|blocked|) == |key|
      ensures full ==> blocked == old(blocked) && plist.contents == old(plist.contents)
      ensures !full ==>
                && blocked == old(blocked)[k := [p]]
                && |plist.contents| == old(|plist.contents|)
                && forall l :: 0 <= l < SEMD ==> plist.contents[l] == old(plist.contents)[l]
    {
      ghost var active := slink.contents[ACTIVE];
      ghost var queues := plist.contents;
      var d, i := InitSemaphore(k);
      if d.None? { return true; }
      ModelsNew(active, old(key), queues, blocked, i, d.value, k, p);
      assert Idle(active, queues, d.value) && queues[SEMD + d.value] + [p] == [p];
      plist.ListAddTail(SEMD + d.value, p);
      blocked := blocked[k := [p]];
      assert plist.contents == queues[SEMD + d.value := [p]];
      full := false;
    }

    /** A descriptor moves from the active list to the front of the free list. */
    method Retire(d: nat, ghost i: nat)
      requires slink.Valid() && |slink.heads| == 2
      requires i < |slink.contents[ACTIVE]| && slink.contents[ACTIVE][i] == d < |slink.links|
      modifies slink, slink.nodes
      ensures slink.Valid()
      ensures slink.contents[ACTIVE] == old(slink.contents[ACTIVE])[..i] + old(slink.contents[ACTIVE])[i + 1..]
      ensures slink.contents[FREE] == [d] + old(slink.contents[FREE])
    {
      slink.ListDel(d, ACTIVE, i);
      slink.ListAdd(FREE, d);
    }

    /** _updateActiveSemaphore, of the i-th entry whose queue has just become `q`: a descriptor
        without waiters goes back to the free list. */
    method UpdateActive(d: nat, ghost i: nat, ghost q: seq<Proc>, ghost queues: seq<seq<Proc>>)
      requires Shape() && plist.Valid() && slink.Valid() && |key| == |slink.links|
      requires |slink.contents[ACTIVE]| + |slink.contents[FREE]| == |key|
      requires i < |slink.contents[ACTIVE]| && slink.contents[ACTIVE][i] == d < |key|
      requires Models(slink.contents[ACTIVE], key, queues, blocked)
      requires SEMD + d < |queues| && plist.contents == queues[SEMD + d := q]
      modifies this`blocked, slink, slink.nodes
      ensures Valid()
      ensures blocked == if q == [] then old(blocked) - {key[d]} else old(blocked)[key[d] := q]
    {
      ghost var active := slink.contents[ACTIVE];
      var empty := plist.ListEmpty(SEMD + d);
      if empty {
        ModelsDrop(active, key, queues, blocked, i);
        Retire(d, i);
        blocked := blocked - {key[d]};
      } else {
        ModelsChange(active, key, queues, blocked, i, q);
        blocked := blocked[key[d] := q];
      }
    }

    /** removeBlocked: the first waiter, if the semaphore has any. */
    method RemoveBlocked(k: Key) returns (r: Option<Proc>)
      requires Valid()
      requires k in blocked && blocked[k] != [] ==> blocked[k][0] < |semAdd|
      modifies this, plist, slink, plist.nodes, slink.nodes
      ensures Valid() && key == old(key)
      ensures |plist.contents| == old(|plist.contents|)
      ensures forall l :: 0 <= l < SEMD ==> plist.contents[l] == old(plist.contents)[l]
      ensures k !in old(blocked) ==> r == None && blocked == old(blocked) && semAdd == old(semAdd)
      ensures k in old(blocked) ==>
                var q := old(blocked)[k];
                && q != [] && r == Some(q[0]) && OnNone(plist.contents, q[0])
                && blocked == (if |q| == 1 then old(blocked) - {k} else old(blocked)[k := q[1..]])
                && semAdd == old(semAdd)[q[0] := None]
    {
      var sem, i := PeekActive(k);
      if sem.None? { return None; }
      ghost var queues := plist.contents;
      assert Entry(slink.contents[ACTIVE], key, queues, blocked, i);
      r := RemoveProcQ(plist, SEMD + sem.value);
      semAdd := semAdd[r.value := None];
      UpdateActive(sem.value, i, queues[SEMD + sem.value][1..], queues);
    }

    /** outBlocked: p leaves the queue of the semaphore p_semAdd names; NULL, and no change, if that
        has no descriptor. */
    method OutBlocked(p: Proc) returns (r: Option<Proc>)
      requires Valid() && p < |semAdd| && semAdd[p].Some?
      requires semAdd[p].value in blocked ==> p in blocked[semAdd[p].value]
      modifies this, plist, slink, plist.nodes, slink.nodes
      ensures Valid() && key == old(key)
      ensures |plist.contents| == old(|plist.contents|)
      ensures forall l :: 0 <= l < SEMD ==> plist.contents[l] == old(plist.contents)[l]
      ensures old(semAdd[p].value) !in old(blocked) ==> r == None && blocked == old(blocked) && semAdd == old(semAdd)
      ensures old(semAdd[p].value) in old(blocked) ==>
                var k := old(semAdd[p].value);
                var q := Without(old(blocked)[k], {p});
                && r == Some(p) && semAdd == old(semAdd)[p := None] && OnNone(plist.contents, p)
                && blocked == if q == [] then old(blocked) - {k} else old(blocked)[k := q]
    {
      var sem, i := PeekActive(semAdd[p].value);
      if sem.None? { return None; }
      ghost var queues := plist.contents;
      assert Entry(slink.contents[ACTIVE], key, queues, blocked, i);
      r := OutProcQ(plist, SEMD + sem.value, p);
      semAdd := semAdd[p := None];
      UpdateActive(sem.value, i, Without(queues[SEMD + sem.value], {p}), queues);
    }

    /** headBlocked. */
    method HeadBlocked(k: Key) returns (r: Option<Proc>)
      requires Valid()
      ensures k in blocked ==> blocked[k] != []
      ensures r == if k in blocked then Some(blocked[k][0]) else None
    {
      var sem, i := PeekActive(k);
      if sem.None? { return None; }
      assert Entry(slink.contents[ACTIVE], key, plist.contents, blocked, i);
      r := HeadProcQ(plist, SEMD + sem.value);
    }

    /** p_semAdd := NULL of a PCB that is being set up. */
    method ClearSemAdd(p: Proc)
      requires Valid() && p < |semAdd|
      modifies this`semAdd
      ensures Valid() && semAdd == old(semAdd)[p := None]
    {
      semAdd := semAdd[p := None];
    }
  }
}
