/** _killProcess, as a change of state: exactly the descendants go, every queue and list
    keeps its other members in order, and the invariant holds again. */
module Destruction {
  import opened Options
  import opened Sequences
  import opened Forests
  import opened KernelState
  import opened Invariant
  import Pids

  /** p and its descendants. */
  ghost function Doomed(s: State, p: Proc): set<Proc>
    requires Sized(s) && IsTree(s) && p in LiveSet(s.pid)
  {
    Nodes(Sub(TreeOf(s), p)) + {p}
  }

  function RunAfter(run: Option<Proc>, d: set<Proc>): Option<Proc> {
    if run.Some? && run.value in d then None else run
  }

  /** The freeing order of one tree lists its nodes once each. */
  lemma TreeOrder(sub: Forest, p: Proc)
    requires Distinct(sub) && p !in Nodes(sub)
    ensures NoDup(Post(sub) + [p]) && Elements(Post(sub) + [p]) == Nodes(sub) + {p}
    ensures |Post(sub) + [p]| == |Nodes(sub) + {p}|
  {
    PostNoDup(sub);
    forall x ensures x in Post(sub) <==> x in Nodes(sub) { PostMembers(sub, x); }
    NoDupSnoc(Post(sub), Nodes(sub), p);
  }

  lemma KillOrder(s: State, p: Proc)
    requires Sized(s) && IsTree(s) && p in LiveSet(s.pid)
    ensures var order := Post(Sub(TreeOf(s), p)) + [p];
            NoDup(order) && Elements(order) == Doomed(s, p) && |order| == |Doomed(s, p)|
    ensures Doomed(s, p) <= LiveSet(s.pid)
  {
    SubRep(s.parent, s.kids, None, TreeOf(s), p);
    TreeOrder(Sub(TreeOf(s), p), p);
  }

  lemma KillPlaces(free: seq<Proc>, high: seq<Proc>, low: seq<Proc>, semAdd: seq<Option<Key>>, run: Option<Proc>,
                   d: set<Proc>, order: seq<Proc>)
    requires Places(free, high, low, semAdd, run)
    requires NoDup(order) && Elements(order) == d && forall x :: x in d ==> x !in free
    ensures Places(Reverse(order) + free, Without(high, d), Without(low, d), Clear(semAdd, d), RunAfter(run, d))
  {
    var free', high', low', semAdd', run' :=
      Reverse(order) + free, Without(high, d), Without(low, d), Clear(semAdd, d), RunAfter(run, d);
    forall x | x in Reverse(order) ensures x in d { assert x in order; }
    ReverseNoDup(order);
    NoDupConcat(Reverse(order), free);
    WithoutNoDup(high, d);
    WithoutNoDup(low, d);
    forall q | 0 <= q < |semAdd'| ensures OnePlace(free', high', low', semAdd', run', q) {
      assert OnePlace(free, high, low, semAdd, run, q);
      assert q in d <==> q in order;
      assert q in free' <==> q in free || q in d;
    }
  }

  lemma KillQueues(blocked: map<Key, seq<Proc>>, semAdd: seq<Option<Key>>, d: set<Proc>)
    requires Queues(blocked, semAdd)
    ensures Queues(BlockedWithout(blocked, d), Clear(semAdd, d))
  {
    var blocked', semAdd' := BlockedWithout(blocked, d), Clear(semAdd, d);
    forall k | k in blocked' ensures Queue(semAdd', k, blocked'[k]) {
      assert Queue(semAdd, k, blocked[k]);
      WithoutNoDup(blocked[k], d);
    }
    forall x | 0 <= x < |semAdd'| ensures Queued(blocked', semAdd', x) {
      assert Queued(blocked, semAdd, x);
      if semAdd'[x].Some? {
        assert x in Without(blocked[semAdd[x].value], d);
      }
    }
  }

  lemma {:induction false} WithoutSorted(list: seq<Proc>, pid: seq<nat>, pid': seq<nat>, d: set<Proc>)
    requires Pids.Sorted(list, pid) && |pid'| == |pid|
    requires forall q :: 0 <= q < |pid| && q !in d ==> pid'[q] == pid[q]
    ensures Pids.Sorted(Without(list, d), pid')
  {
    var r := Without(list, d);
    if list != [] {
      var t := list[1..];
      forall i, j | 0 <= i < j < |t| ensures Pids.InOrder(t, pid, i, j) {
        assert Pids.InOrder(list, pid, i + 1, j + 1);
      }
      WithoutSorted(t, pid, pid', d);
      if list[0] !in d {
        forall i, j | 0 <= i < j < |r| ensures Pids.InOrder(r, pid', i, j) {
          if i == 0 {
            assert r[j] in Without(t, d);
            var k :| 0 <= k < |t| && t[k] == r[j];
            assert Pids.InOrder(list, pid, 0, k + 1);
          } else {
            assert Pids.InOrder(Without(t, d), pid', i - 1, j - 1);
          }
        }
      }
    }
  }

  lemma KillPids(pids: seq<Proc>, pid: seq<nat>, free: seq<Proc>, d: set<Proc>, order: seq<Proc>)
    requires PidTable(pids, pid, free) && Elements(order) == d
    ensures PidTable(Without(pids, d), PidWithout(pid, d), Reverse(order) + free)
  {
    var pids', pid', free' := Without(pids, d), PidWithout(pid, d), Reverse(order) + free;
    WithoutSorted(pids, pid, pid', d);
    forall q | 0 <= q < |pid'| ensures Listed(pids', pid', free', q) {
      assert Listed(pids, pid, free, q);
      assert q in d <==> q in order;
      assert q in free' <==> q in free || q in d;
    }
  }

  lemma KillCounts(pid: seq<nat>, semAdd: seq<Option<Key>>, d: set<Proc>)
    requires d <= LiveSet(pid)
    ensures LiveSet(PidWithout(pid, d)) == LiveSet(pid) - d
    ensures |LiveSet(PidWithout(pid, d))| == |LiveSet(pid)| - |d|
    ensures |SoftSet(Clear(semAdd, d))| == |SoftSet(semAdd)| - |SoftSet(semAdd) * d|
  {
    var semAdd' := Clear(semAdd, d);
    assert LiveSet(PidWithout(pid, d)) == LiveSet(pid) - d;
    assert |LiveSet(pid)| == |LiveSet(pid) - d| + |d| by {
      assert LiveSet(pid) == (LiveSet(pid) - d) + d;
    }
    var soft := SoftSet(semAdd);
    assert SoftSet(semAdd') == soft - d by {
      assert forall q :: 0 <= q < |semAdd'| ==> SoftAt(semAdd', q) == (q !in d && SoftAt(semAdd, q));
    }
    assert soft == (soft - d) + soft * d;
  }

  lemma KillTree(parent: seq<Option<Proc>>, kids: seq<seq<Proc>>, pid: seq<nat>, f: Forest, p: Proc, d: set<Proc>)
    requires |parent| == |kids| == |pid| && Tree(parent, kids, pid, f)
    requires p in Nodes(f) && d == Nodes(Sub(f, p)) + {p}
    ensures Tree(Clear(parent, d), KidsWithout(kids, d), PidWithout(pid, d), Prune(f, p))
  {
    assert d <= LiveSet(pid);
    assert LiveSet(PidWithout(pid, d)) == LiveSet(pid) - d;
    PruneNodes(f, p, d);
    PruneRep(parent, kids, Clear(parent, d), KidsWithout(kids, d), None, f, p, d);
  }

  /** A process of a dying tree has no child outside it. */
  lemma ChildrenDie(parent: seq<Option<Proc>>, kids: seq<seq<Proc>>, f: Forest, p: Proc, q: Proc)
    requires |parent| == |kids| && Rep(parent, kids, None, f) && Distinct(f) && p in Nodes(f)
    requires q in Nodes(Sub(f, p)) + {p}
    ensures q < |kids| && forall c :: c in kids[q] ==> c in Nodes(Sub(f, p))
  {
    SubRep(parent, kids, None, f, p);
    if q != p {
      LinksAgree(parent, kids, Some(p), Sub(f, p), q);
    }
  }

  lemma {:induction false} WithoutAll(s: seq<Proc>, d: set<Proc>)
    requires forall x :: x in s ==> x in d
    ensures Without(s, d) == []
  {
    if s != [] { WithoutAll(s[1..], d); }
  }

  lemma KillDead(parent: seq<Option<Proc>>, kids: seq<seq<Proc>>, pid: seq<nat>, f: Forest, p: Proc, d: set<Proc>)
    requires |parent| == |kids| == |pid| && Tree(parent, kids, pid, f) && DeadUnlinked(parent, kids, pid)
    requires p in Nodes(f) && d == Nodes(Sub(f, p)) + {p}
    ensures DeadUnlinked(Clear(parent, d), KidsWithout(kids, d), PidWithout(pid, d))
  {
    var parent', kids', pid' := Clear(parent, d), KidsWithout(kids, d), PidWithout(pid, d);
    forall q | 0 <= q < |pid| ensures Unlinked(parent', kids', pid', q) {
      assert Unlinked(parent, kids, pid, q);
      if q in d {
        ChildrenDie(parent, kids, f, p, q);
        WithoutAll(kids[q], d);
      }
    }
  }

  lemma KillSized(s: State, d: set<Proc>, order: seq<Proc>)
    requires Sized(s) && Elements(order) == d && forall x :: x in d ==> x < |s.pid|
    ensures Sized(Release(Detach(s, d), order))
  {
    var t := Release(Detach(s, d), order);
    SubBelow(s.high, t.high, |s.pid|);
    SubBelow(s.low, t.low, |s.pid|);
    SubBelow(s.pids, t.pids, |s.pid|);
    forall k | k in t.blocked ensures Below(t.blocked[k], |s.pid|) {
      assert Below(s.blocked[k], |s.pid|);
      SubBelow(s.blocked[k], t.blocked[k], |s.pid|);
    }
    forall i | 0 <= i < |t.free| ensures t.free[i] < |s.pid| {
      if i < |order| { assert Reverse(order)[i] in order && t.free[i] in d; }
      else { assert t.free[i] == s.free[i - |order|]; }
    }
  }

  lemma SubBelow(q: seq<Proc>, r: seq<Proc>, n: nat)
    requires Below(q, n) && forall x :: x in r ==> x in q
    ensures Below(r, n)
  {
    forall i | 0 <= i < |r| ensures r[i] < n { assert r[i] in q; }
  }

  lemma KillKeepsQueues(s: State, run: Option<Proc>, p: Proc)
    requires Core(s, run) && p in LiveSet(s.pid)
    ensures var t, d := Kill(s, p), Doomed(s, p);
            && Places(t.free, t.high, t.low, t.semAdd, RunAfter(run, d)) && Queues(t.blocked, t.semAdd)
            && Priorities(t.high, t.low, t.prio) && Cells(t.val, t.blocked)
  {
    var d, order := Doomed(s, p), Post(Sub(TreeOf(s), p)) + [p];
    KillOrder(s, p);
    forall x | x in d ensures x !in s.free { assert Listed(s.pids, s.pid, s.free, x); }
    KillPlaces(s.free, s.high, s.low, s.semAdd, run, d, order);
    KillQueues(s.blocked, s.semAdd, d);
  }

  lemma KillKeepsNames(s: State, run: Option<Proc>, p: Proc)
    requires Core(s, run) && p in LiveSet(s.pid)
    ensures var t := Kill(s, p);
            && Sized(t) && PidTable(t.pids, t.pid, t.free)
            && t.count == |LiveSet(t.pid)| && t.soft == |SoftSet(t.semAdd)|
            && Tree(t.parent, t.kids, t.pid, Prune(TreeOf(s), p)) && DeadUnlinked(t.parent, t.kids, t.pid)
    ensures LiveSet(Kill(s, p).pid) == LiveSet(s.pid) - Doomed(s, p)
  {
    var d, order := Doomed(s, p), Post(Sub(TreeOf(s), p)) + [p];
    KillOrder(s, p);
    KillSized(s, d, order);
    KillPids(s.pids, s.pid, s.free, d, order);
    KillCounts(s.pid, s.semAdd, d);
    KillTree(s.parent, s.kids, s.pid, TreeOf(s), p, d);
    KillDead(s.parent, s.kids, s.pid, TreeOf(s), p, d);
  }

  lemma KillKeeps(s: State, run: Option<Proc>, p: Proc)
    requires Core(s, run) && p in LiveSet(s.pid)
    ensures Core(Kill(s, p), RunAfter(run, Doomed(s, p)))
    ensures LiveSet(Kill(s, p).pid) == LiveSet(s.pid) - Doomed(s, p)
  {
    KillKeepsQueues(s, run, p);
    KillKeepsNames(s, run, p);
  }

  // ----- who dies, and what the others keep -----

  /** Following n parent pointers from q leads to p. */
  ghost predicate Descends(parent: seq<Option<Proc>>, q: Proc, p: Proc, n: nat)
    decreases n
  {
    if n == 0 then q == p
    else q < |parent| && parent[q].Some? && Descends(parent, parent[q].value, p, n - 1)
  }

  ghost predicate Descendant(parent: seq<Option<Proc>>, q: Proc, p: Proc) {
    exists n :: Descends(parent, q, p, n)
  }

  lemma {:induction false} DescendsOn(parent: seq<Option<Proc>>, q: Proc, r: Proc, p: Proc, n: nat)
    requires Descends(parent, q, r, n) && r < |parent| && parent[r] == Some(p)
    ensures Descends(parent, q, p, n + 1)
    decreases n
  {
    if n == 0 {
      assert Descends(parent, p, p, 0);
    } else {
      DescendsOn(parent, parent[q].value, r, p, n - 1);
    }
  }

  lemma {:induction false} NodesDescend(parent: seq<Option<Proc>>, kids: seq<seq<Proc>>, f: Forest, p: Proc, q: Proc)
    requires |parent| == |kids| && Rep(parent, kids, Some(p), f) && q in Nodes(f)
    ensures Descendant(parent, q, p)
    decreases f
  {
    if q == f.proc {
      assert Descends(parent, p, p, 0);
      assert Descends(parent, q, p, 1);
    } else if q in Nodes(f.kids) {
      NodesDescend(parent, kids, f.kids, f.proc, q);
      var n :| Descends(parent, q, f.proc, n);
      DescendsOn(parent, q, f.proc, p, n);
    } else {
      NodesDescend(parent, kids, f.rest, p, q);
    }
  }

  lemma {:induction false} DescendantsInSub(
    parent: seq<Option<Proc>>, kids: seq<seq<Proc>>, f: Forest, p: Proc, q: Proc, n: nat)
    requires |parent| == |kids| && Rep(parent, kids, None, f) && Distinct(f) && p in Nodes(f)
    requires q in Nodes(f) && Descends(parent, q, p, n)
    ensures q in Nodes(Sub(f, p)) + {p}
    decreases n
  {
    if n > 0 {
      LinksAgree(parent, kids, None, f, q);
      var g := parent[q].value;
      DescendantsInSub(parent, kids, f, p, g, n - 1);
      ChildrenDie(parent, kids, f, p, g);
    }
  }

  /** The victims of a kill are the live processes from which parent pointers lead to it. */
  lemma DoomedAreDescendants(s: State, run: Option<Proc>, p: Proc, q: Proc)
    requires Core(s, run) && p in LiveSet(s.pid)
    ensures q in Doomed(s, p) <==> q in LiveSet(s.pid) && Descendant(s.parent, q, p)
  {
    var f := TreeOf(s);
    SubRep(s.parent, s.kids, None, f, p);
    if q == p {
      assert Descends(s.parent, p, p, 0);
    } else if q in Doomed(s, p) {
      NodesDescend(s.parent, s.kids, Sub(f, p), p, q);
    }
    if q in LiveSet(s.pid) && Descendant(s.parent, q, p) {
      var n :| Descends(s.parent, q, p, n);
      DescendantsInSub(s.parent, s.kids, f, p, q, n);
    }
  }

  /** Every process stands under the first one: no orphan ever exists. */
  lemma NoOrphan(s: State, run: Option<Proc>, q: Proc)
    requires Core(s, run) && q in LiveSet(s.pid)
    ensures FIRST in LiveSet(s.pid) && Descendant(s.parent, q, FIRST)
    ensures s.parent[q] == None <==> q == FIRST
    ensures s.parent[q].Some? ==> s.parent[q].value in LiveSet(s.pid) && q in s.kids[s.parent[q].value]
  {
    var f := TreeOf(s);
    assert q in Nodes(f) && f.proc == FIRST;
    DoomedAreDescendants(s, run, FIRST, q);
    assert Sub(f, FIRST) == f.kids;
    LinksAgree(s.parent, s.kids, None, f, q);
    assert Roots(f) == [FIRST];
  }

  /** The identity of a survivor, its links and its places are those it had; the count falls by
      the number of victims. */
  lemma Survivors(s: State, run: Option<Proc>, p: Proc, q: Proc)
    requires Core(s, run) && p in LiveSet(s.pid) && q in LiveSet(s.pid) && q !in Doomed(s, p)
    ensures var t := Kill(s, p);
            && q in LiveSet(t.pid) && t.pid[q] == s.pid[q] && t.parent[q] == s.parent[q] && t.semAdd[q] == s.semAdd[q]
            && (q in t.high <==> q in s.high) && (q in t.low <==> q in s.low)
            && (forall k :: k in s.blocked && q in s.blocked[k] <==> k in t.blocked && q in t.blocked[k])
            && (t.parent[q].Some? ==> t.parent[q].value in LiveSet(t.pid))
            && t.count == s.count - |Doomed(s, p)|
  {
    var t := Kill(s, p);
    KillKeeps(s, run, p);
    KillKeepsNames(s, run, p);
    NoOrphan(s, run, q);
    if s.parent[q].Some? && s.parent[q].value in Doomed(s, p) {
      ChildrenDie(s.parent, s.kids, TreeOf(s), p, s.parent[q].value);
      assert false;
    }
  }

  /** Two survivors of one queue, or one child list, keep their order. */
  lemma SurvivorsOrder(s: State, run: Option<Proc>, p: Proc, a: Proc, b: Proc)
    requires Core(s, run) && p in LiveSet(s.pid) && a !in Doomed(s, p) && b !in Doomed(s, p)
    ensures var t := Kill(s, p);
            && (Before(t.high, a, b) <==> Before(s.high, a, b))
            && (Before(t.low, a, b) <==> Before(s.low, a, b))
            && (forall k :: k in s.blocked && k in t.blocked ==>
                  (Before(t.blocked[k], a, b) <==> Before(s.blocked[k], a, b)))
            && (forall g :: g in LiveSet(s.pid) ==> (Before(t.kids[g], a, b) <==> Before(s.kids[g], a, b)))
  {
    var d := Doomed(s, p);
    WithoutKeepsOrder(s.high, d, a, b);
    WithoutKeepsOrder(s.low, d, a, b);
    forall k | k in s.blocked ensures Before(Without(s.blocked[k], d), a, b) <==> Before(s.blocked[k], a, b) {
      assert Queue(s.semAdd, k, s.blocked[k]);
      WithoutKeepsOrder(s.blocked[k], d, a, b);
    }
    forall g | g in LiveSet(s.pid) ensures Before(Without(s.kids[g], d), a, b) <==> Before(s.kids[g], a, b) {
      LinksAgree(s.parent, s.kids, None, TreeOf(s), g);
      WithoutKeepsOrder(s.kids[g], d, a, b);
    }
  }

  lemma FirstDiesLast(parent: seq<Option<Proc>>, kids: seq<seq<Proc>>, pid: seq<nat>, f: Forest, p: Proc)
    requires |parent| == |kids| == |pid| && Tree(parent, kids, pid, f) && p in Nodes(f)
    ensures FIRST in Nodes(Sub(f, p)) + {p} <==> p == FIRST
    ensures p == FIRST ==> Nodes(Sub(f, p)) + {p} == Nodes(f)
  {
    if p != FIRST {
      assert p in Nodes(f.kids) && Sub(f, p) == Sub(f.kids, p);
    }
  }

  /** process_count reaches 0 exactly when the first process is killed. */
  lemma CountZeroIffFirst(s: State, run: Option<Proc>, p: Proc)
    requires Core(s, run) && p in LiveSet(s.pid)
    ensures Kill(s, p).count == 0 <==> p == FIRST
    ensures LiveSet(Kill(s, p).pid) == {} <==> p == FIRST
  {
    KillKeepsNames(s, run, p);
    FirstDiesLast(s.parent, s.kids, s.pid, TreeOf(s), p);
    NoOrphan(s, run, p);
    assert FIRST in LiveSet(s.pid);
    assert p != FIRST ==> FIRST in LiveSet(Kill(s, p).pid);
  }
}
