/** Why the recursive, step by step destruction of a process tree amounts to removing all its
    nodes at once. */
module Killing {
  import opened Options
  import opened Sequences
  import opened Forests
  import opened KernelState
  import opened Invariant
  import opened Destruction

  ghost predicate AtMostOne(free: seq<Proc>, high: seq<Proc>, low: seq<Proc>, semAdd: seq<Option<Key>>, q: Proc)
    requires q < |semAdd|
  {
    Bit(q in free) + Bit(q in high) + Bit(q in low) + Bit(semAdd[q].Some?) <= 1
  }

  ghost predicate LinkAgrees(parent: seq<Option<Proc>>, kids: seq<seq<Proc>>, q: Proc, g: Proc)
    requires q < |parent| && g < |kids|
  {
    parent[q] == Some(g) <==> q in kids[g]
  }

  /** What stays true of the lists in the middle of a kill. */
  ghost predicate Coherent(s: State) {
    && Sized(s)
    && (forall q {:trigger AtMostOne(s.free, s.high, s.low, s.semAdd, q)} :: 0 <= q < |s.semAdd| ==>
          AtMostOne(s.free, s.high, s.low, s.semAdd, q))
    && Queues(s.blocked, s.semAdd) && Priorities(s.high, s.low, s.prio)
    && (forall q, g {:trigger LinkAgrees(s.parent, s.kids, q, g)} :: 0 <= q < |s.parent| && 0 <= g < |s.kids| ==>
          LinkAgrees(s.parent, s.kids, q, g))
    && (forall q :: 0 <= q < |s.parent| && s.parent[q].Some? ==> s.parent[q].value < |s.kids|)
  }

  /** The processes of d are on the pid list and not free. */
  ghost predicate AllLive(s: State, d: set<Proc>) {
    forall q :: q in d ==> q < |s.pid| && q in s.pids && q !in s.free
  }

  /** p, with the children forest `sub`, can be destroyed. */
  ghost predicate Killable(s: State, p: Proc, sub: Forest) {
    && Coherent(s)
    && p < |s.kids| && s.kids[p] == Roots(sub) && Rep(s.parent, s.kids, Some(p), sub)
    && Distinct(sub) && p !in Nodes(sub)
    && AllLive(s, Nodes(sub) + {p})
  }

  lemma CoreCoherent(s: State, run: Option<Proc>)
    requires Core(s, run)
    ensures Coherent(s)
  {
    forall q | 0 <= q < |s.semAdd| ensures AtMostOne(s.free, s.high, s.low, s.semAdd, q) {
      assert OnePlace(s.free, s.high, s.low, s.semAdd, run, q);
    }
    CoreLinks(s, run);
  }

  /** Every live process can be killed. */
  lemma CoreKillable(s: State, run: Option<Proc>, p: Proc)
    requires Core(s, run) && p in LiveSet(s.pid)
    ensures Killable(s, p, Sub(TreeOf(s), p))
  {
    CoreCoherent(s, run);
    SubRep(s.parent, s.kids, None, TreeOf(s), p);
    LiveListed(s, Nodes(Sub(TreeOf(s), p)) + {p});
  }

  lemma LiveListed(s: State, d: set<Proc>)
    requires PidTable(s.pids, s.pid, s.free) && d <= LiveSet(s.pid)
    ensures AllLive(s, d)
  {
    forall q | q in d ensures q in s.pids && q !in s.free { assert Listed(s.pids, s.pid, s.free, q); }
  }

  lemma CoreLinks(s: State, run: Option<Proc>)
    requires Core(s, run)
    ensures forall q, g {:trigger LinkAgrees(s.parent, s.kids, q, g)} :: 0 <= q < |s.parent| && 0 <= g < |s.kids| ==>
              LinkAgrees(s.parent, s.kids, q, g)
    ensures forall q :: 0 <= q < |s.parent| && s.parent[q].Some? ==> s.parent[q].value < |s.kids|
  {
    TreeLinks(s.parent, s.kids, s.pid, TreeOf(s));
  }

  lemma TreeLinks(parent: seq<Option<Proc>>, kids: seq<seq<Proc>>, pid: seq<nat>, f: Forest)
    requires |parent| == |kids| == |pid| && Tree(parent, kids, pid, f) && DeadUnlinked(parent, kids, pid)
    ensures forall q, g {:trigger LinkAgrees(parent, kids, q, g)} :: 0 <= q < |parent| && 0 <= g < |kids| ==>
              LinkAgrees(parent, kids, q, g)
    ensures forall q :: 0 <= q < |parent| && parent[q].Some? ==> parent[q].value < |kids|
  {
    forall q | 0 <= q < |parent| && parent[q].Some?
      ensures parent[q].value < |kids| && q in kids[parent[q].value]
    {
      assert Unlinked(parent, kids, pid, q);
      LinksAgree(parent, kids, None, f, q);
    }
    forall q, g | 0 <= q < |parent| && 0 <= g < |kids| ensures LinkAgrees(parent, kids, q, g) {
      assert Unlinked(parent, kids, pid, g);
      if g in Nodes(f) { LinksAgree(parent, kids, None, f, g); }
    }
  }

  /** Cutting d out and freeing part of it leaves coherent lists. */
  lemma CoherentAfter(s: State, d: set<Proc>, order: seq<Proc>)
    requires Coherent(s) && Elements(order) <= d && forall x :: x in d ==> x < |s.pid|
    ensures Coherent(Release(Detach(s, d), order))
  {
    var t := Release(Detach(s, d), order);
    KillQueues(s.blocked, s.semAdd, d);
    PartSized(s, d, order);
    forall x | x in Reverse(order) ensures x in d { assert x in Elements(order); }
    forall q | 0 <= q < |t.semAdd| ensures AtMostOne(t.free, t.high, t.low, t.semAdd, q) {
      assert AtMostOne(s.free, s.high, s.low, s.semAdd, q);
      assert q in t.free ==> q in s.free || q in d;
    }
    forall q, g | 0 <= q < |t.parent| && 0 <= g < |t.kids| ensures LinkAgrees(t.parent, t.kids, q, g) {
      assert LinkAgrees(s.parent, s.kids, q, g);
    }
  }

  lemma PartSized(s: State, d: set<Proc>, order: seq<Proc>)
    requires Sized(s) && Elements(order) <= d && forall x :: x in d ==> x < |s.pid|
    ensures Sized(Release(Detach(s, d), order))
  {
    var t := Release(Detach(s, d), order);
    SubBelow(s.high, t.high, |s.pid|);
    SubBelow(s.low, t.low, |s.pid|);
    SubBelow(s.pids, t.pids, |s.pid|);
    forall k | k in t.blocked ensures Below(t.blocked[k], |s.pid|) {
      assert Below(s.blocked[k], |s.pid|);
      SubBelow(s.blocked[k], t.blocked[k], |s.pid|);
    }
    forall i | 0 <= i < |t.free| ensures t.free[i] < |s.pid| {
      if i < |order| { assert Reverse(order)[i] in order && t.free[i] in Elements(order); }
      else { assert t.free[i] == s.free[i - |order|]; }
    }
  }

  /** removeChild, seen from the child: it is off its parent's list before it is killed. */
  function Orphan(s: State, p: Proc): State
    requires p < |s.kids| && s.kids[p] != [] && s.kids[p][0] < |s.parent|
  {
    s.(kids := s.kids[p := s.kids[p][1..]], parent := s.parent[s.kids[p][0] := None])
  }

  lemma OrphanCoherent(s: State, p: Proc)
    requires Coherent(s) && p < |s.kids| && s.kids[p] != [] && NoDup(s.kids[p]) && s.kids[p][0] < |s.parent|
    ensures Coherent(Orphan(s, p))
  {
    var t, c := Orphan(s, p), s.kids[p][0];
    HeadAndTail(s.kids[p]);
    forall q, g | 0 <= q < |t.parent| && 0 <= g < |t.kids| ensures LinkAgrees(t.parent, t.kids, q, g) {
      assert LinkAgrees(s.parent, s.kids, q, g) && LinkAgrees(s.parent, s.kids, c, g)
        && LinkAgrees(s.parent, s.kids, c, p);
    }
  }

  lemma OrphanDetach(s: State, p: Proc, d: set<Proc>)
    requires p < |s.kids| == |s.parent| && s.kids[p] != [] && s.kids[p][0] < |s.parent| && s.kids[p][0] in d
    ensures Detach(Orphan(s, p), d) == Detach(s, d)
  {
    var t := Orphan(s, p);
    assert s.kids[p] == [s.kids[p][0]] + s.kids[p][1..];
    assert KidsWithout(t.kids, d) == KidsWithout(s.kids, d);
    assert Clear(t.parent, d) == Clear(s.parent, d);
  }

  lemma BlockedTwice(m: map<Key, seq<Proc>>, d: set<Proc>, e: set<Proc>)
    ensures BlockedWithout(BlockedWithout(m, d), e) == BlockedWithout(m, d + e)
  {
    forall k | k in m ensures Without(Without(m[k], d), e) == Without(m[k], d + e) { WithoutTwice(m[k], d, e); }
    forall k | k in m && Without(m[k], d) == [] ensures Without(m[k], d + e) == [] { WithoutTwice(m[k], d, e); }
  }

  lemma SoftTwice(semAdd: seq<Option<Key>>, d: set<Proc>, e: set<Proc>)
    requires d !! e
    ensures |SoftSet(semAdd) * (d + e)| == |SoftSet(semAdd) * d| + |SoftSet(Clear(semAdd, d)) * e|
  {
    var soft := SoftSet(semAdd);
    assert SoftSet(Clear(semAdd, d)) == soft - d by {
      assert forall q :: 0 <= q < |semAdd| ==> SoftAt(Clear(semAdd, d), q) == (q !in d && SoftAt(semAdd, q));
    }
    assert soft * (d + e) == soft * d + (soft - d) * e;
  }

  lemma LinksTwice(parent: seq<Option<nat>>, kids: seq<seq<Proc>>, d: set<Proc>, e: set<Proc>)
    ensures Clear(Clear(parent, d), e) == Clear(parent, d + e)
    ensures KidsWithout(KidsWithout(kids, d), e) == KidsWithout(kids, d + e)
  {
    forall i | 0 <= i < |kids| ensures Without(Without(kids[i], d), e) == Without(kids[i], d + e) {
      WithoutTwice(kids[i], d, e);
    }
  }

  /** One destruction after another, of disjoint sets, is one destruction. */
  lemma DetachTwice(s: State, d: set<Proc>, e: set<Proc>)
    requires d !! e
    ensures Detach(Detach(s, d), e) == Detach(s, d + e)
  {
    WithoutTwice(s.high, d, e);
    WithoutTwice(s.low, d, e);
    BlockedTwice(s.blocked, d, e);
    SoftTwice(s.semAdd, d, e);
    LinksTwice(s.semAdd, s.kids, d, e);
    LinksTwice(s.parent, s.kids, d, e);
    assert |d + e| == |d| + |e|;
  }

  lemma ReleaseTwice(s: State, a: seq<Proc>, b: seq<Proc>)
    ensures Release(Release(s, a), b) == Release(s, a + b)
  {
    ReverseConcat(a, b);
    assert Reverse(b) + (Reverse(a) + s.free) == (Reverse(b) + Reverse(a)) + s.free;
    assert Elements(a + b) == Elements(a) + Elements(b);
    WithoutTwice(s.pids, Elements(a), Elements(b));
    assert PidWithout(PidWithout(s.pid, Elements(a)), Elements(b)) == PidWithout(s.pid, Elements(a + b));
  }

  lemma Compose(s: State, d: set<Proc>, a: seq<Proc>, e: set<Proc>, b: seq<Proc>)
    requires d !! e
    ensures Release(Detach(Release(Detach(s, d), a), e), b) == Release(Detach(s, d + e), a + b)
  {
    DetachTwice(s, d, e);
    assert Detach(Release(Detach(s, d), a), e) == Release(Detach(Detach(s, d), e), a);
    ReleaseTwice(Detach(s, d + e), a, b);
  }

  // ----- the single steps of a kill -----

  lemma OffSemaphore(blocked: map<Key, seq<Proc>>, semAdd: seq<Option<Key>>, p: Proc)
    requires Queues(blocked, semAdd) && p < |semAdd|
    ensures semAdd[p] == None ==> BlockedWithout(blocked, {p}) == blocked
    ensures semAdd[p].Some? ==>
              && semAdd[p].value in blocked && p in blocked[semAdd[p].value]
              && BlockedWithout(blocked, {p}) ==
                   var q := Without(blocked[semAdd[p].value], {p});
                   if q == [] then blocked - {semAdd[p].value} else blocked[semAdd[p].value := q]
  {
    assert Queued(blocked, semAdd, p);
    forall k | k in blocked && semAdd[p] != Some(k) ensures Without(blocked[k], {p}) == blocked[k] != [] {
      assert Queue(semAdd, k, blocked[k]);
      WithoutNone(blocked[k], {p});
    }
  }

  lemma OffSoft(semAdd: seq<Option<Key>>, p: Proc)
    requires p < |semAdd|
    ensures Clear(semAdd, {p}) == semAdd[p := None]
    ensures |SoftSet(semAdd) * {p}| == Bit(SoftAt(semAdd, p))
  {
    assert SoftSet(semAdd) * {p} == if SoftAt(semAdd, p) then {p} else {};
  }

  /** outProcQ looks only at the queue of p's priority: p is not on the other. */
  lemma OffReady(s: State, p: Proc)
    requires Priorities(s.high, s.low, s.prio) && p < |s.prio|
    ensures s.prio[p] == LowPrio ==> Without(s.high, {p}) == s.high
    ensures s.prio[p] == HighPrio ==> Without(s.low, {p}) == s.low
  {
    if s.prio[p] == LowPrio { WithoutNone(s.high, {p}); } else { WithoutNone(s.low, {p}); }
  }

  // What the code does with one process, as it does it; and that this is Detach of it alone.

  function DropTree(s: State, p: Proc): State
    requires Sized(s) && p < |s.parent| && (s.parent[p].Some? ==> s.parent[p].value < |s.kids|)
  {
    if s.parent[p] == None then s
    else
      var g := s.parent[p].value;
      s.(kids := s.kids[g := Without(s.kids[g], {p})], parent := s.parent[p := None])
  }

  function DropSemaphore(s: State, p: Proc): State
    requires p < |s.semAdd| && (s.semAdd[p].Some? ==> s.semAdd[p].value in s.blocked)
  {
    if s.semAdd[p] == None then s
    else
      var k := s.semAdd[p].value;
      var q := Without(s.blocked[k], {p});
      s.(blocked := if q == [] then s.blocked - {k} else s.blocked[k := q], semAdd := s.semAdd[p := None],
         soft := if IsSoft(k) then s.soft - 1 else s.soft)
  }

  function DropReady(s: State, p: Proc): State
    requires p < |s.prio|
  {
    if s.prio[p] == LowPrio then s.(low := Without(s.low, {p})) else s.(high := Without(s.high, {p}))
  }

  lemma DropTreeIs(s: State, p: Proc)
    requires Coherent(s) && p < |s.pid| && (s.parent[p].Some? ==> NoDup(s.kids[s.parent[p].value]))
    ensures DropTree(s, p) == s.(parent := Clear(s.parent, {p}), kids := KidsWithout(s.kids, {p}))
  {
    assert Clear(s.parent, {p}) == s.parent[p := None];
    forall g | 0 <= g < |s.kids| && s.parent[p] != Some(g) ensures Without(s.kids[g], {p}) == s.kids[g] {
      assert LinkAgrees(s.parent, s.kids, p, g);
      WithoutNone(s.kids[g], {p});
    }
    if s.parent[p] == None { assert s.parent[p := None] == s.parent; }
  }

  lemma DropSemaphoreIs(s: State, p: Proc)
    requires Queues(s.blocked, s.semAdd) && p < |s.semAdd|
    ensures s.semAdd[p].Some? ==> s.semAdd[p].value in s.blocked && p in s.blocked[s.semAdd[p].value]
    ensures DropSemaphore(s, p) ==
              s.(blocked := BlockedWithout(s.blocked, {p}), semAdd := Clear(s.semAdd, {p}),
                 soft := s.soft - |SoftSet(s.semAdd) * {p}|)
  {
    OffSoft(s.semAdd, p);
    OffSemaphore(s.blocked, s.semAdd, p);
    assert s.semAdd[p] == None ==> s.semAdd[p := None] == s.semAdd;
  }

  lemma DropQueuesIs(u: State, p: Proc)
    requires Queues(u.blocked, u.semAdd) && Priorities(u.high, u.low, u.prio) && p < |u.semAdd| && p < |u.prio|
    ensures u.semAdd[p].Some? ==> u.semAdd[p].value in u.blocked && p in u.blocked[u.semAdd[p].value]
    ensures DropReady(DropSemaphore(u, p), p) ==
              u.(high := Without(u.high, {p}), low := Without(u.low, {p}),
                 blocked := BlockedWithout(u.blocked, {p}), semAdd := Clear(u.semAdd, {p}),
                 soft := u.soft - |SoftSet(u.semAdd) * {p}|)
  {
    DropSemaphoreIs(u, p);
    OffReady(u, p);
  }

  /** p has left the tree and process_count. */
  function Uncounted(s: State, p: Proc): State
    requires Sized(s) && p < |s.parent| && (s.parent[p].Some? ==> s.parent[p].value < |s.kids|)
  {
    DropTree(s, p).(count := s.count - 1)
  }

  /** The tree, the counter, the semaphore and the ready queue: p is detached. */
  lemma DropIsDetach(s: State, p: Proc)
    requires Coherent(s) && p < |s.pid| && (s.parent[p].Some? ==> NoDup(s.kids[s.parent[p].value]))
    ensures s.parent[p].Some? ==> s.parent[p].value < |s.kids| && p in s.kids[s.parent[p].value]
    ensures var u := Uncounted(s, p);
            && (u.semAdd[p].Some? ==> u.semAdd[p].value in u.blocked && p in u.blocked[u.semAdd[p].value])
            && DropReady(DropSemaphore(u, p), p) == Detach(s, {p})
  {
    assert s.parent[p].Some? ==> LinkAgrees(s.parent, s.kids, p, s.parent[p].value);
    UncountedIs(s, p);
    var u := Uncounted(s, p);
    DropQueuesIs(u, p);
    assert |{p}| == 1;
  }

  lemma UncountedIs(s: State, p: Proc)
    requires Coherent(s) && p < |s.pid| && (s.parent[p].Some? ==> NoDup(s.kids[s.parent[p].value]))
    ensures Uncounted(s, p) ==
              s.(parent := Clear(s.parent, {p}), kids := KidsWithout(s.kids, {p}), count := s.count - 1)
  {
    DropTreeIs(s, p);
  }

  // ----- the loop over the children -----

  /** What _killProcess(p) leaves behind. */
  function Destroyed(s: State, p: Proc, sub: Forest): State {
    Release(Detach(s, Nodes(sub) + {p}), Post(sub) + [p])
  }

  function Size(f: Forest): nat {
    match f
    case Nil => 0
    case Cons(_, k, r) => 1 + Size(k) + Size(r)
  }

  /** In the loop: the children of p still to be killed are the trees of `rest`. */
  ghost predicate Forked(t: State, p: Proc, rest: Forest) {
    && Coherent(t)
    && p < |t.kids| && t.kids[p] == Roots(rest) && Rep(t.parent, t.kids, Some(p), rest)
    && Distinct(rest) && p !in Nodes(rest)
    && AllLive(t, Nodes(rest))
  }

  lemma ReleaseNothing(s: State)
    ensures Release(s, []) == s
  {
    WithoutNone(s.pids, {});
    assert PidWithout(s.pid, {}) == s.pid;
    assert Elements([]) == {};
  }

  lemma DetachNothing(s: State)
    requires Coherent(s)
    ensures Release(Detach(s, {}), []) == s
  {
    ReleaseNothing(Detach(s, {}));
    WithoutNone(s.high, {});
    WithoutNone(s.low, {});
    assert Clear(s.semAdd, {}) == s.semAdd && Clear(s.parent, {}) == s.parent;
    LinksWithoutNothing(s.blocked, s.semAdd, s.kids);
    assert SoftSet(s.semAdd) * {} == {};
  }

  lemma LinksWithoutNothing(blocked: map<Key, seq<Proc>>, semAdd: seq<Option<Key>>, kids: seq<seq<Proc>>)
    requires Queues(blocked, semAdd)
    ensures BlockedWithout(blocked, {}) == blocked && KidsWithout(kids, {}) == kids
  {
    forall k | k in blocked ensures Without(blocked[k], {}) == blocked[k] != [] {
      assert Queue(semAdd, k, blocked[k]);
      WithoutNone(blocked[k], {});
    }
    forall i | 0 <= i < |kids| ensures Without(kids[i], {}) == kids[i] { WithoutNone(kids[i], {}); }
  }

  /** The represented forest `f` is untouched when processes outside it go. */
  lemma RepAfter(t: State, par: Option<Proc>, f: Forest, d: set<Proc>)
    requires |t.parent| == |t.kids| && Rep(t.parent, t.kids, par, f) && Distinct(f) && d !! Nodes(f)
    ensures Rep(Clear(t.parent, d), KidsWithout(t.kids, d), par, f)
  {
    forall q | q in Nodes(f) && q < |t.parent| ensures Without(t.kids[q], d) == t.kids[q] {
      LinksAgree(t.parent, t.kids, par, f, q);
      WithoutNone(t.kids[q], d);
    }
    RepFrame(t.parent, t.kids, Clear(t.parent, d), KidsWithout(t.kids, d), par, f);
  }

  lemma ForkedAtStart(s: State, p: Proc, sub: Forest)
    requires Killable(s, p, sub)
    ensures Forked(Detach(s, {p}), p, sub)
  {
    CoherentAfter(s, {p}, []);
    ReleaseNothing(Detach(s, {p}));
    RepAfter(s, Some(p), sub, {p});
    WithoutNone(Roots(sub), {p});
  }

  lemma ChildKillable(t: State, p: Proc, rest: Forest)
    requires Forked(t, p, rest) && rest.Cons?
    ensures t.kids[p] != [] && t.kids[p][0] == rest.proc && rest.proc < |t.parent|
    ensures Killable(Orphan(t, p), rest.proc, rest.kids)
    ensures Coherent(Orphan(t, p)) && Rep(Orphan(t, p).parent, Orphan(t, p).kids, Some(p), rest.rest)
  {
    RootsNoDup(rest);
    OrphanCoherent(t, p);
    var u := Orphan(t, p);
    RepFrame(t.parent, t.kids, u.parent, u.kids, Some(rest.proc), rest.kids);
    RepFrame(t.parent, t.kids, u.parent, u.kids, Some(p), rest.rest);
  }

  lemma AfterChild(t: State, p: Proc, rest: Forest)
    requires Forked(t, p, rest) && rest.Cons?
    ensures t.kids[p] != [] && t.kids[p][0] == rest.proc && rest.proc < |t.parent|
    ensures Forked(Destroyed(Orphan(t, p), rest.proc, rest.kids), p, rest.rest)
  {
    ChildKillable(t, p, rest);
    var u, d, order := Orphan(t, p), Nodes(rest.kids) + {rest.proc}, Post(rest.kids) + [rest.proc];
    TreeOrder(rest.kids, rest.proc);
    CoherentAfter(u, d, order);
    RepAfter(u, Some(p), rest.rest, d);
    assert u.kids[p] == Roots(rest.rest);
    WithoutNone(Roots(rest.rest), d);
    StillLive(u, d, order, Nodes(rest.rest));
  }

  lemma StillLive(u: State, d: set<Proc>, order: seq<Proc>, left: set<Proc>)
    requires AllLive(u, left) && Elements(order) == d && left !! d
    ensures AllLive(Release(Detach(u, d), order), left)
  {
    forall x | x in Reverse(order) ensures x in d { assert x in Elements(order); }
  }

  /** One child more. */
  lemma ChildDone(s: State, t: State, p: Proc, rest: Forest, dead: set<Proc>, order: seq<Proc>)
    requires t == Release(Detach(s, dead), order)
    requires rest.Cons? && dead !! Nodes(rest) && Distinct(rest)
    requires p < |t.kids| == |t.parent| && t.kids[p] != [] && t.kids[p][0] == rest.proc < |t.parent|
    ensures Destroyed(Orphan(t, p), rest.proc, rest.kids) ==
              Release(Detach(s, dead + (Nodes(rest.kids) + {rest.proc})), order + (Post(rest.kids) + [rest.proc]))
  {
    var d := Nodes(rest.kids) + {rest.proc};
    OrphanDetach(t, p, d);
    Compose(s, dead, order, d, Post(rest.kids) + [rest.proc]);
  }

  lemma AllDone(s: State, p: Proc, sub: Forest)
    requires p !in Nodes(sub)
    ensures Release(Release(Detach(Detach(s, {p}), Nodes(sub)), Post(sub)), [p]) == Destroyed(s, p, sub)
  {
    assert {p} + Nodes(sub) == Nodes(sub) + {p};
    var d := Nodes(sub) + {p};
    DetachTwice(s, {p}, Nodes(sub));
    assert Detach(Detach(s, {p}), Nodes(sub)) == Detach(s, d);
    ReleaseTwice(Detach(s, d), Post(sub), [p]);
  }

  /** With its children gone p is on no list, but still has its identifier. */
  lemma DetachedLoose(s: State, p: Proc, sub: Forest)
    requires Killable(s, p, sub)
    ensures var t := Release(Detach(Detach(s, {p}), Nodes(sub)), Post(sub));
            && p !in t.free && p !in t.high && p !in t.low && p in t.pids
            && forall k :: k in t.blocked ==> p !in t.blocked[k]
  {
    DetachTwice(s, {p}, Nodes(sub));
    PostIsNodes(sub);
    forall x | x in Reverse(Post(sub)) ensures x in Nodes(sub) { assert x in Elements(Post(sub)); }
  }

  /** The loop so far: the trees before `rest` are gone, in that order. */
  ghost predicate Progress(s: State, t: State, p: Proc, sub: Forest, rest: Forest, dead: set<Proc>, order: seq<Proc>) {
    && t == Release(Detach(s, dead), order)
    && Accounted(sub, rest, dead, order)
    && Forked(t, p, rest)
  }

  ghost predicate Accounted(sub: Forest, rest: Forest, dead: set<Proc>, order: seq<Proc>) {
    && dead + Nodes(rest) == Nodes(sub) && dead !! Nodes(rest)
    && order + Post(rest) == Post(sub)
    && Size(rest) <= Size(sub)
  }

  lemma AccountedStart(sub: Forest)
    ensures Accounted(sub, sub, {}, [])
  {
    assert [] + Post(sub) == Post(sub);
  }

  lemma AccountedStep(sub: Forest, rest: Forest, dead: set<Proc>, order: seq<Proc>)
    requires Accounted(sub, rest, dead, order) && rest.Cons? && Distinct(rest)
    ensures Accounted(sub, rest.rest, dead + (Nodes(rest.kids) + {rest.proc}), order + (Post(rest.kids) + [rest.proc]))
  {
    assert order + (Post(rest.kids) + [rest.proc]) + Post(rest.rest) == order + Post(rest);
  }

  lemma ProgressEnd(s: State, t: State, p: Proc, sub: Forest, dead: set<Proc>, order: seq<Proc>)
    requires Progress(s, t, p, sub, Nil, dead, order)
    ensures t == Release(Detach(s, Nodes(sub)), Post(sub))
  {
    assert dead == Nodes(sub) && order == Post(sub);
  }

  lemma ProgressStart(s: State, p: Proc, sub: Forest)
    requires Forked(s, p, sub)
    ensures Progress(s, s, p, sub, sub, {}, [])
  {
    DetachNothing(s);
    AccountedStart(sub);
  }

  lemma ProgressStep(s: State, t: State, p: Proc, sub: Forest, rest: Forest, dead: set<Proc>, order: seq<Proc>,
                     u: State)
    requires Progress(s, t, p, sub, rest, dead, order) && rest.Cons?
    requires t.kids[p] != [] && t.kids[p][0] == rest.proc && rest.proc < |t.parent|
    requires u == Destroyed(Orphan(t, p), rest.proc, rest.kids)
    ensures Progress(s, u, p, sub, rest.rest, dead + (Nodes(rest.kids) + {rest.proc}),
                     order + (Post(rest.kids) + [rest.proc]))
  {
    ChildDone(s, t, p, rest, dead, order);
    AfterChild(t, p, rest);
    AccountedStep(sub, rest, dead, order);
  }

  lemma KillPlan(s: State, p: Proc, sub: Forest)
    requires Killable(s, p, sub)
    ensures Forked(Detach(s, {p}), p, sub)
    ensures var t := Release(Detach(Detach(s, {p}), Nodes(sub)), Post(sub));
            && p !in t.free && p !in t.high && p !in t.low && p in t.pids
            && (forall k :: k in t.blocked ==> p !in t.blocked[k])
            && Release(t, [p]) == Destroyed(s, p, sub)
  {
    ForkedAtStart(s, p, sub);
    DetachedLoose(s, p, sub);
    AllDone(s, p, sub);
  }
}
