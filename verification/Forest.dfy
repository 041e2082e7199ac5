/** Process trees as values.

    A forest is a list of trees in the order of a child list.  `Rep` says that the parent
    pointers and child lists of the PCB table spell out a given forest; the tree of live
    processes is the forest with the initial process as its only root. */
module Forests {
  import opened Options
  import opened Sequences

  type Proc = nat

  datatype Forest = Nil | Cons(proc: Proc, kids: Forest, rest: Forest)

  function Nodes(f: Forest): set<Proc> {
    match f
    case Nil => {}
    case Cons(p, k, r) => {p} + Nodes(k) + Nodes(r)
  }

  function Roots(f: Forest): (r: seq<Proc>)
    ensures forall x :: x in r ==> x in Nodes(f)
  {
    match f
    case Nil => []
    case Cons(p, k, r) => [p] + Roots(r)
  }

  /** Children before parents, elder siblings first: the order in which PCBs are freed. */
  function Post(f: Forest): seq<Proc> {
    match f
    case Nil => []
    case Cons(p, k, r) => Post(k) + [p] + Post(r)
  }

  ghost predicate Distinct(f: Forest) {
    match f
    case Nil => true
    case Cons(p, k, r) =>
      p !in Nodes(k) && p !in Nodes(r) && Nodes(k) !! Nodes(r) && Distinct(k) && Distinct(r)
  }

  ghost predicate Rep(parent: seq<Option<Proc>>, kids: seq<seq<Proc>>, par: Option<Proc>, f: Forest)
    requires |parent| == |kids|
    decreases f
  {
    match f
    case Nil => true
    case Cons(p, k, r) =>
      && p < |parent|
      && parent[p] == par
      && kids[p] == Roots(k)
      && Rep(parent, kids, Some(p), k)
      && Rep(parent, kids, par, r)
  }

  /** The forest of the children of p. */
  function Sub(f: Forest, p: Proc): (k: Forest)
    requires p in Nodes(f)
    ensures Nodes(k) <= Nodes(f)
  {
    if f.proc == p then f.kids
    else if p in Nodes(f.kids) then Sub(f.kids, p)
    else Sub(f.rest, p)
  }

  /** f without the tree of p. */
  function Prune(f: Forest, p: Proc): (r: Forest)
    ensures Nodes(r) <= Nodes(f)
  {
    match f
    case Nil => Nil
    case Cons(q, k, r) => if q == p then r else Cons(q, Prune(k, p), Prune(r, p))
  }

  /** f with a new last child c under p. */
  function Graft(f: Forest, p: Proc, c: Proc): Forest {
    match f
    case Nil => Nil
    case Cons(q, k, r) =>
      Cons(q, if q == p then Append(Graft(k, p, c), c) else Graft(k, p, c), Graft(r, p, c))
  }

  function Append(f: Forest, c: Proc): (r: Forest)
    ensures Nodes(r) == Nodes(f) + {c}
    ensures Roots(r) == Roots(f) + [c]
  {
    match f
    case Nil => Cons(c, Nil, Nil)
    case Cons(q, k, r) => Cons(q, k, Append(r, c))
  }

  lemma {:induction false} PostMembers(f: Forest, x: Proc)
    ensures x in Post(f) <==> x in Nodes(f)
  {
    if f.Cons? {
      PostMembers(f.kids, x);
      PostMembers(f.rest, x);
    }
  }

  lemma {:induction false} PostNoDup(f: Forest)
    requires Distinct(f)
    ensures NoDup(Post(f))
  {
    if f.Cons? {
      var a, b := Post(f.kids), Post(f.rest);
      PostNoDup(f.kids);
      PostNoDup(f.rest);
      forall x ensures (x in a <==> x in Nodes(f.kids)) && (x in b <==> x in Nodes(f.rest)) {
        PostMembers(f.kids, x);
        PostMembers(f.rest, x);
      }
      NoDupConcat(a, [f.proc]);
      NoDupConcat(a + [f.proc], b);
    }
  }

  lemma PostIsNodes(f: Forest)
    ensures Elements(Post(f)) == Nodes(f)
    ensures Distinct(f) ==> NoDup(Post(f)) && |Post(f)| == |Nodes(f)|
  {
    forall x ensures x in Post(f) <==> x in Nodes(f) { PostMembers(f, x); }
    if Distinct(f) {
      PostNoDup(f);
      NoDupCardinality(Post(f));
    }
  }

  /** The children forest of a process of a represented forest. */
  lemma {:induction false} SubRep(parent: seq<Option<Proc>>, kids: seq<seq<Proc>>, par: Option<Proc>, f: Forest,
                                  p: Proc)
    requires |parent| == |kids| && Rep(parent, kids, par, f) && p in Nodes(f) && Distinct(f)
    ensures p < |parent| && kids[p] == Roots(Sub(f, p))
    ensures Rep(parent, kids, Some(p), Sub(f, p)) && Distinct(Sub(f, p)) && p !in Nodes(Sub(f, p))
    decreases f
  {
    if f.proc == p {
    } else if p in Nodes(f.kids) {
      SubRep(parent, kids, Some(f.proc), f.kids, p);
    } else {
      SubRep(parent, kids, par, f.rest, p);
    }
  }

  /** Inside a represented forest, parent pointers and child lists agree. */
  lemma {:induction false} LinksAgree(parent: seq<Option<Proc>>, kids: seq<seq<Proc>>, par: Option<Proc>, f: Forest,
                                      c: Proc)
    requires |parent| == |kids| && Rep(parent, kids, par, f) && Distinct(f) && c in Nodes(f)
    ensures c < |parent|
    ensures c in Roots(f) ==> parent[c] == par
    ensures c !in Roots(f) ==>
              parent[c].Some? && parent[c].value in Nodes(f) && parent[c].value < |kids| && c in kids[parent[c].value]
    ensures NoDup(kids[c]) && NoDup(Roots(f))
    ensures forall g :: g in kids[c] ==> g in Nodes(f) && g < |parent| && parent[g] == Some(c)
    decreases f
  {
    RootsNoDup(f);
    RootsNoDup(f.kids);
    if c == f.proc {
      forall g | g in kids[c] ensures g in Nodes(f) && g < |parent| && parent[g] == Some(c) {
        LinksAgree(parent, kids, Some(c), f.kids, g);
      }
    } else if c in Nodes(f.kids) {
      LinksAgree(parent, kids, Some(f.proc), f.kids, c);
    } else {
      LinksAgree(parent, kids, par, f.rest, c);
    }
  }

  lemma {:induction false} RootsNoDup(f: Forest)
    requires Distinct(f)
    ensures NoDup(Roots(f))
  {
    if f.Cons? { RootsNoDup(f.rest); }
  }

  /** A forest is represented whatever the links of other processes. */
  lemma {:induction false} RepFrame(
    parent: seq<Option<Proc>>, kids: seq<seq<Proc>>, parent': seq<Option<Proc>>, kids': seq<seq<Proc>>,
    par: Option<Proc>, f: Forest)
    requires |parent| == |kids| == |parent'| == |kids'| && Rep(parent, kids, par, f)
    requires forall q :: q in Nodes(f) && q < |parent| ==> parent'[q] == parent[q] && kids'[q] == kids[q]
    ensures Rep(parent', kids', par, f)
    decreases f
  {
    if f.Cons? {
      RepFrame(parent, kids, parent', kids', Some(f.proc), f.kids);
      RepFrame(parent, kids, parent', kids', par, f.rest);
    }
  }

  /** A new child: the links of p and c alone change. */
  lemma {:induction false} GraftRep(
    parent: seq<Option<Proc>>, kids: seq<seq<Proc>>, par: Option<Proc>, f: Forest, p: Proc, c: Proc)
    requires |parent| == |kids| && Rep(parent, kids, par, f) && Distinct(f)
    requires p < |parent| && c < |parent| && c !in Nodes(f) && c != p && kids[c] == []
    ensures p in Nodes(f) ==> Nodes(Graft(f, p, c)) == Nodes(f) + {c}
    ensures p !in Nodes(f) ==> Graft(f, p, c) == f
    ensures Distinct(Graft(f, p, c)) && Roots(Graft(f, p, c)) == Roots(f)
    ensures Rep(parent[c := Some(p)], kids[p := kids[p] + [c]], par, Graft(f, p, c))
    decreases f
  {
    if f.Cons? {
      GraftRep(parent, kids, Some(f.proc), f.kids, p, c);
      GraftRep(parent, kids, par, f.rest, p, c);
      if f.proc == p {
        AppendRep(parent[c := Some(p)], kids[p := kids[p] + [c]], Some(p), f.kids, c);
      }
    }
  }

  lemma {:induction false} AppendRep(parent: seq<Option<Proc>>, kids: seq<seq<Proc>>, par: Option<Proc>, f: Forest,
                                     c: Proc)
    requires |parent| == |kids| && Rep(parent, kids, par, f) && Distinct(f) && c !in Nodes(f)
    requires c < |parent| && parent[c] == par && kids[c] == []
    ensures Rep(parent, kids, par, Append(f, c)) && Distinct(Append(f, c))
    decreases f
  {
    if f.Cons? { AppendRep(parent, kids, par, f.rest, c); }
  }

  /** Cutting a tree out: exactly its nodes go, and child lists lose exactly those. */
  ghost predicate CutSet(f: Forest, p: Proc, d: set<Proc>) {
    if p in Nodes(f) then d == {p} + Nodes(Sub(f, p)) else d !! Nodes(f)
  }

  /** The cut seen from one tree of the forest: it is the root, or on one side only. */
  lemma CutSides(f: Forest, p: Proc, d: set<Proc>)
    requires f.Cons? && Distinct(f) && CutSet(f, p, d)
    ensures p == f.proc ==> d == {p} + Nodes(f.kids) && d !! Nodes(f.rest) && p !in Nodes(f.rest)
    ensures p != f.proc ==> f.proc !in d && CutSet(f.kids, p, d) && CutSet(f.rest, p, d)
  {
    if p != f.proc && p in Nodes(f) {
      if p in Nodes(f.kids) {
        assert Nodes(Sub(f.kids, p)) <= Nodes(f.kids);
      } else {
        assert Nodes(Sub(f.rest, p)) <= Nodes(f.rest);
      }
    }
  }

  lemma {:induction false} PruneNodes(f: Forest, p: Proc, d: set<Proc>)
    requires Distinct(f) && CutSet(f, p, d)
    ensures Nodes(Prune(f, p)) == Nodes(f) - d && Distinct(Prune(f, p))
  {
    if f.Cons? {
      CutSides(f, p, d);
      if f.proc == p {
        assert Nodes(f) - d == Nodes(f.rest);
      } else {
        PruneNodes(f.kids, p, d);
        PruneNodes(f.rest, p, d);
      }
    }
  }

  lemma {:induction false} PruneRoots(f: Forest, p: Proc, d: set<Proc>)
    requires Distinct(f) && CutSet(f, p, d)
    ensures Roots(Prune(f, p)) == Without(Roots(f), d)
  {
    if f.Cons? {
      CutSides(f, p, d);
      WithoutConcat([f.proc], Roots(f.rest), d);
      if f.proc == p {
        WithoutNone(Roots(f.rest), d);
      } else {
        PruneRoots(f.rest, p, d);
        WithoutNone([f.proc], d);
      }
    }
  }

  /** The pruned forest is what remains represented once every survivor's child list has lost
      the nodes of the cut tree. */
  lemma {:induction false} PruneRep(
    parent: seq<Option<Proc>>, kids: seq<seq<Proc>>, parent': seq<Option<Proc>>, kids': seq<seq<Proc>>,
    par: Option<Proc>, f: Forest, p: Proc, d: set<Proc>)
    requires |parent| == |kids| == |parent'| == |kids'| && Rep(parent, kids, par, f) && Distinct(f)
    requires CutSet(f, p, d)
    requires forall q :: 0 <= q < |parent| && q !in d ==> parent'[q] == parent[q] && kids'[q] == Without(kids[q], d)
    ensures Rep(parent', kids', par, Prune(f, p))
    decreases f
  {
    match f
    case Nil =>
    case Cons(q, k, r) =>
      CutSides(f, p, d);
      if q == p {
        PruneAbsent(r, p);
        PruneRep(parent, kids, parent', kids', par, r, p, d);
      } else {
        PruneRoots(k, p, d);
        PruneRep(parent, kids, parent', kids', Some(q), k, p, d);
        PruneRep(parent, kids, parent', kids', par, r, p, d);
      }
  }

  lemma {:induction false} PruneAbsent(f: Forest, p: Proc)
    requires p !in Nodes(f)
    ensures Prune(f, p) == f
  {
    if f.Cons? {
      PruneAbsent(f.kids, p);
      PruneAbsent(f.rest, p);
    }
  }
}
