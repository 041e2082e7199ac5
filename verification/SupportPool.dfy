/** The free support structures of phase3/initProc.c: a list used as a stack.  `_allocate` reads its
    head twice, once for the structure it returns and once for the structure it takes off, and test
    can be preempted in between.  Each of the two reads is a step here, and so is the whole of a
    `_deallocate`, from signalProcessTermination. */
module SupportPool {
  import opened Options
  import opened Sequences

  datatype Pool = Pool(
    free: seq<nat>,           // free_support
    pending: Option<nat>,     // what _allocate has read for its result
    held: set<nat>)           // structures of running processes

  datatype Event =
    | Read              // container_of(free_support.next, ...)
    | Take              // list_del(free_support.next), and the result goes to a new process
    | Give(x: nat)      // _deallocate, by the process that holds x

  predicate Enabled(s: Pool, e: Event) {
    match e
    case Read => s.pending == None && s.free != []
    case Take => s.pending.Some? && s.free != []
    case Give(x) => x in s.held
  }

  function Next(s: Pool, e: Event): Pool
    requires Enabled(s, e)
  {
    match e
    case Read => s.(pending := Some(s.free[0]))
    case Take => Pool(s.free[1..], None, s.held + {s.pending.value})
    case Give(x) => s.(free := [x] + s.free, held := s.held - {x})
  }

  /** No structure is free and in use, or free twice. */
  ghost predicate Sound(s: Pool) {
    NoDup(s.free) && forall x :: x in s.free ==> x !in s.held
  }

  ghost predicate Inv(s: Pool) {
    Sound(s) && (s.pending.Some? ==> s.pending.value in s.free)
  }

  lemma ReadKeeps(s: Pool)
    requires Inv(s) && Enabled(s, Read)
    ensures Inv(Next(s, Read))
  {
  }

  lemma GiveKeeps(s: Pool, x: nat)
    requires Inv(s) && Enabled(s, Give(x))
    ensures Inv(Next(s, Give(x)))
  {
  }

  /** The structure handed out is in use only by the new process exactly if the head is still the one
      that was read. */
  lemma TakeKeepsIff(s: Pool)
    requires Inv(s) && Enabled(s, Take)
    ensures Inv(Next(s, Take)) <==> s.pending == Some(s.free[0])
  {
    var x := s.pending.value;
    if x == s.free[0] {
      HeadAndTail(s.free);
    } else {
      assert x in s.free[1..] by {
        var i :| 0 <= i < |s.free| && s.free[i] == x;
        assert s.free[1..][i - 1] == x;
      }
    }
  }

  function Gives(xs: seq<nat>): seq<Event> { seq(|xs|, i requires 0 <= i < |xs| => Give(xs[i])) }

  ghost predicate IsRun(s: Pool, es: seq<Event>)
    decreases |es|
  {
    es == [] || (Enabled(s, es[0]) && IsRun(Next(s, es[0]), es[1..]))
  }

  ghost function Exec(s: Pool, es: seq<Event>): Pool
    requires IsRun(s, es)
    decreases |es|
  {
    if es == [] then s else Exec(Next(s, es[0]), es[1..])
  }

  lemma {:induction false} GivesKeep(s: Pool, xs: seq<nat>)
    requires Inv(s) && IsRun(s, Gives(xs))
    ensures var t := Exec(s, Gives(xs));
      && Inv(t) && t.pending == s.pending && (s.free != [] ==> t.free != [])
      && (xs != [] ==> t.free != [] && t.free[0] == xs[|xs| - 1])
      && (xs == [] ==> t == s)
      && forall x :: x in s.free ==> x in t.free && x !in xs
    decreases |xs|
  {
    if xs != [] {
      var rest := xs[1..];
      assert Gives(xs)[0] == Give(xs[0]) && Gives(xs)[1..] == Gives(rest);
      GiveKeeps(s, xs[0]);
      GivesKeep(Next(s, Give(xs[0])), rest);
      assert forall x :: x in xs <==> x == xs[0] || x in rest;
    }
  }

  /** Between the two reads of one _allocate, terminating processes give back the structures xs: the
      pool is sound afterwards exactly if there are none. */
  lemma AllocateSoundIff(s: Pool, xs: seq<nat>)
    requires Inv(s) && Enabled(s, Read) && IsRun(Next(s, Read), Gives(xs))
    ensures var t := Exec(Next(s, Read), Gives(xs));
      Enabled(t, Take) && (Inv(Next(t, Take)) <==> xs == [])
  {
    var r := Next(s, Read);
    ReadKeeps(s);
    GivesKeep(r, xs);
    var t := Exec(r, Gives(xs));
    TakeKeepsIff(t);
    if xs != [] { assert xs[|xs| - 1] in xs; }
  }

  /** What then happens: the next start hands out the same structure once more. */
  lemma HandedOutTwice(s: Pool, x: nat)
    requires Inv(s) && s.pending == None && s.free != [] && x in s.held
    ensures var es := [Read, Give(x), Take, Read];
      IsRun(s, es) && Exec(s, es).pending == Some(s.free[0]) && s.free[0] in Exec(s, es).held
  {
    var s1 := Next(s, Read);
    var s2 := Next(s1, Give(x));
    var s3 := Next(s2, Take);
    assert s3.free == s.free;
    assert [Read, Give(x), Take, Read][1..] == [Give(x), Take, Read];
    assert [Give(x), Take, Read][1..] == [Take, Read] && [Take, Read][1..] == [Read] && [Read][1..] == [];
    var s4 := Next(s3, Read);
    assert IsRun(s3, [Read]) && Exec(s3, [Read]) == s4;
    assert IsRun(s2, [Take, Read]) && Exec(s2, [Take, Read]) == s4;
    assert IsRun(s1, [Give(x), Take, Read]) && Exec(s1, [Give(x), Take, Read]) == s4;
  }
}
