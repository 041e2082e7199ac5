/** The victims of page replacement: while no frame is free, the pager takes the frames in turn,
    whatever happens between two page faults. */
module Victims {
  import opened Pager
  import opened Sequences
  import Paging

  ghost predicate Full(m: Mem) {
    forall f :: 0 <= f < |m.pool| ==> !IsFree(m.pool[f])
  }

  /** No frame becomes free along the run. */
  ghost predicate StaysFull(disk: map<Vp, Page>, s: Paging.Machine, es: seq<Paging.Event>)
    requires Paging.IsRun(disk, s, es)
    decreases |es|
  {
    Full(s.mem) && (es != [] ==> StaysFull(disk, Paging.Next(disk, s, es[0]), es[1..]))
  }

  /** The frames _getFrame chooses along the run. */
  ghost function Chosen(disk: map<Vp, Page>, s: Paging.Machine, es: seq<Paging.Event>): seq<nat>
    requires Paging.IsRun(disk, s, es)
    decreases |es|
  {
    if es == [] then []
    else
      (if es[0].Pager? && s.stage.Acquired? then [PickFrame(s.mem)] else [])
        + Chosen(disk, Paging.Next(disk, s, es[0]), es[1..])
  }

  lemma HandMoves(disk: map<Vp, Page>, s: Paging.Machine, e: Paging.Event)
    requires Paging.Enabled(disk, s, e) && s.mem.hand < |s.mem.pool| && Full(s.mem)
    ensures var t := Paging.Next(disk, s, e);
      && |t.mem.pool| == |s.mem.pool|
      && if e.Pager? && s.stage.Acquired? then
           PickFrame(s.mem) == s.mem.hand && t.mem.hand == Turn(s.mem.hand, |s.mem.pool|)
         else t.mem.hand == s.mem.hand
  {
    FrameChoice(s.mem);
  }

  lemma {:induction false} ChosenInOrder(disk: map<Vp, Page>, s: Paging.Machine, es: seq<Paging.Event>)
    requires Paging.IsRun(disk, s, es) && StaysFull(disk, s, es) && s.mem.hand < |s.mem.pool|
    requires |Chosen(disk, s, es)| <= |s.mem.pool|
    ensures forall k {:trigger Chosen(disk, s, es)[k]} :: 0 <= k < |Chosen(disk, s, es)| ==>
      Chosen(disk, s, es)[k] == Ahead(s.mem.hand, k, |s.mem.pool|)
    decreases |es|
  {
    if es != [] {
      HandMoves(disk, s, es[0]);
      ChosenInOrder(disk, Paging.Next(disk, s, es[0]), es[1..]);
    }
  }

  /** As long as no frame becomes free, frames chosen one after another, POOLSIZE of them at most,
      are all different; POOLSIZE of them are all frames. */
  lemma RoundRobin(disk: map<Vp, Page>, s: Paging.Machine, es: seq<Paging.Event>)
    requires Paging.IsRun(disk, s, es) && StaysFull(disk, s, es) && s.mem.hand < |s.mem.pool|
    requires |Chosen(disk, s, es)| <= |s.mem.pool|
    ensures NoDup(Chosen(disk, s, es))
    ensures |Chosen(disk, s, es)| == |s.mem.pool| ==> forall f :: 0 <= f < |s.mem.pool| ==> f in Chosen(disk, s, es)
  {
    var r, n := Chosen(disk, s, es), |s.mem.pool|;
    ChosenInOrder(disk, s, es);
    if |r| == n {
      forall f | 0 <= f < n ensures f in r {
        assert r[Distance(s.mem.hand, f, n)] == f;
      }
    }
  }
}
