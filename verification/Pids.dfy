/** Process identifiers: allocation with wrap-around and the sorted list of those in use
    (phase1/pcb.c). */
module Pids {

  const WORD: nat := 0x1_0000_0000  // pid_t is a 32-bit unsigned integer
  const FREE_PID: nat := 0xFFFF_FFFF  // FREE_PCB_PID, that is -1 stored in a pid_t

  function Next(c: nat): nat { (c + 1) % WORD }

  /** Where the collision loop stops: the first identifier from c on, cyclically, that is not
      in use. */
  function FirstFree(used: set<nat>, c: nat): nat
    decreases |used|
  {
    if c in used then FirstFree(used - {c}, Next(c)) else c
  }

  /** The search starts at curr_pid, or at 1 once that has wrapped to 0. */
  function Start(currPid: nat): nat { if currPid == 0 then 1 else currPid }

  function PidsOf(list: seq<nat>, pid: seq<nat>): set<nat>
    requires forall p :: p in list ==> p < |pid|
  {
    set p | p in list :: pid[p]
  }

  ghost predicate Sorted(list: seq<nat>, pid: seq<nat>) {
    && (forall i :: 0 <= i < |list| ==> list[i] < |pid|)
    && (forall i, j {:trigger InOrder(list, pid, i, j)} :: 0 <= i < j < |list| ==> InOrder(list, pid, i, j))
  }

  ghost predicate InOrder(list: seq<nat>, pid: seq<nat>, i: nat, j: nat)
    requires i < j < |list| && list[i] < |pid| && list[j] < |pid|
  {
    pid[list[i]] < pid[list[j]]
  }

  /** list with p behind the last entry whose identifier is not greater. */
  function Insert(list: seq<nat>, pid: seq<nat>, p: nat): (r: seq<nat>)
    requires p < |pid| && (forall i :: 0 <= i < |list| ==> list[i] < |pid|)
    ensures forall q :: q in r <==> q in list || q == p
  {
    if list == [] then [p]
    else
      var last := list[|list| - 1];
      assert forall q :: q in list <==> q == last || q in list[..|list| - 1];
      if pid[p] >= pid[last] then list + [p]
      else Insert(list[..|list| - 1], pid, p) + [last]
  }

  /** The identifier n steps on from c. */
  function Ahead(c: nat, n: nat): nat { (c + n) % WORD }

  ghost predicate UsedRun(used: set<nat>, c: nat, n: nat) {
    forall i {:trigger Ahead(c, i)} :: 0 <= i < n ==> Ahead(c, i) in used
  }

  lemma AheadInjective(c: nat, i: nat, j: nat)
    requires i < j < WORD
    ensures Ahead(c, i) != Ahead(c, j)
  {
    var a, b := c + i, c + j;
    assert a == WORD * (a / WORD) + a % WORD && b == WORD * (b / WORD) + b % WORD;
  }

  /** The identifiers passed over after n steps. */
  ghost function Passed(c: nat, n: nat): set<nat> {
    if n == 0 then {} else Passed(c, n - 1) + {Ahead(c, n - 1)}
  }

  lemma {:induction false} PassedIs(c: nat, n: nat)
    requires n <= WORD
    ensures |Passed(c, n)| == n
    ensures forall x :: x in Passed(c, n) <==> exists i :: 0 <= i < n && Ahead(c, i) == x
  {
    if n > 0 {
      PassedIs(c, n - 1);
      forall i | 0 <= i < n - 1 ensures Ahead(c, i) != Ahead(c, n - 1) { AheadInjective(c, i, n - 1); }
    }
  }

  /** The identifier found is unused, and every one the loop passed over was in use: it is the
      cyclically first, at most |used| steps on. */
  lemma {:induction false} FirstFreeIsFirst(used: set<nat>, c: nat) returns (steps: nat)
    requires c < WORD && |used| < WORD
    ensures steps <= |used|
    ensures FirstFree(used, c) == Ahead(c, steps)
    ensures FirstFree(used, c) !in used
    ensures UsedRun(used, c, steps)
  {
    assert used - Passed(c, 0) == used;
    steps := FirstFreeFrom(used, c, 0);
  }

  lemma {:induction false} FirstFreeFrom(used: set<nat>, c: nat, n: nat) returns (steps: nat)
    requires c < WORD && |used| < WORD && n <= |used| && Passed(c, n) <= used && UsedRun(used, c, n)
    ensures n <= steps <= |used|
    ensures FirstFree(used - Passed(c, n), Ahead(c, n)) == Ahead(c, steps)
    ensures Ahead(c, steps) !in used
    ensures UsedRun(used, c, steps)
    decreases |used| - n
  {
    var d := Ahead(c, n);
    PassedIs(c, n);
    assert d !in Passed(c, n) by {
      forall i | 0 <= i < n ensures Ahead(c, i) != d { AheadInjective(c, i, n); }
    }
    if d in used {
      ProperSubset(Passed(c, n), used);
      assert used - Passed(c, n + 1) == (used - Passed(c, n)) - {d};
      NextAhead(c, n);
      steps := FirstFreeFrom(used, c, n + 1);
    } else {
      steps := n;
    }
  }

  lemma NextAhead(c: nat, n: nat)
    ensures Next(Ahead(c, n)) == Ahead(c, n + 1)
  {
  }

  lemma ProperSubset(a: set<nat>, b: set<nat>)
    requires a < b
    ensures |a| < |b|
  {
    assert |b| == |a| + |b - a|;
  }

  lemma {:induction false} PidsOfCount(list: seq<nat>, pid: seq<nat>)
    requires forall p :: p in list ==> p < |pid|
    ensures |PidsOf(list, pid)| <= |list|
  {
    if list != [] {
      forall p | p in list[1..] ensures p < |pid| { assert p in list; }
      assert list[0] in list;
      PidsOfCount(list[1..], pid);
      assert PidsOf(list, pid) == PidsOf(list[1..], pid) + {pid[list[0]]};
    }
  }

  /** Inserting a process with an identifier of its own keeps the list strictly sorted. */
  lemma {:induction false} InsertSorted(list: seq<nat>, pid: seq<nat>, p: nat)
    requires Sorted(list, pid) && p < |pid|
    requires forall q :: q in list ==> pid[q] != pid[p]
    ensures Sorted(Insert(list, pid, p), pid)
  {
    if list != [] {
      var n := |list| - 1;
      var last, front := list[n], list[..n];
      var r := Insert(list, pid, p);
      assert last in list;
      if pid[p] >= pid[last] {
        forall i, j | 0 <= i < j < |r| ensures InOrder(r, pid, i, j) {
          if j < |list| { assert InOrder(list, pid, i, j); }
          else if i < n { assert InOrder(list, pid, i, n); }
        }
      } else {
        forall i, j | 0 <= i < j < |front| ensures InOrder(front, pid, i, j) { assert InOrder(list, pid, i, j); }
        assert forall q :: q in front ==> q in list;
        InsertSorted(front, pid, p);
        var f := Insert(front, pid, p);
        forall i, j | 0 <= i < j < |r| ensures InOrder(r, pid, i, j) {
          if j < |f| { assert InOrder(f, pid, i, j); }
          else {
            assert f[i] in f;
            if f[i] != p {
              var k :| 0 <= k < n && front[k] == f[i];
              assert InOrder(list, pid, k, n);
            }
          }
        }
      }
    }
  }

  /** The reserved value FREE_PCB_PID is handed out exactly when every identifier from the
      start of the search up to it is taken; short of that the identifier is an ordinary
      one, 0 included out. */
  lemma ReservedIff(used: set<nat>, c: nat)
    requires 0 < c < WORD && |used| < WORD
    requires forall x :: x in used ==> 0 < x < FREE_PID
    ensures FirstFree(used, c) == FREE_PID <==> forall x :: c <= x < FREE_PID ==> x in used
    ensures 0 < FirstFree(used, c) <= FREE_PID
  {
    var n := FirstFreeIsFirst(used, c);
    assert Ahead(c, FREE_PID - c) == FREE_PID;
    assert FirstFree(used, c) == c + n;
    forall x | c <= x < c + n ensures x in used { assert Ahead(c, x - c) == x; }
  }
}
