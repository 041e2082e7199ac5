/** Sequences used as queues: no repetitions, removal, order. */
module Sequences {
  ghost predicate NoDup<T>(s: seq<T>) {
    forall i, j :: 0 <= i < j < |s| ==> s[i] != s[j]
  }

  /** s without the elements of d, the others in their order. */
  function Without(s: seq<nat>, d: set<nat>): (r: seq<nat>)
    ensures forall x :: x in r <==> x in s && x !in d
    ensures |r| <= |s|
  {
    if s == [] then []
    else
      var r := Without(s[1..], d);
      assert forall x :: x in s <==> x == s[0] || x in s[1..];
      if s[0] in d then r else [s[0]] + r
  }

  function Reverse(s: seq<nat>): (r: seq<nat>)
    ensures |r| == |s|
    ensures forall x :: x in r <==> x in s
  {
    if s == [] then [] else
    assert forall x :: x in s <==> x == s[0] || x in s[1..];
    Reverse(s[1..]) + [s[0]]
  }

  /** a stands before b in s. */
  ghost predicate Before(s: seq<nat>, a: nat, b: nat) {
    exists i, j :: 0 <= i < j < |s| && s[i] == a && s[j] == b
  }

  function Elements(s: seq<nat>): set<nat> {
    set x | x in s
  }

  lemma {:induction false} WithoutNoDup(s: seq<nat>, d: set<nat>)
    requires NoDup(s)
    ensures NoDup(Without(s, d))
  {
    if s != [] {
      WithoutNoDup(s[1..], d);
    }
  }

  lemma {:induction false} WithoutConcat(s: seq<nat>, t: seq<nat>, d: set<nat>)
    ensures Without(s + t, d) == Without(s, d) + Without(t, d)
  {
    if s == [] {
      assert s + t == t;
    } else {
      assert (s + t)[1..] == s[1..] + t;
      WithoutConcat(s[1..], t, d);
    }
  }

  lemma {:induction false} WithoutTwice(s: seq<nat>, d: set<nat>, e: set<nat>)
    ensures Without(Without(s, d), e) == Without(s, d + e)
  {
    if s != [] {
      WithoutTwice(s[1..], d, e);
      if s[0] !in d {
        assert ([s[0]] + Without(s[1..], d))[1..] == Without(s[1..], d);
      }
    }
  }

  lemma {:induction false} WithoutNone(s: seq<nat>, d: set<nat>)
    requires forall x :: x in s ==> x !in d
    ensures Without(s, d) == s
  {
    if s != [] {
      WithoutNone(s[1..], d);
    }
  }

  /** Deleting position i of a repetition-free sequence. */
  lemma {:induction false} WithoutAt(s: seq<nat>, i: nat)
    requires NoDup(s) && i < |s|
    ensures Without(s, {s[i]}) == s[..i] + s[i + 1..]
  {
    var t, x := s[1..], s[i];
    if i == 0 {
      WithoutNone(t, {x});
      assert s[..0] + t == t;
    } else {
      assert t[i - 1] == x && NoDup(t);
      WithoutAt(t, i - 1);
      assert s[..i] + s[i + 1..] == [s[0]] + (t[..i - 1] + t[i..]);
    }
  }

  /** Removal keeps the order of the survivors, and removes nothing else. */
  lemma {:induction false} WithoutKeepsOrder(s: seq<nat>, d: set<nat>, a: nat, b: nat)
    requires NoDup(s) && a !in d && b !in d
    ensures Before(Without(s, d), a, b) <==> Before(s, a, b)
  {
    if s != [] {
      var t := s[1..];
      WithoutKeepsOrder(t, d, a, b);
      BeforeCons(s, a, b);
      if s[0] !in d {
        var r := Without(s, d);
        assert r[1..] == Without(t, d);
        BeforeCons(r, a, b);
      } else {
        assert Without(s, d) == Without(t, d);
      }
    }
  }

  lemma BeforeCons(s: seq<nat>, a: nat, b: nat)
    requires s != []
    ensures Before(s, a, b) <==> (s[0] == a && b in s[1..]) || Before(s[1..], a, b)
  {
    if Before(s, a, b) {
      var i, j :| 0 <= i < j < |s| && s[i] == a && s[j] == b;
      assert b == s[1..][j - 1];
      if i > 0 { assert s[1..][i - 1] == a; }
    }
    if s[0] == a && b in s[1..] {
      var j :| 0 <= j < |s| - 1 && s[1..][j] == b;
      assert s[j + 1] == b;
    }
    if Before(s[1..], a, b) {
      var i, j :| 0 <= i < j < |s| - 1 && s[1..][i] == a && s[1..][j] == b;
      assert s[i + 1] == a && s[j + 1] == b;
    }
  }

  lemma {:induction false} ReverseConcat(s: seq<nat>, t: seq<nat>)
    ensures Reverse(s + t) == Reverse(t) + Reverse(s)
  {
    if s == [] {
      assert s + t == t;
    } else {
      assert (s + t)[1..] == s[1..] + t;
      ReverseConcat(s[1..], t);
    }
  }

  lemma HeadAndTail(s: seq<nat>)
    requires NoDup(s) && s != []
    ensures NoDup(s[1..]) && s[0] !in s[1..]
    ensures forall x :: x in s <==> x == s[0] || x in s[1..]
  {
  }

  lemma NoDupConcat(s: seq<nat>, t: seq<nat>)
    requires NoDup(s) && NoDup(t)
    requires forall x :: x in s ==> x !in t
    ensures NoDup(s + t)
  {
    forall i, j | 0 <= i < j < |s + t| ensures (s + t)[i] != (s + t)[j] {
      if i < |s| <= j { assert s[i] in s && t[j - |s|] in t; }
    }
  }

  /** One more element at the end. */
  lemma NoDupSnoc(s: seq<nat>, d: set<nat>, x: nat)
    requires NoDup(s) && x !in d && forall y :: y in s <==> y in d
    ensures NoDup(s + [x]) && Elements(s + [x]) == d + {x} && |s + [x]| == |d + {x}|
  {
    NoDupConcat(s, [x]);
    NoDupCardinality(s);
    assert Elements(s) == d;
    assert forall y :: y in s + [x] <==> y in s || y == x;
  }

  lemma {:induction false} ReverseNoDup(s: seq<nat>)
    requires NoDup(s)
    ensures NoDup(Reverse(s))
  {
    if s != [] {
      ReverseNoDup(s[1..]);
      NoDupConcat(Reverse(s[1..]), [s[0]]);
    }
  }

  /** A repetition-free sequence has as many elements as positions. */
  lemma {:induction false} NoDupCardinality(s: seq<nat>)
    requires NoDup(s)
    ensures |Elements(s)| == |s|
  {
    if s != [] {
      NoDupCardinality(s[1..]);
      assert Elements(s) == Elements(s[1..]) + {s[0]};
    }
  }

  lemma {:induction false} BelowCardinality(d: set<nat>, n: nat)
    requires forall x :: x in d ==> x < n
    ensures |d| <= n
  {
    if n == 0 {
      assert d == {};
    } else {
      BelowCardinality(d - {n - 1}, n - 1);
      assert d <= (d - {n - 1}) + {n - 1};
    }
  }
}
