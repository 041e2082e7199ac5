/** What a refill can break.  TLBRefillHandler inserts the entry at the index it computes, without a
    test that this is the entry of the page the program asked for.  For the page numbers that share
    an index with a page of the table, and for those whose index lies behind it, the buffer can get
    a second copy of an entry; _updateTLB later invalidates one copy only, and the process goes on
    through the other. */
module StaleEntries {
  import opened Options
  import opened Pager
  import opened Paging

  // ----- pieces of runs -----

  lemma {:induction false} RunsOn(disk: map<Vp, Page>, s: Machine, es: seq<Event>, fs: seq<Event>)
    requires IsRun(disk, s, es) && IsRun(disk, Exec(disk, s, es), fs)
    ensures IsRun(disk, s, es + fs) && Exec(disk, s, es + fs) == Exec(disk, Exec(disk, s, es), fs)
    decreases |es|
  {
    if es == [] {
      assert es + fs == fs;
    } else {
      assert (es + fs)[1..] == es[1..] + fs;
      RunsOn(disk, Next(disk, s, es[0]), es[1..], fs);
    }
  }

  /** Events that flat memory does not notice. */
  predicate Quiet(e: Event) {
    e.Refill? || e.Fault? || e.Acquire? || e.Pager? || e.Exit?
  }

  lemma {:induction false} QuietFlat(disk: map<Vp, Page>, flat: map<Vp, Page>, es: seq<Event>, fs: seq<Event>)
    requires forall e :: e in es ==> Quiet(e)
    ensures IsFlatRun(disk, flat, es + fs) <==> IsFlatRun(disk, flat, fs)
    decreases |es|
  {
    if es == [] {
      assert es + fs == fs;
    } else {
      assert es[0] in es && (es + fs)[0] == es[0] && (es + fs)[1..] == es[1..] + fs;
      QuietFlat(disk, flat, es[1..], fs);
    }
  }

  function Pagers(n: nat): (es: seq<Event>)
    ensures forall e :: e in es ==> e == Event.Pager
  {
    if n == 0 then [] else [Event.Pager] + Pagers(n - 1)
  }

  lemma {:induction false} LeadsIsRun(disk: map<Vp, Page>, s: Machine, n: nat, t: Machine)
    requires Leads(s, n, t)
    ensures IsRun(disk, s, Pagers(n)) && Exec(disk, s, Pagers(n)) == t
    decreases n
  {
    if n > 0 {
      assert Pagers(n)[0] == Event.Pager && Pagers(n)[1..] == Pagers(n - 1);
      LeadsIsRun(disk, Act(s), n - 1, t);
    }
  }

  lemma OneEvent(disk: map<Vp, Page>, s: Machine, e: Event)
    requires Enabled(disk, s, e)
    ensures IsRun(disk, s, [e]) && Exec(disk, s, [e]) == Next(disk, s, e)
  {
    assert [e][1..] == [];
  }

  // ----- a page without an entry of its own -----

  /** A program that touches an alias has its page refilled, still misses, and is refilled again.
      As soon as the hardware picks another slot, the buffer holds one entry twice. */
  lemma AliasTwice(disk: map<Vp, Page>, s: Machine, a: int, vpn: nat, i: nat, j: nat, x: TlbEntry)
    requires Is(s, a, Running) && Alias(vpn) && Vp(a, Index(vpn)) in s.mem.table
    requires i < |s.mem.tlb| && j < |s.mem.tlb| && i != j
    requires forall t :: 0 <= t < |s.mem.tlb| ==> !Matches(s.mem.tlb[t], a, vpn)
    ensures var es := [Refill(a, vpn, i, x), Refill(a, vpn, j, x)];
      IsRun(disk, s, es) && !OneMatch(Exec(disk, s, es).mem.tlb) && !Inv(disk, Exec(disk, s, es))
  {
    var e, f := Refill(a, vpn, i, x), Refill(a, vpn, j, x);
    IndexRoundTrip(0, vpn);
    var t := Next(disk, s, e);
    var u := Next(disk, t, f);
    OneEvent(disk, t, f);
    assert [e, f][1..] == [f];
    var lo, hi := if i < j then i else j, if i < j then j else i;
    assert Matches(u.mem.tlb[hi], u.mem.tlb[lo].value.asid, u.mem.tlb[lo].value.vpn);
  }

  // ----- touching a page -----

  /** The memory once process a has touched page q: refilled into slot t, faulted, brought in. */
  ghost function Touched(m: Mem, a: int, q: nat, t: nat): Mem
    requires 0 < |m.pool| == |m.ram| && m.hand < |m.pool| && Vp(a, q) in m.table && Vp(a, q) in m.flash && t < |m.tlb|
    requires IsFree(m.pool[PickFrame(m)]) || Described(m, PickFrame(m))
  {
    Served(m.(tlb := m.tlb[t := Some(EntryOf(Vp(a, q), m.table[Vp(a, q)]))]), Vp(a, q))
  }

  /** The way to the page fault handler: refill, fault, P. */
  lemma Ask(disk: map<Vp, Page>, s: Machine, a: int, q: nat, t: nat, x: TlbEntry) returns (es: seq<Event>)
    requires s.stage == Idle && Is(s, a, Running) && t < |s.mem.tlb|
    requires q < MAXPAGES && Vp(a, q) in s.mem.table && !s.mem.table[Vp(a, q)].valid
    requires forall k :: 0 <= k < |s.mem.tlb| ==> !Matches(s.mem.tlb[k], a, VpnOf(q))
    ensures IsRun(disk, s, es) && (forall e :: e in es ==> Quiet(e))
    ensures Exec(disk, s, es) ==
      Machine(s.mem.(tlb := s.mem.tlb[t := Some(EntryOf(Vp(a, q), s.mem.table[Vp(a, q)]))]),
              s.status[a := Handling], Acquired(Vp(a, q)))
  {
    var vpn := VpnOf(q);
    IndexRoundTrip(q, vpn);
    var e1, e2, e3 := Refill(a, vpn, t, x), Fault(a, vpn, t), Acquire(a);
    var s1 := Next(disk, s, e1);
    var s2 := Next(disk, s1, e2);
    OneEvent(disk, s2, e3);
    assert [e2, e3][1..] == [e3] && [e1, e2, e3][1..] == [e2, e3];
    assert IsRun(disk, s1, [e2, e3]);
    es := [e1, e2, e3];
  }

  /** A process touches a page that is neither in the buffer nor in memory. */
  lemma Touch(disk: map<Vp, Page>, s: Machine, a: int, q: nat, t: nat, x: TlbEntry) returns (es: seq<Event>)
    requires Sized(s.mem, WORDS) && s.stage == Idle && Is(s, a, Running)
    requires q < MAXPAGES && Vp(a, q) in s.mem.table && !s.mem.table[Vp(a, q)].valid && t < |s.mem.tlb|
    requires forall k :: 0 <= k < |s.mem.tlb| ==> !Matches(s.mem.tlb[k], a, VpnOf(q))
    requires IsFree(s.mem.pool[PickFrame(s.mem)]) || Described(s.mem, PickFrame(s.mem))
    ensures IsRun(disk, s, es) && (forall e :: e in es ==> Quiet(e))
    ensures Exec(disk, s, es) == s.(mem := Touched(s.mem, a, q, t))
  {
    var ask := Ask(disk, s, a, q, t, x);
    var r := Exec(disk, s, ask);
    assert r.mem.pool == s.mem.pool && r.mem.hand == s.mem.hand;
    var n := HandlerLeads(r);
    var u := Machine(Served(r.mem, Vp(a, q)), r.status[a := Running], Idle);
    LeadsIsRun(disk, r, n, u);
    RunsOn(disk, s, ask, Pagers(n));
    assert u.status == s.status;
    es := ask + Pagers(n);
  }

  // ----- a run on which paging is not transparent -----

  /** Two processes. */
  ghost predicate Two(a: int, b: int) { a != b && a != NOPROC && b != NOPROC }

  ghost predicate TwoPrograms(disk: map<Vp, Page>, a: int, b: int) {
    forall i :: 0 <= i < MAXPAGES ==> Vp(a, i) in disk && Vp(b, i) in disk
  }

  ghost predicate Untouched(table: map<Vp, Pte>, a: int) {
    forall i :: 0 <= i < MAXPAGES ==> Vp(a, i) in table && table[Vp(a, i)] == Pte(false, true, 0)
  }

  /** Both run and have not touched anything yet. */
  ghost predicate TwoReady(disk: map<Vp, Page>, s: Machine, a: int, b: int) {
    && Sized(s.mem, WORDS) && s.stage == Idle && Is(s, a, Running) && Is(s, b, Running)
    && s.mem.flash == disk && |s.mem.tlb| >= 3 && Untouched(s.mem.table, a) && Untouched(s.mem.table, b)
    && (forall f :: 0 <= f < |s.mem.pool| ==> s.mem.pool[f] == FREE)
    && (forall t :: 0 <= t < |s.mem.tlb| ==> s.mem.tlb[t].None?)
  }

  ghost function TwoImages(disk: map<Vp, Page>, a: int, b: int): map<Vp, Page>
    requires TwoPrograms(disk, a, b)
  {
    map[] + Image(disk, a) + Image(disk, b)
  }

  function Spawns(a: int, b: int): seq<Event> { [Spawn(a, 0), Spawn(b, 0)] }

  lemma SpawnsReady(disk: map<Vp, Page>, s: Machine, a: int, b: int)
    requires Boot(disk, s) && Two(a, b) && TwoPrograms(disk, a, b) && |s.mem.tlb| >= 3
    ensures IsRun(disk, s, Spawns(a, b)) && TwoReady(disk, Exec(disk, s, Spawns(a, b)), a, b)
    ensures var t := Exec(disk, s, Spawns(a, b)); t.mem.pool == s.mem.pool && t.mem.hand == s.mem.hand
  {
    var e1, e2 := Spawn(a, 0), Spawn(b, 0);
    var s1 := Next(disk, s, e1);
    var s2 := Next(disk, s1, e2);
    OneEvent(disk, s1, e2);
    assert [e1, e2][1..] == [e2];
    SpawnedTables(disk, s.mem.table, a, b);
    assert s2.mem.table == s.mem.table + FreshTable(a, 0, MAXPAGES) + FreshTable(b, 0, MAXPAGES);
  }

  lemma SpawnedTables(disk: map<Vp, Page>, table: map<Vp, Pte>, a: int, b: int)
    requires TwoPrograms(disk, a, b) && table == map[]
    ensures var t := table + FreshTable(a, 0, MAXPAGES) + FreshTable(b, 0, MAXPAGES);
      t.Keys <= disk.Keys && Untouched(t, a) && Untouched(t, b)
  {
    var t := table + FreshTable(a, 0, MAXPAGES) + FreshTable(b, 0, MAXPAGES);
    forall vp | vp in t ensures vp in disk { assert Vp(vp.asid, vp.page) in disk; }
    forall c, i | (c == a || c == b) && 0 <= i < MAXPAGES ensures Vp(c, i) in t && t[Vp(c, i)] == Pte(false, true, 0) {
      assert Vp(c, i) in FreshTable(c, 0, MAXPAGES);
    }
  }

  lemma FlatHead(disk: map<Vp, Page>, flat: map<Vp, Page>, e: Event, fs: seq<Event>)
    requires IsFlatRun(disk, flat, [e] + fs)
    ensures FlatEnabled(disk, flat, e) && IsFlatRun(disk, FlatNext(disk, flat, e), fs)
  {
    assert ([e] + fs)[1..] == fs;
  }

  lemma SpawnsFlat(disk: map<Vp, Page>, a: int, b: int, fs: seq<Event>)
    requires TwoPrograms(disk, a, b)
    ensures IsFlatRun(disk, map[], Spawns(a, b) + fs) ==> IsFlatRun(disk, TwoImages(disk, a, b), fs)
  {
    var e1, e2 := Spawn(a, 0), Spawn(b, 0);
    if IsFlatRun(disk, map[], Spawns(a, b) + fs) {
      assert Spawns(a, b) + fs == [e1] + ([e2] + fs);
      FlatHead(disk, map[], e1, [e2] + fs);
      FlatHead(disk, map[] + Image(disk, a), e2, fs);
    }
  }

  /** The entry of page p of process a while it is in frame h. */
  function Copied(a: int, p: nat, h: nat): TlbEntry { EntryOf(Vp(a, p), Pte(true, true, h)) }

  /** Process a has page p in frame h, the entry of it in slot 0, and a copy of that in slot 1.  The
      k frames from there on hold the first k pages of process b, which keeps to slot 2; the rest are
      free, and the next search begins at the first of them. */
  ghost predicate Filled(disk: map<Vp, Page>, m: Mem, a: int, p: nat, h: nat, b: int, k: nat) {
    && Sized(m, WORDS) && m.flash == disk && h < |m.pool| && k < |m.pool| && m.hand == Ahead(h, k + 1, |m.pool|)
    && m.pool[h] == Swap(a, p, Some(Vp(a, p)))
    && (forall f :: 0 <= f < |m.pool| && f != h ==> (IsFree(m.pool[f]) <==> Distance(h, f, |m.pool|) > k))
    && Vp(a, p) in m.table && m.table[Vp(a, p)] == Pte(true, true, h)
    && (forall q :: k <= q < MAXPAGES ==> Vp(b, q) in m.table && m.table[Vp(b, q)] == Pte(false, true, 0))
    && |m.tlb| >= 3 && m.tlb[0] == m.tlb[1] == Some(Copied(a, p, h))
    && (forall q, t :: k <= q < MAXPAGES && 0 <= t < |m.tlb| ==> !Matches(m.tlb[t], b, VpnOf(q)))
  }

  /** Process a touches its page p, through slot 0. */
  lemma FirstTouch(disk: map<Vp, Page>, s: Machine, a: int, b: int, p: nat)
    requires Two(a, b) && TwoReady(disk, s, a, b) && p < MAXPAGES
    ensures PickFrame(s.mem) == s.mem.hand
    ensures var m := Touched(s.mem, a, p, 0); var h := s.mem.hand;
      && m.tlb == s.mem.tlb[0 := Some(Copied(a, p, h))]
      && Filled(disk, m.(tlb := m.tlb[1 := Some(Copied(a, p, h))]), a, p, h, b, 0)
  {
    var h := s.mem.hand;
    var k := s.mem.(tlb := s.mem.tlb[0 := Some(EntryOf(Vp(a, p), s.mem.table[Vp(a, p)]))]);
    assert Probe(k.tlb, a, VpnOf(p)) == 0;
    assert k.tlb[0 := Some(Copied(a, p, h))] == s.mem.tlb[0 := Some(Copied(a, p, h))];
  }

  /** A refill doubles the entry: for an alias of p by process a, or for an index behind the table. */
  lemma CopyMade(disk: map<Vp, Page>, s: Machine, a: int, b: int, p: nat, c: int, vpn: nat)
    returns (es: seq<Event>, m: Mem)
    requires Two(a, b) && TwoReady(disk, s, a, b) && p < MAXPAGES
    requires (c == a && Alias(vpn) && Index(vpn) == p) || (c == b && Index(vpn) >= MAXPAGES)
    ensures IsRun(disk, s, es) && (forall e :: e in es ==> Quiet(e))
    ensures Exec(disk, s, es) == s.(mem := m) && Filled(disk, m, a, p, s.mem.hand, b, 0)
    ensures |m.pool| == |s.mem.pool|
  {
    var h := s.mem.hand;
    FirstTouch(disk, s, a, b, p);
    if c == a { IndexRoundTrip(p, vpn); }
    var first := Touch(disk, s, a, p, 0, Copied(a, p, h));
    var refill := Refill(c, vpn, 1, Copied(a, p, h));
    var t := Exec(disk, s, first);
    OneEvent(disk, t, refill);
    RunsOn(disk, s, first, [refill]);
    m := t.mem.(tlb := t.mem.tlb[1 := Some(Copied(a, p, h))]);
    es := first + [refill];
  }

  /** Process b touches its page k, which goes into the next frame, still a free one. */
  lemma NextTouch(disk: map<Vp, Page>, m: Mem, a: int, p: nat, h: nat, b: int, k: nat)
    requires Two(a, b) && Filled(disk, m, a, p, h, b, k) && k + 1 < |m.pool| <= MAXPAGES && Vp(b, k) in disk
    ensures IsFree(m.pool[PickFrame(m)])
    ensures Filled(disk, Touched(m, b, k, 2), a, p, h, b, k + 1) && |Touched(m, b, k, 2).pool| == |m.pool|
  {
    var tlb := m.tlb[2 := Some(EntryOf(Vp(b, k), m.table[Vp(b, k)]))];
    assert Distance(h, m.hand, |m.pool|) == k + 1;
    assert !Matches(tlb[0], b, VpnOf(k)) && !Matches(tlb[1], b, VpnOf(k)) && Matches(tlb[2], b, VpnOf(k));
    assert Probe(tlb, b, VpnOf(k)) == 2;
  }

  /** One after another the pages of process b fill the frames up to the one of process a. */
  lemma {:induction false} FillUp(disk: map<Vp, Page>, s: Machine, a: int, p: nat, h: nat, b: int, k: nat)
    returns (es: seq<Event>, m: Mem)
    requires Two(a, b) && TwoPrograms(disk, a, b) && s.stage == Idle && Is(s, b, Running)
    requires Filled(disk, s.mem, a, p, h, b, k) && |s.mem.pool| <= MAXPAGES
    ensures IsRun(disk, s, es) && (forall e :: e in es ==> Quiet(e)) && Exec(disk, s, es) == s.(mem := m)
    ensures |m.pool| == |s.mem.pool| && Filled(disk, m, a, p, h, b, |m.pool| - 1)
    decreases |s.mem.pool| - k
  {
    if k == |s.mem.pool| - 1 {
      es, m := [], s.mem;
    } else {
      NextTouch(disk, s.mem, a, p, h, b, k);
      var touch := Touch(disk, s, b, k, 2, Copied(a, p, h));
      var t := Exec(disk, s, touch);
      var more;
      more, m := FillUp(disk, t, a, p, h, b, k + 1);
      RunsOn(disk, s, touch, more);
      es := touch + more;
    }
  }

  /** The last one takes the frame of process a: the entry in slot 0 is invalidated, its copy in slot 1
      is not. */
  lemma LastTouch(disk: map<Vp, Page>, m: Mem, a: int, p: nat, h: nat, b: int)
    requires Two(a, b) && |m.pool| > 0 && Filled(disk, m, a, p, h, b, |m.pool| - 1) && |m.pool| <= MAXPAGES
    requires Vp(a, p) in disk && Vp(b, |m.pool| - 1) in disk
    ensures Described(m, PickFrame(m))
    ensures var u := Touched(m, b, |m.pool| - 1, 2);
      u.tlb[1] == Some(Copied(a, p, h)) && h < |u.ram| && u.ram[h] == disk[Vp(b, |m.pool| - 1)]
  {
    var q := |m.pool| - 1;
    var tlb := m.tlb[2 := Some(EntryOf(Vp(b, q), m.table[Vp(b, q)]))];
    FrameChoice(m);
    assert Probe(tlb, a, VpnOf(p)) == 0;
  }

  lemma LoadThrough(disk: map<Vp, Page>, s: Machine, a: int, p: nat, h: nat)
    requires Is(s, a, Running) && |s.mem.tlb| > 1 && s.mem.tlb[1] == Some(Copied(a, p, h))
    requires h < |s.mem.ram| && |s.mem.ram[h]| > 0
    ensures IsRun(disk, s, [Load(a, VpnOf(p), 0, s.mem.ram[h][0], 1)])
  {
    OneEvent(disk, s, Load(a, VpnOf(p), 0, s.mem.ram[h][0], 1));
  }

  /** Process a reads the first word of its page p through the copy. */
  lemma CopyStale(disk: map<Vp, Page>, s: Machine, a: int, p: nat, h: nat, b: int) returns (es: seq<Event>)
    requires Two(a, b) && TwoPrograms(disk, a, b) && s.stage == Idle && Is(s, a, Running) && Is(s, b, Running)
    requires 0 < |s.mem.pool| <= MAXPAGES && Filled(disk, s.mem, a, p, h, b, |s.mem.pool| - 1)
    requires |disk[Vp(b, |s.mem.pool| - 1)]| > 0
    ensures forall e :: e in es ==> Quiet(e)
    ensures IsRun(disk, s, es + [Load(a, VpnOf(p), 0, disk[Vp(b, |s.mem.pool| - 1)][0], 1)])
  {
    var q := |s.mem.pool| - 1;
    LastTouch(disk, s.mem, a, p, h, b);
    es := Touch(disk, s, b, q, 2, Copied(a, p, h));
    LoadThrough(disk, Exec(disk, s, es), a, p, h);
    RunsOn(disk, s, es, [Load(a, VpnOf(p), 0, disk[Vp(b, q)][0], 1)]);
  }

  lemma CopyUsed(disk: map<Vp, Page>, s: Machine, a: int, p: nat, h: nat, b: int) returns (es: seq<Event>)
    requires Two(a, b) && TwoPrograms(disk, a, b) && s.stage == Idle && Is(s, a, Running) && Is(s, b, Running)
    requires 0 < |s.mem.pool| <= MAXPAGES && Filled(disk, s.mem, a, p, h, b, 0)
    requires |disk[Vp(b, |s.mem.pool| - 1)]| > 0
    ensures forall e :: e in es ==> Quiet(e)
    ensures IsRun(disk, s, es + [Load(a, VpnOf(p), 0, disk[Vp(b, |s.mem.pool| - 1)][0], 1)])
  {
    var fill, m := FillUp(disk, s, a, p, h, b, 0);
    var stale := CopyStale(disk, s.(mem := m), a, p, h, b);
    var load := [Load(a, VpnOf(p), 0, disk[Vp(b, |s.mem.pool| - 1)][0], 1)];
    RunsOn(disk, s, fill, stale + load);
    es := fill + stale;
    assert es + load == fill + (stale + load);
  }

  lemma CopyDoubles(disk: map<Vp, Page>, m: Mem, a: int, p: nat, h: nat, b: int)
    requires Filled(disk, m, a, p, h, b, 0)
    ensures !OneMatch(m.tlb)
  {
    assert Matches(m.tlb[1], m.tlb[0].value.asid, m.tlb[0].value.vpn);
  }

  /** A load of another process's word is none that flat memory allows. */
  lemma NotFlat(disk: map<Vp, Page>, a: int, b: int, quiet: seq<Event>, p: nat, w: Word)
    requires a != b && TwoPrograms(disk, a, b) && p < MAXPAGES && (forall e :: e in quiet ==> Quiet(e))
    requires |disk[Vp(a, p)]| > 0 && disk[Vp(a, p)][0] != w
    ensures !IsFlatRun(disk, TwoImages(disk, a, b), quiet + [Load(a, VpnOf(p), 0, w, 1)])
  {
    QuietFlat(disk, TwoImages(disk, a, b), quiet, [Load(a, VpnOf(p), 0, w, 1)]);
    IndexRoundTrip(p, STACK_VPN);
    assert Vp(a, p) in Image(disk, a) && Vp(a, p) !in Image(disk, b);
    assert TwoImages(disk, a, b)[Vp(a, p)] == disk[Vp(a, p)];
  }

  lemma SpawnsNotFlat(disk: map<Vp, Page>, a: int, b: int, made: seq<Event>, stale: seq<Event>, p: nat, w: Word)
    requires a != b && TwoPrograms(disk, a, b) && p < MAXPAGES && (forall e :: e in made + stale ==> Quiet(e))
    requires |disk[Vp(a, p)]| > 0 && disk[Vp(a, p)][0] != w
    ensures !IsFlatRun(disk, map[], Spawns(a, b) + made + (stale + [Load(a, VpnOf(p), 0, w, 1)]))
  {
    var load := Load(a, VpnOf(p), 0, w, 1);
    NotFlat(disk, a, b, made + stale, p, w);
    SpawnsFlat(disk, a, b, made + stale + [load]);
    assert Spawns(a, b) + made + (stale + [load]) == Spawns(a, b) + (made + stale + [load]);
  }

  /** From every start with at most as many frames as a program has pages, and for any two processes
      a and b: a touches its page p; a refill for a page without an entry of its own, be it by a
      itself for an alias of p or by b for a page whose index lies behind its table, where it finds the
      current entry of p; and b touches its pages one after another until all frames have been chosen
      once more.  After the refill the buffer has two copies of one entry, and at the end a reads a
      word of b in place of its own. */
  lemma StaleCopy(disk: map<Vp, Page>, s: Machine, a: int, b: int, p: nat, c: int, vpn: nat)
    returns (es: seq<Event>, fs: seq<Event>)
    requires Boot(disk, s) && Two(a, b) && TwoPrograms(disk, a, b) && |s.mem.pool| <= MAXPAGES && |s.mem.tlb| >= 3
    requires p < MAXPAGES && disk[Vp(a, p)][0] != disk[Vp(b, |s.mem.pool| - 1)][0]
    requires (c == a && Alias(vpn) && Index(vpn) == p) || (c == b && Index(vpn) >= MAXPAGES)
    ensures IsRun(disk, s, es)
    ensures var t := Exec(disk, s, es); t.stage == Idle && !OneMatch(t.mem.tlb) && !Inv(disk, t)
    ensures IsRun(disk, s, es + fs) && !IsFlatRun(disk, map[], es + fs)
  {
    SpawnsReady(disk, s, a, b);
    var r := Exec(disk, s, Spawns(a, b));
    var made, m := CopyMade(disk, r, a, b, p, c, vpn);
    CopyDoubles(disk, m, a, p, r.mem.hand, b);
    RunsOn(disk, s, Spawns(a, b), made);
    es := Spawns(a, b) + made;
    var stale := CopyUsed(disk, r.(mem := m), a, p, r.mem.hand, b);
    fs := stale + [Load(a, VpnOf(p), 0, disk[Vp(b, |s.mem.pool| - 1)][0], 1)];
    RunsOn(disk, s, es, fs);
    SpawnsNotFlat(disk, a, b, made, stale, p, disk[Vp(b, |s.mem.pool| - 1)][0]);
  }
}
