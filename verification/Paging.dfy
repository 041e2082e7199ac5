/** Demand paging as user processes see it.  Loads and stores of all processes interleave with the
    refills, with the single actions of one page fault at a time (the swap pool mutex; see module
    SwapMutex) and with freeFrames.  The pages behave like memory private to each process. */
module Paging {
  import opened Options
  import opened Pager

  const WORDS: nat := 1024

  /** Running: in user mode.  Waiting: in the page fault handler, before the end of its P.
      Handling: between that P and the return to user mode.  Exiting: terminating, its frames not
      yet up for release.  Freeing: in freeFrames, after its P.  Gone: after it. */
  datatype Status = Running | Waiting(page: nat) | Handling | Exiting | Freeing | Gone

  /** What the holder of the swap pool is about to do. */
  datatype Stage =
    | Idle
    | Acquired(vp: Vp)
    | Chosen(vp: Vp, f: nat)
    | Writing(vp: Vp, f: nat, i: nat)  // the first i words of the victim are on flash
    | Reading(vp: Vp, f: nat, i: nat)  // the first i words of the page are in the frame
    | Mapping(vp: Vp, f: nat)
    | Sweeping(asid: int, i: nat)      // freeFrames is past the first i frames

  datatype Machine = Machine(mem: Mem, status: map<int, Status>, stage: Stage)

  datatype Event =
    | Load(asid: int, vpn: nat, offset: nat, value: Word, slot: nat)
    | Store(asid: int, vpn: nat, offset: nat, value: Word, slot: nat)
    | Refill(asid: int, vpn: nat, slot: nat, behind: TlbEntry)
    | Fault(asid: int, vpn: nat, slot: nat)
    | Acquire(asid: int)
    | Pager                            // one action of the holder
    | Exit(asid: int)
    | StartFree(asid: int)
    | Spawn(asid: int, textSize: int)

  ghost predicate Is(s: Machine, asid: int, x: Status) {
    asid in s.status && s.status[asid] == x
  }

  /** A process whose memory still counts. */
  ghost predicate Live(s: Machine, asid: int) {
    asid in s.status && !s.status[asid].Freeing? && !s.status[asid].Gone?
  }

  ghost predicate Hit(m: Mem, asid: int, vpn: nat, slot: nat) {
    slot < |m.tlb| && Matches(m.tlb[slot], asid, vpn)
  }

  ghost predicate Accessible(m: Mem, asid: int, vpn: nat, offset: nat, slot: nat) {
    && Hit(m, asid, vpn, slot) && m.tlb[slot].value.pte.valid
    && m.tlb[slot].value.pte.pfn < |m.ram| && offset < |m.ram[m.tlb[slot].value.pte.pfn]|
  }

  ghost predicate Ready(s: Machine) {
    var m := s.mem;
    && 0 < |m.pool| == |m.ram| && m.hand < |m.pool|
    && match s.stage
       case Idle => false
       case Acquired(vp) => true
       case Chosen(vp, f) => f < |m.pool| && (IsFree(m.pool[f]) || Described(m, f))
       case Writing(vp, f, i) =>
         && f < |m.pool| && OnFlash(m.pool[f]) in m.flash
         && i <= WORDS == |m.flash[OnFlash(m.pool[f])]| == |m.ram[f]|
       case Reading(vp, f, i) => f < |m.pool| && vp in m.flash && i <= WORDS == |m.flash[vp]| == |m.ram[f]|
       case Mapping(vp, f) => vp in m.table && vp.asid in s.status
       case Sweeping(a, i) => i <= |m.pool| && a in s.status
  }

  ghost predicate Enabled(disk: map<Vp, Page>, s: Machine, e: Event) {
    match e
    case Load(a, vpn, offset, value, slot) =>
      && Is(s, a, Running) && Accessible(s.mem, a, vpn, offset, slot)
      && value == s.mem.ram[s.mem.tlb[slot].value.pte.pfn][offset]
    case Store(a, vpn, offset, value, slot) =>
      && Is(s, a, Running) && Accessible(s.mem, a, vpn, offset, slot)
      && s.mem.tlb[slot].value.pte.dirty
    case Refill(a, vpn, slot, behind) =>
      && Is(s, a, Running) && slot < |s.mem.tlb|
      && (Index(vpn) < MAXPAGES ==> Vp(a, Index(vpn)) in s.mem.table)
      && forall t :: 0 <= t < |s.mem.tlb| ==> !Matches(s.mem.tlb[t], a, vpn)
    case Fault(a, vpn, slot) =>
      && Is(s, a, Running) && Hit(s.mem, a, vpn, slot) && !s.mem.tlb[slot].value.pte.valid
    case Acquire(a) => a in s.status && s.status[a].Waiting? && s.stage == Idle
    case Pager => Ready(s)
    case Exit(a) => Is(s, a, Running)
    case StartFree(a) => Is(s, a, Exiting) && s.stage == Idle
    case Spawn(a, textSize) =>
      a !in s.status && a != NOPROC && forall i :: 0 <= i < MAXPAGES ==> Vp(a, i) in disk
  }

  /** One action of the holder of the swap pool, as _TLBInvalidHandler and freeFrames order them. */
  ghost function Act(s: Machine): Machine
    requires Ready(s)
  {
    var m := s.mem;
    match s.stage
    case Acquired(vp) =>
      var f := PickFrame(m);
      s.(mem := m.(hand := Turn(f, |m.pool|)), stage := Chosen(vp, f))
    case Chosen(vp, f) =>
      if IsFree(m.pool[f]) then s.(stage := Reading(vp, f, 0))
      else s.(mem := Invalidate(m, f), stage := Writing(vp, f, 0))
    case Writing(vp, f, i) =>
      if i == WORDS then s.(stage := Reading(vp, f, 0))
      else
        var victim := OnFlash(m.pool[f]);
        s.(mem := m.(flash := m.flash[victim := m.flash[victim][i := m.ram[f][i]]]), stage := Writing(vp, f, i + 1))
    case Reading(vp, f, i) =>
      if i == WORDS then s.(mem := Describe(m, vp, f), stage := Mapping(vp, f))
      else s.(mem := m.(ram := m.ram[f := m.ram[f][i := m.flash[vp][i]]]), stage := Reading(vp, f, i + 1))
    case Mapping(vp, f) =>
      Machine(MapIn(m, vp, f), s.status[vp.asid := Running], Idle)
    case Sweeping(a, i) =>
      if i == |m.pool| then s.(status := s.status[a := Gone], stage := Idle)
      else
        var pool := if m.pool[i].asid == a then m.pool[i := FREE] else m.pool;
        s.(mem := m.(pool := pool), stage := Sweeping(a, i + 1))
  }

  ghost function Next(disk: map<Vp, Page>, s: Machine, e: Event): Machine
    requires Enabled(disk, s, e)
  {
    var m := s.mem;
    match e
    case Load(_, _, _, _, _) => s
    case Store(a, vpn, offset, value, slot) =>
      var f := m.tlb[slot].value.pte.pfn;
      s.(mem := m.(ram := m.ram[f := m.ram[f][offset := value]]))
    case Refill(a, vpn, slot, behind) =>
      s.(mem := m.(tlb := m.tlb[slot := Some(Fetched(m.table, a, vpn, behind))]))
    case Fault(a, vpn, slot) => s.(status := s.status[a := Waiting(Index(vpn))])
    case Acquire(a) => s.(status := s.status[a := Handling], stage := Acquired(Vp(a, s.status[a].page)))
    case Pager => Act(s)
    case Exit(a) => s.(status := s.status[a := Exiting])
    case StartFree(a) => s.(status := s.status[a := Freeing], stage := Sweeping(a, 0))
    case Spawn(a, textSize) =>
      s.(mem := m.(table := m.table + FreshTable(a, textSize / PAGESIZE, MAXPAGES)), status := s.status[a := Running])
  }

  // ----- the invariant -----

  /** The frame between the invalidation of its old page and the mapping of its new one. */
  ghost predicate Moving(s: Machine, f: nat) {
    (s.stage.Writing? || s.stage.Reading? || s.stage.Mapping?) && s.stage.f == f
  }

  ghost predicate FrameOk(s: Machine, f: nat)
    requires f < |s.mem.pool|
  {
    var x := s.mem.pool[f];
    IsFree(x) ||
    (&& x.asid in s.status && !s.status[x.asid].Gone?
     && x.pte == Some(OnFlash(x)) && OnFlash(x) in s.mem.table
     && (Live(s, x.asid) && !Moving(s, f) ==> s.mem.table[OnFlash(x)].valid && s.mem.table[OnFlash(x)].pfn == f))
  }

  ghost predicate Frames(s: Machine) {
    forall f {:trigger FrameOk(s, f)} :: 0 <= f < |s.mem.pool| ==> FrameOk(s, f)
  }

  ghost predicate EntryOk(s: Machine, vp: Vp)
    requires vp in s.mem.table
  {
    var pte := s.mem.table[vp];
    && vp.asid in s.status && vp.page < MAXPAGES
    && (Live(s, vp.asid) && pte.valid ==>
          pte.pfn < |s.mem.pool| && !Moving(s, pte.pfn) && s.mem.pool[pte.pfn] == Swap(vp.asid, vp.page, Some(vp)))
  }

  ghost predicate Entries(s: Machine) {
    forall vp {:trigger EntryOk(s, vp)} :: vp in s.mem.table ==> EntryOk(s, vp)
  }

  /** The entry is the one the page table of its process has. */
  ghost predicate Current(m: Mem, x: TlbEntry) {
    Own(x.vpn) && Vp(x.asid, PageOf(x.vpn)) in m.table && m.table[Vp(x.asid, PageOf(x.vpn))] == x.pte
  }

  ghost predicate SlotOk(s: Machine, t: nat)
    requires t < |s.mem.tlb|
  {
    s.mem.tlb[t].Some? ==>
      var x := s.mem.tlb[t].value;
      x.asid in s.status && (Live(s, x.asid) ==> Current(s.mem, x))
  }

  ghost predicate Slots(s: Machine) {
    && (forall t {:trigger SlotOk(s, t)} :: 0 <= t < |s.mem.tlb| ==> SlotOk(s, t))
    && OneMatch(s.mem.tlb)
  }

  ghost predicate OneMatch(tlb: seq<Option<TlbEntry>>) {
    forall t, u :: 0 <= t < u < |tlb| && tlb[t].Some? ==>
      !Matches(tlb[u], tlb[t].value.asid, tlb[t].value.vpn)
  }

  ghost predicate StatusOk(s: Machine, a: int)
    requires a in s.status
  {
    && a != NOPROC
    && (forall i :: 0 <= i < MAXPAGES ==> Vp(a, i) in s.mem.table)
    && (s.status[a].Waiting? ==> Vp(a, s.status[a].page) in s.mem.table && !s.mem.table[Vp(a, s.status[a].page)].valid)
    && (s.status[a].Handling? ==> !s.stage.Idle? && !s.stage.Sweeping? && s.stage.vp.asid == a)
    && (s.status[a].Freeing? ==> s.stage.Sweeping? && s.stage.asid == a)
  }

  ghost predicate Statuses(s: Machine) {
    forall a {:trigger StatusOk(s, a)} :: a in s.status ==> StatusOk(s, a)
  }

  /** A page on its way in: its process waits and its entry is invalid. */
  ghost predicate Target(s: Machine, vp: Vp) {
    Is(s, vp.asid, Handling) && vp in s.mem.table && !s.mem.table[vp].valid
  }

  ghost predicate Staged(s: Machine)
    requires Sized(s.mem, WORDS)
  {
    var m := s.mem;
    match s.stage
    case Idle => true
    case Acquired(vp) => Target(s, vp)
    case Chosen(vp, f) => Target(s, vp) && f < |m.pool|
    case Writing(vp, f, i) =>
      && Target(s, vp) && f < |m.pool| && !IsFree(m.pool[f]) && i <= WORDS
      && var victim := OnFlash(m.pool[f]);
         && victim != vp && victim in m.table && !m.table[victim].valid
         && forall k :: 0 <= k < i ==> m.flash[victim][k] == m.ram[f][k]
    case Reading(vp, f, i) =>
      && Target(s, vp) && f < |m.pool| && i <= WORDS
      && forall k :: 0 <= k < i ==> m.ram[f][k] == m.flash[vp][k]
    case Mapping(vp, f) =>
      && Target(s, vp) && f < |m.pool|
      && m.pool[f] == Swap(vp.asid, vp.page, Some(vp)) && m.ram[f] == m.flash[vp]
    case Sweeping(a, i) =>
      && Is(s, a, Freeing) && i <= |m.pool| && forall f :: 0 <= f < i ==> m.pool[f].asid != a
  }

  ghost predicate Unborn(disk: map<Vp, Page>, s: Machine, vp: Vp)
    requires vp in disk
  {
    vp.asid !in s.status ==> vp in s.mem.flash && s.mem.flash[vp] == disk[vp]
  }

  ghost predicate Disk(disk: map<Vp, Page>, s: Machine) {
    forall vp {:trigger Unborn(disk, s, vp)} :: vp in disk ==> Unborn(disk, s, vp)
  }

  ghost predicate Inv(disk: map<Vp, Page>, s: Machine) {
    && Sized(s.mem, WORDS) && Staged(s) && Statuses(s) && Frames(s) && Entries(s) && Slots(s) && Disk(disk, s)
  }

  // ----- flat memory -----

  ghost predicate Visible(s: Machine, vp: Vp) { vp in s.mem.table && Live(s, vp.asid) }

  /** What a page of a live process holds, wherever it is. */
  ghost function Content(disk: map<Vp, Page>, s: Machine, vp: Vp): Page
    requires Inv(disk, s) && Visible(s, vp)
  {
    assert EntryOk(s, vp);
    if s.mem.table[vp].valid then s.mem.ram[s.mem.table[vp].pfn]
    else if s.stage.Writing? && OnFlash(s.mem.pool[s.stage.f]) == vp then s.mem.ram[s.stage.f]
    else s.mem.flash[vp]
  }

  /** The private memory of the live processes. */
  ghost function Abstract(disk: map<Vp, Page>, s: Machine): (flat: map<Vp, Page>)
    requires Inv(disk, s)
    ensures forall vp :: vp in flat <==> Visible(s, vp)
    ensures forall vp :: vp in flat ==> flat[vp] == Content(disk, s, vp)
  {
    map vp | vp in s.mem.table && Visible(s, vp) :: Content(disk, s, vp)
  }

  /** What an event needs of flat memory: a load returns what is there. */
  ghost predicate FlatEnabled(disk: map<Vp, Page>, flat: map<Vp, Page>, e: Event) {
    match e
    case Load(a, vpn, offset, value, _) =>
      && Own(vpn) && Vp(a, PageOf(vpn)) in flat
      && offset < |flat[Vp(a, PageOf(vpn))]| && flat[Vp(a, PageOf(vpn))][offset] == value
    case Store(a, vpn, offset, _, _) =>
      Own(vpn) && Vp(a, PageOf(vpn)) in flat && offset < |flat[Vp(a, PageOf(vpn))]|
    case Spawn(a, _) =>
      && (forall vp :: vp in flat ==> vp.asid != a)
      && (forall i :: 0 <= i < MAXPAGES ==> Vp(a, i) in disk)
    case _ => true
  }

  /** The pages of a program as its flash device held them at the start. */
  ghost function Image(disk: map<Vp, Page>, a: int): map<Vp, Page>
    requires forall i :: 0 <= i < MAXPAGES ==> Vp(a, i) in disk
  {
    map vp | vp in disk && vp.asid == a && vp.page < MAXPAGES :: disk[vp]
  }

  ghost function FlatNext(disk: map<Vp, Page>, flat: map<Vp, Page>, e: Event): map<Vp, Page>
    requires FlatEnabled(disk, flat, e)
  {
    match e
    case Store(a, vpn, offset, value, _) =>
      flat[Vp(a, PageOf(vpn)) := flat[Vp(a, PageOf(vpn))][offset := value]]
    case StartFree(a) => map vp | vp in flat && vp.asid != a :: flat[vp]
    case Spawn(a, _) => flat + Image(disk, a)
    case _ => flat
  }

  // ----- every event keeps the invariant -----

  lemma {:induction false} StoreKeeps(disk: map<Vp, Page>, s: Machine, e: Event)
    requires Inv(disk, s) && Enabled(disk, s, e) && e.Store?
    ensures Inv(disk, Next(disk, s, e))
  {
    var t := Next(disk, s, e);
    assert SlotOk(s, e.slot);
    assert EntryOk(s, Vp(e.asid, PageOf(e.vpn)));
    forall f | 0 <= f < |t.mem.pool| ensures FrameOk(t, f) { assert FrameOk(s, f); }
    forall vp | vp in t.mem.table ensures EntryOk(t, vp) { assert EntryOk(s, vp); }
    forall k | 0 <= k < |t.mem.tlb| ensures SlotOk(t, k) { assert SlotOk(s, k); }
    forall a | a in t.status ensures StatusOk(t, a) { assert StatusOk(s, a); }
    forall vp | vp in disk ensures Unborn(disk, t, vp) { assert Unborn(disk, s, vp); }
  }

  /** What a refill must meet, before anything is read: the index lies within the table, and no
      other slot holds the entry of that index. */
  ghost predicate SoundRefill(m: Mem, a: int, vpn: nat, slot: nat) {
    && Index(vpn) < MAXPAGES
    && forall t :: 0 <= t < |m.tlb| && t != slot ==> !Matches(m.tlb[t], a, VpnOf(Index(vpn)))
  }

  /** The events the pager is made for: any but an unsound refill. */
  ghost predicate Sound(s: Machine, e: Event) {
    e.Refill? ==> SoundRefill(s.mem, e.asid, e.vpn, e.slot)
  }

  /** The event, had a refill found x behind the table. */
  function WithBehind(e: Event, x: TlbEntry): Event {
    if e.Refill? then e.(behind := x) else e
  }

  lemma {:induction false} RefillKeeps(disk: map<Vp, Page>, s: Machine, e: Event)
    requires Inv(disk, s) && Enabled(disk, s, e) && e.Refill? && Sound(s, e)
    ensures Inv(disk, Next(disk, s, e))
  {
    var t := Next(disk, s, e);
    if Index(e.vpn) < MAXPAGES {
      IndexRoundTrip(Index(e.vpn), STACK_VPN);
    }
    forall f | 0 <= f < |t.mem.pool| ensures FrameOk(t, f) { assert FrameOk(s, f); }
    forall vp | vp in t.mem.table ensures EntryOk(t, vp) { assert EntryOk(s, vp); }
    forall k | 0 <= k < |t.mem.tlb| ensures SlotOk(t, k) { assert SlotOk(s, k); }
    forall a | a in t.status ensures StatusOk(t, a) { assert StatusOk(s, a); }
    forall vp | vp in disk ensures Unborn(disk, t, vp) { assert Unborn(disk, s, vp); }
  }

  /** ... and no other refill keeps the invariant whatever lies behind the table. */
  lemma {:induction false} RefillKeepsIff(disk: map<Vp, Page>, s: Machine, e: Event)
    requires Inv(disk, s) && Enabled(disk, s, e) && e.Refill?
    ensures (forall x :: Inv(disk, Next(disk, s, WithBehind(e, x)))) <==> SoundRefill(s.mem, e.asid, e.vpn, e.slot)
  {
    if Sound(s, e) {
      forall x ensures Inv(disk, Next(disk, s, WithBehind(e, x))) { RefillKeeps(disk, s, WithBehind(e, x)); }
    } else if Index(e.vpn) < MAXPAGES {
      EntryTwice(disk, s, e);
      assert WithBehind(e, e.behind) == e;
    } else {
      var x := TlbEntry(NOPROC, 0, Pte(false, false, 0));
      var t := Next(disk, s, WithBehind(e, x));
      forall a | a in s.status ensures a != NOPROC { assert StatusOk(s, a); }
      assert !SlotOk(t, e.slot);
    }
  }

  lemma EntryTwice(disk: map<Vp, Page>, s: Machine, e: Event)
    requires Enabled(disk, s, e) && e.Refill? && Index(e.vpn) < MAXPAGES && !Sound(s, e)
    ensures !OneMatch(Next(disk, s, e).mem.tlb)
  {
    var t := Next(disk, s, e);
    var k :| 0 <= k < |s.mem.tlb| && k != e.slot && Matches(s.mem.tlb[k], e.asid, VpnOf(Index(e.vpn)));
    assert t.mem.tlb[k] == s.mem.tlb[k];
    var i, j := if k < e.slot then k else e.slot, if k < e.slot then e.slot else k;
    assert Matches(t.mem.tlb[j], t.mem.tlb[i].value.asid, t.mem.tlb[i].value.vpn);
  }

  /** A program that keeps to its 32 pages makes sound refills only. */
  lemma OwnPagesSound(disk: map<Vp, Page>, s: Machine, e: Event)
    requires Enabled(disk, s, e) && (e.Refill? ==> Own(e.vpn))
    ensures Sound(s, e)
  {
    if e.Refill? { IndexRoundTrip(0, e.vpn); }
  }

  lemma {:induction false} StatusKeeps(disk: map<Vp, Page>, s: Machine, e: Event)
    requires Inv(disk, s) && Enabled(disk, s, e) && (e.Fault? || e.Exit?)
    ensures Inv(disk, Next(disk, s, e))
  {
    var t := Next(disk, s, e);
    if e.Fault? {
      assert SlotOk(s, e.slot);
      IndexRoundTrip(0, e.vpn);
    }
    forall f | 0 <= f < |t.mem.pool| ensures FrameOk(t, f) { assert FrameOk(s, f); }
    forall vp | vp in t.mem.table ensures EntryOk(t, vp) { assert EntryOk(s, vp); }
    forall k | 0 <= k < |t.mem.tlb| ensures SlotOk(t, k) { assert SlotOk(s, k); }
    forall a | a in t.status ensures StatusOk(t, a) { assert StatusOk(s, a); }
    forall vp | vp in disk ensures Unborn(disk, t, vp) { assert Unborn(disk, s, vp); }
  }

  lemma {:induction false} AcquireKeeps(disk: map<Vp, Page>, s: Machine, e: Event)
    requires Inv(disk, s) && Enabled(disk, s, e) && (e.Acquire? || e.StartFree?)
    ensures Inv(disk, Next(disk, s, e))
  {
    var t := Next(disk, s, e);
    assert StatusOk(s, e.asid);
    forall f | 0 <= f < |t.mem.pool| ensures FrameOk(t, f) { assert FrameOk(s, f); }
    forall vp | vp in t.mem.table ensures EntryOk(t, vp) { assert EntryOk(s, vp); }
    forall k | 0 <= k < |t.mem.tlb| ensures SlotOk(t, k) { assert SlotOk(s, k); }
    forall a | a in t.status ensures StatusOk(t, a) { assert StatusOk(s, a); }
    forall vp | vp in disk ensures Unborn(disk, t, vp) { assert Unborn(disk, s, vp); }
  }

  lemma {:induction false} SpawnKeeps(disk: map<Vp, Page>, s: Machine, e: Event)
    requires Inv(disk, s) && Enabled(disk, s, e) && e.Spawn?
    ensures Inv(disk, Next(disk, s, e))
  {
    var t := Next(disk, s, e);
    var added := FreshTable(e.asid, e.textSize / PAGESIZE, MAXPAGES);
    forall vp | vp in t.mem.table ensures EntryOk(t, vp) && vp in t.mem.flash {
      if vp in added { assert Unborn(disk, s, vp); } else { assert EntryOk(s, vp); }
    }
    forall vp | vp in s.mem.table ensures vp !in added { assert EntryOk(s, vp); }
    forall f | 0 <= f < |t.mem.pool| ensures FrameOk(t, f) { assert FrameOk(s, f); }
    forall k | 0 <= k < |t.mem.tlb| ensures SlotOk(t, k) { assert SlotOk(s, k); }
    forall a | a in t.status ensures StatusOk(t, a) { if a != e.asid { assert StatusOk(s, a); } }
    forall vp | vp in disk ensures Unborn(disk, t, vp) { assert Unborn(disk, s, vp); }
  }

  lemma {:induction false} PickKeeps(disk: map<Vp, Page>, s: Machine)
    requires Inv(disk, s) && Ready(s) && (s.stage.Acquired? || (s.stage.Chosen? && IsFree(s.mem.pool[s.stage.f])))
    ensures Inv(disk, Act(s))
  {
    var t := Act(s);
    forall f | 0 <= f < |t.mem.pool| ensures FrameOk(t, f) { assert FrameOk(s, f); }
    forall vp | vp in t.mem.table ensures EntryOk(t, vp) { assert EntryOk(s, vp) && StatusOk(s, vp.asid); }
    forall k | 0 <= k < |t.mem.tlb| ensures SlotOk(t, k) { assert SlotOk(s, k); }
    forall a | a in t.status ensures StatusOk(t, a) { assert StatusOk(s, a); }
    forall vp | vp in disk ensures Unborn(disk, t, vp) { assert Unborn(disk, s, vp); }
  }

  /** The buffer after _updateTLB: at most the one entry for vp differs, and there is still one
      match for every page. */
  lemma UpdatedSlots(tlb: seq<Option<TlbEntry>>, vp: Vp, pte: Pte)
    requires OneMatch(tlb)
    ensures OneMatch(Updated(tlb, vp, pte))
    ensures forall t :: 0 <= t < |tlb| ==>
      || (Updated(tlb, vp, pte)[t] == tlb[t] && !Matches(tlb[t], vp.asid, VpnOf(vp.page)))
      || Updated(tlb, vp, pte)[t] == Some(EntryOf(vp, pte))
  {
    var k, asid, vpn := Probe(tlb, vp.asid, VpnOf(vp.page)), vp.asid, VpnOf(vp.page);
    forall t | 0 <= t < |tlb| && t != k ensures !Matches(tlb[t], asid, vpn) {
      if k < t { assert tlb[k].value == TlbEntry(asid, vpn, tlb[k].value.pte); }
    }
  }

  /** The victim's process is live, its entry is the one that maps the frame. */
  lemma VictimMapped(disk: map<Vp, Page>, s: Machine)
    requires Inv(disk, s) && s.stage.Chosen? && !IsFree(s.mem.pool[s.stage.f])
    ensures var x := s.mem.pool[s.stage.f]; var victim := OnFlash(x);
      && x.pte == Some(victim) && victim in s.mem.table && Live(s, victim.asid) && victim != s.stage.vp
      && s.mem.table[victim].valid && s.mem.table[victim].pfn == s.stage.f
  {
    var x := s.mem.pool[s.stage.f];
    assert FrameOk(s, s.stage.f);
    assert StatusOk(s, x.asid);
  }

  lemma {:induction false} InvalidateKeeps(disk: map<Vp, Page>, s: Machine)
    requires Inv(disk, s) && Ready(s) && s.stage.Chosen? && !IsFree(s.mem.pool[s.stage.f])
    ensures Inv(disk, Act(s))
  {
    var t := Act(s);
    VictimMapped(disk, s);
    var victim := OnFlash(s.mem.pool[s.stage.f]);
    assert EntryOk(s, victim);
    UpdatedSlots(s.mem.tlb, victim, s.mem.table[victim].(valid := false));
    forall f | 0 <= f < |t.mem.pool| ensures FrameOk(t, f) { assert FrameOk(s, f); }
    forall vp | vp in t.mem.table ensures EntryOk(t, vp) { assert EntryOk(s, vp); }
    forall k | 0 <= k < |t.mem.tlb| ensures SlotOk(t, k) { assert SlotOk(s, k); }
    forall a | a in t.status ensures StatusOk(t, a) { assert StatusOk(s, a); }
    forall vp | vp in disk ensures Unborn(disk, t, vp) { assert Unborn(disk, s, vp); }
  }

  lemma {:induction false} WriteKeeps(disk: map<Vp, Page>, s: Machine)
    requires Inv(disk, s) && Ready(s) && s.stage.Writing?
    ensures Inv(disk, Act(s))
  {
    var t := Act(s);
    var victim := OnFlash(s.mem.pool[s.stage.f]);
    assert EntryOk(s, victim);
    forall f | 0 <= f < |t.mem.pool| ensures FrameOk(t, f) { assert FrameOk(s, f); }
    forall vp | vp in t.mem.table ensures EntryOk(t, vp) { assert EntryOk(s, vp); }
    forall k | 0 <= k < |t.mem.tlb| ensures SlotOk(t, k) { assert SlotOk(s, k); }
    forall a | a in t.status ensures StatusOk(t, a) { assert StatusOk(s, a); }
    forall vp | vp in disk ensures Unborn(disk, t, vp) { assert Unborn(disk, s, vp); }
  }

  lemma {:induction false} ReadKeeps(disk: map<Vp, Page>, s: Machine)
    requires Inv(disk, s) && Ready(s) && s.stage.Reading?
    ensures Inv(disk, Act(s))
  {
    var t := Act(s);
    assert s.stage.i == WORDS ==> s.mem.ram[s.stage.f] == s.mem.flash[s.stage.vp];
    forall f | 0 <= f < |t.mem.pool| ensures FrameOk(t, f) { assert FrameOk(s, f); }
    forall vp | vp in t.mem.table ensures EntryOk(t, vp) { assert EntryOk(s, vp); }
    forall k | 0 <= k < |t.mem.tlb| ensures SlotOk(t, k) { assert SlotOk(s, k); }
    forall a | a in t.status ensures StatusOk(t, a) { assert StatusOk(s, a); }
    forall vp | vp in disk ensures Unborn(disk, t, vp) { assert Unborn(disk, s, vp); }
  }

  lemma {:induction false} MapKeeps(disk: map<Vp, Page>, s: Machine)
    requires Inv(disk, s) && Ready(s) && s.stage.Mapping?
    ensures Inv(disk, Act(s))
  {
    var t := Act(s);
    var vp := s.stage.vp;
    UpdatedSlots(s.mem.tlb, vp, t.mem.table[vp]);
    forall f | 0 <= f < |t.mem.pool| ensures FrameOk(t, f) { assert FrameOk(s, f); }
    forall v | v in t.mem.table ensures EntryOk(t, v) { assert EntryOk(s, v); }
    forall k | 0 <= k < |t.mem.tlb| ensures SlotOk(t, k) { assert SlotOk(s, k); }
    forall a | a in t.status ensures StatusOk(t, a) { assert StatusOk(s, a); }
    forall v | v in disk ensures Unborn(disk, t, v) { assert Unborn(disk, s, v); }
  }

  lemma {:induction false} SweepKeeps(disk: map<Vp, Page>, s: Machine)
    requires Inv(disk, s) && Ready(s) && s.stage.Sweeping?
    ensures Inv(disk, Act(s))
  {
    var t := Act(s);
    forall f | 0 <= f < |t.mem.pool| ensures FrameOk(t, f) { assert FrameOk(s, f); }
    forall vp | vp in t.mem.table ensures EntryOk(t, vp) { assert EntryOk(s, vp); }
    forall k | 0 <= k < |t.mem.tlb| ensures SlotOk(t, k) { assert SlotOk(s, k); }
    forall a | a in t.status ensures StatusOk(t, a) { assert StatusOk(s, a); }
    forall vp | vp in disk ensures Unborn(disk, t, vp) { assert Unborn(disk, s, vp); }
  }

  lemma StepKeeps(disk: map<Vp, Page>, s: Machine, e: Event)
    requires Inv(disk, s) && Enabled(disk, s, e) && Sound(s, e)
    ensures Inv(disk, Next(disk, s, e))
  {
    match e
    case Load(_, _, _, _, _) =>
    case Store(_, _, _, _, _) => StoreKeeps(disk, s, e);
    case Refill(_, _, _, _) => RefillKeeps(disk, s, e);
    case Fault(_, _, _) => StatusKeeps(disk, s, e);
    case Acquire(_) => AcquireKeeps(disk, s, e);
    case Exit(_) => StatusKeeps(disk, s, e);
    case StartFree(_) => AcquireKeeps(disk, s, e);
    case Spawn(_, _) => SpawnKeeps(disk, s, e);
    case Pager =>
      match s.stage {
        case Acquired(_) => PickKeeps(disk, s);
        case Chosen(_, f) => if IsFree(s.mem.pool[f]) { PickKeeps(disk, s); } else { InvalidateKeeps(disk, s); }
        case Writing(_, _, _) => WriteKeeps(disk, s);
        case Reading(_, _, _) => ReadKeeps(disk, s);
        case Mapping(_, _) => MapKeeps(disk, s);
        case Sweeping(_, _) => SweepKeeps(disk, s);
      }
  }

  /** A sound event keeps the invariant; one that keeps it, whatever lies behind the table, is sound. */
  lemma InvKept(disk: map<Vp, Page>, s: Machine, e: Event)
    requires Inv(disk, s) && Enabled(disk, s, e)
    ensures forall x :: Enabled(disk, s, WithBehind(e, x))
    ensures (forall x :: Inv(disk, Next(disk, s, WithBehind(e, x)))) <==> Sound(s, e)
  {
    if e.Refill? {
      RefillKeepsIff(disk, s, e);
    } else {
      StepKeeps(disk, s, e);
    }
  }

  // ----- the simulation -----

  /** Where a valid entry of a live process points. */
  lemma Mapped(disk: map<Vp, Page>, s: Machine, vp: Vp)
    requires Inv(disk, s) && Visible(s, vp) && s.mem.table[vp].valid
    ensures s.mem.table[vp].pfn < |s.mem.ram| && !Moving(s, s.mem.table[vp].pfn)
    ensures s.mem.pool[s.mem.table[vp].pfn] == Swap(vp.asid, vp.page, Some(vp))
  {
    assert EntryOk(s, vp);
  }

  ghost predicate SamePage(disk: map<Vp, Page>, s: Machine, t: Machine, vp: Vp)
    requires Inv(disk, s) && Inv(disk, t)
  {
    Visible(s, vp) ==> Visible(t, vp) && Content(disk, t, vp) == Content(disk, s, vp)
  }

  lemma SamePages(disk: map<Vp, Page>, s: Machine, t: Machine)
    requires Inv(disk, s) && Inv(disk, t)
    requires t.mem.table.Keys == s.mem.table.Keys
    requires forall a :: Live(t, a) ==> Live(s, a)
    requires forall vp {:trigger SamePage(disk, s, t, vp)} :: SamePage(disk, s, t, vp)
    ensures Abstract(disk, t) == Abstract(disk, s)
  {
    forall vp ensures Visible(t, vp) <==> Visible(s, vp) { assert SamePage(disk, s, t, vp); }
    forall vp | Visible(s, vp) ensures Content(disk, t, vp) == Content(disk, s, vp) { assert SamePage(disk, s, t, vp); }
  }

  /** An access through the buffer reaches the page it names. */
  lemma AccessReaches(disk: map<Vp, Page>, s: Machine, a: int, vpn: nat, offset: nat, slot: nat)
    requires Inv(disk, s) && Is(s, a, Running) && Accessible(s.mem, a, vpn, offset, slot)
    ensures Own(vpn)
    ensures var vp := Vp(a, PageOf(vpn));
      && Visible(s, vp) && s.mem.table[vp] == s.mem.tlb[slot].value.pte
      && s.mem.table[vp].valid && Content(disk, s, vp) == s.mem.ram[s.mem.table[vp].pfn]
  {
    assert SlotOk(s, slot);
  }

  lemma LoadSimulates(disk: map<Vp, Page>, s: Machine, e: Event)
    requires Inv(disk, s) && Enabled(disk, s, e) && e.Load?
    ensures FlatEnabled(disk, Abstract(disk, s), e)
  {
    AccessReaches(disk, s, e.asid, e.vpn, e.offset, e.slot);
  }

  lemma {:induction false} StoreSimulates(disk: map<Vp, Page>, s: Machine, e: Event)
    requires Inv(disk, s) && Enabled(disk, s, e) && e.Store? && Inv(disk, Next(disk, s, e))
    ensures FlatEnabled(disk, Abstract(disk, s), e)
    ensures Abstract(disk, Next(disk, s, e)) == FlatNext(disk, Abstract(disk, s), e)
  {
    var t := Next(disk, s, e);
    AccessReaches(disk, s, e.asid, e.vpn, e.offset, e.slot);
    var target := Vp(e.asid, PageOf(e.vpn));
    Mapped(disk, s, target);
    var l, r := Abstract(disk, t), FlatNext(disk, Abstract(disk, s), e);
    assert forall vp :: vp in l <==> vp in r;
    forall vp | vp in l ensures l[vp] == r[vp] {
      if s.mem.table[vp].valid { Mapped(disk, s, vp); }
    }
  }

  /** A new program finds its pages as the flash device held them, and disturbs no other page. */
  lemma {:induction false} SpawnPages(disk: map<Vp, Page>, s: Machine, e: Event, vp: Vp)
    requires Inv(disk, s) && Enabled(disk, s, e) && e.Spawn? && Inv(disk, Next(disk, s, e))
    ensures vp.asid == e.asid ==> !Visible(s, vp)
    ensures Visible(Next(disk, s, e), vp) <==> Visible(s, vp) || vp in Image(disk, e.asid)
    ensures Visible(s, vp) ==> Content(disk, Next(disk, s, e), vp) == Content(disk, s, vp)
    ensures vp in Image(disk, e.asid) ==> Content(disk, Next(disk, s, e), vp) == disk[vp]
  {
    var added := FreshTable(e.asid, e.textSize / PAGESIZE, MAXPAGES);
    if vp in s.mem.table { assert EntryOk(s, vp); }
    if vp in added {
      assert Vp(e.asid, vp.page) in disk && Unborn(disk, s, vp);
    }
  }

  lemma {:induction false} SpawnSimulates(disk: map<Vp, Page>, s: Machine, e: Event)
    requires Inv(disk, s) && Enabled(disk, s, e) && e.Spawn? && Inv(disk, Next(disk, s, e))
    ensures FlatEnabled(disk, Abstract(disk, s), e)
    ensures Abstract(disk, Next(disk, s, e)) == FlatNext(disk, Abstract(disk, s), e)
  {
    forall vp: Vp ensures vp.asid == e.asid ==> vp !in Abstract(disk, s) { SpawnPages(disk, s, e, vp); }
    var l, r := Abstract(disk, Next(disk, s, e)), FlatNext(disk, Abstract(disk, s), e);
    forall vp ensures vp in l <==> vp in r { SpawnPages(disk, s, e, vp); }
    forall vp | vp in l ensures l[vp] == r[vp] { SpawnPages(disk, s, e, vp); }
  }

  lemma {:induction false} StartFreeSimulates(disk: map<Vp, Page>, s: Machine, e: Event)
    requires Inv(disk, s) && Enabled(disk, s, e) && e.StartFree? && Inv(disk, Next(disk, s, e))
    ensures Abstract(disk, Next(disk, s, e)) == FlatNext(disk, Abstract(disk, s), e)
  {
    var l, r := Abstract(disk, Next(disk, s, e)), FlatNext(disk, Abstract(disk, s), e);
    assert forall vp :: vp in l <==> vp in r;
    assert forall vp :: vp in l ==> l[vp] == r[vp];
  }

  /** No action of the pager changes what a page of a live process holds. */
  lemma {:induction false} ActSamePage(disk: map<Vp, Page>, s: Machine, vp: Vp)
    requires Inv(disk, s) && Ready(s) && Inv(disk, Act(s))
    ensures SamePage(disk, s, Act(s), vp)
  {
    if Visible(s, vp) && s.mem.table[vp].valid { Mapped(disk, s, vp); }
    if s.stage.Chosen? && !IsFree(s.mem.pool[s.stage.f]) { VictimMapped(disk, s); }
  }

  lemma ActSimulates(disk: map<Vp, Page>, s: Machine)
    requires Inv(disk, s) && Ready(s) && Inv(disk, Act(s))
    ensures Abstract(disk, Act(s)) == Abstract(disk, s)
  {
    forall vp ensures SamePage(disk, s, Act(s), vp) { ActSamePage(disk, s, vp); }
    SamePages(disk, s, Act(s));
  }

  lemma QuietSimulates(disk: map<Vp, Page>, s: Machine, e: Event)
    requires Inv(disk, s) && Enabled(disk, s, e) && Inv(disk, Next(disk, s, e))
    requires e.Refill? || e.Fault? || e.Acquire? || e.Exit?
    ensures Abstract(disk, Next(disk, s, e)) == Abstract(disk, s)
  {
    forall vp ensures SamePage(disk, s, Next(disk, s, e), vp) {}
    SamePages(disk, s, Next(disk, s, e));
  }

  /** In every sound step the paged machine does what flat private memory does. */
  lemma StepSimulates(disk: map<Vp, Page>, s: Machine, e: Event)
    requires Inv(disk, s) && Enabled(disk, s, e) && Sound(s, e)
    ensures Inv(disk, Next(disk, s, e)) && FlatEnabled(disk, Abstract(disk, s), e)
    ensures Abstract(disk, Next(disk, s, e)) == FlatNext(disk, Abstract(disk, s), e)
  {
    StepKeeps(disk, s, e);
    match e
    case Load(_, _, _, _, _) => LoadSimulates(disk, s, e);
    case Store(_, _, _, _, _) => StoreSimulates(disk, s, e);
    case StartFree(_) => StartFreeSimulates(disk, s, e);
    case Spawn(_, _) => SpawnSimulates(disk, s, e);
    case Pager => ActSimulates(disk, s);
    case _ => QuietSimulates(disk, s, e);
  }

  // ----- runs -----

  /** The state after test has called initSwapStructs, with an empty buffer. */
  ghost predicate Boot(disk: map<Vp, Page>, s: Machine) {
    && Sized(s.mem, WORDS) && s.mem.table == map[] && s.mem.flash == disk
    && (forall f :: 0 <= f < |s.mem.pool| ==> s.mem.pool[f] == FREE)
    && (forall t :: 0 <= t < |s.mem.tlb| ==> s.mem.tlb[t].None?)
    && s.status == map[] && s.stage == Idle
  }

  ghost predicate IsRun(disk: map<Vp, Page>, s: Machine, es: seq<Event>)
    decreases |es|
  {
    es == [] || (Enabled(disk, s, es[0]) && IsRun(disk, Next(disk, s, es[0]), es[1..]))
  }

  ghost function Exec(disk: map<Vp, Page>, s: Machine, es: seq<Event>): Machine
    requires IsRun(disk, s, es)
    decreases |es|
  {
    if es == [] then s else Exec(disk, Next(disk, s, es[0]), es[1..])
  }

  ghost predicate IsFlatRun(disk: map<Vp, Page>, flat: map<Vp, Page>, es: seq<Event>)
    decreases |es|
  {
    es == [] || (FlatEnabled(disk, flat, es[0]) && IsFlatRun(disk, FlatNext(disk, flat, es[0]), es[1..]))
  }

  ghost function FlatExec(disk: map<Vp, Page>, flat: map<Vp, Page>, es: seq<Event>): map<Vp, Page>
    requires IsFlatRun(disk, flat, es)
    decreases |es|
  {
    if es == [] then flat else FlatExec(disk, FlatNext(disk, flat, es[0]), es[1..])
  }

  lemma BootInv(disk: map<Vp, Page>, s: Machine)
    requires Boot(disk, s)
    ensures Inv(disk, s) && Abstract(disk, s) == map[]
  {
    assert forall f :: 0 <= f < |s.mem.pool| ==> FrameOk(s, f);
    assert forall t :: 0 <= t < |s.mem.tlb| ==> SlotOk(s, t);
  }

  ghost predicate AllSound(disk: map<Vp, Page>, s: Machine, es: seq<Event>)
    requires IsRun(disk, s, es)
    decreases |es|
  {
    es == [] || (Sound(s, es[0]) && AllSound(disk, Next(disk, s, es[0]), es[1..]))
  }

  /** Programs that keep to their 32 pages make sound runs, whatever else happens. */
  lemma {:induction false} OwnPagesRun(disk: map<Vp, Page>, s: Machine, es: seq<Event>)
    requires IsRun(disk, s, es) && forall e :: e in es && e.Refill? ==> Own(e.vpn)
    ensures AllSound(disk, s, es)
    decreases |es|
  {
    if es != [] {
      assert es[0] in es && forall e :: e in es[1..] ==> e in es;
      OwnPagesSound(disk, s, es[0]);
      OwnPagesRun(disk, Next(disk, s, es[0]), es[1..]);
    }
  }

  /** Paging is transparent: every run of the paged machine with sound refills, and with the values
      its loads return, is a run of flat memory private to each process, and ends with the same
      contents. */
  lemma {:induction false} Transparent(disk: map<Vp, Page>, s: Machine, es: seq<Event>)
    requires Inv(disk, s) && IsRun(disk, s, es) && AllSound(disk, s, es)
    ensures IsFlatRun(disk, Abstract(disk, s), es) && Inv(disk, Exec(disk, s, es))
    ensures Abstract(disk, Exec(disk, s, es)) == FlatExec(disk, Abstract(disk, s), es)
    decreases |es|
  {
    if es != [] {
      StepSimulates(disk, s, es[0]);
      Transparent(disk, Next(disk, s, es[0]), es[1..]);
    }
  }

  lemma TransparentFromBoot(disk: map<Vp, Page>, s: Machine, es: seq<Event>)
    requires Boot(disk, s) && IsRun(disk, s, es) && AllSound(disk, s, es)
    ensures IsFlatRun(disk, map[], es) && Inv(disk, Exec(disk, s, es))
    ensures Abstract(disk, Exec(disk, s, es)) == FlatExec(disk, map[], es)
  {
    BootInv(disk, s);
    Transparent(disk, s, es);
  }

  /** While the refills are sound, only pages of the program fault, so the handler finds an entry. */
  lemma FaultInTable(disk: map<Vp, Page>, s: Machine, e: Event)
    requires Inv(disk, s) && Enabled(disk, s, e) && e.Fault?
    ensures Own(e.vpn) && Index(e.vpn) == PageOf(e.vpn) && Vp(e.asid, Index(e.vpn)) in s.mem.table
  {
    assert SlotOk(s, e.slot);
    IndexRoundTrip(0, e.vpn);
  }

  // ----- what holds between faults -----

  /** Between faults the valid entries of live processes and the occupied frames correspond one to
      one, and every entry of the buffer for such a process is the current one. */
  lemma Bijection(disk: map<Vp, Page>, s: Machine)
    requires Inv(disk, s) && s.stage == Idle
    ensures forall f :: 0 <= f < |s.mem.pool| && !IsFree(s.mem.pool[f]) ==>
      var vp := OnFlash(s.mem.pool[f]);
      && s.mem.pool[f].pte == Some(vp) && Visible(s, vp)
      && s.mem.table[vp].valid && s.mem.table[vp].pfn == f
    ensures forall vp :: Visible(s, vp) && s.mem.table[vp].valid ==>
      var f := s.mem.table[vp].pfn;
      f < |s.mem.pool| && s.mem.pool[f] == Swap(vp.asid, vp.page, Some(vp))
    ensures forall t :: 0 <= t < |s.mem.tlb| && s.mem.tlb[t].Some? && Live(s, s.mem.tlb[t].value.asid) ==>
      Current(s.mem, s.mem.tlb[t].value)
    ensures OneMatch(s.mem.tlb)
  {
    forall f | 0 <= f < |s.mem.pool| && !IsFree(s.mem.pool[f])
      ensures Visible(s, OnFlash(s.mem.pool[f])) && FrameOk(s, f)
    {
      assert FrameOk(s, f) && StatusOk(s, s.mem.pool[f].asid);
    }
    forall vp | Visible(s, vp) && s.mem.table[vp].valid ensures EntryOk(s, vp) {}
    forall t | 0 <= t < |s.mem.tlb| && s.mem.tlb[t].Some? && Live(s, s.mem.tlb[t].value.asid)
      ensures Current(s.mem, s.mem.tlb[t].value)
    {
      assert SlotOk(s, t);
    }
  }

  /** The frame table holds nothing of a process whose frames freeFrames has released. */
  lemma GoneLeavesNothing(disk: map<Vp, Page>, s: Machine, a: int)
    requires Inv(disk, s) && Is(s, a, Gone)
    ensures forall f :: 0 <= f < |s.mem.pool| ==> s.mem.pool[f].asid != a
  {
    assert StatusOk(s, a);
    forall f | 0 <= f < |s.mem.pool| ensures s.mem.pool[f].asid != a { assert FrameOk(s, f); }
  }

  /** The holder of the swap pool can always go on; and a running process that addresses any page
      at all gets through the buffer, is refilled, or faults. */
  lemma NeverStuck(disk: map<Vp, Page>, s: Machine, a: int, vpn: nat, behind: TlbEntry)
    requires Inv(disk, s)
    ensures s.stage != Idle ==> Enabled(disk, s, Pager)
    ensures Is(s, a, Running) && 0 < |s.mem.tlb| ==>
      || (exists slot, value :: Enabled(disk, s, Load(a, vpn, 0, value, slot)))
      || Enabled(disk, s, Fault(a, vpn, Probe(s.mem.tlb, a, vpn)))
      || Enabled(disk, s, Refill(a, vpn, 0, behind))
  {
    if s.stage.Chosen? || s.stage.Writing? { assert FrameOk(s, s.stage.f); }
    var t := Probe(s.mem.tlb, a, vpn);
    if Is(s, a, Running) {
      assert StatusOk(s, a);
      if t < |s.mem.tlb| && s.mem.tlb[t].value.pte.valid {
        assert SlotOk(s, t);
        Mapped(disk, s, Vp(a, PageOf(vpn)));
        assert Accessible(s.mem, a, vpn, 0, t);
        assert Enabled(disk, s, Load(a, vpn, 0, s.mem.ram[s.mem.tlb[t].value.pte.pfn][0], t));
      }
    }
  }

  // ----- program text -----

  /** The D bit of an entry is what initPageTable made it. */
  lemma WritableKept(disk: map<Vp, Page>, s: Machine, e: Event, vp: Vp)
    requires Inv(disk, s) && Enabled(disk, s, e) && vp in s.mem.table
    ensures vp in Next(disk, s, e).mem.table
    ensures Next(disk, s, e).mem.table[vp].dirty == s.mem.table[vp].dirty
    ensures !Live(s, vp.asid) ==> !Live(Next(disk, s, e), vp.asid)
  {
    assert EntryOk(s, vp);
    if s.stage.Chosen? { assert FrameOk(s, s.stage.f); }
    if s.stage.Sweeping? { assert StatusOk(s, s.stage.asid); }
  }

  lemma TextStep(disk: map<Vp, Page>, s: Machine, e: Event, vp: Vp)
    requires Inv(disk, s) && Enabled(disk, s, e) && Sound(s, e) && Visible(s, vp) && !s.mem.table[vp].dirty
    requires Inv(disk, Next(disk, s, e)) && Live(Next(disk, s, e), vp.asid)
    ensures Visible(Next(disk, s, e), vp) && Content(disk, Next(disk, s, e), vp) == Content(disk, s, vp)
  {
    StepSimulates(disk, s, e);
    WritableKept(disk, s, e, vp);
    if e.Store? { AccessReaches(disk, s, e.asid, e.vpn, e.offset, e.slot); }
    assert vp in FlatNext(disk, Abstract(disk, s), e)
        && FlatNext(disk, Abstract(disk, s), e)[vp] == Abstract(disk, s)[vp];
  }

  /** A page without D bit keeps its contents as long as its process lives, however often it is
      paged out and in. */
  lemma {:induction false} TextUnchanged(disk: map<Vp, Page>, s: Machine, es: seq<Event>, vp: Vp)
    requires Inv(disk, s) && IsRun(disk, s, es) && AllSound(disk, s, es)
    requires vp in s.mem.table && !s.mem.table[vp].dirty
    ensures var t := Exec(disk, s, es); Inv(disk, t) && vp in t.mem.table && !t.mem.table[vp].dirty
    ensures Live(Exec(disk, s, es), vp.asid) ==>
      Visible(s, vp) && Content(disk, Exec(disk, s, es), vp) == Content(disk, s, vp)
    decreases |es|
  {
    if es != [] {
      var t := Next(disk, s, es[0]);
      StepSimulates(disk, s, es[0]);
      WritableKept(disk, s, es[0], vp);
      TextUnchanged(disk, t, es[1..], vp);
      if Live(t, vp.asid) { TextStep(disk, s, es[0], vp); }
    }
  }

  lemma {:induction false} RunWritable(disk: map<Vp, Page>, s: Machine, es: seq<Event>, vp: Vp)
    requires Inv(disk, s) && IsRun(disk, s, es) && AllSound(disk, s, es) && vp in s.mem.table
    ensures var t := Exec(disk, s, es);
      Inv(disk, t) && vp in t.mem.table && t.mem.table[vp].dirty == s.mem.table[vp].dirty
    decreases |es|
  {
    if es != [] {
      StepKeeps(disk, s, es[0]);
      WritableKept(disk, s, es[0], vp);
      RunWritable(disk, Next(disk, s, es[0]), es[1..], vp);
    }
  }

  /** A store that gets through the buffer is carried out iff the page table entry has the D bit. */
  lemma StoreIff(disk: map<Vp, Page>, s: Machine, a: int, i: nat, offset: nat, value: Word, slot: nat)
    requires Inv(disk, s) && i < MAXPAGES && Vp(a, i) in s.mem.table
    requires Is(s, a, Running) && Accessible(s.mem, a, VpnOf(i), offset, slot)
    ensures Enabled(disk, s, Store(a, VpnOf(i), offset, value, slot)) <==> s.mem.table[Vp(a, i)].dirty
  {
    assert SlotOk(s, slot);
    IndexRoundTrip(i, STACK_VPN);
  }

  /** The first table of a process has the D bit exactly for pages outside its text. */
  lemma SpawnText(disk: map<Vp, Page>, s: Machine, a: int, textSize: int, i: nat)
    requires Inv(disk, s) && Enabled(disk, s, Spawn(a, textSize)) && i < MAXPAGES
    ensures var t := Next(disk, s, Spawn(a, textSize));
      && Inv(disk, t) && Visible(t, Vp(a, i)) && Content(disk, t, Vp(a, i)) == disk[Vp(a, i)]
      && (t.mem.table[Vp(a, i)].dirty <==> !IsText(i, textSize))
  {
    var t, vp := Next(disk, s, Spawn(a, textSize)), Vp(a, i);
    SpawnKeeps(disk, s, Spawn(a, textSize));
    SpawnSimulates(disk, s, Spawn(a, textSize));
    FreshIsText(i, textSize);
    assert vp in FreshTable(a, textSize / PAGESIZE, MAXPAGES);
    assert vp in Image(disk, a) && Abstract(disk, t)[vp] == disk[vp];
  }

  /** Over every run of a process with sound refills its stores to pages within its text trap, and
      those to all others are carried out once the page is there; and while it lives the text is what
      its program had. */
  lemma TextProtected(disk: map<Vp, Page>, s: Machine, a: int, textSize: int, es: seq<Event>, i: nat)
    requires Inv(disk, s) && Enabled(disk, s, Spawn(a, textSize)) && i < MAXPAGES
    requires var t := Next(disk, s, Spawn(a, textSize)); IsRun(disk, t, es) && AllSound(disk, t, es)
    ensures var u := Exec(disk, Next(disk, s, Spawn(a, textSize)), es);
      && Inv(disk, u)
      && (forall offset, value, slot :: Enabled(disk, u, Store(a, VpnOf(i), offset, value, slot)) <==>
            Is(u, a, Running) && Accessible(u.mem, a, VpnOf(i), offset, slot) && !IsText(i, textSize))
      && (IsText(i, textSize) && Live(u, a) ==>
            Visible(u, Vp(a, i)) && Content(disk, u, Vp(a, i)) == disk[Vp(a, i)])
  {
    var t, vp := Next(disk, s, Spawn(a, textSize)), Vp(a, i);
    SpawnText(disk, s, a, textSize, i);
    RunWritable(disk, t, es, vp);
    var u := Exec(disk, t, es);
    forall offset: nat, value: Word, slot: nat | Is(u, a, Running) && Accessible(u.mem, a, VpnOf(i), offset, slot)
      ensures Enabled(disk, u, Store(a, VpnOf(i), offset, value, slot)) <==> !IsText(i, textSize)
    {
      StoreIff(disk, u, a, i, offset, value, slot);
    }
    if IsText(i, textSize) { TextUnchanged(disk, t, es, vp); }
  }

  // ----- the routines of the pager as runs of the protocol -----

  /** n actions of the holder in a row lead from s to t. */
  ghost predicate Leads(s: Machine, n: nat, t: Machine)
    decreases n
  {
    if n == 0 then s == t else Ready(s) && Leads(Act(s), n - 1, t)
  }

  /** The words of the victim, and then the n actions that lead on to t. */
  lemma {:induction false} WriteLeads(s: Machine, n: nat, t: Machine)
    requires Sized(s.mem, WORDS) && s.stage.Writing? && s.stage.f < |s.mem.pool| && s.stage.i <= WORDS
    requires OnFlash(s.mem.pool[s.stage.f]) in s.mem.flash
    requires forall k :: 0 <= k < s.stage.i ==>
      s.mem.flash[OnFlash(s.mem.pool[s.stage.f])][k] == s.mem.ram[s.stage.f][k]
    requires Leads(s.(mem := WriteBack(s.mem, s.stage.f), stage := Reading(s.stage.vp, s.stage.f, 0)), n, t)
    ensures Leads(s, WORDS - s.stage.i + 1 + n, t)
    decreases WORDS - s.stage.i
  {
    var f := s.stage.f;
    var r := Act(s);
    if s.stage.i == WORDS {
      assert s.mem.flash[OnFlash(s.mem.pool[f])] == s.mem.ram[f];
      assert WriteBack(s.mem, f).flash == s.mem.flash;
    } else {
      assert WriteBack(r.mem, f).flash == WriteBack(s.mem, f).flash;
      WriteLeads(r, n, t);
    }
  }

  /** The words of the missing page, and then the n actions that lead on to t. */
  lemma {:induction false} ReadLeads(s: Machine, n: nat, t: Machine)
    requires Sized(s.mem, WORDS) && s.stage.Reading? && s.stage.f < |s.mem.pool| && s.stage.i <= WORDS
    requires s.stage.vp in s.mem.flash
    requires forall k :: 0 <= k < s.stage.i ==> s.mem.ram[s.stage.f][k] == s.mem.flash[s.stage.vp][k]
    requires Leads(s.(mem := Describe(ReadIn(s.mem, s.stage.vp, s.stage.f), s.stage.vp, s.stage.f),
                      stage := Mapping(s.stage.vp, s.stage.f)), n, t)
    ensures Leads(s, WORDS - s.stage.i + 1 + n, t)
    decreases WORDS - s.stage.i
  {
    var f, vp := s.stage.f, s.stage.vp;
    var r := Act(s);
    if s.stage.i == WORDS {
      assert s.mem.ram[f] == s.mem.flash[vp];
      assert ReadIn(s.mem, vp, f).ram == s.mem.ram;
    } else {
      assert ReadIn(r.mem, vp, f).ram == ReadIn(s.mem, vp, f).ram;
      ReadLeads(r, n, t);
    }
  }

  lemma OneLeads(s: Machine, t: Machine)
    requires Ready(s) && Act(s) == t
    ensures Leads(s, 1, t)
  {
    assert Leads(t, 0, t);
  }

  lemma EndLeads(s: Machine)
    requires Sized(s.mem, WORDS) && s.stage.Reading? && s.stage.f < |s.mem.pool| && s.stage.i == 0
    requires s.stage.vp in s.mem.table && s.stage.vp.asid in s.status
    ensures var f, vp := s.stage.f, s.stage.vp;
      Leads(s, WORDS + 2,
        Machine(MapIn(Describe(ReadIn(s.mem, vp, f), vp, f), vp, f), s.status[vp.asid := Running], Idle))
  {
    var f, vp := s.stage.f, s.stage.vp;
    var t := s.(mem := Describe(ReadIn(s.mem, vp, f), vp, f), stage := Mapping(vp, f));
    var u := Machine(MapIn(t.mem, vp, f), s.status[vp.asid := Running], Idle);
    assert Act(t) == u;
    OneLeads(t, u);
    ReadLeads(s, 1, u);
  }

  /** Undisturbed, the actions of one page fault add up to what the handler computes, if the frame it
      picks is free or properly described. */
  lemma HandlerLeads(s: Machine) returns (n: nat)
    requires Sized(s.mem, WORDS) && s.stage.Acquired?
    requires s.stage.vp in s.mem.table && s.stage.vp.asid in s.status
    requires IsFree(s.mem.pool[PickFrame(s.mem)]) || Described(s.mem, PickFrame(s.mem))
    ensures Leads(s, n, Machine(Served(s.mem, s.stage.vp), s.status[s.stage.vp.asid := Running], Idle))
  {
    var vp, f := s.stage.vp, PickFrame(s.mem);
    var s1 := Act(s);
    var s2 := Act(s1);
    if IsFree(s.mem.pool[f]) {
      EndLeads(s2);
      n := WORDS + 4;
    } else {
      var s3 := s2.(mem := WriteBack(s2.mem, f), stage := Reading(vp, f, 0));
      EndLeads(s3);
      WriteLeads(s2, WORDS + 2, Machine(Served(s.mem, vp), s.status[vp.asid := Running], Idle));
      n := WORDS + WORDS + 5;
    }
  }

  /** That frame is free or properly described in every state of a sound run. */
  lemma HandlerFits(disk: map<Vp, Page>, s: Machine)
    requires Inv(disk, s) && s.stage.Acquired?
    ensures s.stage.vp in s.mem.table && s.stage.vp.asid in s.status
    ensures IsFree(s.mem.pool[PickFrame(s.mem)]) || Described(s.mem, PickFrame(s.mem))
  {
    assert FrameOk(s, PickFrame(s.mem));
  }

  /** So the single actions of a page fault, undisturbed, add up to _TLBInvalidHandler. */
  lemma HandlerIsProtocol(disk: map<Vp, Page>, s: Machine) returns (n: nat)
    requires Inv(disk, s) && s.stage.Acquired?
    ensures s.stage.vp in s.mem.table && (IsFree(s.mem.pool[PickFrame(s.mem)]) || Described(s.mem, PickFrame(s.mem)))
    ensures Leads(s, n, Machine(Served(s.mem, s.stage.vp), s.status[s.stage.vp.asid := Running], Idle))
  {
    HandlerFits(disk, s);
    n := HandlerLeads(s);
  }

  lemma {:induction false} LeadsKeeps(disk: map<Vp, Page>, s: Machine, n: nat, t: Machine)
    requires Inv(disk, s) && Leads(s, n, t)
    ensures Inv(disk, t) && Abstract(disk, t) == Abstract(disk, s)
    decreases n
  {
    if n > 0 {
      StepKeeps(disk, s, Event.Pager);
      ActSimulates(disk, s);
      LeadsKeeps(disk, Act(s), n - 1, t);
    }
  }

  /** _updateTLB leaves every slot an entry for the page it was for. */
  lemma UpdatedKeepsPage(tlb: seq<Option<TlbEntry>>, vp: Vp, pte: Pte, t: nat, a: int, vpn: nat)
    requires t < |tlb| && Matches(tlb[t], a, vpn)
    ensures Matches(Updated(tlb, vp, pte)[t], a, vpn)
  {
  }

  lemma ServedKeepsPage(m: Mem, vp: Vp, t: nat, a: int, vpn: nat)
    requires m.hand < |m.pool| == |m.ram| && vp in m.table && vp in m.flash
    requires !IsFree(m.pool[PickFrame(m)]) ==> Described(m, PickFrame(m))
    requires Hit(m, a, vpn, t)
    ensures Hit(Served(m, vp), a, vpn, t) && vp in Served(m, vp).table && Served(m, vp).table[vp].valid
  {
    var f := PickFrame(m);
    if !IsFree(m.pool[f]) {
      var victim := m.pool[f].pte.value;
      UpdatedKeepsPage(m.tlb, victim, m.table[victim].(valid := false), t, a, vpn);
    }
  }

  /** A page fault brings in the page that was asked for: undisturbed, fault, P and handler lead to a
      state in which the access goes through, with all memory as it was. */
  lemma FaultServed(disk: map<Vp, Page>, s: Machine, a: int, vpn: nat, slot: nat, offset: nat)
    returns (n: nat, u: Machine)
    requires Inv(disk, s) && s.stage == Idle && Enabled(disk, s, Fault(a, vpn, slot)) && offset < WORDS
    ensures var t := Next(disk, s, Fault(a, vpn, slot));
      Enabled(disk, t, Acquire(a)) && Leads(Next(disk, t, Acquire(a)), n, u)
    ensures Inv(disk, u) && Abstract(disk, u) == Abstract(disk, s) && u.stage == Idle
    ensures Is(u, a, Running) && Accessible(u.mem, a, vpn, offset, slot)
  {
    var t := Next(disk, s, Fault(a, vpn, slot));
    FaultInTable(disk, s, Fault(a, vpn, slot));
    StepKeeps(disk, s, Fault(a, vpn, slot));
    QuietSimulates(disk, s, Fault(a, vpn, slot));
    var r := Next(disk, t, Acquire(a));
    StepKeeps(disk, t, Acquire(a));
    QuietSimulates(disk, t, Acquire(a));
    n := HandlerIsProtocol(disk, r);
    u := Machine(Served(r.mem, r.stage.vp), r.status[a := Running], Idle);
    LeadsKeeps(disk, r, n, u);
    ServedKeepsPage(r.mem, r.stage.vp, slot, a, vpn);
    ValidReached(disk, u, a, vpn, slot, offset);
  }

  lemma ValidReached(disk: map<Vp, Page>, u: Machine, a: int, vpn: nat, slot: nat, offset: nat)
    requires Inv(disk, u) && Is(u, a, Running) && Hit(u.mem, a, vpn, slot) && Own(vpn) && offset < WORDS
    requires Vp(a, PageOf(vpn)) in u.mem.table && u.mem.table[Vp(a, PageOf(vpn))].valid
    ensures Accessible(u.mem, a, vpn, offset, slot)
  {
    assert SlotOk(u, slot);
    Mapped(disk, u, Vp(a, PageOf(vpn)));
  }

  /** And those of freeFrames add up to its loop. */
  lemma {:induction false} SweepIsProtocol(disk: map<Vp, Page>, s: Machine)
    requires Inv(disk, s) && s.stage.Sweeping?
    ensures Leads(s, |s.mem.pool| - s.stage.i + 1,
              Machine(s.mem.(pool := Swept(s.mem.pool, s.stage.asid, |s.mem.pool|)),
                      s.status[s.stage.asid := Gone], Idle))
    decreases |s.mem.pool| - s.stage.i
  {
    var a, n := s.stage.asid, |s.mem.pool|;
    var t := Act(s);
    SweepKeeps(disk, s);
    if s.stage.i == n {
      assert Swept(s.mem.pool, a, n) == s.mem.pool;
      assert Leads(t, 0, t);
    } else {
      SweepIsProtocol(disk, t);
      assert Swept(t.mem.pool, a, n) == Swept(s.mem.pool, a, n);
    }
  }
}
