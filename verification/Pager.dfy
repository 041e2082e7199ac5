/** The swap pool, page tables, TLB and backing stores of phase3/vmSupport.c, and what the
    routines of the pager do to them. */
module Pager {
  import opened Options

  type Word = int
  type Page = seq<Word>

  const MAXPAGES: nat := 32
  const PAGESIZE: nat := 4096
  const NOPROC: int := -1

  /** A logical page: its process and its index in the page table of that process.  It also
      stands for the address of that page table entry. */
  datatype Vp = Vp(asid: int, page: nat)

  datatype Pte = Pte(valid: bool, dirty: bool, pfn: nat)

  datatype Swap = Swap(asid: int, pageNo: nat, pte: Option<Vp>)  // swap_t

  datatype TlbEntry = TlbEntry(asid: int, vpn: nat, pte: Pte)

  datatype Mem = Mem(
    pool: seq<Swap>,                 // swap_pool_table
    hand: nat,                       // to_swap_frame_index
    table: map<Vp, Pte>,             // every sup_privatePgTbl
    tlb: seq<Option<TlbEntry>>,
    flash: map<Vp, Page>,            // the backing stores
    ram: seq<Page>)                  // the frames

  predicate IsFree(x: Swap) { x.asid == NOPROC }

  ghost predicate Sized(m: Mem, width: nat) {
    && 0 < |m.pool| == |m.ram| && m.hand < |m.pool|
    && m.table.Keys <= m.flash.Keys
    && (forall f :: 0 <= f < |m.ram| ==> |m.ram[f]| == width)
    && (forall v :: v in m.flash ==> |m.flash[v]| == width)
  }

  // ----- page numbers and page table indices -----

  /** The page number field of EntryHi is bits 12 to 29 of the address, 18 bits (GETPAGENO and
      VPNSHIFT of lib/pandos_const.h); the two bits above it take part in the match of the TLB. */
  const FIELD: nat := 0x40000

  const STACK_VPN: nat := 0xBFFFF

  /** GET_VPN, of the EntryHi that an access to page `vpn` leaves behind. */
  function GetVpn(vpn: nat): nat { 0x80000 + vpn % FIELD }

  /** _getPageIndex. */
  function PageIndex(vpn: nat): nat {
    if vpn == STACK_VPN then 31 else vpn % 0x80000
  }

  /** The index the handlers use for an access to page `vpn`. */
  function Index(vpn: nat): nat { PageIndex(GetVpn(vpn)) }

  /** The page number initPageTable puts into entry i. */
  function VpnOf(i: nat): nat {
    if i == 31 then STACK_VPN else 0x80000 + i
  }

  /** The 32 page numbers a program is given. */
  predicate Own(vpn: nat) { vpn == STACK_VPN || 0x80000 <= vpn < 0x80000 + 31 }

  /** Page numbers of user space outside those that nevertheless have an index in the table. */
  predicate Alias(vpn: nat) {
    vpn == 0x80000 + 31 || 0xC0000 <= vpn < 0xC0000 + 32 || vpn == 0xFFFFF
  }

  function PageOf(vpn: nat): (i: nat)
    requires Own(vpn)
    ensures i < MAXPAGES && VpnOf(i) == vpn
  {
    if vpn == STACK_VPN then 31 else vpn - 0x80000
  }

  /** The index computed from the page number of an entry is that entry's.  Of all page numbers of
      user space, those of the program and the aliases have an index in the table, and for an alias
      the entry found there is one for another page. */
  lemma IndexRoundTrip(i: nat, vpn: nat)
    requires 0x80000 <= vpn < 0x100000
    ensures i < MAXPAGES ==> Own(VpnOf(i)) && PageOf(VpnOf(i)) == i && Index(VpnOf(i)) == i
    ensures Index(vpn) < MAXPAGES <==> Own(vpn) || Alias(vpn)
    ensures Own(vpn) ==> Index(vpn) == PageOf(vpn)
    ensures Alias(vpn) ==> !Own(vpn) && VpnOf(Index(vpn)) != vpn
  {
    assert i < 31 ==> GetVpn(0x80000 + i) == 0x80000 + i;
  }

  // ----- choice of a frame -----

  function Turn(i: nat, n: nat): nat
    requires i < n
  {
    if i + 1 == n then 0 else i + 1
  }

  /** The search of _getFrame from `hand`, n entries long. */
  function Scan(pool: seq<Swap>, hand: nat, n: nat): (f: nat)
    requires hand < |pool|
    ensures f < |pool|
    decreases n
  {
    if n == 0 || IsFree(pool[hand]) then hand else Scan(pool, Turn(hand, |pool|), n - 1)
  }

  function PickFrame(m: Mem): nat
    requires m.hand < |m.pool|
  {
    Scan(m.pool, m.hand, |m.pool|)
  }

  /** The frame k places after `hand` on the way round. */
  function Ahead(hand: nat, k: nat, n: nat): (f: nat)
    requires hand < n && k <= n
    ensures f < n
  {
    if hand + k < n then hand + k else hand + k - n
  }

  /** The frame found: the cyclically first free one if there is any; after a full turn without
      one, the frame the search began at. */
  lemma {:induction false} ScanFindsFirstFree(pool: seq<Swap>, hand: nat, n: nat) returns (steps: nat)
    requires hand < |pool| && n <= |pool|
    ensures steps <= n && Scan(pool, hand, n) == Ahead(hand, steps, |pool|)
    ensures forall k {:trigger Ahead(hand, k, |pool|)} :: 0 <= k < steps ==> !IsFree(pool[Ahead(hand, k, |pool|)])
    ensures steps < n ==> IsFree(pool[Scan(pool, hand, n)])
    decreases n
  {
    if n == 0 || IsFree(pool[hand]) {
      steps := 0;
    } else {
      steps := ScanFindsFirstFree(pool, Turn(hand, |pool|), n - 1);
      forall k {:trigger Ahead(hand, k, |pool|)} | 0 <= k < steps + 1 ensures !IsFree(pool[Ahead(hand, k, |pool|)]) {
        if k > 0 { assert Ahead(Turn(hand, |pool|), k - 1, |pool|) == Ahead(hand, k, |pool|); }
      }
      steps := steps + 1;
    }
  }

  function Distance(hand: nat, f: nat, n: nat): (k: nat)
    requires hand < n && f < n
    ensures k < n && Ahead(hand, k, n) == f
  {
    if f >= hand then f - hand else f + n - hand
  }

  lemma FrameChoice(m: Mem)
    requires m.hand < |m.pool|
    ensures (exists f :: 0 <= f < |m.pool| && IsFree(m.pool[f])) ==> IsFree(m.pool[PickFrame(m)])
    ensures (forall f :: 0 <= f < |m.pool| ==> !IsFree(m.pool[f])) ==> PickFrame(m) == m.hand
  {
    var n := |m.pool|;
    var steps := ScanFindsFirstFree(m.pool, m.hand, n);
    if steps == n {
      forall f | 0 <= f < n ensures !IsFree(m.pool[f]) {
        assert !IsFree(m.pool[Ahead(m.hand, Distance(m.hand, f, n), n)]);
      }
    }
  }

  // ----- the translation lookaside buffer -----

  /** A page table entry as the TLB holds it. */
  function EntryOf(vp: Vp, pte: Pte): TlbEntry { TlbEntry(vp.asid, VpnOf(vp.page), pte) }

  predicate Matches(x: Option<TlbEntry>, asid: int, vpn: nat) {
    x.Some? && x.value.asid == asid && x.value.vpn == vpn
  }

  /** TLBP: the first entry that matches, or the size of the buffer. */
  function Probe(tlb: seq<Option<TlbEntry>>, asid: int, vpn: nat): (t: nat)
    ensures t <= |tlb| && (t < |tlb| ==> Matches(tlb[t], asid, vpn))
    ensures forall k :: 0 <= k < t ==> !Matches(tlb[k], asid, vpn)
  {
    if tlb == [] || Matches(tlb[0], asid, vpn) then 0
    else
      var t := Probe(tlb[1..], asid, vpn);
      assert forall k :: 0 < k < |tlb| ==> tlb[k] == tlb[1..][k - 1];
      t + 1
  }

  /** The buffer after _updateTLB. */
  function Updated(tlb: seq<Option<TlbEntry>>, vp: Vp, pte: Pte): (r: seq<Option<TlbEntry>>)
    ensures |r| == |tlb|
    ensures forall t :: 0 <= t < |tlb| && !Matches(tlb[t], vp.asid, VpnOf(vp.page)) ==> r[t] == tlb[t]
  {
    var t := Probe(tlb, vp.asid, VpnOf(vp.page));
    if t < |tlb| then tlb[t := Some(EntryOf(vp, pte))] else tlb
  }

  /** The entry TLBRefillHandler reads for an access to page `vpn`.  It does not test the index:
      from 32 on it reads `behind`, whatever memory holds there. */
  function Fetched(table: map<Vp, Pte>, asid: int, vpn: nat, behind: TlbEntry): TlbEntry
    requires Index(vpn) < MAXPAGES ==> Vp(asid, Index(vpn)) in table
  {
    if Index(vpn) < MAXPAGES then EntryOf(Vp(asid, Index(vpn)), table[Vp(asid, Index(vpn))]) else behind
  }

  // ----- single actions of the pager -----

  function SetEntry(m: Mem, vp: Vp, pte: Pte): Mem {
    m.(table := m.table[vp := pte], tlb := Updated(m.tlb, vp, pte))
  }

  ghost predicate Described(m: Mem, f: nat) {
    && f < |m.pool| == |m.ram| && m.pool[f].pte.Some? && m.pool[f].pte.value in m.table
    && OnFlash(m.pool[f]) in m.flash
  }

  /** The block the descriptor of a frame names. */
  function OnFlash(x: Swap): Vp { Vp(x.asid, x.pageNo) }

  function Invalidate(m: Mem, f: nat): Mem
    requires Described(m, f)
  {
    var vp := m.pool[f].pte.value;
    SetEntry(m, vp, m.table[vp].(valid := false))
  }

  function WriteBack(m: Mem, f: nat): Mem
    requires f < |m.pool| == |m.ram|
  {
    m.(flash := m.flash[OnFlash(m.pool[f]) := m.ram[f]])
  }

  function ReadIn(m: Mem, vp: Vp, f: nat): Mem
    requires f < |m.ram| && vp in m.flash
  {
    m.(ram := m.ram[f := m.flash[vp]])
  }

  function Describe(m: Mem, vp: Vp, f: nat): Mem
    requires f < |m.pool|
  {
    m.(pool := m.pool[f := Swap(vp.asid, vp.page, Some(vp))])
  }

  function MapIn(m: Mem, vp: Vp, f: nat): Mem
    requires vp in m.table
  {
    SetEntry(m, vp, m.table[vp].(pfn := f, valid := true))
  }

  /** The critical section of _TLBInvalidHandler without interference. */
  function Served(m: Mem, vp: Vp): Mem
    requires m.hand < |m.pool| == |m.ram| && vp in m.table && vp in m.flash
    requires !IsFree(m.pool[PickFrame(m)]) ==> Described(m, PickFrame(m))
  {
    var f := PickFrame(m);
    var m1 := m.(hand := Turn(f, |m.pool|));
    var m2 := if IsFree(m.pool[f]) then m1 else WriteBack(Invalidate(m1, f), f);
    MapIn(Describe(ReadIn(m2, vp, f), vp, f), vp, f)
  }

  const FREE: Swap := Swap(NOPROC, 0, None)

  /** The first n descriptors after freeFrames has swept them. */
  function Swept(pool: seq<Swap>, asid: int, n: nat): (r: seq<Swap>)
    requires n <= |pool|
    ensures |r| == |pool|
  {
    seq(|pool|, f requires 0 <= f < |pool| => if f < n && pool[f].asid == asid then FREE else pool[f])
  }

  /** Entry i of a fresh page table whose first `text` pages are program text. */
  function FreshPte(i: nat, text: int): Pte { Pte(false, i == 31 || i >= text, 0) }

  /** Page i lies within program text of that size, in bytes; the stack page never does. */
  predicate IsText(i: nat, textSize: int) { i < 31 && (i + 1) * PAGESIZE <= textSize }

  lemma FreshIsText(i: nat, textSize: int)
    requires i < MAXPAGES
    ensures var pte := FreshPte(i, textSize / PAGESIZE); !pte.valid && (pte.dirty <==> !IsText(i, textSize))
  {
  }

  function FirstPages(asid: int, n: nat): (r: set<Vp>)
    ensures forall v :: v in r <==> v.asid == asid && v.page < n
  {
    var r := set i | 0 <= i < n :: Vp(asid, i);
    assert forall v: Vp :: v.asid == asid && v.page < n ==> v == Vp(asid, v.page) && v in r;
    r
  }

  function FreshTable(asid: int, text: int, n: nat): (t: map<Vp, Pte>)
    ensures forall v :: v in t <==> v.asid == asid && v.page < n
    ensures forall v :: v in t ==> t[v] == FreshPte(v.page, text)
  {
    map v | v in FirstPages(asid, n) :: FreshPte(v.page, text)
  }

  lemma FreshNext(base: map<Vp, Pte>, asid: int, text: int, n: nat)
    ensures base + FreshTable(asid, text, n + 1) == (base + FreshTable(asid, text, n))[Vp(asid, n) := FreshPte(n, text)]
  {
    var t, vp, pte := FreshTable(asid, text, n), Vp(asid, n), FreshPte(n, text);
    assert base + t[vp := pte] == (base + t)[vp := pte];
  }

  /** The state of the pager as the code keeps it, and the routines that change it. */
  class SwapPool {
    var pool: seq<Swap>
    var hand: nat
    var table: map<Vp, Pte>
    var tlb: seq<Option<TlbEntry>>
    var flash: map<Vp, Page>
    var ram: seq<Page>

    ghost function View(): Mem
      reads this
    {
      Mem(pool, hand, table, tlb, flash, ram)
    }

    /** initSwapStructs: the descriptors, whatever they held before. */
    method InitSwapStructs()
      modifies `pool
      ensures pool == seq(|old(pool)|, _ => FREE)
    {
      ghost var n := |pool|;
      for i := 0 to |pool|
        invariant |pool| == n && forall f :: 0 <= f < i ==> pool[f] == FREE
      {
        pool := pool[i := FREE];
      }
    }

    method GetFrame() returns (f: nat)
      requires hand < |pool|
      modifies `hand
      ensures f == PickFrame(old(View())) && View() == old(View()).(hand := Turn(f, |pool|))
      ensures hand < |pool|
    {
      ghost var start := hand;
      var i := 0;
      while i < |pool| && !IsFree(pool[hand])
        invariant i <= |pool| && hand < |pool|
        invariant Scan(pool, start, |pool|) == Scan(pool, hand, |pool| - i)
      {
        hand := Turn(hand, |pool|);
        i := i + 1;
      }
      f := hand;
      hand := Turn(hand, |pool|);
    }

    method UpdateTlb(vp: Vp)
      requires vp in table
      modifies `tlb
      ensures tlb == Updated(old(tlb), vp, table[vp])
    {
      var index := Probe(tlb, vp.asid, VpnOf(vp.page));
      if index < |tlb| {
        tlb := tlb[index := Some(EntryOf(vp, table[vp]))];
      }
    }

    method StorePage(f: nat)
      requires Described(View(), f)
      modifies `table, `tlb, `flash
      ensures View() == WriteBack(Invalidate(old(View()), f), f)
    {
      var vp := pool[f].pte.value;
      table := table[vp := table[vp].(valid := false)];
      UpdateTlb(vp);
      flash := flash[OnFlash(pool[f]) := ram[f]];
    }

    method LoadPage(vp: Vp, f: nat)
      requires f < |pool| == |ram| && vp in table && vp in flash && vp.page < MAXPAGES
      modifies `pool, `table, `tlb, `ram
      ensures View() == MapIn(Describe(ReadIn(old(View()), vp, f), vp, f), vp, f)
    {
      var pageNum := Index(VpnOf(vp.page));
      IndexRoundTrip(vp.page, VpnOf(vp.page));
      ram := ram[f := flash[Vp(vp.asid, pageNum)]];
      pool := pool[f := Swap(vp.asid, pageNum, Some(vp))];
      table := table[vp := table[vp].(pfn := f, valid := true)];
      UpdateTlb(vp);
    }

    /** _TLBInvalidHandler between its P and its V, on the page number of the faulting access. */
    method TlbInvalidHandler(asid: int, vpn: nat)
      requires hand < |pool| == |ram| && Index(vpn) < MAXPAGES
      requires Vp(asid, Index(vpn)) in table && table.Keys <= flash.Keys
      requires !IsFree(pool[PickFrame(View())]) ==> Described(View(), PickFrame(View()))
      modifies this
      ensures View() == Served(old(View()), Vp(asid, Index(vpn)))
    {
      var missing := Vp(asid, Index(vpn));
      var f := GetFrame();
      if !IsFree(pool[f]) {
        StorePage(f);
      }
      LoadPage(missing, f);
    }

    /** TLBRefillHandler; TLBWR chooses the slot. */
    method TlbRefillHandler(asid: int, vpn: nat, slot: nat, behind: TlbEntry)
      requires slot < |tlb| && (Index(vpn) < MAXPAGES ==> Vp(asid, Index(vpn)) in table)
      modifies `tlb
      ensures tlb == old(tlb)[slot := Some(Fetched(table, asid, vpn, behind))]
    {
      var index := Index(vpn);
      if index < MAXPAGES {
        tlb := tlb[slot := Some(EntryOf(Vp(asid, index), table[Vp(asid, index)]))];
      } else {
        tlb := tlb[slot := Some(behind)];
      }
    }

    /** freeFrames between its P and its V. */
    method FreeFrames(asid: int)
      modifies `pool
      ensures pool == Swept(old(pool), asid, |old(pool)|)
    {
      ghost var before := pool;
      for i := 0 to |pool|
        invariant pool == Swept(before, asid, i) && |pool| == |before|
      {
        if pool[i].asid == asid {
          pool := pool[i := FREE];
        }
      }
    }

    /** initPageTable, given the size of the text segment that the header of the program says. */
    method InitPageTable(asid: int, textSize: int)
      modifies `table
      ensures table == old(table) + FreshTable(asid, textSize / PAGESIZE, MAXPAGES)
      ensures forall i :: 0 <= i < MAXPAGES ==>
        Vp(asid, i) in table && !table[Vp(asid, i)].valid && (table[Vp(asid, i)].dirty <==> !IsText(i, textSize))
    {
      var text := textSize / PAGESIZE;
      ghost var before := table;
      for i := 0 to 31
        invariant table == before + FreshTable(asid, text, i)
      {
        FreshNext(before, asid, text, i);
        table := table[Vp(asid, i) := Pte(false, i >= text, 0)];
      }
      FreshNext(before, asid, text, 31);
      table := table[Vp(asid, 31) := Pte(false, true, 0)];
      forall i | 0 <= i < MAXPAGES ensures Vp(asid, i) in table && table[Vp(asid, i)] == FreshPte(i, text) {
        assert Vp(asid, i) in FreshTable(asid, text, MAXPAGES);
        FreshIsText(i, textSize);
      }
    }
  }
}
