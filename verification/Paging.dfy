/**
 Demand paging as values: page numbers, page tables, the swap pool, the TLB and the flash devices, and
 what phase3/src/pager.c does to them. U-proc `u` has address space identifier `u + 1`.
 */
module Paging {
  import opened Arithmetic
  import opened Bits
  import opened Options
  import opened Sequences

  /** Pages of a U-proc: 31 from the start of its address space and one for its stack. */
  const MAX_PAGES: nat := 32

  /** Address space identifiers occupy bits 6 to 11 of an EntryHi. */
  const MAX_ASID: nat := 63

  /** The EntryHi that init_page_table stores at index `i`. */
  function EntryHi(asid: nat, i: nat): nat {
    if i == 31 then 0x8000_0000 + 0x3FFF_F000 + asid * 64 else 0x8000_0000 + i * 4096 + asid * 64
  }

  /** `None` stands for the kernel panic. */
  function EntryHiToVpn(hi: nat): Option<nat> {
    if hi < 0x8000_0000 then None
    else if hi >= 0x8000_0000 + 31 * 4096 && hi / 4096 != 0xB_FFFF then None
    else Some(hi / 4096)
  }

  function VpnToIndex(vpn: nat): Option<nat> {
    if vpn < 0x8_0000 then None
    else if vpn == 0xB_FFFF then Some(31)
    else if vpn >= 0x8_0000 + 32 then None
    else Some(vpn - 0x8_0000)
  }

  function EntryHiToIndex(hi: nat): Option<nat> {
    match EntryHiToVpn(hi)
    case None => None
    case Some(vpn) => VpnToIndex(vpn)
  }

  /** The index read back from a page table's own EntryHi is the index it was stored at. */
  lemma IndexRoundTrip(asid: nat, i: nat)
    requires asid <= MAX_ASID && i < MAX_PAGES
    ensures EntryHiToIndex(EntryHi(asid, i)) == Some(i)
  {
    if i == 31 {
      assert EntryHi(asid, i) / 4096 == 0xB_FFFF;
    } else {
      assert EntryHi(asid, i) / 4096 == 0x8_0000 + i;
    }
  }

  /** Exactly the addresses of the 32 pages have an index; every other EntryHi makes the kernel panic. */
  lemma IndexedIffMapped(hi: nat, i: nat)
    ensures EntryHiToIndex(hi) == Some(i) <==> i < MAX_PAGES && hi / 4096 == EntryHi(0, i) / 4096
  {
    if i < MAX_PAGES {
      IndexRoundTrip(0, i);
      if hi / 4096 == EntryHi(0, i) / 4096 {
        assert i != 31 ==> hi / 4096 == 0x8_0000 + i;
        assert hi >= 4096 * (hi / 4096) && hi < 4096 * (hi / 4096) + 4096;
      }
    }
  }

  /**
   vpn_to_index alone gives the stack's index to a page below it as well; it is entryhi_to_vpn that
   rejects that page.
   */
  lemma StackIndexIsShared()
    ensures VpnToIndex(0x8_001F) == VpnToIndex(0xB_FFFF) == Some(31)
    ensures forall hi: nat :: hi / 4096 == 0x8_001F ==> EntryHiToVpn(hi) == None
  {
    forall hi: nat | hi / 4096 == 0x8_001F ensures EntryHiToVpn(hi) == None {
      assert hi >= 4096 * 0x8_001F;
    }
  }

  lemma EntryHiInjective(asid: nat, i: nat, asid': nat, i': nat)
    requires asid <= MAX_ASID && i < MAX_PAGES && asid' <= MAX_ASID && i' < MAX_PAGES
    requires EntryHi(asid, i) == EntryHi(asid', i')
    ensures asid == asid' && i == i'
  {
    IndexRoundTrip(asid, i);
    IndexRoundTrip(asid', i');
  }

  lemma EntryHiDiffers(asid: nat, i: nat, asid': nat, i': nat)
    requires asid <= MAX_ASID && i < MAX_PAGES && asid' <= MAX_ASID && i' < MAX_PAGES && (asid != asid' || i != i')
    ensures EntryHi(asid, i) != EntryHi(asid', i')
  {
    if EntryHi(asid, i) == EntryHi(asid', i') {
      EntryHiInjective(asid, i, asid', i');
    }
  }

  /** A page table entry. */
  datatype Pte = Pte(hi: nat, lo: nat)

  /** The EntryLo of a page held by frame `f` of a pool at address `base`: the address, VALIDON and DIRTYON. */
  function Loaded(base: nat, f: nat): nat { base + 4096 * f + 0x200 + 0x400 }

  predicate ValidBit(lo: nat) { lo / 0x200 % 2 == 1 }

  predicate DirtyBit(lo: nat) { lo / 0x400 % 2 == 1 }

  function FrameOf(base: nat, lo: nat): int { (lo - base) / 4096 }

  lemma LoadedBits(base: nat, f: nat)
    requires base % 4096 == 0
    ensures ValidBit(Loaded(base, f)) && DirtyBit(Loaded(base, f)) && FrameOf(base, Loaded(base, f)) == f
  {
    var q, lo := base / 4096 + f, Loaded(base, f);
    assert lo == 4096 * q + 0x600;
    DivideBy(lo, 0x200, 8 * q + 3, 0);
    DivideBy(lo, 0x400, 4 * q + 1, 0x200);
    DivideBy(8 * q + 3, 2, 4 * q + 1, 1);
    DivideBy(4 * q + 1, 2, 2 * q, 1);
    DivideBy(lo - base, 4096, f, 0x600);
  }

  /** The address of a frame or-ed with VALIDON and DIRTYON, as update_page_table writes it. */
  lemma LoadedIsOr(base: nat, f: nat)
    requires base % 4096 == 0
    ensures BitOr(BitOr(base + 4096 * f, 0x200), 0x400) == Loaded(base, f)
  {
    var q := base / 4096 + f;
    assert Pow2(10) == 0x400 by { assert Pow2(4) == 16; assert Pow2(7) == 128; }
    assert Pow2(12) == 4096;
    OrBelow(0x200, 1, 10);
    OrBelow(0x600, q, 12);
    OrCommutes(4096 * q, 0x600);
    OrAssociates(4096 * q, 0x200, 0x400);
    assert base + 4096 * f == 4096 * q;
  }

  lemma UnloadedBits()
    ensures !ValidBit(0) && !ValidBit(0x400)
  {
  }

  /** An entry of the swap pool table: unoccupied (sw_asid is -1), or page `page` of U-proc `owner`. */
  datatype Slot = Unoccupied | Held(owner: nat, page: nat)

  /** The contents of a frame or of a flash block. */
  type Block = seq<int>

  /**
   `base` is the address of the swap pool, `next` the static index of pick_page, `ram` the contents of
   the frames, `flash[u]` the backing store of U-proc `u` and `live` the U-procs that have not exited.
   */
  datatype Machine = Machine(
    base: nat,
    pool: seq<Slot>,
    next: int,
    ram: seq<Block>,
    flash: seq<seq<Block>>,
    tables: seq<seq<Pte>>,
    tlb: map<nat, nat>,
    live: set<nat>)

  /** What needs no discipline of its users: sizes, and page tables that keep their EntryHi words. */
  ghost predicate Shaped(s: Machine) {
    && s.base % 4096 == 0
    && 0 < |s.pool| == |s.ram|
    && -1 <= s.next < |s.pool|
    && |s.tables| == |s.flash| < MAX_ASID
    && (forall u :: 0 <= u < |s.tables| ==> |s.tables[u]| == |s.flash[u]| == MAX_PAGES)
    && (forall u, p :: 0 <= u < |s.tables| && 0 <= p < MAX_PAGES ==> s.tables[u][p].hi == EntryHi(u + 1, p))
    && (forall f :: 0 <= f < |s.pool| && s.pool[f].Held? ==> s.pool[f].owner < |s.tables| && s.pool[f].page < MAX_PAGES)
    && (forall u :: u in s.live ==> u < |s.tables|)
  }

  /** `p` is a page of a U-proc that has not exited. */
  predicate Page(s: Machine, u: nat, p: nat) {
    u in s.live && p < MAX_PAGES && u < |s.tables| && |s.tables[u]| == MAX_PAGES
  }

  /** init_page_table: the first `text` pages start with all flags clear, the others with DIRTYON. */
  function FreshTable(asid: nat, text: nat): (t: seq<Pte>)
    ensures |t| == MAX_PAGES
    ensures forall i :: 0 <= i < MAX_PAGES ==>
      t[i] == Pte(EntryHi(asid, i), if i < text && i < 31 then 0 else 0x400)
  {
    seq(MAX_PAGES, i requires 0 <= i => Pte(EntryHi(asid, i), if i < text && i < 31 then 0 else 0x400))
  }

  /** The machine before the first access: nothing resident, `flash` as given. */
  function Boot(base: nat, frames: seq<Block>, flash: seq<seq<Block>>, text: seq<nat>): Machine
    requires |text| == |flash|
  {
    Machine(base, seq(|frames|, _ => Unoccupied), -1, frames, flash,
            seq(|flash|, u requires 0 <= u < |flash| => FreshTable(u + 1, text[u])), map[],
            Below(|flash|))
  }

  /** The first unoccupied frame from `i` on, or the size of the pool. */
  function FreeFrom(pool: seq<Slot>, i: nat): (r: nat)
    requires i <= |pool|
    ensures i <= r <= |pool|
    ensures forall j :: i <= j < r ==> pool[j].Held?
    ensures r < |pool| ==> pool[r].Unoccupied?
    decreases |pool| - i
  {
    if i == |pool| || pool[i].Unoccupied? then i else FreeFrom(pool, i + 1)
  }

  /** pick_page: the frame, and the static index afterwards. */
  function Pick(pool: seq<Slot>, next: int): (r: (nat, int))
    requires 0 < |pool| && -1 <= next < |pool|
    ensures r.0 < |pool| && -1 <= r.1 < |pool|
  {
    var free := FreeFrom(pool, 0);
    if free < |pool| then (free, next) else ((next + 1) % |pool|, (next + 1) % |pool|)
  }

  function SetLo(tables: seq<seq<Pte>>, u: nat, p: nat, lo: nat): seq<seq<Pte>>
    requires u < |tables| && p < |tables[u]|
  {
    tables[u := tables[u][p := tables[u][p].(lo := lo)]]
  }

  /** update_tlb: the entry is replaced if the TLB has one with that EntryHi. */
  function Refresh(tlb: map<nat, nat>, e: Pte): map<nat, nat> {
    if e.hi in tlb then tlb[e.hi := e.lo] else tlb
  }

  function SetBlock(flash: seq<seq<Block>>, u: nat, p: nat, b: Block): seq<seq<Block>>
    requires u < |flash| && p < |flash[u]|
  {
    flash[u := flash[u][p := b]]
  }

  /** How the flash operations of a page fault go; a failed transfer leaves any contents behind. */
  datatype Transfer = Works | WriteFails(left: Block) | ReadFails(left: Block)

  /** The frame that a fault of any U-proc would take. */
  function Victim(s: Machine): (v: nat)
    requires Shaped(s)
    ensures v < |s.pool|
  {
    Pick(s.pool, s.next).0
  }

  /** Lines 384 to 391 for victim `v`: entry k of the table of the U-proc that faults loses its flags. */
  function Disown(s: Machine, u: nat, v: nat): Machine
    requires Shaped(s) && u < |s.tables| && v < |s.pool| && s.pool[v].Held?
  {
    var o, k := s.pool[v].owner, s.pool[v].page;
    var tables := SetLo(s.tables, u, k, 0);
    s.(tables := tables, tlb := Refresh(s.tlb, tables[o][k]))
  }

  /** Lines 418 to 427: frame `v` now holds page `p` of `u`. */
  function Install(s: Machine, u: nat, p: nat, v: nat): Machine
    requires Shaped(s) && u < |s.tables| && p < MAX_PAGES && v < |s.pool|
  {
    var tables := SetLo(s.tables, u, p, Loaded(s.base, v));
    s.(pool := s.pool[v := Held(u, p)], tables := tables, tlb := Refresh(s.tlb, tables[u][p]))
  }

  /** clean_after_uproc. */
  function Cleaned(pool: seq<Slot>, u: nat): (r: seq<Slot>)
    ensures |r| == |pool|
    ensures forall f :: 0 <= f < |pool| ==> r[f] == if pool[f].Held? && pool[f].owner == u then Unoccupied else pool[f]
  {
    seq(|pool|, f requires 0 <= f < |pool| => if pool[f].Held? && pool[f].owner == u then Unoccupied else pool[f])
  }

  /** sys_terminate, also reached through support_trap. */
  function Exit(s: Machine, u: nat): Machine { s.(pool := Cleaned(s.pool, u), live := s.live - {u}) }

  /** Making frame `v` available: nothing to do, or write its page back. */
  function Evict(s: Machine, u: nat, v: nat, io: Transfer): (r: Machine)
    requires Shaped(s) && u < |s.tables| && v < |s.pool|
    ensures Shaped(r) && r.pool == s.pool && r.ram == s.ram && |r.tables| == |s.tables| && r.live == s.live
  {
    if s.pool[v].Unoccupied? then s
    else
      var o, k := s.pool[v].owner, s.pool[v].page;
      var block := if io.WriteFails? then io.left else s.ram[v];
      Disown(s, u, v).(flash := SetBlock(s.flash, o, k, block))
  }

  /** Reading page `p` of `u` into frame `v`. */
  function Fetch(s: Machine, u: nat, p: nat, v: nat, io: Transfer): (r: Machine)
    requires Shaped(s) && u < |s.tables| && p < MAX_PAGES && v < |s.pool|
    ensures Shaped(r) && r.pool == s.pool && r.tables == s.tables && r.live == s.live
  {
    s.(ram := s.ram[v := if io.ReadFails? then io.left else s.flash[u][p]])
  }

  /** support_tlb for page `p` of `u`. */
  function Fault(s: Machine, u: nat, p: nat, io: Transfer): Machine
    requires Shaped(s) && u < |s.tables| && p < MAX_PAGES
  {
    var (v, next) := Pick(s.pool, s.next);
    var s1 := Evict(s.(next := next), u, v, io);
    if io.WriteFails? && s.pool[v].Held? then Exit(s1, u)
    else
      var s2 := Fetch(s1, u, p, v, io);
      if io.ReadFails? then Exit(s2, u) else Install(s2, u, p, v)
  }

  /** tlb_refill_handler: the entry goes to a random position, where it overwrites that of `out` if there is one. */
  function Refill(s: Machine, u: nat, p: nat, out: nat): Machine
    requires Shaped(s) && u < |s.tables| && p < MAX_PAGES
  {
    s.(tlb := (s.tlb - {out})[s.tables[u][p].hi := s.tables[u][p].lo])
  }

  /** The processor lets an access through: the TLB has a valid entry for the page. */
  predicate Hit(s: Machine, u: nat, p: nat) {
    && EntryHi(u + 1, p) in s.tlb && ValidBit(s.tlb[EntryHi(u + 1, p)])
    && 0 <= FrameOf(s.base, s.tlb[EntryHi(u + 1, p)]) < |s.ram|
  }

  function HitFrame(s: Machine, u: nat, p: nat): nat
    requires Hit(s, u, p)
  {
    FrameOf(s.base, s.tlb[EntryHi(u + 1, p)])
  }

  datatype Event =
    | Store(u: nat, p: nat, at: nat, word: int)
    | Load(u: nat, p: nat, at: nat)
    | Modification(u: nat, p: nat)
    | TlbMiss(u: nat, p: nat, out: nat)
    | PageFault(u: nat, p: nat, io: Transfer)
    | Terminate(u: nat)

  /** The dirty flag of an entry that lets accesses through. */
  predicate Writable(s: Machine, u: nat, p: nat)
    requires Hit(s, u, p)
  {
    DirtyBit(s.tlb[EntryHi(u + 1, p)])
  }

  /**
   The processor raises the event: accesses need a valid entry and stores a dirty flag too, a TLB
   modification is a store to a valid entry without it, a page fault meets an entry that is not valid.
   */
  predicate Enabled(s: Machine, e: Event) {
    && e.u in s.live && e.u < |s.tables| && |s.tables[e.u]| == MAX_PAGES
    && match e
       case Store(u, p, at, _) => p < MAX_PAGES && Hit(s, u, p) && Writable(s, u, p) && at < |s.ram[HitFrame(s, u, p)]|
       case Load(u, p, at) => p < MAX_PAGES && Hit(s, u, p) && at < |s.ram[HitFrame(s, u, p)]|
       case Modification(u, p) => p < MAX_PAGES && Hit(s, u, p) && !Writable(s, u, p)
       case TlbMiss(u, p, _) => p < MAX_PAGES && EntryHi(u + 1, p) !in s.tlb
       case PageFault(u, p, _) => p < MAX_PAGES && EntryHi(u + 1, p) in s.tlb && !ValidBit(s.tlb[EntryHi(u + 1, p)])
       case Terminate(_) => true
  }

  function Step(s: Machine, e: Event): Machine
    requires Shaped(s) && Enabled(s, e)
  {
    match e
    case Store(u, p, at, word) =>
      var f := HitFrame(s, u, p);
      s.(ram := s.ram[f := s.ram[f][at := word]])
    case Load(_, _, _) => s
    case Modification(u, _) => Exit(s, u)
    case TlbMiss(u, p, out) => Refill(s, u, p, out)
    case PageFault(u, p, io) => Fault(s, u, p, io)
    case Terminate(u) => Exit(s, u)
  }

  lemma BootTables(base: nat, frames: seq<Block>, flash: seq<seq<Block>>, text: seq<nat>)
    requires |text| == |flash|
    ensures var s := Boot(base, frames, flash, text);
      |s.tables| == |flash| && forall u :: 0 <= u < |flash| ==> s.tables[u] == FreshTable(u + 1, text[u])
  {
  }

  lemma BootShaped(base: nat, frames: seq<Block>, flash: seq<seq<Block>>, text: seq<nat>)
    requires base % 4096 == 0 && frames != [] && |text| == |flash| < MAX_ASID
    requires forall u :: 0 <= u < |flash| ==> |flash[u]| == MAX_PAGES
    ensures Shaped(Boot(base, frames, flash, text))
  {
    var s := Boot(base, frames, flash, text);
    BootTables(base, frames, flash, text);
    forall u, p | 0 <= u < |flash| && 0 <= p < MAX_PAGES
      ensures |s.tables[u]| == MAX_PAGES && s.tables[u][p].hi == EntryHi(u + 1, p)
    {
      assert s.tables[u] == FreshTable(u + 1, text[u]);
    }
  }

  lemma FaultShaped(s: Machine, u: nat, p: nat, io: Transfer)
    requires Shaped(s) && u < |s.tables| && p < MAX_PAGES
    ensures Shaped(Fault(s, u, p, io))
  {
  }

  lemma StepShaped(s: Machine, e: Event)
    requires Shaped(s) && Enabled(s, e)
    ensures Shaped(Step(s, e)) && |Step(s, e).tables| == |s.tables|
  {
    if e.PageFault? {
      FaultShaped(s, e.u, e.p, e.io);
    }
  }

  /** A sequence of events each of which the processor can raise when its turn comes. */
  ghost predicate Possible(s: Machine, es: seq<Event>)
    decreases |es|
  {
    Shaped(s) && (es == [] || (Enabled(s, es[0]) && Possible(Step(s, es[0]), es[1..])))
  }

  ghost function Run(s: Machine, es: seq<Event>): Machine
    requires Possible(s, es)
    decreases |es|
  {
    if es == [] then s else Run(Step(s, es[0]), es[1..])
  }

  lemma RunCons(s: Machine, e: Event, r: Machine, es: seq<Event>)
    requires Shaped(s) && Enabled(s, e) && r == Step(s, e) && Possible(r, es)
    ensures Possible(s, [e] + es) && Run(s, [e] + es) == Run(r, es)
  {
  }

  lemma RunOfTwo(s0: Machine, e0: Event, s1: Machine, e1: Event, s2: Machine, rest: seq<Event>) returns (es: seq<Event>)
    requires Shaped(s0) && Enabled(s0, e0) && s1 == Step(s0, e0)
    requires Shaped(s1) && Enabled(s1, e1) && s2 == Step(s1, e1)
    requires Possible(s2, rest)
    ensures Possible(s0, es) && Run(s0, es) == Run(s2, rest)
  {
    RunCons(s1, e1, s2, rest);
    RunCons(s0, e0, s1, [e1] + rest);
    es := [e0] + ([e1] + rest);
  }

  /** A first access to page `p` of `u` while the victim is unoccupied: afterwards the page can be accessed. */
  lemma FirstAccess(s: Machine, u: nat, p: nat) returns (s1: Machine, r: Machine)
    requires Shaped(s) && Page(s, u, p) && s.pool[Victim(s)].Unoccupied?
    requires s.tlb == map[] && !ValidBit(s.tables[u][p].lo)
    ensures Enabled(s, TlbMiss(u, p, 0)) && s1 == Step(s, TlbMiss(u, p, 0))
    ensures Shaped(s1) && Enabled(s1, PageFault(u, p, Works)) && r == Step(s1, PageFault(u, p, Works))
    ensures Shaped(r) && r.base == s.base && r.live == s.live && r.flash == s.flash
    ensures r.pool == s.pool[Victim(s) := Held(u, p)] && r.ram == s.ram[Victim(s) := s.flash[u][p]]
    ensures r.tables == SetLo(s.tables, u, p, Loaded(s.base, Victim(s)))
    ensures r.tlb == map[EntryHi(u + 1, p) := Loaded(s.base, Victim(s))]
  {
    s1 := Step(s, TlbMiss(u, p, 0));
    assert s1.tlb == map[EntryHi(u + 1, p) := s.tables[u][p].lo];
    r := Step(s1, PageFault(u, p, Works));
    StepShaped(s, TlbMiss(u, p, 0));
    StepShaped(s1, PageFault(u, p, Works));
  }

  /** What the processor makes of a TLB entry that maps frame `v`. */
  lemma LoadedHits(s: Machine, u: nat, p: nat, v: nat)
    requires s.base % 4096 == 0 && v < |s.ram|
    requires EntryHi(u + 1, p) in s.tlb && s.tlb[EntryHi(u + 1, p)] == Loaded(s.base, v)
    ensures Hit(s, u, p) && Writable(s, u, p) && HitFrame(s, u, p) == v
  {
    LoadedBits(s.base, v);
  }
}
