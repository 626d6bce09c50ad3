/**
 Page table, TLB, swap pool and flash as one memory: when they agree, when a page fault keeps them in
 agreement, and that runs which do refine a flat memory.
 */
module Coherence {
  import opened Paging

  /** Every frame but `v` is mapped where its slot says. */
  ghost predicate Mapped(s: Machine, v: int) {
    forall f: nat :: f < |s.pool| && f != v && s.pool[f].Held? ==>
      Page(s, s.pool[f].owner, s.pool[f].page) && s.tables[s.pool[f].owner][s.pool[f].page].lo == Loaded(s.base, f)
  }

  /** The frame a valid entry names. */
  predicate Backing(s: Machine, f: int, v: int, u: nat, p: nat) { 0 <= f < |s.pool| && f != v && s.pool[f] == Held(u, p) }

  /** Every valid entry names a frame, not `v`, that holds the page. */
  ghost predicate Backed(s: Machine, v: int) {
    forall u: nat, p: nat :: Page(s, u, p) && ValidBit(s.tables[u][p].lo) ==>
      Backing(s, FrameOf(s.base, s.tables[u][p].lo), v, u, p)
  }

  /** Every TLB entry is the page table's. */
  ghost predicate Cached(s: Machine) {
    forall u: nat, p: nat :: Page(s, u, p) && EntryHi(u + 1, p) in s.tlb ==>
      s.tlb[EntryHi(u + 1, p)] == s.tables[u][p].lo
  }

  /** In agreement except for frame `v`, which nothing maps. */
  ghost predicate CoherentBut(s: Machine, v: int) { Shaped(s) && Mapped(s, v) && Backed(s, v) && Cached(s) }

  ghost predicate Coherent(s: Machine) { CoherentBut(s, -1) }

  /** What page `p` of `u` contains: its frame if the page table says it is resident, else its flash block. */
  ghost function View(s: Machine, u: nat, p: nat): Block
    requires Shaped(s) && Page(s, u, p)
  {
    var lo := s.tables[u][p].lo;
    if ValidBit(lo) && 0 <= FrameOf(s.base, lo) < |s.ram| then s.ram[FrameOf(s.base, lo)] else s.flash[u][p]
  }

  /** A page table entry is valid exactly when one frame holds the page, and then it maps that frame. */
  lemma ValidIffOneFrame(s: Machine, u: nat, p: nat)
    requires Coherent(s) && Page(s, u, p)
    ensures ValidBit(s.tables[u][p].lo) <==> exists f: nat :: f < |s.pool| && s.pool[f] == Held(u, p)
    ensures forall f: nat :: f < |s.pool| && s.pool[f] == Held(u, p) ==>
      s.tables[u][p].lo == Loaded(s.base, f) && View(s, u, p) == s.ram[f]
    ensures forall f: nat, g: nat :: f < |s.pool| && g < |s.pool| && s.pool[f] == s.pool[g] == Held(u, p) ==> f == g
  {
    var lo := s.tables[u][p].lo;
    if ValidBit(lo) {
      assert Backing(s, FrameOf(s.base, lo), -1, u, p);
    }
    forall f: nat | f < |s.pool| && s.pool[f] == Held(u, p)
      ensures lo == Loaded(s.base, f) && ValidBit(lo) && FrameOf(s.base, lo) == f
    {
      LoadedBits(s.base, f);
    }
  }

  /** The frame that a fault of `u` would take is unoccupied or its own. */
  predicate Own(slot: Slot, u: nat) { slot.Held? ==> slot.owner == u }

  /** All views of `s` survive in `r`, but for the pages of `lost`. */
  ghost predicate SameViews(s: Machine, r: Machine, lost: set<nat>)
    requires Shaped(s) && Shaped(r)
  {
    forall x: nat, q: nat :: Page(s, x, q) && Page(r, x, q) && x !in lost ==> View(r, x, q) == View(s, x, q)
  }

  lemma BootCoherent(base: nat, frames: seq<Block>, flash: seq<seq<Block>>, text: seq<nat>)
    requires base % 4096 == 0 && frames != [] && |text| == |flash| < MAX_ASID
    requires forall u :: 0 <= u < |flash| ==> |flash[u]| == MAX_PAGES
    ensures Coherent(Boot(base, frames, flash, text))
    ensures forall u: nat, p: nat :: u < |flash| && p < MAX_PAGES ==>
      Page(Boot(base, frames, flash, text), u, p) && View(Boot(base, frames, flash, text), u, p) == flash[u][p]
  {
    BootShaped(base, frames, flash, text);
    UnloadedBits();
  }

  lemma SetLoAt(s: Machine, u: nat, p: nat, lo: nat, x: nat, q: nat)
    requires Shaped(s) && u < |s.tables| && p < MAX_PAGES && x < |s.tables| && q < MAX_PAGES
    ensures SetLo(s.tables, u, p, lo)[x][q] == Pte(EntryHi(x + 1, q), if x == u && q == p then lo else s.tables[x][q].lo)
  {
  }

  /** The TLB after `u`'s entry `p` became `lo` in table and TLB. */
  lemma RefreshKeepsCached(s: Machine, r: Machine, u: nat, p: nat, lo: nat)
    requires Shaped(s) && Shaped(r) && Cached(s) && Page(s, u, p) && r.live == s.live
    requires r.tables == SetLo(s.tables, u, p, lo) && r.tlb == Refresh(s.tlb, r.tables[u][p])
    ensures Cached(r)
  {
    forall x: nat, q: nat | Page(r, x, q) && EntryHi(x + 1, q) in r.tlb
      ensures r.tlb[EntryHi(x + 1, q)] == r.tables[x][q].lo
    {
      SetLoAt(s, u, p, lo, x, q);
      SetLoAt(s, u, p, lo, u, p);
      if EntryHi(x + 1, q) == EntryHi(u + 1, p) {
        EntryHiInjective(x + 1, q, u + 1, p);
      }
    }
  }

  lemma EvictCoherent(s: Machine, u: nat, v: nat, io: Transfer)
    requires Coherent(s) && u in s.live && v < |s.pool| && Own(s.pool[v], u)
    ensures CoherentBut(Evict(s, u, v, io), v)
  {
    var r := Evict(s, u, v, io);
    if s.pool[v].Held? {
      var k := s.pool[v].page;
      RefreshKeepsCached(s, r, u, k, 0);
      UnloadedBits();
      forall f: nat | f < |s.pool| && f != v && s.pool[f].Held?
        ensures Page(r, s.pool[f].owner, s.pool[f].page)
        ensures r.tables[s.pool[f].owner][s.pool[f].page].lo == Loaded(s.base, f)
      {
        SetLoAt(s, u, k, 0, s.pool[f].owner, s.pool[f].page);
        LoadedBits(s.base, f);
        LoadedBits(s.base, v);
      }
      forall x: nat, q: nat | Page(r, x, q) && ValidBit(r.tables[x][q].lo)
        ensures Backing(r, FrameOf(r.base, r.tables[x][q].lo), v, x, q)
      {
        SetLoAt(s, u, k, 0, x, q);
        assert Backing(s, FrameOf(s.base, s.tables[x][q].lo), -1, x, q);
      }
    }
  }

  lemma EvictKeepsViews(s: Machine, u: nat, v: nat, io: Transfer)
    requires Coherent(s) && u in s.live && v < |s.pool| && Own(s.pool[v], u)
    ensures SameViews(s, Evict(s, u, v, io), if io.WriteFails? then {u} else {})
  {
    var r := Evict(s, u, v, io);
    if s.pool[v].Held? {
      var k := s.pool[v].page;
      UnloadedBits();
      LoadedBits(s.base, v);
      forall x: nat, q: nat | Page(s, x, q) && (x != u || !io.WriteFails?) ensures View(r, x, q) == View(s, x, q) {
        SetLoAt(s, u, k, 0, x, q);
      }
    }
  }

  lemma FetchCoherent(s: Machine, u: nat, p: nat, v: nat, io: Transfer)
    requires CoherentBut(s, v) && u < |s.tables| && p < MAX_PAGES && v < |s.pool|
    ensures CoherentBut(Fetch(s, u, p, v, io), v) && SameViews(s, Fetch(s, u, p, v, io), {})
  {
  }

  lemma InstallCoherent(s: Machine, u: nat, p: nat, v: nat)
    requires CoherentBut(s, v) && Page(s, u, p) && v < |s.pool|
    requires !ValidBit(s.tables[u][p].lo) && s.ram[v] == s.flash[u][p]
    ensures Coherent(Install(s, u, p, v)) && SameViews(s, Install(s, u, p, v), {})
  {
    var r := Install(s, u, p, v);
    var lo := Loaded(s.base, v);
    RefreshKeepsCached(s, r, u, p, lo);
    LoadedBits(s.base, v);
    forall f: nat | f < |r.pool| && r.pool[f].Held?
      ensures Page(r, r.pool[f].owner, r.pool[f].page)
      ensures r.tables[r.pool[f].owner][r.pool[f].page].lo == Loaded(r.base, f)
    {
      SetLoAt(s, u, p, lo, r.pool[f].owner, r.pool[f].page);
      LoadedBits(s.base, f);
    }
    forall x: nat, q: nat | Page(r, x, q)
      ensures ValidBit(r.tables[x][q].lo) ==> Backing(r, FrameOf(r.base, r.tables[x][q].lo), -1, x, q)
      ensures View(r, x, q) == View(s, x, q)
    {
      SetLoAt(s, u, p, lo, x, q);
      if ValidBit(s.tables[x][q].lo) {
        assert Backing(s, FrameOf(s.base, s.tables[x][q].lo), v, x, q);
      }
    }
  }

  lemma ExitCoherent(s: Machine, u: nat, v: int)
    requires CoherentBut(s, v) && (0 <= v < |s.pool| ==> Own(s.pool[v], u))
    ensures Coherent(Exit(s, u)) && SameViews(s, Exit(s, u), {})
  {
  }

  lemma StaticIndexIsNoMatter(s: Machine, next: int)
    requires Coherent(s) && -1 <= next < |s.pool|
    ensures Coherent(s.(next := next)) && SameViews(s, s.(next := next), {})
  {
  }

  /** From the frame being available to the end of the fault. */
  lemma FetchAndInstall(s: Machine, u: nat, p: nat, v: nat, io: Transfer)
    requires CoherentBut(s, v) && Page(s, u, p) && v < |s.pool| && Own(s.pool[v], u)
    requires !ValidBit(s.tables[u][p].lo)
    ensures var s2 := Fetch(s, u, p, v, io);
      var r := if io.ReadFails? then Exit(s2, u) else Install(s2, u, p, v);
      Coherent(r) && SameViews(s, r, {})
  {
    var s2 := Fetch(s, u, p, v, io);
    FetchCoherent(s, u, p, v, io);
    if io.ReadFails? {
      ExitCoherent(s2, u, v);
    } else {
      InstallCoherent(s2, u, p, v);
    }
  }

  /** A page fault whose victim is unoccupied or the faulting U-proc's own keeps the agreement and every view. */
  lemma FaultCoherent(s: Machine, u: nat, p: nat, io: Transfer)
    requires Coherent(s) && Page(s, u, p) && !ValidBit(s.tables[u][p].lo) && Own(s.pool[Victim(s)], u)
    ensures Coherent(Fault(s, u, p, io)) && SameViews(s, Fault(s, u, p, io), {})
  {
    var (v, next) := Pick(s.pool, s.next);
    var s0 := s.(next := next);
    StaticIndexIsNoMatter(s, next);
    var s1 := Evict(s0, u, v, io);
    EvictCoherent(s0, u, v, io);
    EvictKeepsViews(s0, u, v, io);
    if io.WriteFails? && s.pool[v].Held? {
      ExitCoherent(s1, u, v);
    } else {
      if io.WriteFails? {
        assert s1 == s0;
      }
      EvictedStaysInvalid(s0, u, p, v, io);
      FetchAndInstall(s1, u, p, v, io);
    }
  }

  lemma EvictedStaysInvalid(s: Machine, u: nat, p: nat, v: nat, io: Transfer)
    requires Shaped(s) && Page(s, u, p) && !ValidBit(s.tables[u][p].lo) && v < |s.pool|
    ensures !ValidBit(Evict(s, u, v, io).tables[u][p].lo)
  {
  }

  /** With somebody else's frame for victim, the owner's entry goes on mapping a frame that is no longer its. */
  lemma ForeignVictimLeavesEntry(s: Machine, u: nat, p: nat)
    requires Coherent(s) && Page(s, u, p) && !Own(s.pool[Victim(s)], u)
    ensures var slot := s.pool[Victim(s)];
      var r := Fault(s, u, p, Works);
      && r.tables[slot.owner][slot.page] == s.tables[slot.owner][slot.page]
      && r.pool[Victim(s)] == Held(u, p) && r.ram[Victim(s)] == s.flash[u][p]
      && r.base == s.base && r.live == s.live && |r.ram| == |s.ram| && |r.tables| == |s.tables|
  {
    var (v, next) := Pick(s.pool, s.next);
    var slot := s.pool[v];
    var s1 := Evict(s.(next := next), u, v, Works);
    SetLoAt(s, u, slot.page, 0, slot.owner, slot.page);
    SetLoAt(s1, u, p, Loaded(s.base, v), slot.owner, slot.page);
  }

  /** A fault that fails after taking somebody else's frame ends with the U-proc it belongs to, and with it what it broke. */
  lemma FailedTheft(s: Machine, u: nat, p: nat, io: Transfer)
    requires Coherent(s) && Page(s, u, p) && !Own(s.pool[Victim(s)], u) && !io.Works?
    ensures var r := Fault(s, u, p, io);
      && Shaped(r) && r.base == s.base && r.pool == Cleaned(s.pool, u) && r.live == s.live - {u} && r.tlb == s.tlb
      && (forall x: nat, q: nat :: x < |s.tables| && x != u && q < MAX_PAGES ==> r.tables[x][q] == s.tables[x][q])
      && |r.tables| == |s.tables|
      && r.ram == (if io.ReadFails? then s.ram[Victim(s) := io.left] else s.ram)
      && forall x: nat, q: nat :: x < |s.tables| && q < MAX_PAGES && s.pool[Victim(s)] != Held(x, q) ==> r.flash[x][q] == s.flash[x][q]
  {
    var (v, next) := Pick(s.pool, s.next);
    var slot := s.pool[v];
    var s1 := Evict(s.(next := next), u, v, io);
    SetLoAt(s, u, slot.page, 0, slot.owner, slot.page);
    assert Page(s, slot.owner, slot.page);
    FaultShaped(s, u, p, io);
    assert s1.tlb == s.tlb;
  }

  lemma FailedTheftCoherent(s: Machine, u: nat, p: nat, io: Transfer)
    requires Coherent(s) && Page(s, u, p) && !Own(s.pool[Victim(s)], u) && !io.Works?
    ensures Coherent(Fault(s, u, p, io))
  {
    var r := Fault(s, u, p, io);
    FailedTheft(s, u, p, io);
    forall x: nat, q: nat | Page(r, x, q) && ValidBit(r.tables[x][q].lo)
      ensures Backing(r, FrameOf(r.base, r.tables[x][q].lo), -1, x, q)
    {
      assert Backing(s, FrameOf(s.base, s.tables[x][q].lo), -1, x, q);
    }
  }

  /** After a failed read into somebody else's frame the owner's page is whatever the transfer left there. */
  lemma FailedReadLosesPage(s: Machine, u: nat, p: nat, left: Block)
    requires Coherent(s) && Page(s, u, p) && !Own(s.pool[Victim(s)], u)
    ensures var r, slot := Fault(s, u, p, ReadFails(left)), s.pool[Victim(s)];
      && Coherent(r) && Page(s, slot.owner, slot.page) && Page(r, slot.owner, slot.page)
      && View(s, slot.owner, slot.page) == s.ram[Victim(s)] && View(r, slot.owner, slot.page) == left
  {
    var v := Victim(s);
    FailedTheft(s, u, p, ReadFails(left));
    FailedTheftCoherent(s, u, p, ReadFails(left));
    LoadedBits(s.base, v);
    assert Page(s, s.pool[v].owner, s.pool[v].page);
  }

  /** What a failed transfer into somebody else's frame leaves of the pages of the others. */
  lemma FailedTheftViews(s: Machine, u: nat, p: nat, io: Transfer)
    requires Coherent(s) && Page(s, u, p) && !Own(s.pool[Victim(s)], u) && !io.Works?
    requires io.ReadFails? ==> io.left == s.ram[Victim(s)]
    ensures Coherent(Fault(s, u, p, io)) && SameViews(s, Fault(s, u, p, io), {})
  {
    var r := Fault(s, u, p, io);
    FailedTheft(s, u, p, io);
    FailedTheftCoherent(s, u, p, io);
    assert r.ram == s.ram;
    forall x: nat, q: nat | Page(s, x, q) && Page(r, x, q) ensures View(r, x, q) == View(s, x, q) {
      if s.pool[Victim(s)] == Held(x, q) {
        LoadedBits(s.base, Victim(s));
      }
    }
  }

  /** Exactly when a page fault keeps page tables, TLB and pool in agreement, however its transfers go. */
  lemma FaultCoherentIff(s: Machine, u: nat, p: nat, io: Transfer)
    requires Coherent(s) && Page(s, u, p) && !ValidBit(s.tables[u][p].lo)
    ensures Coherent(Fault(s, u, p, io)) <==> Own(s.pool[Victim(s)], u) || !io.Works?
  {
    if Own(s.pool[Victim(s)], u) {
      FaultCoherent(s, u, p, io);
    } else if io.Works? {
      ForeignVictimLeavesEntry(s, u, p);
      var v := Victim(s);
      var o, k := s.pool[v].owner, s.pool[v].page;
      var r := Fault(s, u, p, Works);
      LoadedBits(s.base, v);
      assert Page(r, o, k) && ValidBit(r.tables[o][k].lo);
      assert !Backing(r, FrameOf(r.base, r.tables[o][k].lo), -1, o, k);
    } else {
      FailedTheftCoherent(s, u, p, io);
    }
  }

  /**
   What spares the pages of the other U-procs: an unoccupied or own frame, or a transfer that fails
   before the frame is overwritten or happens to leave in it what was there.
   */
  predicate Spares(s: Machine, u: nat, io: Transfer)
    requires Shaped(s)
  {
    Own(s.pool[Victim(s)], u) || io.WriteFails? || (io.ReadFails? && io.left == s.ram[Victim(s)])
  }

  /** Exactly when a page fault keeps both the agreement and the contents of every page that is left. */
  lemma FaultSparesIff(s: Machine, u: nat, p: nat, io: Transfer)
    requires Coherent(s) && Page(s, u, p) && !ValidBit(s.tables[u][p].lo)
    ensures Shaped(Fault(s, u, p, io))
    ensures Coherent(Fault(s, u, p, io)) && SameViews(s, Fault(s, u, p, io), {}) <==> Spares(s, u, io)
  {
    FaultShaped(s, u, p, io);
    FaultCoherentIff(s, u, p, io);
    if Own(s.pool[Victim(s)], u) {
      FaultCoherent(s, u, p, io);
    } else if Spares(s, u, io) {
      FailedTheftViews(s, u, p, io);
    } else if io.ReadFails? {
      FailedReadLosesPage(s, u, p, io.left);
    }
  }
}
