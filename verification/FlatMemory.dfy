/** Runs of the pager: exactly which of them are a flat memory, and what goes wrong in the others. */
module FlatMemory {
  import opened Paging
  import opened Sequences
  import opened Coherence

  /** The memory a U-proc is meant to see: the contents of every page, changed by stores and nothing else. */
  type Memory = seq<seq<Block>>

  predicate Fits(mem: Memory, e: Event) {
    e.Store? ==> e.u < |mem| && e.p < |mem[e.u]| && e.at < |mem[e.u][e.p]|
  }

  function FlatStep(mem: Memory, e: Event): Memory
    requires Fits(mem, e)
  {
    if e.Store? then SetBlock(mem, e.u, e.p, mem[e.u][e.p][e.at := e.word]) else mem
  }

  /** The pager shows every U-proc that has not exited the pages of `mem`. */
  ghost predicate Shows(s: Machine, mem: Memory) {
    && Shaped(s)
    && |mem| == |s.tables| && (forall u :: 0 <= u < |mem| ==> |mem[u]| == MAX_PAGES)
    && (forall u: nat, p: nat :: Page(s, u, p) ==> View(s, u, p) == mem[u][p])
  }

  /** Of page faults: the frame about to be taken is unoccupied or the faulting U-proc's. */
  predicate TakesOwn(s: Machine, e: Event)
    requires Shaped(s)
  {
    e.PageFault? ==> Own(s.pool[Victim(s)], e.u)
  }

  /** Of page faults: the pages of the other U-procs survive. */
  predicate Sparing(s: Machine, e: Event)
    requires Shaped(s)
  {
    e.PageFault? ==> Spares(s, e.u, e.io)
  }

  /** An access the processor lets through goes to the frame that holds the page. */
  lemma HitIsResident(s: Machine, u: nat, p: nat)
    requires Coherent(s) && Page(s, u, p) && Hit(s, u, p)
    ensures HitFrame(s, u, p) < |s.pool| && s.pool[HitFrame(s, u, p)] == Held(u, p)
    ensures View(s, u, p) == s.ram[HitFrame(s, u, p)]
  {
  }

  lemma StoreRefines(s: Machine, mem: Memory, e: Event)
    requires Coherent(s) && Shows(s, mem) && Enabled(s, e) && e.Store?
    ensures Fits(mem, e) && Coherent(Step(s, e)) && Shows(Step(s, e), FlatStep(mem, e))
  {
    var r := Step(s, e);
    var f := HitFrame(s, e.u, e.p);
    HitIsResident(s, e.u, e.p);
    assert Mapped(r, -1) && Backed(r, -1) && Cached(r);
    forall x: nat, q: nat | Page(r, x, q) ensures View(r, x, q) == FlatStep(mem, e)[x][q] {
      assert View(s, x, q) == mem[x][q];
      if ValidBit(s.tables[x][q].lo) {
        assert Backing(s, FrameOf(s.base, s.tables[x][q].lo), -1, x, q);
      }
    }
  }

  lemma RefillKeeps(s: Machine, u: nat, p: nat, out: nat)
    requires Coherent(s) && Page(s, u, p)
    ensures Coherent(Refill(s, u, p, out)) && SameViews(s, Refill(s, u, p, out), {})
  {
    var r := Refill(s, u, p, out);
    assert Mapped(r, -1) && Backed(r, -1);
    forall x: nat, q: nat | Page(r, x, q) && EntryHi(x + 1, q) in r.tlb
      ensures r.tlb[EntryHi(x + 1, q)] == r.tables[x][q].lo
    {
      if EntryHi(x + 1, q) == EntryHi(u + 1, p) {
        EntryHiInjective(x + 1, q, u + 1, p);
      }
    }
  }

  lemma ShowsStill(s: Machine, r: Machine, mem: Memory)
    requires Shows(s, mem) && Shaped(r) && |r.tables| == |s.tables| && r.live <= s.live && SameViews(s, r, {})
    ensures Shows(r, mem)
  {
  }

  lemma FaultFrame(s: Machine, u: nat, p: nat, io: Transfer)
    requires Shaped(s) && u < |s.tables| && p < MAX_PAGES
    ensures |Fault(s, u, p, io).tables| == |s.tables| && Fault(s, u, p, io).live <= s.live
    ensures io.Works? ==> Fault(s, u, p, io).live == s.live
  {
  }

  lemma OtherStepRefines(s: Machine, mem: Memory, e: Event)
    requires Coherent(s) && Shows(s, mem) && Enabled(s, e) && !e.PageFault?
    ensures Fits(mem, e) && Coherent(Step(s, e)) && Shows(Step(s, e), FlatStep(mem, e))
  {
    match e
    case Store(_, _, _, _) => StoreRefines(s, mem, e);
    case Load(_, _, _) =>
    case TlbMiss(u, p, out) =>
      RefillKeeps(s, u, p, out);
      ShowsStill(s, Step(s, e), mem);
    case Modification(u, _) =>
      ExitCoherent(s, u, -1);
      ShowsStill(s, Step(s, e), mem);
    case Terminate(u) =>
      ExitCoherent(s, u, -1);
      ShowsStill(s, Step(s, e), mem);
  }

  lemma FaultFlatIff(s: Machine, mem: Memory, u: nat, p: nat, io: Transfer)
    requires Coherent(s) && Shows(s, mem) && Page(s, u, p) && !ValidBit(s.tables[u][p].lo)
    ensures Coherent(Fault(s, u, p, io)) && Shows(Fault(s, u, p, io), mem) <==> Spares(s, u, io)
  {
    var r := Fault(s, u, p, io);
    FaultSparesIff(s, u, p, io);
    FaultFrame(s, u, p, io);
    if SameViews(s, r, {}) {
      ShowsStill(s, r, mem);
    } else if Shows(r, mem) {
      assert SameViews(s, r, {});
    }
  }

  /**
   Exactly when a step keeps the agreement and does what the flat memory does: always, but for a page
   fault that does not spare the pages of another U-proc.
   */
  lemma StepFlatIff(s: Machine, mem: Memory, e: Event)
    requires Coherent(s) && Shows(s, mem) && Enabled(s, e)
    ensures Fits(mem, e)
    ensures Coherent(Step(s, e)) && Shows(Step(s, e), FlatStep(mem, e)) <==> Sparing(s, e)
  {
    if e.PageFault? {
      assert Page(s, e.u, e.p);
      FaultFlatIff(s, mem, e.u, e.p, e.io);
    } else {
      OtherStepRefines(s, mem, e);
    }
  }

  /** No page fault of the run takes the frame of another U-proc. */
  ghost predicate Disciplined(s: Machine, es: seq<Event>)
    requires Possible(s, es)
    decreases |es|
  {
    es == [] || (TakesOwn(s, es[0]) && Disciplined(Step(s, es[0]), es[1..]))
  }

  /** Every page fault of the run spares the pages of the other U-procs. */
  ghost predicate AllSparing(s: Machine, es: seq<Event>)
    requires Possible(s, es)
    decreases |es|
  {
    es == [] || (Sparing(s, es[0]) && AllSparing(Step(s, es[0]), es[1..]))
  }

  /** No page fault of the run completes with the frame of another U-proc. */
  ghost predicate NothingStolen(s: Machine, es: seq<Event>)
    requires Possible(s, es)
    decreases |es|
  {
    es == [] || ((TakesOwn(s, es[0]) || !es[0].io.Works?) && NothingStolen(Step(s, es[0]), es[1..]))
  }

  ghost predicate AlwaysCoherent(s: Machine, es: seq<Event>)
    requires Possible(s, es)
    decreases |es|
  {
    Coherent(s) && (es == [] || AlwaysCoherent(Step(s, es[0]), es[1..]))
  }

  /** Tables, TLB and pool agree and show the flat memory before every event of the run and after the last. */
  ghost predicate AlwaysFlat(s: Machine, mem: Memory, es: seq<Event>)
    requires Possible(s, es)
    decreases |es|
  {
    && Coherent(s) && Shows(s, mem)
    && (es == [] || (Fits(mem, es[0]) && AlwaysFlat(Step(s, es[0]), FlatStep(mem, es[0]), es[1..])))
  }

  /** The stores of the run, applied to a flat memory. */
  ghost predicate FlatFits(mem: Memory, es: seq<Event>)
    decreases |es|
  {
    es == [] || (Fits(mem, es[0]) && FlatFits(FlatStep(mem, es[0]), es[1..]))
  }

  ghost function FlatRun(mem: Memory, es: seq<Event>): Memory
    requires FlatFits(mem, es)
    decreases |es|
  {
    if es == [] then mem else FlatRun(FlatStep(mem, es[0]), es[1..])
  }

  /** A run is a flat memory throughout exactly when all its page faults spare the pages of others. */
  lemma {:induction false} FlatIffSparing(s: Machine, mem: Memory, es: seq<Event>)
    requires Coherent(s) && Shows(s, mem) && Possible(s, es)
    ensures AlwaysFlat(s, mem, es) <==> AllSparing(s, es)
    decreases |es|
  {
    if es != [] {
      StepFlatIff(s, mem, es[0]);
      if Sparing(s, es[0]) {
        FlatIffSparing(Step(s, es[0]), FlatStep(mem, es[0]), es[1..]);
      } else if AlwaysFlat(s, mem, es) {
        FlatNow(Step(s, es[0]), FlatStep(mem, es[0]), es[1..]);
      }
    }
  }

  lemma FlatNow(s: Machine, mem: Memory, es: seq<Event>)
    requires Possible(s, es) && AlwaysFlat(s, mem, es)
    ensures Coherent(s) && Shows(s, mem)
  {
  }

  lemma {:induction false} FlatAtTheEnd(s: Machine, mem: Memory, es: seq<Event>)
    requires Possible(s, es) && AlwaysFlat(s, mem, es)
    ensures FlatFits(mem, es) && Coherent(Run(s, es)) && Shows(Run(s, es), FlatRun(mem, es))
    decreases |es|
  {
    if es != [] {
      FlatAtTheEnd(Step(s, es[0]), FlatStep(mem, es[0]), es[1..]);
    }
  }

  /**
   The main result: in every run whose page faults spare the pages of others, whatever the accesses,
   TLB replacements, I/O errors and exits, a load returns what the flat memory holds.
   */
  lemma LoadsSeeFlatMemory(base: nat, frames: seq<Block>, flash: seq<seq<Block>>, text: seq<nat>, es: seq<Event>, e: Event)
    requires base % 4096 == 0 && frames != [] && |text| == |flash| < MAX_ASID
    requires forall u :: 0 <= u < |flash| ==> |flash[u]| == MAX_PAGES
    requires Possible(Boot(base, frames, flash, text), es) && AllSparing(Boot(base, frames, flash, text), es)
    requires e.Load? && Enabled(Run(Boot(base, frames, flash, text), es), e)
    ensures FlatFits(flash, es)
    ensures var s := Run(Boot(base, frames, flash, text), es);
      var mem := FlatRun(flash, es);
      && e.u < |mem| && e.p < |mem[e.u]| && mem[e.u][e.p] == s.ram[HitFrame(s, e.u, e.p)]
  {
    var s0 := Boot(base, frames, flash, text);
    BootCoherent(base, frames, flash, text);
    FlatIffSparing(s0, flash, es);
    FlatAtTheEnd(s0, flash, es);
    HitIsResident(Run(s0, es), e.u, e.p);
  }

  lemma {:induction false} DisciplinedIsSparing(s: Machine, es: seq<Event>)
    requires Possible(s, es) && Disciplined(s, es)
    ensures AllSparing(s, es)
    decreases |es|
  {
    if es != [] {
      DisciplinedIsSparing(Step(s, es[0]), es[1..]);
    }
  }

  /** Page tables, TLB and pool agree throughout a run exactly when no fault completes with another's frame. */
  lemma {:induction false} CoherentIffNothingStolen(s: Machine, es: seq<Event>)
    requires Coherent(s) && Possible(s, es)
    ensures AlwaysCoherent(s, es) <==> NothingStolen(s, es)
    decreases |es|
  {
    if es != [] {
      var e := es[0];
      StepCoherentIff(s, e);
      if Coherent(Step(s, e)) {
        CoherentIffNothingStolen(Step(s, e), es[1..]);
      } else {
        assert !AlwaysCoherent(Step(s, e), es[1..]);
      }
    }
  }

  lemma StepCoherentIff(s: Machine, e: Event)
    requires Coherent(s) && Enabled(s, e)
    ensures Coherent(Step(s, e)) <==> TakesOwn(s, e) || !e.io.Works?
  {
    if e.PageFault? {
      assert Page(s, e.u, e.p);
      FaultCoherentIff(s, e.u, e.p, e.io);
    } else {
      OtherStepRefines(s, Pages(s), e);
    }
  }

  /** The memory that a coherent machine shows. */
  ghost function Pages(s: Machine): (mem: Memory)
    requires Shaped(s)
    ensures Shows(s, mem)
  {
    seq(|s.tables|, u requires 0 <= u < |s.tables| => seq(MAX_PAGES, p requires 0 <= p < MAX_PAGES =>
      if Page(s, u, p) then View(s, u, p) else []))
  }

  predicate OnlyHolder(s: Machine, u: nat) { forall f :: 0 <= f < |s.pool| ==> Own(s.pool[f], u) }

  lemma OnlyHolderStays(s: Machine, e: Event)
    requires Shaped(s) && Enabled(s, e) && OnlyHolder(s, e.u)
    ensures OnlyHolder(Step(s, e), e.u)
  {
  }

  /** A U-proc that runs alone is always disciplined, and so spares the pages of others. */
  lemma {:induction false} AloneIsDisciplined(s: Machine, es: seq<Event>, u: nat)
    requires Possible(s, es) && OnlyHolder(s, u) && forall i :: 0 <= i < |es| ==> es[i].u == u
    ensures Disciplined(s, es) && AllSparing(s, es)
    decreases |es|
  {
    if es != [] {
      OnlyHolderStays(s, es[0]);
      AloneIsDisciplined(Step(s, es[0]), es[1..], u);
    }
    DisciplinedIsSparing(s, es);
  }

  /** What the owner of a stolen frame gets from its next access: the page of the U-proc that stole it. */
  lemma StolenFrameIsRead(s: Machine, u: nat, p: nat)
    requires Coherent(s) && Page(s, u, p) && !ValidBit(s.tables[u][p].lo) && !Own(s.pool[Victim(s)], u)
    requires EntryHi(s.pool[Victim(s)].owner + 1, s.pool[Victim(s)].page) in s.tlb
    ensures var (o, k) := (s.pool[Victim(s)].owner, s.pool[Victim(s)].page);
      var r := Fault(s, u, p, Works);
      && View(s, o, k) == s.ram[Victim(s)]
      && Hit(r, o, k) && r.ram[HitFrame(r, o, k)] == s.flash[u][p]
  {
    var v := Victim(s);
    var o, k := s.pool[v].owner, s.pool[v].page;
    LoadedBits(s.base, v);
    ForeignVictimLeavesEntry(s, u, p);
    assert Page(s, o, k) && s.tables[o][k].lo == Loaded(s.base, v);
    var r := Fault(s, u, p, Works);
    TlbAfterTheft(s, u, p);
  }

  lemma TlbAfterTheft(s: Machine, u: nat, p: nat)
    requires Coherent(s) && Page(s, u, p) && !Own(s.pool[Victim(s)], u)
    requires EntryHi(s.pool[Victim(s)].owner + 1, s.pool[Victim(s)].page) in s.tlb
    ensures var (o, k) := (s.pool[Victim(s)].owner, s.pool[Victim(s)].page);
      var r := Fault(s, u, p, Works);
      EntryHi(o + 1, k) in r.tlb && r.tlb[EntryHi(o + 1, k)] == Loaded(s.base, Victim(s))
  {
    var (v, next) := Pick(s.pool, s.next);
    var o, k := s.pool[v].owner, s.pool[v].page;
    var s1 := Evict(s.(next := next), u, v, Works);
    assert Page(s, o, k) && s.tables[o][k].lo == Loaded(s.base, v);
    SetLoAt(s, u, k, 0, o, k);
    SetLoAt(s1, u, p, Loaded(s.base, v), u, p);
    EntryHiDiffers(o + 1, k, u + 1, p);
  }

  /** The first of two U-procs gets its page 0 into the only frame. */
  lemma FirstTakesFrame(flash: seq<seq<Block>>, frame: Block) returns (s: Machine, r: Machine)
    requires |flash| == 2 && |flash[0]| == MAX_PAGES && |flash[1]| == MAX_PAGES
    ensures var s0 := Boot(0, [frame], flash, [0, 0]);
      Shaped(s0) && Enabled(s0, TlbMiss(0, 0, 0)) && s == Step(s0, TlbMiss(0, 0, 0))
    ensures Shaped(s) && Enabled(s, PageFault(0, 0, Works)) && r == Step(s, PageFault(0, 0, Works))
    ensures Shaped(r) && r.base == 0 && r.pool == [Held(0, 0)] && r.flash == flash && r.live == Below(2)
    ensures r.tlb == map[EntryHi(1, 0) := 0x600]
    ensures |r.tables| == 2 && r.tables[0][0].lo == 0x600 && r.tables[1][0].lo == 0x400
  {
    BootShaped(0, [frame], flash, [0, 0]);
    BootTables(0, [frame], flash, [0, 0]);
    UnloadedBits();
    s, r := FirstAccess(Boot(0, [frame], flash, [0, 0]), 0, 0);
  }

  /** The second takes the frame from it. */
  lemma SecondTakesFrame(s0: Machine) returns (s: Machine, r: Machine)
    requires Shaped(s0) && s0.base == 0 && s0.pool == [Held(0, 0)] && s0.live == Below(2)
    requires s0.tlb == map[EntryHi(1, 0) := 0x600]
    requires |s0.tables| == 2 && s0.tables[0][0].lo == 0x600 && s0.tables[1][0].lo == 0x400
    ensures Enabled(s0, TlbMiss(1, 0, 0)) && s == Step(s0, TlbMiss(1, 0, 0))
    ensures Shaped(s) && Enabled(s, PageFault(1, 0, Works)) && r == Step(s, PageFault(1, 0, Works))
    ensures Shaped(r) && r.base == 0 && r.ram == [s0.flash[1][0]] && |r.tables| == 2 && r.live == s0.live
    ensures EntryHi(1, 0) in r.tlb && r.tlb[EntryHi(1, 0)] == 0x600
  {
    UnloadedBits();
    s := Step(s0, TlbMiss(1, 0, 0));
    assert s.tlb == map[EntryHi(1, 0) := 0x600, EntryHi(2, 0) := 0x400];
    r := Step(s, PageFault(1, 0, Works));
    StepShaped(s0, TlbMiss(1, 0, 0));
    StepShaped(s, PageFault(1, 0, Works));
  }

  /**
   A run that does it, with two U-procs and one frame: the first loads from its page 0 and reads the
   contents of page 0 of the second.
   */
  lemma TwoUProcsMixTheirPages(flash: seq<seq<Block>>, frame: Block)
    requires |flash| == 2 && |flash[0]| == MAX_PAGES && |flash[1]| == MAX_PAGES && flash[1][0] != []
    ensures exists es :: MixesPages(Boot(0, [frame], flash, [0, 0]), es, flash[1][0])
  {
    var s0 := Boot(0, [frame], flash, [0, 0]);
    var s1, s2 := FirstTakesFrame(flash, frame);
    var s3, s4 := SecondTakesFrame(s2);
    ReadsFrame(s4);
    var e0, e1, e2, e3 := TlbMiss(0, 0, 0), PageFault(0, 0, Works), TlbMiss(1, 0, 0), PageFault(1, 0, Works);
    var last := RunOfTwo(s2, e2, s3, e3, s4, []);
    var es := RunOfTwo(s0, e0, s1, e1, s2, last);
    assert MixesPages(s0, es, flash[1][0]);
  }

  lemma ReadsFrame(s: Machine)
    requires Shaped(s) && s.base == 0 && |s.ram| == 1 && 0 in s.live && s.ram[0] != []
    requires EntryHi(1, 0) in s.tlb && s.tlb[EntryHi(1, 0)] == 0x600
    ensures Enabled(s, Load(0, 0, 0)) && HitFrame(s, 0, 0) == 0
  {
  }

  /** After the run U-proc 0 can load from its page 0, and finds `other` there. */
  ghost predicate MixesPages(s: Machine, es: seq<Event>, other: Block) {
    && Possible(s, es) && Enabled(Run(s, es), Load(0, 0, 0))
    && Run(s, es).ram[HitFrame(Run(s, es), 0, 0)] == other
  }
}
