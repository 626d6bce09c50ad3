/**
 Write protection of .text pages: what init_page_table sets up and why nothing is ever protected. All of
 it holds for any number of U-procs, whoever takes whose frame and however transfers go.
 */
module Protection {
  import opened Arithmetic
  import opened Sequences
  import opened Paging

  /** Every valid entry, in a page table or in the TLB, has the dirty flag. */
  ghost predicate ValidIsDirty(s: Machine) {
    && (forall u, p :: 0 <= u < |s.tables| && 0 <= p < |s.tables[u]| && ValidBit(s.tables[u][p].lo) ==> DirtyBit(s.tables[u][p].lo))
    && (forall hi :: hi in s.tlb && ValidBit(s.tlb[hi]) ==> DirtyBit(s.tlb[hi]))
  }

  lemma BootDirty(base: nat, frames: seq<Block>, flash: seq<seq<Block>>, text: seq<nat>)
    requires |text| == |flash|
    ensures ValidIsDirty(Boot(base, frames, flash, text))
  {
    UnloadedBits();
  }

  lemma EvictDirty(s: Machine, u: nat, v: nat, io: Transfer)
    requires Shaped(s) && ValidIsDirty(s) && u < |s.tables| && v < |s.pool|
    ensures ValidIsDirty(Evict(s, u, v, io))
  {
    UnloadedBits();
  }

  lemma InstallDirty(s: Machine, u: nat, p: nat, v: nat)
    requires Shaped(s) && ValidIsDirty(s) && u < |s.tables| && p < MAX_PAGES && v < |s.pool|
    ensures ValidIsDirty(Install(s, u, p, v))
  {
    LoadedBits(s.base, v);
  }

  lemma FaultDirty(s: Machine, u: nat, p: nat, io: Transfer)
    requires Shaped(s) && ValidIsDirty(s) && u < |s.tables| && p < MAX_PAGES
    ensures ValidIsDirty(Fault(s, u, p, io))
  {
    var (v, next) := Pick(s.pool, s.next);
    EvictDirty(s.(next := next), u, v, io);
    var s1 := Evict(s.(next := next), u, v, io);
    InstallDirty(Fetch(s1, u, p, v, io), u, p, v);
  }

  lemma StepDirty(s: Machine, e: Event)
    requires Shaped(s) && ValidIsDirty(s) && Enabled(s, e)
    ensures ValidIsDirty(Step(s, e))
  {
    if e.PageFault? {
      FaultDirty(s, e.u, e.p, e.io);
    }
  }

  lemma {:induction false} RunDirty(s: Machine, es: seq<Event>)
    requires Possible(s, es) && ValidIsDirty(s)
    ensures Shaped(Run(s, es)) && ValidIsDirty(Run(s, es))
    decreases |es|
  {
    if es != [] {
      StepDirty(s, es[0]);
      RunDirty(Step(s, es[0]), es[1..]);
    }
  }

  /**
   After any run a store to any page, .text or not, goes through exactly when a load from there does, so
   the TLB modification exception never arises.
   */
  lemma StoresPassWhereLoadsDo(base: nat, frames: seq<Block>, flash: seq<seq<Block>>, text: seq<nat>, es: seq<Event>,
                               u: nat, p: nat, at: nat, word: int)
    requires |text| == |flash| && Possible(Boot(base, frames, flash, text), es)
    ensures var s := Run(Boot(base, frames, flash, text), es);
      && (Enabled(s, Store(u, p, at, word)) <==> Enabled(s, Load(u, p, at)))
      && !Enabled(s, Modification(u, p))
  {
    BootDirty(base, frames, flash, text);
    RunDirty(Boot(base, frames, flash, text), es);
  }

  /** After the run U-proc `u` can store to its page `p`, and the word gets there. */
  ghost predicate Overwrites(s: Machine, es: seq<Event>, u: nat, p: nat, before: Block, word: int) {
    && Possible(s, es) && Shaped(Run(s, es)) && before != [] && Enabled(Run(s, es), Store(u, p, 0, word))
    && var r := Step(Run(s, es), Store(u, p, 0, word));
      Hit(r, u, p) && r.ram[HitFrame(r, u, p)] == before[0 := word]
  }

  /** init_page_table leaves the dirty flag off exactly the pages it counts as .text, the stack excepted. */
  lemma TextStartsClean(base: nat, frames: seq<Block>, flash: seq<seq<Block>>, text: seq<nat>, u: nat, p: nat)
    requires |text| == |flash| && u < |flash| && p < MAX_PAGES
    ensures !DirtyBit(Boot(base, frames, flash, text).tables[u][p].lo) <==> p < text[u] && p < 31
  {
    assert Boot(base, frames, flash, text).tables[u] == FreshTable(u + 1, text[u]);
  }

  /** And yet there is a run in which a U-proc overwrites a word of any page, those included. */
  lemma AnyPageIsOverwritten(base: nat, frames: seq<Block>, flash: seq<seq<Block>>, text: seq<nat>, u: nat, p: nat, word: int)
    requires base % 4096 == 0 && frames != [] && |text| == |flash| < MAX_ASID
    requires forall x :: 0 <= x < |flash| ==> |flash[x]| == MAX_PAGES
    requires u < |flash| && p < MAX_PAGES && flash[u][p] != []
    ensures exists es :: Overwrites(Boot(base, frames, flash, text), es, u, p, flash[u][p], word)
  {
    var s := Boot(base, frames, flash, text);
    BootReady(base, frames, flash, text, u, p);
    var s1, r := FirstAccess(s, u, p);
    LoadedHits(r, u, p, Victim(s));
    var es := RunOfTwo(s, TlbMiss(u, p, 0), s1, PageFault(u, p, Works), r, []);
    assert Run(r, []) == r;
    LoadedHits(Step(r, Store(u, p, 0, word)), u, p, Victim(s));
    assert Overwrites(s, es, u, p, flash[u][p], word);
  }

  lemma BootReady(base: nat, frames: seq<Block>, flash: seq<seq<Block>>, text: seq<nat>, u: nat, p: nat)
    requires base % 4096 == 0 && frames != [] && |text| == |flash| < MAX_ASID
    requires forall x :: 0 <= x < |flash| ==> |flash[x]| == MAX_PAGES
    requires u < |flash| && p < MAX_PAGES
    ensures var s := Boot(base, frames, flash, text);
      && Shaped(s) && Page(s, u, p) && s.pool[Victim(s)].Unoccupied? && s.tlb == map[]
      && !ValidBit(s.tables[u][p].lo) && s.flash == flash
  {
    BootShaped(base, frames, flash, text);
    BootTables(base, frames, flash, text);
    UnloadedBits();
  }
}
