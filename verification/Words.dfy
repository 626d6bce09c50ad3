/**
 What a page fault writes: every word of every page table, every word of the TLB and every slot of the swap
 pool afterwards, whoever owns the victim frame and however the transfers go; and what line 387 of
 phase3/src/pager.c does to the U-proc that faults when the victim is somebody else's.
 */
module Words {
  import opened Paging
  import opened Coherence

  /** The victim frame holds a page that has to leave. */
  predicate Evicts(s: Machine)
    requires Shaped(s)
  {
    s.pool[Victim(s)].Held?
  }

  /** No transfer of the fault fails. */
  predicate Completes(s: Machine, io: Transfer)
    requires Shaped(s)
  {
    !io.ReadFails? && !(io.WriteFails? && Evicts(s))
  }

  /**
   Of the page tables only two words change, both in the table of the U-proc that faults: the entry of the
   page becomes valid for the victim frame if the fault completes, and the entry with the index of the
   evicted page becomes zero, be that page its own or not.
   */
  lemma FaultTableWords(s: Machine, u: nat, p: nat, io: Transfer, x: nat, q: nat)
    requires Shaped(s) && u < |s.tables| && p < MAX_PAGES && x < |s.tables| && q < MAX_PAGES
    ensures |Fault(s, u, p, io).tables| == |s.tables| && |Fault(s, u, p, io).tables[x]| == MAX_PAGES
    ensures Fault(s, u, p, io).tables[x][q] == Pte(EntryHi(x + 1, q),
      if Completes(s, io) && x == u && q == p then Loaded(s.base, Victim(s))
      else if Evicts(s) && x == u && q == s.pool[Victim(s)].page then 0
      else s.tables[x][q].lo)
  {
    FaultShaped(s, u, p, io);
    var (v, next) := Pick(s.pool, s.next);
    var s0 := s.(next := next);
    var s1 := Evict(s0, u, v, io);
    if s.pool[v].Held? {
      SetLoAt(s0, u, s.pool[v].page, 0, x, q);
    }
    SetLoAt(s1, u, p, Loaded(s.base, v), x, q);
  }

  /** The TLB word that an eviction leaves at `hi`, where there is one. */
  function TlbAfterEviction(s: Machine, u: nat, v: nat, hi: nat): nat
    requires Shaped(s) && v < |s.pool| && hi in s.tlb
  {
    if s.pool[v].Held? && hi == EntryHi(s.pool[v].owner + 1, s.pool[v].page) then
      if s.pool[v].owner == u then 0 else s.tables[s.pool[v].owner][s.pool[v].page].lo
    else s.tlb[hi]
  }

  /** The TLB word at `hi` after a fault. */
  function TlbAfterFault(s: Machine, u: nat, p: nat, io: Transfer, hi: nat): nat
    requires Shaped(s) && hi in s.tlb
  {
    if Completes(s, io) && hi == EntryHi(u + 1, p) then Loaded(s.base, Victim(s))
    else TlbAfterEviction(s, u, Victim(s), hi)
  }

  lemma EvictTlbWords(s: Machine, u: nat, v: nat, io: Transfer, hi: nat)
    requires Shaped(s) && u < |s.tables| && v < |s.pool|
    ensures hi in Evict(s, u, v, io).tlb <==> hi in s.tlb
    ensures hi in s.tlb ==> Evict(s, u, v, io).tlb[hi] == TlbAfterEviction(s, u, v, hi)
  {
    if s.pool[v].Held? {
      SetLoAt(s, u, s.pool[v].page, 0, s.pool[v].owner, s.pool[v].page);
    }
  }

  /** Of the TLB, the same two entries follow: that of the page, and that of the evicted page of its owner. */
  lemma FaultTlbWords(s: Machine, u: nat, p: nat, io: Transfer, hi: nat)
    requires Shaped(s) && u < |s.tables| && p < MAX_PAGES
    ensures hi in Fault(s, u, p, io).tlb <==> hi in s.tlb
    ensures hi in s.tlb ==> Fault(s, u, p, io).tlb[hi] == TlbAfterFault(s, u, p, io, hi)
  {
    var (v, next) := Pick(s.pool, s.next);
    var s0 := s.(next := next);
    EvictTlbWords(s0, u, v, io, hi);
    SetLoAt(Evict(s0, u, v, io), u, p, Loaded(s.base, v), u, p);
  }

  /** A fault takes the first unoccupied frame, or with none the one after the last taken in turn. */
  lemma VictimIsFirstFreeOrNext(s: Machine)
    requires Shaped(s)
    ensures (exists f :: 0 <= f < |s.pool| && s.pool[f].Unoccupied?) ==>
      s.pool[Victim(s)].Unoccupied? && forall f :: 0 <= f < Victim(s) ==> s.pool[f].Held?
    ensures (forall f :: 0 <= f < |s.pool| ==> s.pool[f].Held?) ==>
      Victim(s) == if s.next + 1 == |s.pool| then 0 else s.next + 1
  {
    var free := FreeFrom(s.pool, 0);
    if free == |s.pool| {
      NextInTurn(s.next + 1, |s.pool|);
    }
  }

  lemma NextInTurn(i: nat, n: nat)
    requires i <= n && 0 < n
    ensures i % n == if i == n then 0 else i
  {
  }

  /** The swap pool table afterwards, slot by slot, and the static index. */
  lemma FaultSlots(s: Machine, u: nat, p: nat, io: Transfer, f: nat)
    requires Shaped(s) && u < |s.tables| && p < MAX_PAGES && f < |s.pool|
    ensures var r := Fault(s, u, p, io);
      && |r.pool| == |s.pool| && r.base == s.base
      && r.pool[f] == (if Completes(s, io) then if f == Victim(s) then Held(u, p) else s.pool[f]
                       else if s.pool[f].Held? && s.pool[f].owner == u then Unoccupied else s.pool[f])
      && r.next == (if s.pool[Victim(s)].Held? then Victim(s) else s.next)
      && r.live == if Completes(s, io) then s.live else s.live - {u}
  {
  }

  /**
   The victim frame holds page `k` of another U-proc while `u` has its own page `k` resident in frame `f`:
   after the fault frame `f` still holds the page and a TLB entry for it still maps it, but the page table
   has forgotten it.
   */
  lemma OwnPageForgotten(s: Machine, u: nat, p: nat, io: Transfer, f: nat)
    requires Coherent(s) && Page(s, u, p) && !Own(s.pool[Victim(s)], u) && Completes(s, io)
    requires f < |s.pool| && s.pool[f] == Held(u, s.pool[Victim(s)].page) && p != s.pool[Victim(s)].page
    ensures var k, r := s.pool[Victim(s)].page, Fault(s, u, p, io);
      && Shaped(r) && Page(r, u, k) && f != Victim(s) && r.pool[f] == Held(u, k) && r.ram[f] == s.ram[f]
      && ValidBit(s.tables[u][k].lo) && r.tables[u][k].lo == 0 && r.flash[u][k] == s.flash[u][k]
      && (EntryHi(u + 1, k) in s.tlb ==> EntryHi(u + 1, k) in r.tlb && r.tlb[EntryHi(u + 1, k)] == Loaded(s.base, f))
      && View(s, u, k) == s.ram[f] && View(r, u, k) == s.flash[u][k]
  {
    var k := s.pool[Victim(s)].page;
    FaultShaped(s, u, p, io);
    FaultTableWords(s, u, p, io, u, k);
    FaultTlbWords(s, u, p, io, EntryHi(u + 1, k));
    FaultSlots(s, u, p, io, f);
    LoadedBits(s.base, f);
    UnloadedBits();
    EntryHiDiffers(u + 1, k, u + 1, p);
    EntryHiDiffers(u + 1, k, s.pool[Victim(s)].owner + 1, k);
  }

  /** And its next fault on that page reads the old flash block into a second frame, beside the first. */
  lemma ForgottenPageIsReread(r: Machine, u: nat, k: nat, f: nat)
    requires Shaped(r) && Page(r, u, k) && f < |r.pool| && r.pool[f] == Held(u, k) && Victim(r) != f
    requires r.pool[Victim(r)] != Held(u, k)
    ensures var r', v := Fault(r, u, k, Works), Victim(r);
      && Shaped(r') && r'.pool[f] == Held(u, k) && r'.pool[v] == Held(u, k) && r'.ram[f] == r.ram[f]
      && r'.ram[v] == r.flash[u][k] && r'.tables[u][k].lo == Loaded(r.base, v)
  {
    FaultShaped(r, u, k, Works);
    FaultSlots(r, u, k, Works, f);
    FaultSlots(r, u, k, Works, Victim(r));
    FaultTableWords(r, u, k, Works, u, k);
  }

  /** A TLB refill adds the page table's entry, in place of whichever entry was at the random position. */
  lemma RefillWords(s: Machine, u: nat, p: nat, out: nat, hi: nat)
    requires Shaped(s) && Enabled(s, TlbMiss(u, p, out))
    ensures var r := Step(s, TlbMiss(u, p, out));
      && (hi in r.tlb <==> hi == EntryHi(u + 1, p) || (hi in s.tlb && hi != out))
      && (hi in r.tlb ==> r.tlb[hi] == if hi == EntryHi(u + 1, p) then s.tables[u][p].lo else s.tlb[hi])
      && r.(tlb := s.tlb) == s
  {
  }

  /** A U-proc that exits gives up its frames; nobody else's frame, page table, TLB entry or block changes. */
  lemma ExitSlots(s: Machine, u: nat, f: nat)
    requires Shaped(s) && Enabled(s, Terminate(u)) && f < |s.pool|
    ensures var r := Step(s, Terminate(u));
      && |r.pool| == |s.pool| && r.live == s.live - {u} && r.(pool := s.pool, live := s.live) == s
      && r.pool[f] == if s.pool[f].Held? && s.pool[f].owner == u then Unoccupied else s.pool[f]
  {
  }
}
