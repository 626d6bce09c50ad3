/**
 phase3/src/pager.c in place: the swap pool table is an array that loops search and update, page tables
 are the rows of one table, and every procedure is proved against the functions of module Paging.
 */
module Pager {
  import opened Bits
  import opened Options
  import opened Paging

  /** How support_tlb ends: back to the faulting instruction, in support_trap, or in a kernel panic. */
  datatype Ending = Retried | Trapped | Panicked

  /** How init_page_table ends: false, the trap after a failed read of the header, or true. */
  datatype Setup = Rejected | HeaderUnreadable | Initialised

  const VALIDON: nat := 0x200
  const DIRTYON: nat := 0x400

  /** The C operator `!`. */
  function LogicalNot(x: nat): nat { if x == 0 then 1 else 0 }

  class Pager {
    const base: nat
    const pool: array<Slot>
    const tables: array2<Pte>
    const batons: array<bool>          // swap_pool_batons
    var acquired: nat                  // completed Ps on sem_swap_pool_table
    var released: nat                  // Vs on sem_swap_pool_table
    var next: int
    var ram: seq<Block>
    var flash: seq<seq<Block>>
    var tlb: map<nat, nat>
    ghost var m: Machine

    ghost predicate Wired()
      reads this, pool
    {
      && m.base == base && m.pool == pool[..] && m.next == next && m.ram == ram && m.flash == flash && m.tlb == tlb
    }

    /** The page tables are those of the machine. */
    ghost predicate Tabled(t: seq<seq<Pte>>)
      reads tables
    {
      && |t| == tables.Length0 && tables.Length1 == MAX_PAGES
      && (forall u :: 0 <= u < |t| ==> |t[u]| == MAX_PAGES)
      && (forall u, p :: 0 <= u < |t| && 0 <= p < MAX_PAGES ==> tables[u, p] == t[u][p])
    }

    ghost predicate Valid()
      reads this, pool, tables
    {
      Wired() && Tabled(m.tables) && Shaped(m) && batons.Length == tables.Length0
    }

    /** The pager before init_pager, with whatever the tables contain. */
    constructor (base: nat, frames: seq<Block>, flash: seq<seq<Block>>)
      requires base % 4096 == 0 && frames != []
      ensures this.base == base && pool.Length == |frames| && tables.Length0 == |flash| && tables.Length1 == MAX_PAGES
      ensures batons.Length == |flash| && fresh(pool) && fresh(tables) && fresh(batons)
      ensures next == -1 && ram == frames && this.flash == flash && tlb == map[]
    {
      this.base := base;
      pool := new Slot[|frames|];
      tables := new Pte[|flash|, MAX_PAGES];
      batons := new bool[|flash|];
      acquired, released := 0, 0;
      next := -1;
      ram := frames;
      this.flash := flash;
      tlb := map[];
    }

    /** init_swap_pool_table. */
    method InitSwapPoolTable()
      modifies pool
      ensures forall f :: 0 <= f < pool.Length ==> pool[f] == Unoccupied
    {
      for i := 0 to pool.Length
        invariant forall f :: 0 <= f < i ==> pool[f] == Unoccupied
      {
        pool[i] := Unoccupied;
      }
    }

    /**
     init_page_table, with the size of the .text area that it reads from the header of the flash block;
     `None` if the read fails.
     */
    method InitPageTable(asid: int, header: Option<nat>) returns (r: Setup)
      requires tables.Length1 == MAX_PAGES && batons.Length == tables.Length0
      modifies tables, batons
      ensures r == if !(1 <= asid <= tables.Length0) then Rejected else if header.None? then HeaderUnreadable else Initialised
      ensures r.Initialised? ==> !batons[asid - 1]
      ensures r.Initialised? ==> forall i :: 0 <= i < MAX_PAGES ==> tables[asid - 1, i] == FreshTable(asid, header.value)[i]
      ensures forall u, i :: 0 <= u < tables.Length0 && 0 <= i < MAX_PAGES && !(r.Initialised? && u == asid - 1) ==>
        tables[u, i] == old(tables[u, i])
      ensures forall u :: 0 <= u < batons.Length && !(r.Initialised? && u == asid - 1) ==> batons[u] == old(batons[u])
    {
      if asid <= 0 || asid > tables.Length0 {
        return Rejected;
      }
      if header.None? {
        return HeaderUnreadable;
      }
      var u, text := asid - 1, header.value;
      for i := 0 to 31
        modifies tables
        invariant forall j :: 0 <= j < i ==> tables[u, j] == FreshTable(asid, text)[j]
        invariant forall x, j :: 0 <= x < tables.Length0 && 0 <= j < MAX_PAGES && x != u ==> tables[x, j] == old(tables[x, j])
      {
        tables[u, i] := Pte(0x8000_0000 + i * 4096 + asid * 64, if i < text then 0 else DIRTYON);
      }
      tables[u, 31] := Pte(0x8000_0000 + 0x3FFF_F000 + asid * 64, DIRTYON);
      batons[u] := false;
      return Initialised;
    }

    /** set_swap_pool_baton: it panics for an identifier that is out of range. */
    method SetSwapPoolBaton(asid: int, value: bool) returns (panic: bool)
      modifies batons
      ensures panic <==> !(1 <= asid <= batons.Length)
      ensures forall x :: 0 <= x < batons.Length ==> batons[x] == if x == asid - 1 then value else old(batons[x])
    {
      if !(1 <= asid <= batons.Length) {
        return true;
      }
      batons[asid - 1] := value;
      return false;
    }

    /** release_sem_swap_pool_table */
    method ReleaseSemSwapPoolTable(u: nat)
      requires u < batons.Length
      modifies this`released
      ensures released == old(released) + if batons[u] then 1 else 0
    {
      if batons[u] {
        released := released + 1;
      }
    }

    /** check_frame_occupied and pick_page. */
    method PickPage() returns (v: nat)
      requires Wired() && 0 < pool.Length && -1 <= next < pool.Length
      modifies this`next, this`m
      ensures v == Pick(old(m).pool, old(m).next).0
      ensures m == old(m).(next := Pick(old(m).pool, old(m).next).1) && Wired()
    {
      ghost var all := pool[..];
      for index := 0 to pool.Length
        invariant forall j :: 0 <= j < index ==> pool[j].Held?
        invariant FreeFrom(all, 0) >= index
      {
        if pool[index].Unoccupied? {
          assert all[index].Unoccupied?;
          return index;
        }
      }
      next := (next + 1) % pool.Length;
      m := m.(next := next);
      v := next;
    }

    /** mark_page_not_valid: `lo &= !VALIDON` clears the whole word, because !VALIDON is 0. */
    method MarkPageNotValid(u: nat, index: nat)
      requires Valid() && u < tables.Length0 && index < MAX_PAGES
      modifies tables, this`m
      ensures Valid() && m == old(m).(tables := SetLo(old(m).tables, u, index, 0))
    {
      tables[u, index] := tables[u, index].(lo := BitAnd(tables[u, index].lo, LogicalNot(VALIDON)));
      m := m.(tables := SetLo(m.tables, u, index, 0));
    }

    /** update_page_table */
    method UpdatePageTable(u: nat, index: nat, frame: nat)
      requires Valid() && u < tables.Length0 && index < MAX_PAGES
      modifies tables, this`m
      ensures Valid() && m == old(m).(tables := SetLo(old(m).tables, u, index, Loaded(base, frame)))
    {
      LoadedIsOr(base, frame);
      tables[u, index] := tables[u, index].(lo := BitOr(BitOr(base + 4096 * frame, VALIDON), DIRTYON));
      m := m.(tables := SetLo(m.tables, u, index, Loaded(base, frame)));
    }

    /** check_in_tlb and update_tlb. */
    method UpdateTlb(e: Pte)
      requires Valid()
      modifies this`tlb, this`m
      ensures Valid() && m == old(m).(tlb := Refresh(old(m).tlb, e))
    {
      if e.hi in tlb {
        tlb := tlb[e.hi := e.lo];
      }
      m := m.(tlb := tlb);
    }

    /** mark_frames_as_unoccupied, for the address space identifier `u + 1`. */
    method MarkFramesAsUnoccupied(u: nat)
      requires Valid()
      modifies pool, this`m
      ensures Valid() && m == old(m).(pool := Cleaned(old(m).pool, u))
    {
      ghost var was := pool[..];
      for i := 0 to pool.Length
        modifies pool
        invariant forall f :: 0 <= f < i ==> pool[f] == if was[f].Held? && was[f].owner == u then Unoccupied else was[f]
        invariant forall f :: i <= f < pool.Length ==> pool[f] == was[f]
      {
        if pool[i].Held? && pool[i].owner == u {
          pool[i] := Unoccupied;
        }
      }
      m := m.(pool := Cleaned(m.pool, u));
      assert pool[..] == m.pool;
    }

    /** clean_after_uproc, on the way out through sys_terminate. */
    method CleanAfterUproc(u: nat)
      requires Valid() && u < batons.Length
      modifies pool, this`released, this`m
      ensures Valid() && m == Exit(old(m), u)
      ensures released == old(released) + if batons[u] then 1 else 0
    {
      ReleaseSemSwapPoolTable(u);
      MarkFramesAsUnoccupied(u);
      m := m.(live := m.live - {u});
    }

    /** tlb_refill_handler: nothing is loaded if the address is not that of a page. */
    method TlbRefillHandler(u: nat, hi: nat, out: nat) returns (panic: bool)
      requires Valid() && u < tables.Length0
      modifies this`tlb, this`m
      ensures panic <==> EntryHiToIndex(hi) == None
      ensures Valid() && m == if panic then old(m) else Refill(old(m), u, EntryHiToIndex(hi).value, out)
    {
      var index := EntryHiToIndex(hi);
      if index.None? {
        return true;
      }
      IndexedIffMapped(hi, index.value);
      var pte := tables[u, index.value];
      tlb := (tlb - {out})[pte.hi := pte.lo];
      m := m.(tlb := tlb);
      return false;
    }

    /** Lines 380 to 391: the index of the page is read back from the entry that sw_pte points to. */
    method LeaveTables(u: nat, v: nat) returns (o: nat, k: nat)
      requires Valid() && u < tables.Length0 && v < pool.Length && pool[v].Held?
      modifies tables, this`tlb, this`m
      ensures Valid() && m == Disown(old(m), u, v) && pool[v] == Held(o, k)
    {
      var entry := pool[v].page;
      o := pool[v].owner;
      var index := EntryHiToIndex(tables[o, entry].hi);
      IndexRoundTrip(o + 1, entry);
      k := index.value;
      MarkPageNotValid(u, k);
      UpdateTlb(tables[o, entry]);
    }

    /** Lines 377 to 404: if frame `v` is occupied its page leaves it. */
    method WriteBack(u: nat, v: nat, io: Transfer) returns (ok: bool)
      requires Valid() && u < tables.Length0 && v < pool.Length
      modifies tables, this`tlb, this`flash, this`m
      ensures Valid() && m == Evict(old(m), u, v, io)
      ensures ok <==> !(old(m).pool[v].Held? && io.WriteFails?)
    {
      if pool[v].Unoccupied? {
        return true;
      }
      var o, k := LeaveTables(u, v);
      flash := SetBlock(flash, o, k, if io.WriteFails? then io.left else ram[v]);
      m := m.(flash := flash);
      return !io.WriteFails?;
    }

    /** Lines 406 to 415. */
    method ReadPage(u: nat, p: nat, v: nat, io: Transfer) returns (ok: bool)
      requires Valid() && u < tables.Length0 && p < MAX_PAGES && v < pool.Length
      modifies this`ram, this`m
      ensures Valid() && m == Fetch(old(m), u, p, v, io)
      ensures ok <==> !io.ReadFails?
    {
      ram := ram[v := if io.ReadFails? then io.left else flash[u][p]];
      m := m.(ram := ram);
      return !io.ReadFails?;
    }

    /** Lines 417 to 427, with add_entry_swap_pool_table. */
    method Record(u: nat, p: nat, v: nat)
      requires Valid() && u < tables.Length0 && p < MAX_PAGES && v < pool.Length
      modifies pool, tables, this`tlb, this`m
      ensures Valid() && m == Install(old(m), u, p, v)
    {
      pool[v] := Held(u, p);
      m := m.(pool := m.pool[v := Held(u, p)]);
      assert pool[..] == m.pool;
      UpdatePageTable(u, p, v);
      UpdateTlb(tables[u, p]);
    }

    /**
     support_tlb of U-proc `u`, for a TLB modification or a page fault; the P on the mutex has completed
     when `acquired` counts it.
     */
    method SupportTlb(u: nat, modification: bool, hi: nat, io: Transfer) returns (ending: Ending)
      requires Valid() && u < tables.Length0
      modifies this`next, this`ram, this`flash, this`tlb, this`acquired, this`released, this`m, pool, tables, batons
      ensures Valid()
      ensures modification ==> ending == Trapped && m == Exit(old(m), u) && acquired == old(acquired)
      ensures !modification ==> (ending.Panicked? <==> EntryHiToIndex(hi) == None) && acquired == old(acquired) + 1
      ensures !modification && !ending.Panicked? ==>
        && EntryHiToIndex(hi).value < MAX_PAGES && m == Fault(old(m), u, EntryHiToIndex(hi).value, io)
        && (ending.Trapped? <==> io.ReadFails? || (io.WriteFails? && old(m).pool[Victim(old(m))].Held?))
        && released == old(released) + 1
      ensures ending.Retried? ==> !batons[u]
      ensures forall x :: 0 <= x < batons.Length && x != u ==> batons[x] == old(batons[x])
    {
      if modification {
        CleanAfterUproc(u);
        return Trapped;
      }
      acquired := acquired + 1;
      var panic := SetSwapPoolBaton(u + 1, true);
      ending := ServeFault(u, hi, io);
      if ending.Retried? {
        released := released + 1;
        panic := SetSwapPoolBaton(u + 1, false);
      } else if ending.Trapped? {
        CleanAfterUproc(u);
      }
    }

    /** The part of support_tlb inside the critical section, up to the trap if there is one. */
    method ServeFault(u: nat, hi: nat, io: Transfer) returns (ending: Ending)
      requires Valid() && u < tables.Length0
      modifies this`next, this`ram, this`flash, this`tlb, this`m, pool, tables
      ensures Valid()
      ensures ending.Panicked? <==> EntryHiToIndex(hi) == None
      ensures !ending.Panicked? ==>
        && EntryHiToIndex(hi).value < MAX_PAGES
        && (ending.Trapped? <==> io.ReadFails? || (io.WriteFails? && old(m).pool[Victim(old(m))].Held?))
        && Fault(old(m), u, EntryHiToIndex(hi).value, io) == if ending.Trapped? then Exit(m, u) else m
    {
      var v := PickPage();
      var index := EntryHiToIndex(hi);
      if index.None? {
        return Panicked;
      }
      var p := index.value;
      IndexedIffMapped(hi, p);
      var written := WriteBack(u, v, io);
      if !written {
        return Trapped;
      }
      var read := ReadPage(u, p, v, io);
      if !read {
        return Trapped;
      }
      Record(u, p, v);
      return Retried;
    }

    /** The initialisation of the test program: init_pager, then init_page_table for every U-proc. */
    method Start(text: seq<nat>)
      requires base % 4096 == 0 && 0 < pool.Length == |ram| && next == -1 && tlb == map[]
      requires |text| == |flash| == tables.Length0 == batons.Length < MAX_ASID && tables.Length1 == MAX_PAGES
      requires forall u :: 0 <= u < |flash| ==> |flash[u]| == MAX_PAGES
      modifies pool, tables, batons, this`m
      ensures Valid() && m == Boot(base, ram, flash, text) && forall u :: 0 <= u < batons.Length ==> !batons[u]
    {
      InitSwapPoolTable();
      for u := 0 to tables.Length0
        invariant forall f :: 0 <= f < pool.Length ==> pool[f] == Unoccupied
        invariant forall x :: 0 <= x < u ==> !batons[x]
        invariant forall x, i :: 0 <= x < u && 0 <= i < MAX_PAGES ==> tables[x, i] == FreshTable(x + 1, text[x])[i]
      {
        var _ := InitPageTable(u + 1, Some(text[u]));
      }
      m := Boot(base, ram, flash, text);
      BootShaped(base, ram, flash, text);
      BootTables(base, ram, flash, text);
      assert pool[..] == m.pool;
    }
  }
}
