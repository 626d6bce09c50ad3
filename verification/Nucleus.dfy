/**
 The nucleus as the C program keeps it: static tables, intrusive circular lists, counters. Every
 procedure of os/src/pcb.c, os/src/asl.c, os/src/scheduler.c, os/src/semaphores.c and os/src/syscall.c
 is proved to change the abstract state `k` as specified in the modules before this one.
 */
module Nucleus {
  import opened Options
  import opened Pid
  import opened Sequences
  import opened Lists
  import opened Kernel
  import opened Progeny
  import opened Steps
  import opened Scheduling
  import opened Runs
  import opened Ties

  lemma ColdTable(n: nat, words: map<Key, int>, clock: Key)
    ensures var k := Cold(n, words, clock);
      && |k.pcb| == |k.kids| == |k.birth| == n && k.timer == clock && k.mem == words
      && k.processCount == k.softblockCount == k.spawned == 0 && k.active == k.yielder == None
      && forall i: nat :: i < n ==> k.pcb[i] == Pcb(None, None, false, false, NULL_PID)
  {
  }

  lemma SpawnedGlobals(k: State, prio: bool, pid: Word)
    requires k.free != [] && k.free[0] < |k.pcb| && |k.birth| == |k.pcb| == |k.kids|
    ensures var r, c := SpawnAs(k, prio, pid), k.free[0];
      && r.pcb == k.pcb[c := Pcb(None, None, false, prio, pid)] && |r.kids| == |r.birth| == |k.pcb| && r.timer == k.timer
      && r.processCount == k.processCount + 1 && r.softblockCount == k.softblockCount
      && r.spawned % 0x1_0000_0000 == (k.spawned % 0x1_0000_0000 + 1) % 0x1_0000_0000
      && r.active == k.active && r.yielder == k.yielder && r.mem == k.mem
  {
  }

  lemma StillOnNone(rings: PRings, h: PHead, x: nat, j: nat)
    requires h in rings && x != j && !OnSome(rings, j)
    ensures !OnSome(rings[h := [x] + rings[h]], j)
  {
    var longer := rings[h := [x] + rings[h]];
    forall g | g in longer ensures j !in longer[g] {
      assert j !in rings[g];
    }
  }

  class Nucleus {
    const n: nat                       // MAX_PROC
    const timer: Key
    const plinks: Links<PHead>         // p_list, with pcb_free, the ready queues and the s_procq sentinels
    const clinks: Links<nat>           // p_sib, with the p_child sentinel of each slot
    const slinks: Links<SHead>         // s_link, with semd_free and semd_h
    const pcb: array<Pcb>              // pcb_table
    const sKey: array<Key>             // the s_key of each descriptor in semd_table
    var processCount: int
    var softblockCount: int
    var recycleCount: Word
    var activeProcess: Option<nat>
    var yieldProcess: Option<nat>
    var mem: map<Key, int>
    ghost var k: State
    ghost var desc: map<Key, nat>      // the active descriptor of each key

    ghost predicate Shape()
      reads this
    {
      && 0 < n < 32 && pcb.Length == n && sKey.Length == n
      && |k.pcb| == n && |k.kids| == n && |k.birth| == n && k.timer == timer
    }

    ghost predicate Globals()
      reads this, pcb
    {
      && pcb[..] == k.pcb
      && processCount == k.processCount && softblockCount == k.softblockCount
      && recycleCount == k.spawned % 0x1_0000_0000
      && activeProcess == k.active && yieldProcess == k.yielder && mem == k.mem
    }

    /** The links are well formed and the cells of every table entry exist. */
    ghost predicate Wired()
      reads this, plinks, clinks, slinks
    {
      && plinks.Valid() && plinks.Tidy({}) && slinks.Valid() && clinks.Valid()
      && (forall i: nat :: i < n ==> Elem(i) in plinks.cells && Elem(i) in slinks.cells && Head(Procq(i)) in plinks.cells)
      && (forall i: nat :: i < n ==> Elem(i) in clinks.cells && Head(i) in clinks.cells)
    }

    /** The tables, counters and lists represent `k`. */
    ghost predicate Valid()
      reads this, plinks, clinks, slinks, pcb, sKey
    {
      && Shape() && Globals() && Wired()
      && ListsTied(plinks.rings, slinks.rings, sKey[..], desc, clinks.rings, k)
    }

    // ---- os/src/init.c -------------------------------------------------------------------------

    /** Power-on: zeroed static tables over memory `words`, then init_scheduler, init_pcbs and init_asl. */
    constructor (maxProc: nat, clock: Key, words: map<Key, int>)
      requires 0 < maxProc < 32
      ensures Valid() && k == Cold(maxProc, words, clock) && n == maxProc
      ensures fresh(plinks) && fresh(clinks) && fresh(slinks) && fresh(pcb) && fresh(sKey)
    {
      n := maxProc;
      timer := clock;
      plinks := new Links<PHead>(maxProc, PHeads(maxProc));
      clinks := new Links<nat>(maxProc, Below(maxProc));
      slinks := new Links<SHead>(maxProc, {SemdFree, SemdActive});
      pcb := new Pcb[maxProc](_ => Pcb(None, None, false, false, NULL_PID));
      sKey := new Key[maxProc](_ => 0);
      processCount, softblockCount, recycleCount := 0, 0, 0;
      activeProcess, yieldProcess := None, None;
      mem := words;
      k := Cold(maxProc, words, clock);
      desc := map[];
      new;
      ColdTable(maxProc, words, clock);
      assert pcb[..] == k.pcb;
      assert plinks.rings == map[] && slinks.rings == map[] && clinks.rings == map[];
      assert Blank();
      InitLists();
    }

    /** No list is initialised yet, and every cell the tables need exists. */
    ghost predicate Blank()
      reads plinks, clinks, slinks
    {
      && plinks.Valid() && plinks.Tidy({}) && plinks.rings == map[]
      && slinks.Valid() && slinks.rings == map[] && clinks.Valid() && clinks.rings == map[]
      && Head(PcbFree) in plinks.cells && Head(ReadyHi) in plinks.cells && Head(ReadyLo) in plinks.cells
      && Head(SemdFree) in slinks.cells && Head(SemdActive) in slinks.cells
      && (forall i: nat :: i < n ==> Elem(i) in plinks.cells && Elem(i) in slinks.cells && Head(Procq(i)) in plinks.cells)
      && (forall i: nat :: i < n ==> Elem(i) in clinks.cells && Head(i) in clinks.cells)
    }

    method InitLists()
      requires Blank() && Shape() && Globals() && k == Cold(n, mem, timer) && desc == map[]
      modifies plinks, slinks, pcb
      ensures Valid()
    {
      plinks.InitListHead(ReadyHi);
      plinks.InitListHead(ReadyLo);
      assert forall i: nat :: !OnSome(plinks.rings, i);
      InitPcbs();
      InitAsl();
      ColdTied(n, mem, timer, sKey[..]);
    }

    method InitPcbs()
      requires plinks.Valid() && plinks.Tidy({}) && PcbFree !in plinks.rings && Head(PcbFree) in plinks.cells
      requires (forall i: nat :: i < n ==> Elem(i) in plinks.cells) && forall i: nat :: !OnSome(plinks.rings, i)
      requires pcb.Length == n && forall i :: 0 <= i < n ==> pcb[i] == Pcb(None, None, false, false, NULL_PID)
      modifies plinks, pcb
      ensures plinks.Valid() && plinks.Tidy({}) && plinks.cells.Keys == old(plinks.cells.Keys)
      ensures plinks.rings == old(plinks.rings)[PcbFree := Descending(n)]
      ensures pcb[..] == old(pcb[..])
    {
      plinks.InitListHead(PcbFree);
      forall j: nat ensures !OnSome(plinks.rings, j) {
        assert !OnSome(old(plinks.rings), j);
      }
      for i := 0 to n
        invariant plinks.Valid() && plinks.Tidy({}) && plinks.cells.Keys == old(plinks.cells.Keys)
        invariant plinks.rings == old(plinks.rings)[PcbFree := Descending(i)]
        invariant forall j: nat :: i <= j ==> !OnSome(plinks.rings, j)
        invariant pcb[..] == old(pcb[..])
      {
        ghost var before := plinks.rings;
        plinks.ListAdd(i, PcbFree);
        pcb[i] := pcb[i].(pid := NULL_PID);
        assert [i] + Descending(i) == Descending(i + 1);
        forall j: nat | i + 1 <= j ensures !OnSome(plinks.rings, j) {
          assert !OnSome(before, j);
          StillOnNone(before, PcbFree, i, j);
        }
      }
    }

    method InitAsl()
      requires slinks.Valid() && slinks.rings == map[]
      requires Head(SemdFree) in slinks.cells && Head(SemdActive) in slinks.cells
      requires forall i: nat :: i < n ==> Elem(i) in slinks.cells
      modifies slinks
      ensures slinks.Valid() && slinks.cells.Keys == old(slinks.cells.Keys)
      ensures slinks.rings == map[SemdFree := Descending(n), SemdActive := []]
    {
      slinks.InitListHead(SemdFree);
      slinks.InitListHead(SemdActive);
      for i := 0 to n
        invariant slinks.Valid() && slinks.cells.Keys == old(slinks.cells.Keys)
        invariant slinks.rings == map[SemdFree := Descending(i), SemdActive := []]
      {
        assert forall j: nat :: j in slinks.rings[SemdFree] || j in slinks.rings[SemdActive] ==> j < i;
        slinks.ListAdd(i, SemdFree);
        assert [i] + Descending(i) == Descending(i + 1);
      }
    }

    // ---- os/src/asl.c --------------------------------------------------------------------------

    /** find_semd over semd_h */
    method FindSemd(a: Key) returns (r: Option<nat>)
      requires Valid()
      ensures r == if a in desc then Some(desc[a]) else None
    {
      var keys := sKey[..];
      r := slinks.ListSearch(SemdActive, (j: nat) => j < |keys| && keys[j] == a);
    }

    /** alloc_semd, when a descriptor is free */
    method AllocSemd(a: Key) returns (r: Option<nat>)
      requires Valid()
      modifies plinks, slinks, sKey
      ensures plinks.Valid() && plinks.Tidy({}) && slinks.Valid()
      ensures plinks.cells.Keys == old(plinks.cells.Keys) && slinks.cells.Keys == old(slinks.cells.Keys)
      ensures old(slinks.rings[SemdFree]) == [] ==> r == None && unchanged(plinks) && unchanged(slinks) && unchanged(sKey)
      ensures old(slinks.rings[SemdFree]) != [] ==>
        var j := old(slinks.rings[SemdFree])[0];
        && r == Some(j) && j < n
        && plinks.rings == old(plinks.rings)[Procq(j) := []]
        && slinks.rings == old(slinks.rings)[SemdFree := old(slinks.rings[SemdFree])[1..]][SemdActive := [j] + old(slinks.rings[SemdActive])]
        && sKey[..] == old(sKey[..])[j := a]
    {
      var empty := slinks.ListEmpty(SemdFree);
      if empty {
        return None;
      }
      r := slinks.ListNext(SemdFree);
      var j := r.value;
      ghost var free := slinks.rings[SemdFree];
      assert j in free;
      MinusAt(free, 0);
      slinks.ListDel(j, SemdFree);
      assert slinks.rings[SemdFree] == free[1..];
      HeadLeaves(free);
      slinks.ListAdd(j, SemdActive);
      sKey[j] := a;
      assert Procq(j) in plinks.rings ==> plinks.rings[Procq(j)] == [];
      plinks.InitListHead(Procq(j));
    }

    /** free_semd: false on success, true when the queue is not empty */
    method FreeSemd(j: nat) returns (failed: bool)
      requires plinks.Valid() && slinks.Valid()
      requires SemdFree in slinks.rings && SemdActive in slinks.rings && j in slinks.rings[SemdActive] && Procq(j) in plinks.rings
      requires Elem(j) in slinks.cells
      modifies slinks
      ensures slinks.Valid() && slinks.cells.Keys == old(slinks.cells.Keys)
      ensures failed <==> plinks.rings[Procq(j)] != []
      ensures failed ==> slinks.rings == old(slinks.rings)
      ensures !failed ==>
        slinks.rings == old(slinks.rings)[SemdActive := Minus(old(slinks.rings[SemdActive]), {j})]
                                         [SemdFree := [j] + old(slinks.rings[SemdFree])]
    {
      var empty := plinks.ListEmpty(Procq(j));
      if !empty {
        return true;
      }
      slinks.ListDel(j, SemdActive);
      slinks.ListAdd(j, SemdFree);
      return false;
    }

    lemma DescriptorLeft(p: nat)
      requires Valid() && OnQueues(k) && Fifo(k) && p < n && !Waits(k, p)
      ensures slinks.rings[SemdFree] != []
    {
      FreeDescriptor(plinks.rings, slinks.rings, sKey[..], desc, k, p);
    }

    /** The descriptor of a key that has none, with `p` about to be its first waiter. */
    method NewSemd(a: Key, p: nat) returns (sem: Option<nat>)
      requires Valid() && p < n && !OnSome(plinks.rings, p) && a !in k.blocked
      modifies this`desc, plinks, slinks, sKey
      ensures Wired() && ReadyTied(plinks.rings, k)
      ensures sem.None? <==> old(slinks.rings[SemdFree]) == []
      ensures sem.None? ==> Valid()
      ensures sem.Some? ==> sem.value < n && Procq(sem.value) in plinks.rings && !OnSome(plinks.rings, p)
      ensures sem.Some? ==>
        SemdsTied(plinks.rings[Procq(sem.value) := plinks.rings[Procq(sem.value)] + [p]], slinks.rings, sKey[..], desc, Park(k, a, p))
    {
      if slinks.rings[SemdFree] != [] {
        ParkOnNew(plinks.rings, slinks.rings, sKey[..], desc, k, a, p);
      }
      ghost var pr := plinks.rings;
      sem := AllocSemd(a);
      if sem.Some? {
        desc := desc[a := sem.value];
        assert [] + [p] == [p];
        assert plinks.rings[Procq(sem.value) := [p]] == pr[Procq(sem.value) := [p]];
      }
    }

    /**
     The descriptor insert_blocked uses, found or freshly allocated: once `p` is appended to its queue,
     the lists represent `p` waiting on `a`. None when the free list is exhausted.
     */
    method SemdFor(a: Key, p: nat) returns (sem: Option<nat>)
      requires Valid() && p < n && !OnSome(plinks.rings, p)
      modifies this`desc, plinks, slinks, sKey
      ensures Wired() && ReadyTied(plinks.rings, k)
      ensures sem.None? <==> a !in k.blocked && old(slinks.rings[SemdFree]) == []
      ensures sem.None? ==> Valid()
      ensures sem.Some? ==> sem.value < n && Procq(sem.value) in plinks.rings && !OnSome(plinks.rings, p)
      ensures sem.Some? ==>
        SemdsTied(plinks.rings[Procq(sem.value) := plinks.rings[Procq(sem.value)] + [p]], slinks.rings, sKey[..], desc, Park(k, a, p))
    {
      sem := FindSemd(a);
      if sem.None? {
        sem := NewSemd(a, p);
      } else {
        ParkOnActive(plinks.rings, slinks.rings, sKey[..], desc, k, a, p);
      }
    }

    /** The last two statements of insert_blocked, on the descriptor found. */
    method AppendTo(sem: nat, a: Key, p: nat)
      requires Shape() && Globals() && Wired() && p < n
      requires ReadyTied(plinks.rings, k) && KidsTied(clinks.rings, k)
      requires Procq(sem) in plinks.rings && !OnSome(plinks.rings, p)
      requires SemdsTied(plinks.rings[Procq(sem) := plinks.rings[Procq(sem)] + [p]], slinks.rings, sKey[..], desc, Park(k, a, p))
      modifies this`k, plinks, pcb
      ensures Valid() && k == Park(old(k), a, p)
    {
      ParkElsewhere(plinks.rings, sem, plinks.rings[Procq(sem)] + [p], clinks.rings, k, a, p);
      plinks.ListAddTail(p, Procq(sem));
      pcb[p] := pcb[p].(semAdd := Some(a));
      k := Park(k, a, p);
    }

    /** insert_blocked, with its four failures. */
    method InsertBlocked(a: Option<Key>, p: Option<nat>) returns (code: int)
      requires Valid()
      requires p.Some? ==> p.value < n && (k.pcb[p.value].semAdd.None? ==> !OnSome(plinks.rings, p.value))
      modifies this`k, this`desc, plinks, slinks, sKey, pcb
      ensures Valid()
      ensures code == if a.None? then 1 else if p.None? then 2 else if old(k).pcb[p.value].semAdd.Some? then 3
                      else if a.value !in old(k).blocked && old(slinks.rings[SemdFree]) == [] then 4 else 0
      ensures k == if code == 0 then Park(old(k), a.value, p.value) else old(k)
    {
      if a.None? {
        return 1;
      }
      if p.None? {
        return 2;
      }
      if pcb[p.value].semAdd.Some? {
        return 3;
      }
      var sem := SemdFor(a.value, p.value);
      if sem.None? {
        return 4;
      }
      AppendTo(sem.value, a.value, p.value);
      return 0;
    }

    /** The last test of out_blocked: a descriptor whose queue ran empty is freed. */
    method ReleaseIfEmpty(sem: nat, ghost a: Key) returns (failed: bool)
      requires Shape() && Globals() && Wired()
      requires ReadyTied(plinks.rings, k) && KidsTied(clinks.rings, k)
      requires sem < n && SemdsAfter(plinks.rings, slinks.rings, sKey[..], desc, k, sem, a)
      modifies this`desc, slinks
      ensures Valid() && !failed
    {
      var empty := plinks.ListEmpty(Procq(sem));
      if empty {
        failed := FreeSemd(sem);
        desc := desc - {a};
      } else {
        failed := false;
      }
    }

    /** out_blocked once the queue is found: the process leaves it. */
    method Withdraw(sem: nat, p: nat, ghost a: Key) returns (failed: bool)
      requires Shape() && Globals() && Wired() && p < n && sem < n
      requires Procq(sem) in plinks.rings && p in plinks.rings[Procq(sem)]
      requires UnparkedBy(plinks.rings[Procq(sem) := Minus(plinks.rings[Procq(sem)], {p})],
                          slinks.rings, sKey[..], desc, clinks.rings, Unpark(k, p), sem, a)
      modifies this`k, this`desc, plinks, slinks, pcb
      ensures Valid() && !failed && k == Unpark(old(k), p)
    {
      plinks.ListSdel(p, Procq(sem));
      pcb[p] := pcb[p].(semAdd := None);
      k := Unpark(k, p);
      failed := ReleaseIfEmpty(sem, a);
    }

    /** out_blocked: the process, if it is on the queue its p_sem_add names; else NULL and no change. */
    method OutBlocked(p: Option<nat>) returns (r: Option<nat>)
      requires Valid() && OnQueues(k) && NoEmptyQueue(k) && (p.Some? ==> p.value < n)
      modifies this`k, this`desc, plinks, slinks, pcb
      ensures Valid()
      ensures if p.Some? && Waits(old(k), p.value) then r == p && k == Unpark(old(k), p.value) else r == None && k == old(k)
    {
      if p.None? || pcb[p.value].semAdd.None? {
        return None;
      }
      var a := pcb[p.value].semAdd.value;
      var sem := FindSemd(a);
      if sem.None? {
        return None;
      }
      var there := plinks.ListContains(p.value, Procq(sem.value));
      if !there {
        return None;
      }
      UnparkTied(plinks.rings, slinks.rings, sKey[..], desc, clinks.rings, k, p.value);
      var failed := Withdraw(sem.value, p.value, a);
      if failed {
        return None;
      }
      return p;
    }

    /** head_blocked */
    method HeadBlocked(a: Option<Key>) returns (r: Option<nat>)
      requires Valid() && NoEmptyQueue(k)
      ensures r == if a.None? || Queue(k, a.value) == [] then None else Some(Queue(k, a.value)[0])
    {
      if a.None? {
        return None;
      }
      var sem := FindSemd(a.value);
      if sem.None? {
        return None;
      }
      assert a.value in k.blocked && plinks.rings[Procq(sem.value)] == k.blocked[a.value];
      r := plinks.ListNext(Procq(sem.value));
    }

    /** remove_blocked */
    method RemoveBlocked(a: Option<Key>) returns (r: Option<nat>)
      requires Valid() && OnQueues(k) && NoEmptyQueue(k)
      modifies this`k, this`desc, plinks, slinks, pcb
      ensures Valid()
      ensures if a.Some? && Queue(old(k), a.value) != []
              then r == Some(Queue(old(k), a.value)[0]) && r.value < n && k == Unpark(old(k), r.value)
              else r == None && k == old(k)
    {
      r := HeadBlocked(a);
      if r.Some? {
        HeadWaits(k, a.value);
      }
      r := OutBlocked(r);
    }

    // ---- os/src/pcb.c: queues ------------------------------------------------------------------

    /** insert_proc_q: the process leaves whatever list it is on and becomes the last of the queue. */
    method InsertProcQ(h: PHead, p: nat)
      requires plinks.Valid() && plinks.Tidy({}) && h in plinks.rings && Elem(p) in plinks.cells
      modifies plinks
      ensures plinks.Valid() && plinks.Tidy({}) && plinks.cells.Keys == old(plinks.cells.Keys)
      ensures plinks.rings == Moved(old(plinks.rings), h, p)
    {
      Unlink(p, h);
      plinks.ListAddTail(p, h);
    }

    /** insert_proc_q of a process that is on no list */
    method JoinQueue(h: PHead, p: nat)
      requires plinks.Valid() && plinks.Tidy({}) && h in plinks.rings && Elem(p) in plinks.cells && !OnSome(plinks.rings, p)
      modifies plinks
      ensures plinks.Valid() && plinks.Tidy({}) && plinks.cells.Keys == old(plinks.cells.Keys)
      ensures plinks.rings == old(plinks.rings)[h := old(plinks.rings[h]) + [p]]
    {
      WithoutNone(plinks.rings, p);
      InsertProcQ(h, p);
    }

    /** list_sdel of a process, whatever list it is on, if any; `h` is some list. */
    method Unlink(p: nat, ghost h: PHead)
      requires plinks.Valid() && plinks.Tidy({}) && h in plinks.rings && Elem(p) in plinks.cells
      modifies plinks
      ensures plinks.Valid() && plinks.Tidy({}) && plinks.cells.Keys == old(plinks.cells.Keys)
      ensures plinks.rings == Without(old(plinks.rings), p) && !OnSome(plinks.rings, p) && h in plinks.rings
    {
      ghost var from := h;
      if g :| g in plinks.rings && p in plinks.rings[g] {
        from := g;
      }
      WithoutOne(plinks.rings, from, p);
      plinks.ListSdel(p, from);
    }

    /** out_proc_q */
    method OutProcQ(h: PHead, p: nat) returns (r: Option<nat>)
      requires plinks.Valid() && plinks.Tidy({}) && h in plinks.rings && Elem(p) in plinks.cells
      modifies plinks
      ensures plinks.Valid() && plinks.Tidy({}) && plinks.cells.Keys == old(plinks.cells.Keys)
      ensures plinks.rings == old(plinks.rings)[h := Minus(old(plinks.rings[h]), {p})]
      ensures r == if p in old(plinks.rings[h]) then Some(p) else None
    {
      var empty := plinks.ListEmpty(h);
      var there := plinks.ListContains(p, h);
      if empty || !there {
        MinusNone(plinks.rings[h], {p});
        assert plinks.rings == plinks.rings[h := plinks.rings[h]];
        return None;
      }
      plinks.ListSdel(p, h);
      return Some(p);
    }

    /** remove_proc_q */
    method RemoveProcQ(h: PHead) returns (r: Option<nat>)
      requires plinks.Valid() && plinks.Tidy({}) && h in plinks.rings
      requires forall p :: p in plinks.rings[h] ==> Elem(p) in plinks.cells
      modifies plinks
      ensures plinks.Valid() && plinks.Tidy({}) && plinks.cells.Keys == old(plinks.cells.Keys)
      ensures old(plinks.rings[h]) == [] ==> r == None && plinks.rings == old(plinks.rings)
      ensures old(plinks.rings[h]) != [] ==>
        r == Some(old(plinks.rings[h])[0]) && plinks.rings == old(plinks.rings)[h := Minus(old(plinks.rings[h]), {r.value})]
    {
      var empty := plinks.ListEmpty(h);
      if empty {
        return None;
      }
      r := plinks.ListNext(h);
      assert r.value in plinks.rings[h];
      r := OutProcQ(h, r.value);
    }

    // ---- os/src/scheduler.c --------------------------------------------------------------------

    /** process_queue */
    function ProcessQueue(p: nat): PHead
      requires p < pcb.Length
      reads pcb
    {
      if pcb[p].prio then ReadyHi else ReadyLo
    }

    /** enqueue_process: the process leaves the list it is on, if any, and joins its ready queue. */
    method EnqueueProcess(p: nat)
      requires Valid() && p < n
      modifies this`k, plinks
      ensures Valid() && k == Enqueue(TakenOff(old(k), p), p)
    {
      MovedTied(plinks.rings, slinks.rings, sKey[..], desc, clinks.rings, k, p);
      InsertProcQ(ProcessQueue(p), p);
      k := Enqueue(TakenOff(k, p), p);
    }

    /** enqueue_process of a process that is on no list */
    method EnqueueLoose(p: nat)
      requires Valid() && p < n && OffLists(k, p)
      modifies this`k, plinks
      ensures Valid() && k == Enqueue(old(k), p)
    {
      OffListsOnNone(plinks.rings, slinks.rings, sKey[..], desc, k, p);
      NowhereIsTakenOff(plinks.rings, slinks.rings, sKey[..], desc, k, p);
      EnqueueProcess(p);
    }

    /** dequeue_process */
    method DequeueProcess(p: nat) returns (r: Option<nat>)
      requires Valid() && p < n
      modifies this`k, plinks
      ensures Valid() && k == Unready(old(k), p)
      ensures r == if p in (if old(k).pcb[p].prio then old(k).hi else old(k).lo) then Some(p) else None
    {
      UnreadyTied(plinks.rings, slinks.rings, sKey[..], desc, clinks.rings, k, p);
      r := OutProcQ(ProcessQueue(p), p);
      k := Unready(k, p);
    }

    /** find_process */
    method FindPid(pid: Word) returns (r: Option<nat>)
      requires Valid()
      ensures r == FindProcess(k, pid)
    {
      var i := MaskPidId(pid);
      if i >= n || pcb[i].pid != pid {
        return None;
      }
      return Some(i);
    }

    // ---- os/src/pcb.c: allocation and the process tree -----------------------------------------

    /** alloc_pcb, with null_pcb */
    method AllocPcb() returns (r: Option<nat>)
      requires plinks.Valid() && plinks.Tidy({}) && clinks.Valid() && PcbFree in plinks.rings && NoDup(plinks.rings[PcbFree])
      requires forall c: nat :: c in plinks.rings[PcbFree] ==> c < pcb.Length && !OnSome(clinks.rings, c)
      requires forall c: nat :: c < pcb.Length ==> Elem(c) in plinks.cells && Elem(c) in clinks.cells && Head(c) in clinks.cells
      modifies plinks, clinks, pcb
      ensures plinks.Valid() && plinks.Tidy({}) && clinks.Valid()
      ensures plinks.cells.Keys == old(plinks.cells.Keys) && clinks.cells.Keys == old(clinks.cells.Keys)
      ensures old(plinks.rings[PcbFree]) == [] ==> r == None && unchanged(plinks) && unchanged(clinks) && unchanged(pcb)
      ensures old(plinks.rings[PcbFree]) != [] ==>
        && r == Some(old(plinks.rings[PcbFree])[0]) && r.value < pcb.Length && !OnSome(plinks.rings, r.value)
        && plinks.rings == old(plinks.rings)[PcbFree := old(plinks.rings[PcbFree])[1..]]
        && clinks.rings == old(clinks.rings)[r.value := []]
        && pcb[..] == old(pcb[..])[r.value := Pcb(None, None, false, false, NULL_PID)]
    {
      var empty := plinks.ListEmpty(PcbFree);
      if empty {
        return None;
      }
      r := plinks.ListNext(PcbFree);
      var first := r.value;
      ghost var free := plinks.rings[PcbFree];
      assert first in free;
      MinusAt(free, 0);
      assert Minus(free, {first}) == free[1..];
      plinks.ListDel(first, PcbFree);
      plinks.SetNull(first);
      clinks.InitListHead(first);
      clinks.SetNull(first);
      pcb[first] := Pcb(None, None, false, false, NULL_PID);
    }

    /** free_pcb: a slot that is free already stays where it is; any other leaves the list it is on, if any. */
    method FreePcb(p: nat)
      requires Valid() && p < n
      modifies this`k, plinks, pcb
      ensures Valid() && k == if p in old(k).free then old(k) else Bury(TakenOff(old(k), p), p)
    {
      FreedTied(plinks.rings, slinks.rings, sKey[..], desc, clinks.rings, k, p);
      var freed := plinks.ListContains(p, PcbFree);
      if freed {
        return;
      }
      Shelve(p);
      k := Bury(TakenOff(k, p), p);
    }

    method Shelve(p: nat)
      requires plinks.Valid() && plinks.Tidy({}) && PcbFree in plinks.rings && p < pcb.Length && Elem(p) in plinks.cells
      modifies plinks, pcb
      ensures plinks.Valid() && plinks.Tidy({}) && plinks.cells.Keys == old(plinks.cells.Keys)
      ensures plinks.rings == Without(old(plinks.rings), p)[PcbFree := [p] + Minus(old(plinks.rings[PcbFree]), {p})]
      ensures pcb[..] == old(pcb[..])[p := old(pcb[p]).(pid := NULL_PID)]
    {
      pcb[p] := pcb[p].(pid := NULL_PID);
      Unlink(p, PcbFree);
      plinks.ListAdd(p, PcbFree);
    }

    /** out_child */
    method OutChild(p: nat) returns (r: Option<nat>)
      requires Valid() && p < n
      requires k.pcb[p].parent.Some? ==> Live(k, k.pcb[p].parent.value) && p in k.kids[k.pcb[p].parent.value]
      modifies this`k, clinks, pcb
      ensures Valid()
      ensures old(k).pcb[p].parent.Some? ==> r == Some(p) && old(k).pcb[p].parent.value < |old(k).kids| && k == Detach(old(k), p)
      ensures old(k).pcb[p].parent.None? ==> r == None && k == old(k)
    {
      if pcb[p].parent.None? {
        return None;
      }
      var parent := pcb[p].parent.value;
      var empty := clinks.ListEmpty(parent);
      var there := clinks.ListContains(p, parent);
      if empty || !there {
        return None;
      }
      DetachTied(plinks.rings, slinks.rings, sKey[..], desc, clinks.rings, k, parent, p);
      Sever(p, parent);
      return Some(p);
    }

    method Sever(p: nat, parent: nat)
      requires Shape() && Globals() && Wired() && p < n && k.pcb[p].parent == Some(parent) && parent < n
      requires parent in clinks.rings && p in clinks.rings[parent]
      requires ListsTied(plinks.rings, slinks.rings, sKey[..], desc, clinks.rings[parent := Minus(clinks.rings[parent], {p})], Detach(k, p))
      modifies this`k, clinks, pcb
      ensures Valid() && k == Detach(old(k), p)
    {
      clinks.ListSdel(p, parent);
      pcb[p] := pcb[p].(parent := None);
      k := Detach(k, p);
    }

    /** remove_child: the oldest child, detached */
    method RemoveChild(p: nat) returns (r: Option<nat>)
      requires Valid() && Live(k, p) && (k.kids[p] != [] ==> k.kids[p][0] < n && k.pcb[k.kids[p][0]].parent == Some(p))
      modifies this`k, clinks, pcb
      ensures Valid()
      ensures if old(k).kids[p] == [] then r == None && k == old(k)
              else r == Some(old(k).kids[p][0]) && r.value < n && old(k).pcb[r.value].parent == Some(p) && k == Detach(old(k), r.value)
    {
      var empty := clinks.ListEmpty(p);
      if empty {
        return None;
      }
      r := clinks.ListNext(p);
      assert r.value in k.kids[p];
      r := OutChild(r.value);
    }

    /** insert_child under a parent whose list of children has been initialised */
    method InsertChild(parent: nat, c: nat)
      requires Valid() && parent < n && parent in clinks.rings && c < n && (k.pcb[c].parent.None? ==> !OnSome(clinks.rings, c))
      modifies this`k, clinks, pcb
      ensures Valid()
      ensures k == if old(k).pcb[c].parent.None? then Adopt(old(k), parent, c) else old(k)
    {
      var there := clinks.ListContains(c, parent);
      if pcb[c].parent.Some? || there {
        return;
      }
      AdoptTied(plinks.rings, slinks.rings, sKey[..], desc, clinks.rings, k, parent, c);
      Graft(parent, c);
    }

    method Graft(parent: nat, c: nat)
      requires Shape() && Globals() && Wired() && parent < n && c < n
      requires parent in clinks.rings && !OnSome(clinks.rings, c)
      requires ListsTied(plinks.rings, slinks.rings, sKey[..], desc, clinks.rings[parent := clinks.rings[parent] + [c]], Adopt(k, parent, c))
      modifies this`k, clinks, pcb
      ensures Valid() && k == Adopt(old(k), parent, c)
    {
      pcb[c] := pcb[c].(parent := Some(parent));
      clinks.ListAddTail(c, parent);
      k := Adopt(k, parent, c);
    }

    /** spawn_process */
    method SpawnProcess(prio: bool) returns (r: Option<nat>)
      requires Valid() && NoDup(k.free) && forall c: nat :: c in k.free ==> c < n && !OnSome(clinks.rings, c)
      modifies this`k, this`processCount, this`recycleCount, plinks, clinks, pcb
      ensures Valid()
      ensures if old(k).free == [] then r == None && k == old(k)
              else r == Some(old(k).free[0]) && r.value < n && k == Spawn(old(k), prio)
    {
      if k.free != [] {
        assert k.free[0] in k.free;
        SpawnTied(plinks.rings, slinks.rings, sKey[..], desc, clinks.rings, k, prio, MakePid(k.free[0], recycleCount));
      }
      r := AllocPcb();
      if r.None? {
        return;
      }
      Launch(r.value, prio, MakePid(r.value, recycleCount));
    }

    /** spawn_process once a pcb is allocated: count, name and enqueue it. */
    method Launch(c: nat, prio: bool, pid: Word)
      requires Shape() && Wired() && c < n && k.free != [] && c == k.free[0]
      requires pcb[..] == k.pcb[c := Pcb(None, None, false, false, NULL_PID)]
      requires processCount == k.processCount && softblockCount == k.softblockCount && recycleCount == k.spawned % 0x1_0000_0000
      requires activeProcess == k.active && yieldProcess == k.yielder && mem == k.mem
      requires (if prio then ReadyHi else ReadyLo) in plinks.rings && !OnSome(plinks.rings, c)
      requires var h := if prio then ReadyHi else ReadyLo;
        ListsTied(plinks.rings[h := plinks.rings[h] + [c]], slinks.rings, sKey[..], desc, clinks.rings, SpawnAs(k, prio, pid))
      modifies this`k, this`processCount, this`recycleCount, plinks, pcb
      ensures Valid() && k == SpawnAs(old(k), prio, pid)
    {
      ghost var k' := SpawnAs(k, prio, pid);
      SpawnedGlobals(k, prio, pid);
      Label(c, prio, pid);
      assert pcb[..] == k'.pcb;
      JoinQueue(ProcessQueue(c), c);
      k := k';
    }

    method Label(c: nat, prio: bool, pid: Word)
      requires c < pcb.Length
      modifies pcb, this`processCount, this`recycleCount
      ensures processCount == old(processCount) + 1 && recycleCount == (old(recycleCount) + 1) % 0x1_0000_0000
      ensures pcb[..] == old(pcb[..])[c := old(pcb[c]).(pid := pid, prio := prio)]
    {
      processCount := processCount + 1;
      pcb[c] := pcb[c].(pid := pid);
      recycleCount := (recycleCount + 1) % 0x1_0000_0000;
      pcb[c] := pcb[c].(prio := prio);
    }

    /** kill_process on a waiting victim: off the semaphore queue, one process fewer soft-blocked */
    method LeaveSemaphore(p: nat, ghost cpu: Option<nat>)
      requires Valid() && Owned(k, cpu) && NoEmptyQueue(k) && Waits(k, p)
      modifies this`k, this`desc, this`softblockCount, plinks, slinks, pcb
      ensures Valid() && !OnSome(plinks.rings, p) && k == Unblock(old(k), p)
    {
      OffAfterUnblock(k, p, cpu);
      var out := OutBlocked(Some(p));
      CountBlocked(-1);
      OffListsOnNone(plinks.rings, slinks.rings, sKey[..], desc, k, p);
    }

    /** kill_process on a ready victim */
    method LeaveReady(p: nat, ghost cpu: Option<nat>)
      requires Valid() && Owned(k, cpu) && Runnable(k, p)
      modifies this`k, plinks
      ensures Valid() && !OnSome(plinks.rings, p) && k == Unready(old(k), p)
    {
      OffAfterUnready(k, p, cpu);
      var gone := DequeueProcess(p);
      OffListsOnNone(plinks.rings, slinks.rings, sKey[..], desc, k, p);
    }

    /** ++softblock_count or --softblock_count */
    method CountBlocked(change: int)
      requires Valid()
      modifies this`k, this`softblockCount
      ensures Valid() && k == old(k).(softblockCount := old(k).softblockCount + change)
    {
      ghost var k' := k.(softblockCount := k.softblockCount + change);
      PointersTied(plinks.rings, slinks.rings, sKey[..], desc, clinks.rings, k, k');
      softblockCount := softblockCount + change;
      k := k';
    }

    /** The part of kill_process that takes the victim off whatever queue it is on. */
    method LeaveQueue(p: nat, ghost cpu: Option<nat>)
      requires Valid() && Owned(k, cpu) && NoEmptyQueue(k) && Live(k, p)
      modifies this`k, this`desc, this`softblockCount, plinks, slinks, pcb
      ensures Valid() && !OnSome(plinks.rings, p)
      ensures k == if Waits(old(k), p) then Unblock(old(k), p) else Unready(old(k), p)
    {
      if plinks.IsNull(p) {
        if h :| h in plinks.rings && p in plinks.rings[h] {
          plinks.OnListNotNull(p, h);
        }
        OnNoneIsRunning(plinks.rings, slinks.rings, sKey[..], desc, k, p);
      } else if pcb[p].semAdd.Some? {
        LeaveSemaphore(p, cpu);
      } else {
        LeaveReady(p, cpu);
      }
    }

    /** kill_process of a live process, whether it has children or not, or of NULL */
    method KillProcess(victim: Option<nat>, ghost cpu: Option<nat>) returns (r: int)
      requires Valid() && (victim.Some? ==> Core(k, cpu) && Live(k, victim.value))
      modifies this`k, this`desc, this`processCount, this`softblockCount, plinks, clinks, slinks, pcb
      ensures Valid() && r == if victim.None? then 1 else 0
      ensures victim.None? ==> k == old(k)
      ensures victim.Some? ==>
        && (old(k).pcb[victim.value].parent.Some? ==> old(k).pcb[victim.value].parent.value < |old(k).kids|)
        && k == KilledAlone(old(k), victim.value)
    {
      if victim.None? {
        return 1;
      }
      var p := victim.value;
      VictimFacts(k, p, cpu);
      if pcb[p].parent.Some? {
        var out := OutChild(p);
        if out != victim {
          return 2;
        }
      }
      r := Reap(p, cpu);
    }

    /** kill_process after the victim has left the forest */
    method Reap(p: nat, ghost cpu: Option<nat>) returns (r: int)
      requires Valid() && Owned(Uncounted(k), cpu) && NoEmptyQueue(Uncounted(k)) && Live(k, p)
      modifies this`k, this`desc, this`processCount, this`softblockCount, plinks, slinks, pcb
      ensures Valid() && r == 0
      ensures k == Bury(if Waits(old(k), p) then Unblock(Uncounted(old(k)), p) else Unready(Uncounted(old(k)), p), p)
    {
      processCount := processCount - 1;
      k := Uncounted(k);
      LeaveQueue(p, cpu);
      FreedTied(plinks.rings, slinks.rings, sKey[..], desc, clinks.rings, k, p);
      FreePcb(p);
      return 0;
    }

    /** The loop test of kill_progeny: detach the next child, if there is one. */
    method NextVictim(p: nat, ghost k0: State, ghost j: nat, ghost cpu: Option<nat>) returns (child: Option<nat>)
      requires Valid() && Core(k0, cpu) && Live(k0, p) && j <= |k0.kids[p]| && k == AfterChildren(k0, p, j)
      modifies this`k, clinks, pcb
      ensures Valid() && Halfway(k0, p, j, child, k)
    {
      ChildrenLeft(k0, p, j, cpu);
      child := RemoveChild(p);
    }

    /** The loop body of kill_progeny. */
    method KillChild(child: nat, ghost p: nat, ghost k0: State, ghost j: nat, ghost cpu: Option<nat>) returns (failed: int)
      requires Valid() && Core(k0, cpu) && Live(k0, p) && Halfway(k0, p, j, Some(child), k)
      modifies this`k, this`desc, this`processCount, this`softblockCount, plinks, clinks, slinks, pcb
      ensures Valid() && failed == 0 && k == AfterChildren(k0, p, j + 1)
      decreases k0.spawned - k0.birth[p], 0
    {
      NextChild(k0, p, j, cpu);
      ChildIsYounger(k0, p, j);
      failed := KillProgeny(child, cpu);
    }

    /** kill_progeny */
    method KillProgeny(p: nat, ghost cpu: Option<nat>) returns (r: int)
      requires Valid() && Core(k, cpu) && Live(k, p)
      modifies this`k, this`desc, this`processCount, this`softblockCount, plinks, clinks, slinks, pcb
      ensures Valid() && r == 0 && k == KillTree(old(k), p)
      decreases k.spawned - k.birth[p], 1
    {
      ghost var k0, j: nat := k, 0;
      NoChildYet(k, p);
      var child := NextVictim(p, k0, j, cpu);
      while child.Some?
        invariant Valid() && Halfway(k0, p, j, child, k)
        decreases |k0.kids[p]| - j
      {
        var failed := KillChild(child.value, p, k0, j, cpu);
        if failed != 0 {
          return 3;
        }
        j := j + 1;
        child := NextVictim(p, k0, j, cpu);
      }
      LastChild(k0, p, cpu);
      KillOneSteps(k, p, cpu);
      r := KillProcess(Some(p), cpu);
    }

    /** active_process = remove_proc_q(queue) */
    method TakeHead(high: bool)
      requires Valid() && (if high then k.hi else k.lo) != [] && forall i :: i in k.hi || i in k.lo ==> i < n
      modifies this`k, this`activeProcess, plinks
      ensures Valid()
      ensures (if high then old(k).hi else old(k).lo) != []
      ensures k == Taken(old(k), high, if high then old(k).hi[0] else old(k).lo[0])
    {
      ghost var p := if high then k.hi[0] else k.lo[0];
      TakeTied(plinks.rings, slinks.rings, sKey[..], desc, clinks.rings, k, high, p);
      activeProcess := RemoveProcQ(if high then ReadyHi else ReadyLo);
      k := Taken(k, high, p);
    }

    method SetPointers(active: Option<nat>, yielder: Option<nat>)
      requires Valid()
      modifies this`k, this`activeProcess, this`yieldProcess
      ensures Valid() && k == old(k).(active := active, yielder := yielder)
    {
      PointersTied(plinks.rings, slinks.rings, sKey[..], desc, clinks.rings, k, k.(active := active, yielder := yielder));
      activeProcess, yieldProcess := active, yielder;
      k := k.(active := active, yielder := yielder);
    }

    /** Process selection in schedule; wait_or_die when nobody can run. */
    method SelectProcess() returns (o: Outcome)
      requires Valid() && forall i :: i in k.hi || i in k.lo ==> i < n
      modifies this`k, this`activeProcess, this`yieldProcess, plinks
      ensures Valid() && (k, o) == Select(old(k))
    {
      var noneHigh := plinks.ListEmpty(ReadyHi);
      var noneLow := plinks.ListEmpty(ReadyLo);
      if !noneHigh {
        TakeHead(true);
        o := Dispatched;
      } else if !noneLow {
        TakeHead(false);
        o := Dispatched;
      } else if yieldProcess.Some? {
        SetPointers(yieldProcess, None);
        o := Dispatched;
      } else {
        o := WaitOrDie();
      }
    }

    /** wait_or_die */
    method WaitOrDie() returns (o: Outcome)
      requires Valid()
      modifies this`k, this`activeProcess, this`yieldProcess
      ensures Valid()
      ensures (k, o) == if old(k).processCount == 0 then (old(k), Halts)
                        else if old(k).softblockCount != 0 then (old(k).(active := None), Idles) else (old(k), Deadlocks)
    {
      if processCount == 0 {
        o := Halts;
      } else if softblockCount != 0 {
        SetPointers(None, yieldProcess);
        o := Idles;
      } else {
        o := Deadlocks;
      }
    }

    /** The end of schedule: a process that yielded goes back to its queue. */
    method RequeueYielder()
      requires Valid() && (k.yielder.Some? ==> k.yielder.value < n && OffLists(k, k.yielder.value))
      modifies this`k, this`activeProcess, this`yieldProcess, plinks
      ensures Valid() && k == Requeue(old(k))
    {
      if yieldProcess.Some? {
        EnqueueLoose(yieldProcess.value);
        SetPointers(activeProcess, None);
      }
    }

    /** schedule */
    method ScheduleProcess(c: Control) returns (o: Outcome)
      requires Valid() && Schedulable(k, c)
      modifies this`k, this`activeProcess, this`yieldProcess, plinks
      ensures forall i :: i in old(k).hi || i in old(k).lo ==> i < |old(k).pcb|
      ensures Valid() && (k, o) == Schedule(old(k), c)
    {
      ReadyInTable(k, OffList(k, c));
      if c.enqueue && c.pcb.Some? {
        RunningIsOff(k, c.pcb.value);
        EnqueueKeeps(k, c.pcb.value);
        ReadyInTable(Enqueue(k, c.pcb.value), None);
        EnqueueLoose(c.pcb.value);
        o := SelectProcess();
      } else if c.pcb.Some? {
        SetPointers(c.pcb, yieldProcess);
        o := Dispatched;
      } else {
        o := SelectOrYield();
      }
      if o.Dispatched? {
        RequeueYielder();
      }
    }

    /** Process selection when the running process may have yielded. */
    method SelectOrYield() returns (o: Outcome)
      requires Valid() && Schedulable(k, BLOCK)
      modifies this`k, this`activeProcess, this`yieldProcess, plinks
      ensures forall i :: i in old(k).hi || i in old(k).lo ==> i < |old(k).pcb|
      ensures Valid() && (k, o) == Select(old(k))
      ensures k.yielder.Some? ==> k.yielder.value < n && OffLists(k, k.yielder.value)
    {
      ReadyInTable(k, k.yielder);
      if k.yielder.Some? {
        RunningIsOff(k, k.yielder.value);
        YielderStaysOff(k, k.yielder.value);
      }
      o := SelectProcess();
    }

    // ---- os/src/semaphores.c -------------------------------------------------------------------

    /** Takes a live process that does not wait off its ready queue, if it is on one. */
    method Unqueue(p: nat, ghost cpu: Option<nat>)
      requires Valid() && Owned(k, cpu) && Runnable(k, p)
      modifies this`k, plinks
      ensures Valid() && !OnSome(plinks.rings, p) && k == Unready(old(k), p)
    {
      if plinks.IsNull(p) {
        if h :| h in plinks.rings && p in plinks.rings[h] {
          plinks.OnListNotNull(p, h);
        }
        OnNoneIsRunning(plinks.rings, slinks.rings, sKey[..], desc, k, p);
      } else {
        LeaveReady(p, cpu);
      }
    }

    /**
     The blocking branch of P and V: off the ready queue, onto the semaphore, one more soft-blocked; V
     counts first.
     */
    method Block(a: Key, p: nat, countFirst: bool, ghost cpu: Option<nat>) returns (code: int)
      requires Valid() && Owned(k, cpu) && Fifo(k) && Runnable(k, p)
      modifies this`k, this`desc, this`softblockCount, plinks, slinks, sKey, pcb
      ensures Valid() && code == 0 && k == BlockOn(Unready(old(k), p), a, p)
    {
      UnreadyQueues(k, p);
      Unqueue(p, cpu);
      code := Settle(a, p, countFirst);
    }

    method Settle(a: Key, p: nat, countFirst: bool) returns (code: int)
      requires Valid() && OnQueues(k) && Fifo(k) && Runnable(k, p) && !OnSome(plinks.rings, p)
      modifies this`k, this`desc, this`softblockCount, plinks, slinks, sKey, pcb
      ensures Valid() && code == 0 && k == BlockOn(old(k), a, p)
    {
      DescriptorLeft(p);
      if countFirst {
        CountBlocked(1);
      }
      code := InsertBlocked(Some(a), Some(p));
      if !countFirst {
        CountBlocked(1);
      }
    }

    method Rouse(t: nat, countFirst: bool)
      requires Valid() && t < n && OffLists(k, t)
      modifies this`k, this`softblockCount, plinks
      ensures Valid() && k == Roused(old(k), t)
    {
      RousedEitherWay(k, t);
      if countFirst {
        CountBlocked(-1);
      }
      EnqueueLoose(t);
      if !countFirst {
        CountBlocked(-1);
      }
    }

    /** The waking branch of P and V: remove_blocked, enqueue_process, one fewer soft-blocked; V counts first. */
    method WakeNext(a: Key, countFirst: bool, ghost cpu: Option<nat>) returns (t: Option<nat>)
      requires Valid() && Owned(k, cpu) && NoEmptyQueue(k)
      modifies this`k, this`desc, this`softblockCount, plinks, slinks, pcb
      ensures Valid()
      ensures if Queue(old(k), a) != [] then t == Some(Queue(old(k), a)[0]) && t.value < n && k == Wake(old(k), a)
              else t == None && k == old(k)
    {
      if Queue(k, a) != [] {
        WakeSteps(k, a, Queue(k, a)[0], cpu);
      }
      t := RemoveBlocked(Some(a));
      if t.Some? {
        Rouse(t.value, countFirst);
      }
    }

    method SetValue(a: Key, v: int)
      requires Valid()
      modifies this`k, this`mem
      ensures Valid() && k == WithValue(old(k), a, v)
    {
      PointersTied(plinks.rings, slinks.rings, sKey[..], desc, clinks.rings, k, WithValue(k, a, v));
      mem := mem[a := v];
      k := WithValue(k, a, v);
    }

    /** P on a semaphore at zero. None stands for the panic when insert_blocked fails. */
    method PAtZero(a: Key, p: nat, ghost cpu: Option<nat>) returns (c: Option<Control>)
      requires Valid() && Owned(k, cpu) && Fifo(k) && Live(k, p)
      modifies this`k, this`desc, this`softblockCount, plinks, slinks, sKey, pcb
      ensures Valid()
      ensures if old(k).pcb[p].semAdd.Some? then c == None else c == Some(BLOCK) && k == BlockOn(Unready(old(k), p), a, p)
    {
      var code;
      if pcb[p].semAdd.Some? {
        var gone := DequeueProcess(p);
        code := InsertBlocked(Some(a), Some(p));
      } else {
        code := Block(a, p, false, cpu);
      }
      if code > 0 {
        return None;
      }
      return Some(BLOCK);
    }

    /** P and V on a semaphore where they do not block: wake the longest waiter, or change the value. */
    method WakeOrAdjust(a: Key, v: int, countFirst: bool, ghost cpu: Option<nat>) returns (t: Option<nat>)
      requires Valid() && Owned(k, cpu) && NoEmptyQueue(k)
      modifies this`k, this`desc, this`softblockCount, this`mem, plinks, slinks, pcb
      ensures Valid()
      ensures if Queue(old(k), a) != [] then t == Some(Queue(old(k), a)[0]) && t.value < n && k == Wake(old(k), a)
              else t == None && k == WithValue(old(k), a, v)
    {
      t := WakeNext(a, countFirst, cpu);
      if t.None? {
        SetValue(a, v);
      }
    }

    /** *sem_addr */
    function SemValue(a: Key): int
      reads this`mem
    {
      if a in mem then mem[a] else 0
    }

    /** P. None stands for the panic when insert_blocked fails. */
    method SemP(a: Option<Key>, p: Option<nat>, ghost cpu: Option<nat>) returns (c: Option<Control>)
      requires Valid() && Owned(k, cpu) && Fifo(k) && Wakeable(k) && (p.Some? ==> Live(k, p.value))
      modifies this`k, this`desc, this`softblockCount, this`mem, plinks, slinks, sKey, pcb
      ensures Valid()
      ensures (if c.Some? then Handled(k, c.value) else Panicked) == Steps.P(old(k), a, p)
    {
      if a.None? || p.None? {
        return Some(Control(activeProcess, true));
      }
      if SemValue(a.value) == 0 {
        c := PAtZero(a.value, p.value, cpu);
        return;
      }
      var t := WakeOrAdjust(a.value, SemValue(a.value) - 1, false, cpu);
      c := Some(Control(activeProcess, true));
    }

    /** V on a semaphore at one */
    method VAtOne(a: Key, ghost cpu: Option<nat>)
      requires Valid() && Owned(k, cpu) && Fifo(k) && (k.active.Some? ==> Live(k, k.active.value))
      modifies this`k, this`desc, this`softblockCount, plinks, slinks, sKey, pcb
      ensures Valid()
      ensures k == if old(k).active.Some? && old(k).pcb[old(k).active.value].semAdd.None?
                   then BlockOn(Unready(old(k), old(k).active.value), a, old(k).active.value) else old(k)
    {
      if activeProcess.Some? && pcb[activeProcess.value].semAdd.None? {
        var code := Block(a, activeProcess.value, true, cpu);
      }
    }

    /** V */
    method SemV(a: Option<Key>, ghost cpu: Option<nat>) returns (t: Option<nat>)
      requires Valid() && Owned(k, cpu) && Fifo(k) && Wakeable(k) && (k.active.Some? ==> Live(k, k.active.value))
      modifies this`k, this`desc, this`softblockCount, this`mem, plinks, slinks, sKey, pcb
      ensures Valid() && (k, t) == V(old(k), a)
    {
      if a.None? {
        return None;
      }
      if SemValue(a.value) == 1 {
        VAtOne(a.value, cpu);
        return None;
      }
      t := WakeOrAdjust(a.value, SemValue(a.value) + 1, true, cpu);
      if t.None? {
        t := activeProcess;
      }
    }

    // ---- os/src/syscall.c and os/src/puod.c ----------------------------------------------------

    /** pass_up_or_die */
    method SyscallPassUpOrDie() returns (c: Control)
      requires Valid() && Stable(k)
      modifies this`k, this`desc, this`processCount, this`softblockCount, plinks, clinks, slinks, pcb
      ensures Valid() && Handled(k, c) == PassUpOrDie(old(k))
    {
      if activeProcess.None? {
        return BLOCK;
      }
      if pcb[activeProcess.value].support {
        return Preserve(activeProcess);
      }
      var failed := KillProgeny(activeProcess.value, k.active);
      return BLOCK;
    }

    /** The creating half of CREATEPROCESS */
    method CreateChild(prio: bool, support: bool) returns (c: Option<nat>)
      requires Valid() && Stable(k) && k.active.Some?
      modifies this`k, this`processCount, this`recycleCount, plinks, clinks, pcb
      ensures Valid() && k == Created(old(k), prio, support)
      ensures c == if old(k).free == [] then None else Some(old(k).free[0])
    {
      FreeSlots(clinks.rings, k, k.active);
      c := SpawnProcess(prio);
      if c.Some? {
        SpawnedFacts(clinks.rings, old(k), prio);
        Furnish(c.value, support);
      }
    }

    /** A spawned process gets its support structure and its parent. */
    method Furnish(c: nat, support: bool)
      requires Valid() && k.active.Some? && Live(k, k.active.value) && c < n && k.pcb[c].parent.None? && !OnSome(clinks.rings, c)
      modifies this`k, clinks, pcb
      ensures Valid() && old(k).active.value < |old(k).kids|
      ensures k == Adopt(WithSupport(old(k), c, support), old(k).active.value, c)
    {
      SetSupport(c, support);
      InsertChild(activeProcess.value, c);
    }

    method SetSupport(c: nat, support: bool)
      requires Valid() && c < n
      modifies this`k, pcb
      ensures Valid() && k == WithSupport(old(k), c, support)
    {
      SupportTied(plinks.rings, slinks.rings, sKey[..], desc, clinks.rings, k, c, support);
      pcb[c] := pcb[c].(support := support);
      k := WithSupport(k, c, support);
    }

    /** CREATEPROCESS */
    method SyscallCreateProcess(prio: int, stateGiven: bool, support: bool) returns (c: Control)
      requires Valid() && Stable(k) && k.active.Some?
      modifies this`k, this`desc, this`processCount, this`softblockCount, this`recycleCount, plinks, clinks, slinks, pcb
      ensures Valid() && Handled(k, c) == CreateProcess(old(k), prio, stateGiven, support)
    {
      if (prio != 0 && prio != 1) || !stateGiven {
        c := SyscallPassUpOrDie();
        return;
      }
      var child := CreateChild(prio == 1, support);
      return Preserve(activeProcess);
    }

    /** TERMPROCESS */
    method SyscallTerminateProcess(pid: Word) returns (c: Control)
      requires Valid() && Stable(k) && k.active.Some?
      modifies this`k, this`desc, this`processCount, this`softblockCount, plinks, clinks, slinks, pcb
      ensures Valid() && Handled(k, c) == TerminateProcess(old(k), pid)
    {
      var p := activeProcess;
      if pid != 0 {
        p := FindPid(pid);
        if p.None? {
          c := SyscallPassUpOrDie();
          return;
        }
        FoundIsLive(k, pid);
      }
      var failed := KillProgeny(p.value, k.active);
      return if pid == 0 || pcb[activeProcess.value].pid == NULL_PID then BLOCK else Control(activeProcess, true);
    }

    /** PASSEREN */
    method SyscallPasseren(a: Option<Key>) returns (c: Option<Control>)
      requires Valid() && Stable(k) && k.active.Some?
      modifies this`k, this`desc, this`processCount, this`softblockCount, this`mem, plinks, clinks, slinks, sKey, pcb
      ensures Valid() && (if c.Some? then Handled(k, c.value) else Panicked) == Passeren(old(k), a)
    {
      StableWakeable(k, k.active);
      if a.None? {
        var d := SyscallPassUpOrDie();
        return Some(d);
      }
      c := SemP(a, activeProcess, k.active);
    }

    /** VERHOGEN */
    method SyscallVerhogen(a: Option<Key>) returns (c: Control)
      requires Valid() && Stable(k) && k.active.Some?
      modifies this`k, this`desc, this`processCount, this`softblockCount, this`mem, plinks, clinks, slinks, sKey, pcb
      ensures Valid() && Handled(k, c) == Verhogen(old(k), a)
    {
      StableWakeable(k, k.active);
      if a.None? {
        c := SyscallPassUpOrDie();
        return;
      }
      var t := SemV(a, k.active);
      return if t.None? then BLOCK else Control(activeProcess, true);
    }

    /** DOIO up to the write of the device command. None stands for its panic. */
    method SyscallDoIo(sem: Option<Key>) returns (c: Option<Control>)
      requires Valid() && Stable(k) && k.active.Some?
      modifies this`k, this`desc, this`processCount, this`softblockCount, this`mem, plinks, clinks, slinks, sKey, pcb
      ensures Valid() && (if c.Some? then Handled(k, c.value) else Panicked) == DoIo(old(k), sem)
    {
      StableWakeable(k, k.active);
      var waiter := HeadBlocked(sem);
      if sem.None? || waiter.Some? {
        var d := SyscallPassUpOrDie();
        return Some(d);
      }
      if SemValue(sem.value) > 0 {
        return None;
      }
      c := SemP(sem, activeProcess, k.active);
    }

    // ---- phase2/src/exception.c ----------------------------------------------------------------

    /** One V of interrupt_timer's loop. */
    method TickAgain(ghost k0: State)
      requires Valid() && Ticking(k0, k, k0.active) && SemValue(timer) != 1
      modifies this`k, this`desc, this`softblockCount, this`mem, plinks, slinks, sKey, pcb
      ensures Valid() && Ticking(k0, k, k0.active)
      ensures Value(k, timer) == 0 ==> |Queue(k, timer)| < |Queue(old(k), timer)|
    {
      StableWakeable(k, k0.active);
      TickTurn(k0, k, k0.active);
      var t := SemV(Some(timer), k0.active);
    }

    /** interrupt_timer */
    method InterruptTimer() returns (c: Control)
      requires Valid() && Stable(k)
      modifies this`k, this`desc, this`softblockCount, this`mem, plinks, slinks, sKey, pcb
      ensures Valid() && Handled(k, c) == TickClock(old(k))
    {
      TickReady(k, k.active);
      TickLoop();
      return Preserve(activeProcess);
    }

    method TickLoop()
      requires Valid() && Ticking(k, k, k.active)
      modifies this`k, this`desc, this`softblockCount, this`mem, plinks, slinks, sKey, pcb
      ensures Valid() && k == Tick(old(k)) && k.active == old(k).active
    {
      ghost var k0 := k;
      while SemValue(timer) != 1
        invariant Valid() && Ticking(k0, k, k0.active)
        decreases if Value(k, timer) == 1 then 0 else |Queue(k, timer)| + 1
      {
        TickAgain(k0);
      }
    }

    /** A device interrupt for whose semaphore somebody waits. */
    method InterruptDevice(a: Key) returns (c: Control)
      requires Valid() && Stable(k) && Queue(k, a) != [] && Value(k, a) != 1 && Wakeable(k)
      modifies this`k, this`desc, this`softblockCount, this`mem, plinks, slinks, sKey, pcb
      ensures Valid() && Handled(k, c) == CompleteDevice(old(k), a)
    {
      CompletionSound(k, a);
      var t := SemV(Some(a), k.active);
      return Preserve(activeProcess);
    }

    /** YIELD */
    method SyscallYield() returns (c: Control)
      requires Valid()
      modifies this`k, this`activeProcess, this`yieldProcess
      ensures Valid() && c == BLOCK && k == old(k).(yielder := old(k).active)
    {
      SetPointers(activeProcess, activeProcess);
      return BLOCK;
    }

    /** The system calls on semaphores. None stands for the panic of DOIO. */
    method HandleSemaphoreCall(e: Event) returns (c: Option<Control>)
      requires Valid() && Stable(k) && k.active.Some? && IsSemaphoreCall(e)
      modifies this`k, this`desc, this`processCount, this`softblockCount, this`mem, plinks, clinks, slinks, sKey, pcb
      ensures Valid() && (if c.Some? then Handled(k, c.value) else Panicked) == Steps.HandleSemaphoreCall(old(k), e)
    {
      match e
      case PasserenCall(sem) => c := SyscallPasseren(sem);
      case VerhogenCall(sem) =>
        var d := SyscallVerhogen(sem);
        c := Some(d);
      case DoIoCall(command) => c := SyscallDoIo(command);
      case ClockWaitCall =>
        StableWakeable(k, k.active);
        c := SemP(Some(timer), activeProcess, k.active);
    }

    /** The other system calls, and faults. */
    method HandleProcessCall(e: Event) returns (c: Control)
      requires Valid() && Stable(k) && k.active.Some? && IsCall(e) && !IsSemaphoreCall(e)
      modifies this, plinks, clinks, slinks, pcb
      ensures Valid() && Handled(k, c) == Steps.HandleProcessCall(old(k), e)
    {
      match e
      case CreateCall(prio, given, support) => c := SyscallCreateProcess(prio, given, support);
      case TerminateCall(pid) => c := SyscallTerminateProcess(pid);
      case YieldCall => c := SyscallYield();
      case InquiryCall => c := Control(activeProcess, true);
      case Fault => c := SyscallPassUpOrDie();
    }

    /** interrupt_handler */
    method HandleInterrupt(e: Event) returns (c: Control)
      requires Valid() && Stable(k) && Enabled(k, e) && !IsCall(e)
      modifies this`k, this`desc, this`softblockCount, this`mem, plinks, slinks, sKey, pcb
      ensures Valid() && Handled(k, c) == Steps.HandleInterrupt(old(k), e)
    {
      StableWakeable(k, k.active);
      match e
      case TimeSlice => c := Control(activeProcess, true);
      case Ignored => c := Preserve(activeProcess);
      case ClockTick => c := InterruptTimer();
      case Completion(device) => c := InterruptDevice(device);
    }

    /** exception_handler: the handler, then schedule. None stands for the panic of DOIO. */
    method ExceptionHandler(e: Event) returns (o: Option<Outcome>)
      requires Valid() && Stable(k) && Enabled(k, e)
      modifies this, plinks, clinks, slinks, sKey, pcb
      ensures Valid()
      ensures DevicePanic(old(k), e) ==> o == None
      ensures !DevicePanic(old(k), e) ==> o.Some? && (k, o.value) == Next(old(k), e)
    {
      HandleSound(k, e);
      var c: Option<Control>;
      if !IsCall(e) {
        var d := HandleInterrupt(e);
        c := Some(d);
      } else if IsSemaphoreCall(e) {
        c := HandleSemaphoreCall(e);
      } else {
        var d := HandleProcessCall(e);
        c := Some(d);
      }
      if c.None? {
        return None;
      }
      var r := ScheduleProcess(c.value);
      return Some(r);
    }

    /** init's first process and main's call of schedule. */
    method Start() returns (o: Outcome)
      requires Valid() && k == Cold(n, mem, timer) && timer !in mem
      modifies this, plinks, clinks, pcb
      ensures Valid() && (k, o) == Boot(n, old(mem), timer) && Scheduled(k, o)
    {
      BootSound(n, mem, timer);
      BootReady(n, mem, timer);
      FreeSlots(clinks.rings, k, None);
      var first := SpawnProcess(false);
      o := ScheduleProcess(BLOCK);
    }
  }
}
