/**
 The nucleus as a value: process table, free list, ready queues, semaphore queues, process forest,
 and the counters kept beside them. The primitives below are what the operations of os/src/pcb.c,
 os/src/asl.c and os/src/scheduler.c do to it; `Core` is the ownership invariant they all keep.
 */
module Kernel {
  import opened Options
  import opened Pid
  import opened Sequences

  /** The address of a semaphore. */
  type Key = int

  datatype Pcb = Pcb(parent: Option<nat>, semAdd: Option<Key>, support: bool, prio: bool, pid: Word)

  datatype State = State(
    pcb: seq<Pcb>,
    free: seq<nat>,
    hi: seq<nat>,
    lo: seq<nat>,
    blocked: map<Key, seq<nat>>,   // the active semaphore list: who waits on which semaphore
    kids: seq<seq<nat>>,
    active: Option<nat>,
    yielder: Option<nat>,
    processCount: int,
    softblockCount: int,
    spawned: nat,                  // recycle_count before it is cut to a word
    birth: seq<nat>,               // the value of `spawned` when the slot was last allocated
    mem: map<Key, int>,            // semaphore words that differ from zero at start or were written
    timer: Key)                    // the address of the clock semaphore

  function Value(k: State, a: Key): int { if a in k.mem then k.mem[a] else 0 }

  predicate Live(k: State, i: nat) { i < |k.pcb| && k.pcb[i].pid != NULL_PID }

  predicate Waits(k: State, i: nat) { Live(k, i) && k.pcb[i].semAdd.Some? }

  predicate Runnable(k: State, i: nat) { Live(k, i) && k.pcb[i].semAdd.None? }

  function Waiting(k: State): set<nat> { set i | i in Below(|k.pcb|) && Waits(k, i) }

  function Queue(k: State, a: Key): seq<nat> { if a in k.blocked then k.blocked[a] else [] }

  // ---- the ownership invariant -----------------------------------------------------------------

  ghost predicate Sizes(k: State) {
    0 < |k.pcb| < 32 && |k.kids| == |k.pcb| && |k.birth| == |k.pcb|
  }

  /** Which list a process is on is decided by its own pcb and by who has the processor. */
  ghost predicate Owned(k: State, cpu: Option<nat>) {
    OnLists(k, cpu) && OnQueues(k)
  }

  ghost predicate OnLists(k: State, cpu: Option<nat>) {
    && (forall i: nat :: i in k.free <==> i < |k.pcb| && !Live(k, i))
    && (forall i: nat :: i in k.hi <==> Runnable(k, i) && cpu != Some(i) && k.pcb[i].prio)
    && (forall i: nat :: i in k.lo <==> Runnable(k, i) && cpu != Some(i) && !k.pcb[i].prio)
  }

  ghost predicate OnQueues(k: State) {
    && (forall a, i: nat :: a in k.blocked ==> (i in k.blocked[a] <==> Live(k, i) && k.pcb[i].semAdd == Some(a)))
    && (forall i: nat :: Waits(k, i) ==> k.pcb[i].semAdd.value in k.blocked)
  }

  ghost predicate NoEmptyQueue(k: State) {
    forall a :: a in k.blocked ==> k.blocked[a] != []
  }

  ghost predicate Fifo(k: State) {
    && NoDup(k.free) && NoDup(k.hi) && NoDup(k.lo)
    && NoEmptyQueue(k) && (forall a :: a in k.blocked ==> NoDup(k.blocked[a]))
  }

  ghost predicate Counted(k: State) {
    && k.processCount == |k.pcb| - |k.free|
    && k.softblockCount == |Waiting(k)|
  }

  /** Parents are live and older than their children; child lists and parent pointers agree. */
  ghost predicate Forest(k: State) {
    && |k.kids| == |k.pcb| && |k.birth| == |k.pcb|
    && (forall i: nat :: Live(k, i) ==> k.birth[i] < k.spawned)
    && (forall i: nat :: Live(k, i) && k.pcb[i].parent.Some? ==>
          Live(k, k.pcb[i].parent.value) && k.birth[k.pcb[i].parent.value] < k.birth[i])
    && (forall p: nat :: p < |k.kids| ==> NoDup(k.kids[p]))
    && (forall p: nat, c: nat :: p < |k.kids| ==> (c in k.kids[p] <==> Live(k, c) && k.pcb[c].parent == Some(p)))
  }

  ghost predicate Named(k: State) {
    |k.pcb| <= |k.birth| && |k.pcb| < 32 &&
    forall i: nat :: Live(k, i) ==> k.pcb[i].pid == MakePid(i, k.birth[i] % 0x1_0000_0000)
  }

  /** `cpu` is the process that is on no list because it has the processor. */
  ghost predicate Core(k: State, cpu: Option<nat>) {
    Sizes(k) && Owned(k, cpu) && Fifo(k) && Counted(k) && Forest(k) && Named(k)
  }

  // ---- primitives ------------------------------------------------------------------------------

  /** enqueue_process of a process that is on no list */
  function Enqueue(k: State, p: nat): State
    requires p < |k.pcb|
  {
    if k.pcb[p].prio then k.(hi := k.hi + [p]) else k.(lo := k.lo + [p])
  }

  /** dequeue_process */
  function Unready(k: State, p: nat): State
    requires p < |k.pcb|
  {
    if k.pcb[p].prio then k.(hi := Minus(k.hi, {p})) else k.(lo := Minus(k.lo, {p}))
  }

  function WithSem(k: State, p: nat, a: Option<Key>): seq<Pcb>
    requires p < |k.pcb|
  {
    k.pcb[p := k.pcb[p].(semAdd := a)]
  }

  /** insert_blocked */
  function Park(k: State, a: Key, p: nat): State
    requires p < |k.pcb|
  {
    k.(blocked := k.blocked[a := Queue(k, a) + [p]], pcb := WithSem(k, p, Some(a)))
  }

  /** insert_blocked and the softblock count that goes with it */
  function BlockOn(k: State, a: Key, p: nat): State
    requires p < |k.pcb|
  {
    Park(k, a, p).(softblockCount := k.softblockCount + 1)
  }

  function QueuesWithout(blocked: map<Key, seq<nat>>, dead: set<nat>): map<Key, seq<nat>> {
    map a | a in blocked && Minus(blocked[a], dead) != [] :: Minus(blocked[a], dead)
  }

  /** out_blocked of a waiting process */
  function Unpark(k: State, p: nat): State
    requires p < |k.pcb|
  {
    k.(blocked := QueuesWithout(k.blocked, {p}), pcb := WithSem(k, p, None))
  }

  /** out_blocked of a waiting process and the softblock count that goes with it */
  function Unblock(k: State, p: nat): State
    requires p < |k.pcb|
  {
    Unpark(k, p).(softblockCount := k.softblockCount - 1)
  }

  /** remove_blocked followed by enqueue_process: the longest waiter becomes ready */
  function Wake(k: State, a: Key): State
    requires Queue(k, a) != [] && Queue(k, a)[0] < |k.pcb|
  {
    Enqueue(Unblock(k, Queue(k, a)[0]), Queue(k, a)[0])
  }

  /** spawn_process when a pcb is free */
  function Spawn(k: State, prio: bool): State
    requires k.free != [] && k.free[0] < |k.pcb| < 32 && |k.birth| == |k.pcb| == |k.kids|
  {
    SpawnAs(k, prio, MakePid(k.free[0], k.spawned % 0x1_0000_0000))
  }

  function SpawnAs(k: State, prio: bool, pid: Word): State
    requires k.free != [] && k.free[0] < |k.pcb| && |k.birth| == |k.pcb| == |k.kids|
  {
    var c := k.free[0];
    Enqueue(
      k.(free := k.free[1..],
         pcb := k.pcb[c := Pcb(None, None, false, prio, pid)],
         kids := k.kids[c := []],
         birth := k.birth[c := k.spawned],
         spawned := k.spawned + 1,
         processCount := k.processCount + 1),
      c)
  }

  /** insert_child */
  function Adopt(k: State, p: nat, c: nat): State
    requires p < |k.kids| && c < |k.pcb|
  {
    k.(kids := k.kids[p := k.kids[p] + [c]],
       pcb := k.pcb[c := k.pcb[c].(parent := Some(p))])
  }

  /** out_child */
  function Detach(k: State, c: nat): State
    requires c < |k.pcb|
    requires k.pcb[c].parent.Some? ==> k.pcb[c].parent.value < |k.kids|
  {
    if k.pcb[c].parent.None? then k else
    var p := k.pcb[c].parent.value;
    k.(kids := k.kids[p := Minus(k.kids[p], {c})],
       pcb := k.pcb[c := k.pcb[c].(parent := None)])
  }

  // ---- every primitive keeps the invariant -----------------------------------------------------

  /** The forest and the names depend on parents, pids and birth dates only. */
  ghost predicate SameKin(k: State, k': State) {
    && |k'.pcb| == |k.pcb| && k'.kids == k.kids && k'.birth == k.birth && k'.spawned == k.spawned
    && (forall i: nat :: i < |k.pcb| ==> k'.pcb[i].pid == k.pcb[i].pid && k'.pcb[i].parent == k.pcb[i].parent)
  }

  lemma SameForest(k: State, k': State)
    requires SameKin(k, k') && Forest(k)
    ensures Forest(k')
  {
  }

  lemma SameNames(k: State, k': State)
    requires SameKin(k, k') && Named(k)
    ensures Named(k')
  {
  }

  lemma EnqueueOwned(k: State, p: nat)
    requires Owned(k, Some(p)) && Runnable(k, p)
    ensures Owned(Enqueue(k, p), None)
  {
  }

  lemma EnqueueKeeps(k: State, p: nat)
    requires Core(k, Some(p)) && Runnable(k, p)
    ensures Core(Enqueue(k, p), None)
  {
    EnqueueOwned(k, p);
    assert Fifo(Enqueue(k, p));
    assert Waiting(Enqueue(k, p)) == Waiting(k);
    SameForest(k, Enqueue(k, p));
    SameNames(k, Enqueue(k, p));
  }

  lemma UnreadyOwned(k: State, p: nat)
    requires Owned(k, None) && Runnable(k, p)
    ensures Owned(Unready(k, p), Some(p))
  {
  }

  lemma UnreadyKeeps(k: State, p: nat)
    requires Core(k, None) && Runnable(k, p)
    ensures Core(Unready(k, p), Some(p))
  {
    UnreadyOwned(k, p);
    MinusNoDup(k.hi, {p});
    MinusNoDup(k.lo, {p});
    assert Waiting(Unready(k, p)) == Waiting(k);
    SameForest(k, Unready(k, p));
    SameNames(k, Unready(k, p));
  }

  lemma BlockOnPcbs(k: State, a: Key, p: nat, i: nat)
    requires Runnable(k, p)
    ensures Live(BlockOn(k, a, p), i) <==> Live(k, i)
    ensures Live(k, i) ==> BlockOn(k, a, p).pcb[i] == if i == p then k.pcb[i].(semAdd := Some(a)) else k.pcb[i]
  {
  }

  lemma BlockOnLists(k: State, a: Key, p: nat)
    requires OnLists(k, Some(p)) && Runnable(k, p)
    ensures OnLists(BlockOn(k, a, p), None)
  {
    forall i: nat
      ensures Live(BlockOn(k, a, p), i) <==> Live(k, i)
      ensures Runnable(BlockOn(k, a, p), i) <==> Runnable(k, i) && i != p
      ensures Live(k, i) ==> BlockOn(k, a, p).pcb[i].prio == k.pcb[i].prio
    {
      BlockOnPcbs(k, a, p, i);
    }
  }

  lemma BlockOnQueues(k: State, a: Key, p: nat)
    requires OnQueues(k) && Runnable(k, p)
    ensures OnQueues(BlockOn(k, a, p))
  {
    var k' := BlockOn(k, a, p);
    forall b, i: nat | b in k'.blocked
      ensures i in k'.blocked[b] <==> Live(k', i) && k'.pcb[i].semAdd == Some(b)
    {
      BlockOnPcbs(k, a, p, i);
      if b == a {
        assert i in k'.blocked[b] <==> i in Queue(k, a) || i == p;
        assert a !in k.blocked ==> !(Waits(k, i) && k.pcb[i].semAdd.value == a);
      }
    }
    forall i: nat | Waits(k', i) ensures k'.pcb[i].semAdd.value in k'.blocked {
      BlockOnPcbs(k, a, p, i);
    }
  }

  lemma BlockOnOwned(k: State, a: Key, p: nat)
    requires Owned(k, Some(p)) && Runnable(k, p)
    ensures Owned(BlockOn(k, a, p), None)
  {
    BlockOnLists(k, a, p);
    BlockOnQueues(k, a, p);
  }

  lemma BlockOnFifo(k: State, a: Key, p: nat)
    requires OnQueues(k) && Runnable(k, p) && Fifo(k)
    ensures Fifo(BlockOn(k, a, p))
  {
    var k' := BlockOn(k, a, p);
    assert p !in Queue(k, a);
    forall b | b in k'.blocked ensures k'.blocked[b] != [] && NoDup(k'.blocked[b]) {
      if b == a {
        NoDupAppend(Queue(k, a), [p]);
      }
    }
  }

  lemma BlockOnCounted(k: State, a: Key, p: nat)
    requires Counted(k) && Runnable(k, p)
    ensures Counted(BlockOn(k, a, p))
  {
    assert Waiting(BlockOn(k, a, p)) == Waiting(k) + {p};
  }

  lemma BlockOnKeeps(k: State, a: Key, p: nat)
    requires Core(k, Some(p)) && Runnable(k, p)
    ensures Core(BlockOn(k, a, p), None)
  {
    BlockOnOwned(k, a, p);
    BlockOnFifo(k, a, p);
    BlockOnCounted(k, a, p);
    SameForest(k, BlockOn(k, a, p));
    SameNames(k, BlockOn(k, a, p));
  }

  lemma HeadWaits(k: State, a: Key)
    requires OnQueues(k) && Queue(k, a) != []
    ensures Waits(k, Queue(k, a)[0]) && k.pcb[Queue(k, a)[0]].semAdd == Some(a)
  {
  }

  lemma WakePcbs(k: State, a: Key, i: nat)
    requires Queue(k, a) != [] && Waits(k, Queue(k, a)[0])
    ensures Live(Wake(k, a), i) <==> Live(k, i)
    ensures Live(k, i) ==> Wake(k, a).pcb[i] == if i == Queue(k, a)[0] then k.pcb[i].(semAdd := None) else k.pcb[i]
  {
  }

  lemma WakeLists(k: State, a: Key, cpu: Option<nat>)
    requires OnLists(k, cpu) && Queue(k, a) != [] && Waits(k, Queue(k, a)[0]) && cpu != Some(Queue(k, a)[0])
    ensures OnLists(Wake(k, a), cpu)
  {
    var t, k' := Queue(k, a)[0], Wake(k, a);
    forall i: nat
      ensures Live(k', i) <==> Live(k, i)
      ensures Runnable(k', i) <==> Runnable(k, i) || i == t
      ensures Live(k, i) ==> k'.pcb[i].prio == k.pcb[i].prio
    {
      WakePcbs(k, a, i);
    }
  }

  lemma WakeQueues(k: State, a: Key)
    requires OnQueues(k) && Queue(k, a) != []
    requires Waits(k, Queue(k, a)[0]) && k.pcb[Queue(k, a)[0]].semAdd == Some(a)
    ensures OnQueues(Wake(k, a))
  {
    var t, k' := Queue(k, a)[0], Wake(k, a);
    forall i: nat
      ensures Live(k', i) <==> Live(k, i)
      ensures Live(k, i) ==> k'.pcb[i] == if i == t then k.pcb[i].(semAdd := None) else k.pcb[i]
    {
      WakePcbs(k, a, i);
    }
    QueuesAfterWake(k, k', t);
  }

  lemma QueuesAfterWake(k: State, k': State, t: nat)
    requires OnQueues(k) && k'.blocked == QueuesWithout(k.blocked, {t}) && |k'.pcb| == |k.pcb|
    requires forall i: nat :: Live(k', i) <==> Live(k, i)
    requires forall i: nat :: Live(k, i) ==> k'.pcb[i] == if i == t then k.pcb[i].(semAdd := None) else k.pcb[i]
    ensures OnQueues(k')
  {
    forall b, i: nat | b in k'.blocked
      ensures i in k'.blocked[b] <==> Live(k', i) && k'.pcb[i].semAdd == Some(b)
    {
      assert b in k.blocked && (i in k.blocked[b] <==> Live(k, i) && k.pcb[i].semAdd == Some(b));
    }
    forall i: nat | Waits(k', i)
      ensures k'.pcb[i].semAdd.value in k'.blocked
    {
      var b := k.pcb[i].semAdd.value;
      assert Waits(k, i);
      assert i in k.blocked[b] && i in Minus(k.blocked[b], {t});
    }
  }

  lemma WakeOwned(k: State, a: Key, cpu: Option<nat>)
    requires Owned(k, cpu) && Queue(k, a) != [] && (cpu.Some? ==> cpu.value !in Queue(k, a))
    requires Waits(k, Queue(k, a)[0]) && k.pcb[Queue(k, a)[0]].semAdd == Some(a)
    ensures Owned(Wake(k, a), cpu)
  {
    assert Queue(k, a)[0] in Queue(k, a);
    WakeLists(k, a, cpu);
    WakeQueues(k, a);
  }

  lemma WakeFifo(k: State, a: Key, cpu: Option<nat>)
    requires Owned(k, cpu) && Fifo(k) && Queue(k, a) != []
    requires Waits(k, Queue(k, a)[0])
    ensures Fifo(Wake(k, a))
  {
    var t := Queue(k, a)[0];
    assert t !in k.hi && t !in k.lo;
    forall b | b in k.blocked
      ensures NoDup(Minus(k.blocked[b], {t}))
    {
      MinusNoDup(k.blocked[b], {t});
    }
  }

  lemma WakeCounted(k: State, a: Key)
    requires Counted(k) && Queue(k, a) != [] && Waits(k, Queue(k, a)[0])
    ensures Counted(Wake(k, a))
  {
    var t, k' := Queue(k, a)[0], Wake(k, a);
    assert k'.pcb == WithSem(k, t, None);
    WaitsAfterWake(k, k', t);
  }

  lemma WaitsAfterWake(k: State, k': State, t: nat)
    requires Waits(k, t) && k'.pcb == WithSem(k, t, None)
    ensures |Waiting(k)| == |Waiting(k')| + 1
  {
    forall i: nat ensures i in Waiting(k) <==> i in Waiting(k') || i == t {
    }
    assert Waiting(k) == Waiting(k') + {t} && t !in Waiting(k');
  }

  lemma WakeKeeps(k: State, a: Key, cpu: Option<nat>)
    requires Core(k, cpu) && Queue(k, a) != [] && (cpu.Some? ==> Runnable(k, cpu.value))
    ensures Waits(k, Queue(k, a)[0]) && Core(Wake(k, a), cpu)
  {
    HeadWaits(k, a);
    WakeOwned(k, a, cpu);
    WakeFifo(k, a, cpu);
    WakeCounted(k, a);
    SameForest(k, Wake(k, a));
    SameNames(k, Wake(k, a));
  }

  lemma SpawnOnLists(k: State, prio: bool, pid: Word, cpu: Option<nat>)
    requires Sizes(k) && k.free != [] && k.free[0] < |k.pcb| && pid != NULL_PID
    requires OnLists(k, cpu) && NoDup(k.free) && (cpu.Some? ==> Live(k, cpu.value))
    ensures OnLists(SpawnAs(k, prio, pid), cpu)
  {
    var c, k' := k.free[0], SpawnAs(k, prio, pid);
    HeadLeaves(k.free);
    assert c in k.free && !Live(k, c);
    assert forall i: nat :: Live(k', i) <==> i == c || Live(k, i);
  }

  lemma SpawnOnQueues(k: State, prio: bool, pid: Word)
    requires Sizes(k) && k.free != [] && k.free[0] < |k.pcb| && pid != NULL_PID && !Live(k, k.free[0])
    requires OnQueues(k)
    ensures OnQueues(SpawnAs(k, prio, pid))
  {
    var c, k' := k.free[0], SpawnAs(k, prio, pid);
    assert forall i: nat :: Live(k', i) <==> i == c || Live(k, i);
  }

  lemma SpawnFifo(k: State, prio: bool, pid: Word, cpu: Option<nat>)
    requires Sizes(k) && k.free != [] && k.free[0] < |k.pcb|
    requires Owned(k, cpu) && Fifo(k)
    ensures Fifo(SpawnAs(k, prio, pid))
  {
    assert k.free[0] in k.free;
  }

  lemma SpawnCounted(k: State, prio: bool, pid: Word, cpu: Option<nat>)
    requires Sizes(k) && k.free != [] && k.free[0] < |k.pcb|
    requires Owned(k, cpu) && Counted(k)
    ensures Counted(SpawnAs(k, prio, pid))
  {
    assert k.free[0] in k.free;
    assert Waiting(SpawnAs(k, prio, pid)) == Waiting(k);
  }

  lemma SpawnForest(k: State, prio: bool, pid: Word)
    requires Sizes(k) && k.free != [] && k.free[0] < |k.pcb| && !Live(k, k.free[0]) && pid != NULL_PID
    requires Forest(k)
    ensures Forest(SpawnAs(k, prio, pid))
  {
    var c, k' := k.free[0], SpawnAs(k, prio, pid);
    assert forall i: nat :: Live(k', i) <==> i == c || Live(k, i);
    assert k'.kids == k.kids[c := []] && k'.birth == k.birth[c := k.spawned] && k'.spawned == k.spawned + 1;
    forall p: nat, i: nat | p < |k'.kids|
      ensures i in k'.kids[p] <==> Live(k', i) && k'.pcb[i].parent == Some(p)
    {
      assert i in k.kids[p] <==> Live(k, i) && k.pcb[i].parent == Some(p);
    }
  }

  lemma SpawnNamed(k: State, prio: bool)
    requires Sizes(k) && k.free != [] && k.free[0] < |k.pcb|
    requires Named(k)
    ensures Named(Spawn(k, prio))
  {
  }

  lemma SpawnKeeps(k: State, prio: bool, cpu: Option<nat>)
    requires Core(k, cpu) && k.free != [] && (cpu.Some? ==> Live(k, cpu.value))
    ensures k.free[0] in k.free && !Live(k, k.free[0]) && k.free[0] < |k.pcb|
    ensures Core(Spawn(k, prio), cpu)
    ensures Runnable(Spawn(k, prio), k.free[0]) && k.pcb[k.free[0] := Spawn(k, prio).pcb[k.free[0]]] == Spawn(k, prio).pcb
  {
    assert k.free[0] in k.free;
    var pid := MakePid(k.free[0], k.spawned % 0x1_0000_0000);
    PidRoundTrip(k.free[0], k.spawned % 0x1_0000_0000);
    SpawnOnLists(k, prio, pid, cpu);
    SpawnOnQueues(k, prio, pid);
    SpawnFifo(k, prio, pid, cpu);
    SpawnCounted(k, prio, pid, cpu);
    SpawnForest(k, prio, pid);
    SpawnNamed(k, prio);
  }

  /** A process without parent or children may become the child of an older one. */
  lemma AdoptForest(k: State, p: nat, c: nat)
    requires Sizes(k) && Forest(k) && Live(k, p) && Live(k, c)
    requires k.pcb[c].parent.None? && k.birth[p] < k.birth[c]
    ensures Forest(Adopt(k, p, c))
  {
    var k' := Adopt(k, p, c);
    assert forall i: nat :: Live(k', i) <==> Live(k, i);
    assert c !in k.kids[p];
    forall q: nat, i: nat | q < |k'.kids|
      ensures i in k'.kids[q] <==> Live(k', i) && k'.pcb[i].parent == Some(q)
    {
      assert i in k.kids[q] <==> Live(k, i) && k.pcb[i].parent == Some(q);
    }
  }

  /** Who is on which list does not depend on the forest. */
  lemma OwnedFrame(k: State, k': State, cpu: Option<nat>)
    requires Owned(k, cpu) && |k'.pcb| == |k.pcb|
    requires k'.free == k.free && k'.hi == k.hi && k'.lo == k.lo && k'.blocked == k.blocked
    requires forall i: nat :: i < |k.pcb| ==> k'.pcb[i] == k.pcb[i].(parent := k'.pcb[i].parent)
    ensures Owned(k', cpu)
  {
    assert forall i: nat :: Live(k', i) <==> Live(k, i);
    assert forall i: nat :: i < |k.pcb| ==> k'.pcb[i].semAdd == k.pcb[i].semAdd && k'.pcb[i].prio == k.pcb[i].prio;
  }

  lemma AdoptKeeps(k: State, p: nat, c: nat, cpu: Option<nat>)
    requires Core(k, cpu) && Live(k, p) && Live(k, c)
    requires k.pcb[c].parent.None? && k.birth[p] < k.birth[c]
    ensures Core(Adopt(k, p, c), cpu)
  {
    OwnedFrame(k, Adopt(k, p, c), cpu);
    AdoptForest(k, p, c);
    AdoptNamed(k, p, c);
    assert Waiting(Adopt(k, p, c)) == Waiting(k) by {
      assert forall i: nat :: Waits(Adopt(k, p, c), i) <==> Waits(k, i);
    }
  }

  lemma AdoptNamed(k: State, p: nat, c: nat)
    requires p < |k.kids| && c < |k.pcb| && Named(k)
    ensures Named(Adopt(k, p, c))
  {
  }
}
