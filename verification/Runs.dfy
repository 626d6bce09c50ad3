/** The machine from power-on through any sequence of events, and what holds all along. */
module Runs {
  import opened Options
  import opened Pid
  import opened Sequences
  import opened Kernel
  import opened Progeny
  import opened Steps
  import opened Scheduling

  function Descending(n: nat): (r: seq<nat>)
    ensures |r| == n && NoDup(r) && forall i: nat :: i in r <==> i < n
  {
    if n == 0 then []
    else
      var rest := Descending(n - 1);
      assert forall i: nat :: i in [n - 1] + rest <==> i == n - 1 || i in rest;
      NoDupAppend([n - 1], rest);
      [n - 1] + rest
  }

  /** init_scheduler, init_pcbs and init_asl over memory `mem`. */
  function Cold(n: nat, mem: map<Key, int>, timer: Key): State {
    State(seq(n, _ => Pcb(None, None, false, false, NULL_PID)), Descending(n), [], [], map[], seq(n, _ => []),
          None, None, 0, 0, 0, seq(n, _ => 0), mem, timer)
  }

  lemma ColdCore(n: nat, mem: map<Key, int>, timer: Key)
    requires 0 < n < 32
    ensures Core(Cold(n, mem, timer), None)
  {
    var k := Cold(n, mem, timer);
    assert forall i: nat :: !Live(k, i);
    assert Waiting(k) == {};
  }

  /** init spawns the first process and main calls schedule(NULL, false). */
  function Boot(n: nat, mem: map<Key, int>, timer: Key): (State, Outcome)
    requires 0 < n < 32
  {
    var k := Spawn(Cold(n, mem, timer), false);
    Schedule(k, BLOCK)
  }

  lemma BootSound(n: nat, mem: map<Key, int>, timer: Key)
    requires 0 < n < 32 && timer !in mem
    ensures Boot(n, mem, timer).1 == Dispatched && Stable(Boot(n, mem, timer).0)
  {
    BootReady(n, mem, timer);
    ScheduleSound(Spawn(Cold(n, mem, timer), false), BLOCK);
  }

  lemma BootReady(n: nat, mem: map<Key, int>, timer: Key)
    requires 0 < n < 32 && timer !in mem
    ensures Core(Cold(n, mem, timer), None) && Cold(n, mem, timer).free != []
    ensures Schedulable(Spawn(Cold(n, mem, timer), false), BLOCK)
  {
    ColdCore(n, mem, timer);
    SpawnKeeps(Cold(n, mem, timer), false, None);
  }

  /** One event: its handler, then the scheduler. */
  ghost function Next(k: State, e: Event): (r: (State, Outcome))
    requires Stable(k) && Enabled(k, e) && !DevicePanic(k, e)
    ensures Scheduled(r.0, r.1)
  {
    HandleSound(k, e);
    ScheduleSound(Handle(k, e).k, Handle(k, e).control);
    Schedule(Handle(k, e).k, Handle(k, e).control)
  }

  /**
   Any sequence of events. Events that cannot happen in the current state are skipped; the machine
   stops for good when it halts, or when a device semaphore is found above zero.
   */
  ghost function Run(k: State, o: Outcome, es: seq<Event>): (r: (State, Outcome))
    requires Scheduled(k, o)
    ensures Scheduled(r.0, r.1)
    decreases |es|
  {
    if es == [] || o.Halts? then (k, o)
    else if !Enabled(k, es[0]) then Run(k, o, es[1..])
    else if DevicePanic(k, es[0]) then (k, o)
    else Run(Next(k, es[0]).0, Next(k, es[0]).1, es[1..])
  }

  /**
   In every run from power-on the ownership invariant holds after every event, a dispatched process
   is alive and on no list, the kernel idles only while every process waits, it halts only when no
   process is left, and the deadlock panic is never reached.
   */
  lemma EveryRunIsSound(n: nat, mem: map<Key, int>, timer: Key, es: seq<Event>)
    requires 0 < n < 32 && timer !in mem
    ensures Scheduled(Boot(n, mem, timer).0, Boot(n, mem, timer).1)
    ensures var (k, o) := Run(Boot(n, mem, timer).0, Boot(n, mem, timer).1, es);
      && o != Deadlocks
      && (o == Dispatched ==> Core(k, k.active) && k.active.Some? && Runnable(k, k.active.value))
      && (o == Idles ==> Core(k, None) && k.processCount == k.softblockCount > 0)
      && (o == Halts ==> forall i: nat :: !Live(k, i))
  {
    BootSound(n, mem, timer);
  }

  // ---- consequences of the invariant -----------------------------------------------------------

  /** Five places a slot can be. */
  datatype Place = OnFree | OnHigh | OnLow | OnSemaphore(a: Key) | OnProcessor

  ghost predicate Occupies(k: State, i: nat, p: Place) {
    match p
    case OnFree => i in k.free
    case OnHigh => i in k.hi
    case OnLow => i in k.lo
    case OnSemaphore(a) => i in Queue(k, a)
    case OnProcessor => k.active == Some(i)
  }

  function PlaceOf(k: State, i: nat): Place
    requires i < |k.pcb|
  {
    if k.pcb[i].pid == NULL_PID then OnFree
    else if k.pcb[i].semAdd.Some? then OnSemaphore(k.pcb[i].semAdd.value)
    else if k.active == Some(i) then OnProcessor
    else if k.pcb[i].prio then OnHigh else OnLow
  }

  /** Every slot is in exactly one place, and its own pcb says which. */
  lemma ExactlyOnePlace(k: State, i: nat, p: Place)
    requires Stable(k) && i < |k.pcb|
    ensures Occupies(k, i, p) <==> p == PlaceOf(k, i)
  {
    match p
    case OnSemaphore(a) => assert a in k.blocked ==> (i in k.blocked[a] <==> Live(k, i) && k.pcb[i].semAdd == Some(a));
    case _ =>
  }

  /** No two live processes share a pid. */
  lemma LivePidsDiffer(k: State, i: nat, j: nat)
    requires Named(k) && Live(k, i) && Live(k, j) && i != j
    ensures k.pcb[i].pid != k.pcb[j].pid
  {
    PidRoundTrip(i, k.birth[i] % 0x1_0000_0000);
    PidRoundTrip(j, k.birth[j] % 0x1_0000_0000);
  }

  /** find_process finds what a search of the whole table for a live process would, for every word. */
  lemma FindProcessIsSearch(k: State, pid: Word, i: nat)
    requires Named(k) && |k.pcb| < 32
    ensures FindProcess(k, pid) == Some(i) <==> Live(k, i) && k.pcb[i].pid == pid
  {
    MaskValues(pid);
    if Live(k, i) {
      PidRoundTrip(i, k.birth[i] % 0x1_0000_0000);
    }
  }

  lemma EmptySet(keys: set<Key>)
    ensures keys == {} <==> forall a :: a !in keys
  {
    if forall a :: a !in keys {
      assert keys == {};
    }
  }

  ghost function Pick(keys: set<Key>): (a: Key)
    requires keys != {}
    ensures a in keys
  {
    EmptySet(keys);
    var a :| a in keys; a
  }

  function HeadsOf(q: map<Key, seq<nat>>, keys: set<Key>): set<nat>
    requires keys <= q.Keys && forall a :: a in q ==> q[a] != []
  {
    set a | a in keys :: q[a][0]
  }

  lemma {:induction false} DistinctHeads(q: map<Key, seq<nat>>, keys: set<Key>)
    requires keys <= q.Keys && forall a :: a in q ==> q[a] != []
    requires forall a, b :: a in q && b in q && q[a][0] == q[b][0] ==> a == b
    ensures |HeadsOf(q, keys)| == |keys|
    decreases keys
  {
    if keys != {} {
      var x := Pick(keys);
      DistinctHeads(q, keys - {x});
      assert HeadsOf(q, keys) == HeadsOf(q, keys - {x}) + {q[x][0]};
    }
  }

  /**
   The pigeonhole behind the descriptor table: MAX_PROC descriptors are enough, and one is left
   whenever some slot is not waiting, so insert_blocked never runs out of them.
   */
  lemma DescriptorsSuffice(k: State)
    requires OnQueues(k) && Fifo(k)
    ensures |k.blocked| <= |Waiting(k)| <= |k.pcb|
    ensures (exists i: nat :: i < |k.pcb| && !Waits(k, i)) ==> |k.blocked| < |k.pcb|
  {
    forall a | a in k.blocked ensures Waits(k, k.blocked[a][0]) && k.pcb[k.blocked[a][0]].semAdd == Some(a) {
      HeadWaits(k, a);
    }
    var heads := HeadsOf(k.blocked, k.blocked.Keys);
    DistinctHeads(k.blocked, k.blocked.Keys);
    assert heads <= Waiting(k);
    SubsetCardinality(heads, Waiting(k));
    SubsetCardinality(Waiting(k), Below(|k.pcb|));
    if i: nat :| i < |k.pcb| && !Waits(k, i) {
      SubsetCardinality(Waiting(k), Below(|k.pcb|) - {i});
    }
  }

  /** The number of processes on a set of semaphore queues. */
  ghost function TotalQueued(q: map<Key, seq<nat>>, keys: set<Key>): nat
    requires keys <= q.Keys
    decreases keys
  {
    if keys == {} then 0 else |q[Pick(keys)]| + TotalQueued(q, keys - {Pick(keys)})
  }

  function QueuedOn(q: map<Key, seq<nat>>, keys: set<Key>): set<nat>
    requires keys <= q.Keys
  {
    set a, i | a in keys && i in q[a] :: i
  }

  lemma {:induction false} TotalIsUnion(q: map<Key, seq<nat>>, keys: set<Key>)
    requires keys <= q.Keys && forall a :: a in q ==> NoDup(q[a])
    requires forall a, b, i :: a in q && b in q && i in q[a] && i in q[b] ==> a == b
    ensures TotalQueued(q, keys) == |QueuedOn(q, keys)|
    decreases keys
  {
    if keys == {} {
      assert QueuedOn(q, keys) == {};
    } else {
      var x := Pick(keys);
      TotalIsUnion(q, keys - {x});
      NoDupCardinality(q[x]);
      QueuedSplit(q, keys, x);
    }
  }

  lemma QueuedSplit(q: map<Key, seq<nat>>, keys: set<Key>, x: Key)
    requires keys <= q.Keys && x in keys
    requires forall a, b, i :: a in q && b in q && i in q[a] && i in q[b] ==> a == b
    ensures QueuedOn(q, keys) == ToSet(q[x]) + QueuedOn(q, keys - {x})
    ensures ToSet(q[x]) !! QueuedOn(q, keys - {x})
  {
  }

  lemma QueuedIsWaiting(k: State)
    requires OnQueues(k)
    ensures QueuedOn(k.blocked, k.blocked.Keys) == Waiting(k)
  {
    forall i | i in Waiting(k) ensures i in QueuedOn(k.blocked, k.blocked.Keys) {
      var a := k.pcb[i].semAdd.value;
      assert Waits(k, i);
      assert a in k.blocked && i in k.blocked[a];
    }
    forall i | i in QueuedOn(k.blocked, k.blocked.Keys) ensures i in Waiting(k) {
      var a :| a in k.blocked && i in k.blocked[a];
      assert Waits(k, i);
    }
  }

  lemma LiveCount(k: State, cpu: Option<nat>)
    requires OnLists(k, cpu) && NoDup(k.free)
    ensures |k.pcb| - |k.free| == |set i | i in Below(|k.pcb|) && Live(k, i)|
  {
    var live := set i | i in Below(|k.pcb|) && Live(k, i);
    NoDupCardinality(k.free);
    assert Below(|k.pcb|) == live + ToSet(k.free) && live !! ToSet(k.free);
  }

  /** softblock_count is the total length of the semaphore queues, process_count the number of live slots. */
  lemma CountersMeanQueues(k: State, cpu: Option<nat>)
    requires Core(k, cpu)
    ensures k.softblockCount == TotalQueued(k.blocked, k.blocked.Keys)
    ensures k.processCount == |set i | i in Below(|k.pcb|) && Live(k, i)|
  {
    QueuedIsWaiting(k);
    OneQueueEach(k);
    TotalIsUnion(k.blocked, k.blocked.Keys);
    LiveCount(k, cpu);
  }

  lemma OneQueueEach(k: State)
    requires OnQueues(k)
    ensures forall a, b, i :: a in k.blocked && b in k.blocked && i in k.blocked[a] && i in k.blocked[b] ==> a == b
  {
    forall a, b, i | a in k.blocked && b in k.blocked && i in k.blocked[a] && i in k.blocked[b]
      ensures a == b
    {
      assert Live(k, i) && k.pcb[i].semAdd == Some(a) && k.pcb[i].semAdd == Some(b);
    }
  }

  // ---- termination of processes ----------------------------------------------------------------

  /** A process and its descendants. */
  ghost function Tree(k: State, r: nat): set<nat>
    requires Forest(k) && Live(k, r)
  {
    set x | x in Below(|k.pcb|) && Live(k, x) && Descends(k, x, r)
  }

  lemma TreeIsOrder(k: State, r: nat)
    requires Forest(k) && Live(k, r)
    ensures ToSet(Postorder(k, r)) == Tree(k, r) && |Postorder(k, r)| == |Tree(k, r)|
  {
    PostorderNoDup(k, r);
    PostorderMembers(k, r);
    NoDupCardinality(Postorder(k, r));
  }

  /** Exactly the tree dies; whoever is left keeps its pcb; the freed slots join the free list. */
  lemma KilledExactly(k: State, r: nat)
    requires Forest(k) && Live(k, r)
    ensures forall x: nat :: Live(KillTree(k, r), x) <==> Live(k, x) && x !in Tree(k, r)
    ensures forall x: nat :: x < |k.pcb| && x !in Tree(k, r) ==> KillTree(k, r).pcb[x] == k.pcb[x]
    ensures ToSet(KillTree(k, r).free) == ToSet(k.free) + Tree(k, r)
  {
    TreeIsOrder(k, r);
    Survivors(k, Postorder(k, r));
    assert forall x :: x in Postorder(k, r) <==> x in Tree(k, r);
  }

  /** Every queue loses the dead and keeps its order; the counters drop by as many as die and as die waiting. */
  lemma KilledQueues(k: State, r: nat, a: Key)
    requires Forest(k) && Live(k, r)
    ensures var k', dead := KillTree(k, r), Tree(k, r);
      && k'.hi == Minus(k.hi, dead) && k'.lo == Minus(k.lo, dead)
      && Queue(k', a) == Minus(Queue(k, a), dead)
      && k'.processCount == k.processCount - |dead|
      && k'.softblockCount == k.softblockCount - |Waiting(k) * dead|
      && |k'.free| == |k.free| + |dead|
  {
    TreeIsOrder(k, r);
  }

  /** The rest of the forest is as it was: only the root's parent loses a child, and only that one. */
  lemma KilledForest(k: State, r: nat, x: nat)
    requires Forest(k) && Live(k, r) && Live(KillTree(k, r), x)
    ensures KillTree(k, r).kids[x] == if k.pcb[r].parent == Some(x) then Minus(k.kids[x], {r}) else k.kids[x]
  {
    KilledExactly(k, r);
    TreeIsOrder(k, r);
    KidsOutside(k, r, Postorder(k, r));
    assert x !in Postorder(k, r);
  }

  lemma KidsOutside(k: State, r: nat, order: seq<nat>)
    requires Forest(k) && Live(k, r) && order == Postorder(k, r)
    ensures forall x: nat :: Live(k, x) && x !in order && k.pcb[r].parent != Some(x) ==> Minus(k.kids[x], ToSet(order)) == k.kids[x]
    ensures k.pcb[r].parent.Some? ==> k.pcb[r].parent.value !in order
    ensures k.pcb[r].parent.Some? ==>
      Minus(k.kids[k.pcb[r].parent.value], ToSet(order)) == Minus(k.kids[k.pcb[r].parent.value], {r})
  {
    PostorderMembers(k, r);
    var dead := ToSet(order);
    forall x: nat, y: nat | Live(k, x) && x !in order && y in k.kids[x] && y != r
      ensures y !in dead
    {
      assert Live(k, y) && k.pcb[y].parent == Some(x);
    }
    forall x: nat | Live(k, x) && x !in order && k.pcb[r].parent != Some(x)
      ensures Minus(k.kids[x], dead) == k.kids[x]
    {
      assert r !in k.kids[x];
      MinusNone(k.kids[x], dead);
    }
    if k.pcb[r].parent.Some? {
      var p := k.pcb[r].parent.value;
      assert Live(k, p);
      if p in order {
        DescendsIsYounger(k, p, r);
      }
      MinusMinus(k.kids[p], {r}, dead);
      assert r in order && {r} + dead == dead;
      MinusNone(Minus(k.kids[p], {r}), dead);
    }
  }

  /** A terminating call gives the processor up for good exactly when the caller is in the killed tree. */
  lemma CallerSurvivesIffOutside(k: State, pid: Word)
    requires Stable(k) && k.active.Some? && FindProcess(k, pid).Some? && pid != NULL_PID
    ensures Live(k, FindProcess(k, pid).value)
    ensures TerminateProcess(k, pid).control == BLOCK <==> Descends(k, k.active.value, FindProcess(k, pid).value)
  {
    var p := FindProcess(k, pid).value;
    FoundIsLive(k, pid);
    PostorderMembers(k, p);
    Survivors(k, Postorder(k, p));
  }
}
