/**
 How the kernel's linked lists represent the abstract nucleus, as relations between values, and why
 each relinking represents the corresponding abstract change.
 */
module Ties {
  import opened Options
  import Pid
  import opened Sequences
  import opened Lists
  import opened Kernel
  import opened Progeny
  import opened Runs
  import opened Steps

  /** The sentinels of the lists threaded through p_list: pcb_free, the ready queues, each s_procq. */
  datatype PHead = PcbFree | ReadyHi | ReadyLo | Procq(semd: nat)

  /** The sentinels of the lists threaded through s_link: semd_free and semd_h. */
  datatype SHead = SemdFree | SemdActive

  function PHeads(n: nat): (r: set<PHead>)
    ensures PcbFree in r && ReadyHi in r && ReadyLo in r && forall i: nat :: i < n ==> Procq(i) in r
  {
    if n == 0 then {PcbFree, ReadyHi, ReadyLo} else PHeads(n - 1) + {Procq(n - 1)}
  }

  type PRings = map<PHead, seq<nat>>
  type SRings = map<SHead, seq<nat>>

  ghost predicate ReadyTied(pr: PRings, k: State) {
    && PcbFree in pr && pr[PcbFree] == k.free
    && ReadyHi in pr && pr[ReadyHi] == k.hi
    && ReadyLo in pr && pr[ReadyLo] == k.lo
  }

  /** Every descriptor is either free or active, and `desc` finds the active one of each key. */
  ghost predicate DescsTied(sr: SRings, keys: seq<Key>, desc: map<Key, nat>) {
    && SemdFree in sr && SemdActive in sr
    && NoDup(sr[SemdFree]) && NoDup(sr[SemdActive])
    && (forall j: nat :: j in sr[SemdFree] || j in sr[SemdActive] <==> j < |keys|)
    && (forall j :: j in sr[SemdFree] ==> j !in sr[SemdActive])
    && (forall a :: a in desc ==> desc[a] in sr[SemdActive] && keys[desc[a]] == a)
    && (forall j :: j in sr[SemdActive] ==> keys[j] in desc && desc[keys[j]] == j)
  }

  /** The keys with a descriptor are those someone waits on, and its s_procq holds the waiters. */
  ghost predicate QueuesTied(pr: PRings, sr: SRings, desc: map<Key, nat>, blocked: map<Key, seq<nat>>) {
    && SemdActive in sr
    && (forall a :: a in desc <==> a in blocked)
    && (forall a :: a in desc ==> Procq(desc[a]) in pr && pr[Procq(desc[a])] == blocked[a])
    && (forall j :: Procq(j) in pr && j !in sr[SemdActive] ==> pr[Procq(j)] == [])
  }

  ghost predicate SemdsTied(pr: PRings, sr: SRings, keys: seq<Key>, desc: map<Key, nat>, k: State) {
    DescsTied(sr, keys, desc) && QueuesTied(pr, sr, desc, k.blocked)
  }

  ghost predicate KidsTied(cr: map<nat, seq<nat>>, k: State) {
    && (forall i: nat :: Live(k, i) ==> i in cr)
    && (forall i :: i in cr ==> i < |k.kids| && cr[i] == k.kids[i])
  }

  /** A process that the abstract state has on no list is on none of the linked lists. */
  ghost predicate OffLists(k: State, p: nat) {
    p !in k.free && p !in k.hi && p !in k.lo && forall a :: a in k.blocked ==> p !in k.blocked[a]
  }

  lemma OffListsOnNone(pr: PRings, sr: SRings, keys: seq<Key>, desc: map<Key, nat>, k: State, p: nat)
    requires ReadyTied(pr, k) && SemdsTied(pr, sr, keys, desc, k) && OffLists(k, p)
    ensures !OnSome(pr, p)
  {
    forall h | h in pr ensures p !in pr[h] {
      match h
      case Procq(j) =>
        if j in sr[SemdActive] {
          var a := keys[j];
          assert a in desc && desc[a] == j;
          assert a in k.blocked && pr[Procq(desc[a])] == k.blocked[a];
        } else {
          assert pr[Procq(j)] == [];
        }
      case _ =>
    }
  }

  lemma OnQueueSomewhere(pr: PRings, sr: SRings, keys: seq<Key>, desc: map<Key, nat>, k: State, a: Key, p: nat)
    requires SemdsTied(pr, sr, keys, desc, k) && a in k.blocked && p in k.blocked[a]
    ensures Procq(desc[a]) in pr && p in pr[Procq(desc[a])] && OnSome(pr, p)
  {
  }

  /** The number of active descriptors is the number of semaphores someone waits on. */
  lemma ActiveCount(sr: SRings, keys: seq<Key>, desc: map<Key, nat>)
    requires DescsTied(sr, keys, desc)
    ensures |sr[SemdActive]| == |desc| && |sr[SemdFree]| + |sr[SemdActive]| == |keys|
  {
    var active, free := ToSet(sr[SemdActive]), ToSet(sr[SemdFree]);
    NoDupCardinality(sr[SemdActive]);
    NoDupCardinality(sr[SemdFree]);
    assert Below(|keys|) == active + free && active !! free;
    KeysCount(sr[SemdActive], keys, desc);
  }

  lemma {:induction false} KeysCount(js: seq<nat>, keys: seq<Key>, desc: map<Key, nat>)
    requires NoDup(js) && forall j :: j in js ==> j < |keys| && keys[j] in desc && desc[keys[j]] == j
    requires forall a :: a in desc ==> desc[a] in js && desc[a] < |keys| && keys[desc[a]] == a
    ensures |js| == |desc|
  {
    if js == [] {
      assert forall a :: a !in desc;
      assert desc == map[];
    } else {
      assert js[0] in js;
      var rest := desc - {keys[js[0]]};
      HeadLeaves(js);
      KeysCount(js[1..], keys, rest);
      assert desc.Keys == rest.Keys + {keys[js[0]]};
    }
  }

  /** The lists as they are initialised represent the cold machine. */
  /** An unblocked process finds a descriptor free: active ones are as many as keys somebody waits on. */
  lemma FreeDescriptor(pr: PRings, sr: SRings, keys: seq<Key>, desc: map<Key, nat>, k: State, p: nat)
    requires SemdsTied(pr, sr, keys, desc, k) && |keys| == |k.pcb|
    requires OnQueues(k) && Fifo(k) && p < |k.pcb| && !Waits(k, p)
    ensures sr[SemdFree] != []
  {
    DescriptorsSuffice(k);
    ActiveCount(sr, keys, desc);
    SameKeys(desc, k.blocked);
  }

  lemma SameKeys(desc: map<Key, nat>, blocked: map<Key, seq<nat>>)
    requires forall a :: a in desc <==> a in blocked
    ensures |desc| == |blocked|
  {
    forall a: Key ensures a in desc.Keys <==> a in blocked.Keys {
    }
    assert desc.Keys == blocked.Keys;
    assert |desc| == |desc.Keys| && |blocked| == |blocked.Keys|;
  }

  lemma ColdTied(n: nat, mem: map<Key, int>, timer: Key, keys: seq<Key>)
    requires |keys| == n
    ensures ReadyTied(map[ReadyHi := [], ReadyLo := [], PcbFree := Descending(n)], Cold(n, mem, timer))
    ensures SemdsTied(map[ReadyHi := [], ReadyLo := [], PcbFree := Descending(n)],
                      map[SemdFree := Descending(n), SemdActive := []], keys, map[], Cold(n, mem, timer))
    ensures KidsTied(map[], Cold(n, mem, timer))
  {
  }

  // ---- relinking represents the abstract changes -----------------------------------------------

  /** One more process at the end of an active descriptor's queue. */
  lemma ParkOnActive(pr: PRings, sr: SRings, keys: seq<Key>, desc: map<Key, nat>, k: State, a: Key, p: nat)
    requires SemdsTied(pr, sr, keys, desc, k) && a in desc && p < |k.pcb|
    ensures Procq(desc[a]) in pr
    ensures SemdsTied(pr[Procq(desc[a]) := pr[Procq(desc[a])] + [p]], sr, keys, desc, Park(k, a, p))
  {
  }

  /** A descriptor taken from the free list for a new key. */
  lemma TakeDescriptor(sr: SRings, keys: seq<Key>, desc: map<Key, nat>, a: Key)
    requires DescsTied(sr, keys, desc) && a !in desc && sr[SemdFree] != []
    ensures sr[SemdFree][0] < |keys| && sr[SemdFree][0] !in sr[SemdActive]
    ensures var j := sr[SemdFree][0];
      DescsTied(sr[SemdFree := sr[SemdFree][1..]][SemdActive := [j] + sr[SemdActive]], keys[j := a], desc[a := j])
  {
    var j := sr[SemdFree][0];
    assert j in sr[SemdFree] && j !in sr[SemdActive];
    HeadLeaves(sr[SemdFree]);
    NoDupAppend([j], sr[SemdActive]);
    assert forall i :: i in [j] + sr[SemdActive] <==> i == j || i in sr[SemdActive];
  }

  /** The first process on that descriptor. */
  lemma ParkOnNew(pr: PRings, sr: SRings, keys: seq<Key>, desc: map<Key, nat>, k: State, a: Key, p: nat)
    requires SemdsTied(pr, sr, keys, desc, k) && a !in desc && p < |k.pcb| && sr[SemdFree] != []
    ensures sr[SemdFree][0] < |keys|
    ensures var j := sr[SemdFree][0];
      SemdsTied(pr[Procq(j) := [p]],
                sr[SemdFree := sr[SemdFree][1..]][SemdActive := [j] + sr[SemdActive]],
                keys[j := a], desc[a := j], Park(k, a, p))
  {
    TakeDescriptor(sr, keys, desc, a);
    var j := sr[SemdFree][0];
    assert a !in k.blocked && Queue(k, a) + [p] == [p];
    assert forall i :: i in [j] + sr[SemdActive] <==> i == j || i in sr[SemdActive];
  }

  /** Which semaphore a process waits on concerns neither the ready queues nor the forest. */
  lemma ParkElsewhere(pr: PRings, j: nat, t: seq<nat>, cr: map<nat, seq<nat>>, k: State, a: Key, p: nat)
    requires ReadyTied(pr, k) && KidsTied(cr, k) && p < |k.pcb|
    ensures ReadyTied(pr[Procq(j) := t], Park(k, a, p)) && KidsTied(cr, Park(k, a, p))
  {
  }

  lemma UnparkElsewhere(pr: PRings, j: nat, t: seq<nat>, cr: map<nat, seq<nat>>, k: State, p: nat)
    requires ReadyTied(pr, k) && KidsTied(cr, k) && p < |k.pcb|
    ensures ReadyTied(pr[Procq(j) := t], Unpark(k, p)) && KidsTied(cr, Unpark(k, p))
  {
  }

  /** A waiting process leaves a queue that keeps others. */
  lemma UnparkKeepsDescriptor(pr: PRings, sr: SRings, keys: seq<Key>, desc: map<Key, nat>, k: State, p: nat)
    requires SemdsTied(pr, sr, keys, desc, k) && OnQueues(k) && Waits(k, p) && NoEmptyQueue(k)
    requires Minus(Queue(k, k.pcb[p].semAdd.value), {p}) != []
    ensures k.pcb[p].semAdd.value in desc
    ensures Procq(desc[k.pcb[p].semAdd.value]) in pr
    ensures SemdsTied(pr[Procq(desc[k.pcb[p].semAdd.value]) := Minus(pr[Procq(desc[k.pcb[p].semAdd.value])], {p})],
                      sr, keys, desc, Unpark(k, p))
  {
    var a := k.pcb[p].semAdd.value;
    assert a in k.blocked && a in desc;
    assert pr[Procq(desc[a])] == k.blocked[a];
    OtherQueuesKept(k, p);
    QueueShrinks(pr, sr, keys, desc, k.blocked, Unpark(k, p).blocked, a);
  }

  lemma QueueShrinks(pr: PRings, sr: SRings, keys: seq<Key>, desc: map<Key, nat>,
                     q: map<Key, seq<nat>>, q': map<Key, seq<nat>>, a: Key)
    requires DescsTied(sr, keys, desc) && QueuesTied(pr, sr, desc, q) && a in q && a in q'
    requires forall c :: c in q && c != a ==> c in q' && q'[c] == q[c]
    requires forall c :: c in q' ==> c in q
    ensures QueuesTied(pr[Procq(desc[a]) := q'[a]], sr, desc, q')
  {
  }

  /** A descriptor whose queue ran empty goes back to the free list. */
  lemma ReturnDescriptor(sr: SRings, keys: seq<Key>, desc: map<Key, nat>, a: Key)
    requires DescsTied(sr, keys, desc) && a in desc
    ensures DescsTied(sr[SemdActive := Minus(sr[SemdActive], {desc[a]})][SemdFree := [desc[a]] + sr[SemdFree]], keys, desc - {a})
  {
    var j := desc[a];
    MinusNoDup(sr[SemdActive], {j});
    assert j !in sr[SemdFree];
    NoDupAppend([j], sr[SemdFree]);
    assert forall i :: i in [j] + sr[SemdFree] <==> i == j || i in sr[SemdFree];
  }

  lemma QueueVanishes(pr: PRings, sr: SRings, sr': SRings, keys: seq<Key>, desc: map<Key, nat>,
                      q: map<Key, seq<nat>>, q': map<Key, seq<nat>>, a: Key)
    requires DescsTied(sr, keys, desc) && QueuesTied(pr, sr, desc, q) && a in q && a !in q'
    requires forall c :: c in q && c != a ==> c in q' && q'[c] == q[c]
    requires forall c :: c in q' ==> c in q
    requires SemdActive in sr' && sr'[SemdActive] == Minus(sr[SemdActive], {desc[a]})
    ensures QueuesTied(pr[Procq(desc[a]) := []], sr', desc - {a}, q')
  {
  }

  /** The last waiting process leaves. */
  lemma UnparkFreesDescriptor(pr: PRings, sr: SRings, keys: seq<Key>, desc: map<Key, nat>, k: State, p: nat)
    requires SemdsTied(pr, sr, keys, desc, k) && OnQueues(k) && Waits(k, p) && NoEmptyQueue(k)
    requires Minus(Queue(k, k.pcb[p].semAdd.value), {p}) == []
    ensures k.pcb[p].semAdd.value in desc
    ensures var j := desc[k.pcb[p].semAdd.value];
      SemdsTied(pr[Procq(j) := []],
                sr[SemdActive := Minus(sr[SemdActive], {j})][SemdFree := [j] + sr[SemdFree]],
                keys, desc - {k.pcb[p].semAdd.value}, Unpark(k, p))
  {
    var a := k.pcb[p].semAdd.value;
    assert a in k.blocked && a in desc;
    OtherQueuesKept(k, p);
    ReturnDescriptor(sr, keys, desc, a);
    var sr' := sr[SemdActive := Minus(sr[SemdActive], {desc[a]})][SemdFree := [desc[a]] + sr[SemdFree]];
    QueueVanishes(pr, sr, sr', keys, desc, k.blocked, Unpark(k, p).blocked, a);
  }

  /** The descriptors once a queue has been shortened, and once an emptied one has been freed. */
  ghost predicate SemdsAfter(pr: PRings, sr: SRings, keys: seq<Key>, desc: map<Key, nat>, k: State, j: nat, a: Key) {
    && SemdFree in sr && SemdActive in sr && Procq(j) in pr && j in sr[SemdActive]
    && if pr[Procq(j)] != [] then SemdsTied(pr, sr, keys, desc, k) else
       SemdsTied(pr, sr[SemdActive := Minus(sr[SemdActive], {j})][SemdFree := [j] + sr[SemdFree]], keys, desc - {a}, k)
  }

  ghost predicate UnparkedBy(pr: PRings, sr: SRings, keys: seq<Key>, desc: map<Key, nat>, cr: map<nat, seq<nat>>, k: State, j: nat, a: Key) {
    ReadyTied(pr, k) && KidsTied(cr, k) && SemdsAfter(pr, sr, keys, desc, k, j, a)
  }

  lemma UnparkTied(pr: PRings, sr: SRings, keys: seq<Key>, desc: map<Key, nat>, cr: map<nat, seq<nat>>, k: State, p: nat)
    requires ReadyTied(pr, k) && KidsTied(cr, k)
    requires SemdsTied(pr, sr, keys, desc, k) && OnQueues(k) && Waits(k, p) && NoEmptyQueue(k)
    ensures var a := k.pcb[p].semAdd.value;
      a in desc && desc[a] < |keys| && Procq(desc[a]) in pr && p in pr[Procq(desc[a])]
    ensures var a := k.pcb[p].semAdd.value; var j := desc[a]; var pr' := pr[Procq(j) := Minus(pr[Procq(j)], {p})];
      UnparkedBy(pr', sr, keys, desc, cr, Unpark(k, p), j, a)
  {
    var a := k.pcb[p].semAdd.value;
    assert a in k.blocked && a in desc && p in k.blocked[a];
    if Minus(Queue(k, a), {p}) == [] {
      UnparkFreesDescriptor(pr, sr, keys, desc, k, p);
    } else {
      UnparkKeepsDescriptor(pr, sr, keys, desc, k, p);
    }
    UnparkElsewhere(pr, desc[a], Minus(pr[Procq(desc[a])], {p}), cr, k, p);
  }

  /** Only the queue a process waits on changes when it stops waiting. */
  lemma OtherQueuesKept(k: State, p: nat)
    requires OnQueues(k) && Waits(k, p) && NoEmptyQueue(k)
    ensures var a := k.pcb[p].semAdd.value; var b := Unpark(k, p).blocked;
      && a in k.blocked
      && (forall c :: c in k.blocked && c != a ==> c in b && b[c] == k.blocked[c])
      && (a in b <==> Minus(k.blocked[a], {p}) != [])
      && (a in b ==> b[a] == Minus(k.blocked[a], {p}))
      && (forall c :: c in b ==> c in k.blocked)
  {
    forall c | c in k.blocked && c != k.pcb[p].semAdd.value
      ensures Minus(k.blocked[c], {p}) == k.blocked[c]
    {
      assert p !in k.blocked[c];
      MinusNone(k.blocked[c], {p});
    }
  }

  /** All lists at once. */
  ghost predicate ListsTied(pr: PRings, sr: SRings, keys: seq<Key>, desc: map<Key, nat>, cr: map<nat, seq<nat>>, k: State) {
    ReadyTied(pr, k) && SemdsTied(pr, sr, keys, desc, k) && KidsTied(cr, k)
  }

  function QueueHead(k: State, p: nat): PHead
    requires p < |k.pcb|
  {
    if k.pcb[p].prio then ReadyHi else ReadyLo
  }

  /** The lists with entry `p` taken off whichever it is on. */
  function Without(pr: PRings, p: nat): PRings { map h | h in pr :: Minus(pr[h], {p}) }

  /** The lists with entry `p` moved to the end of the list of `h`. */
  function Moved(pr: PRings, h: PHead, p: nat): PRings
    requires h in pr
  {
    Without(pr, p)[h := Minus(pr[h], {p}) + [p]]
  }

  lemma WithoutOne(pr: PRings, h: PHead, p: nat)
    requires Disjoint(pr) && h in pr && (OnSome(pr, p) ==> p in pr[h])
    ensures Without(pr, p) == pr[h := Minus(pr[h], {p})] && !OnSome(Without(pr, p), p)
    ensures !OnSome(pr, p) ==> Without(pr, p) == pr
  {
    forall g | g in pr && g != h ensures Minus(pr[g], {p}) == pr[g] {
      assert p !in pr[g];
      MinusNone(pr[g], {p});
    }
    if p !in pr[h] {
      MinusNone(pr[h], {p});
    }
  }

  lemma WithoutNone(pr: PRings, p: nat)
    requires !OnSome(pr, p)
    ensures Without(pr, p) == pr
  {
    forall g | g in pr ensures Minus(pr[g], {p}) == pr[g] {
      MinusNone(pr[g], {p});
    }
  }

  /** The state with process `p` on no list. */
  function TakenOff(k: State, p: nat): State {
    k.(free := Minus(k.free, {p}), hi := Minus(k.hi, {p}), lo := Minus(k.lo, {p}),
       blocked := map a | a in k.blocked :: Minus(k.blocked[a], {p}))
  }

  lemma TakenOffTied(pr: PRings, sr: SRings, keys: seq<Key>, desc: map<Key, nat>, cr: map<nat, seq<nat>>, k: State, p: nat)
    requires ListsTied(pr, sr, keys, desc, cr, k)
    ensures ListsTied(Without(pr, p), sr, keys, desc, cr, TakenOff(k, p))
    ensures !OnSome(pr, p) ==> Without(pr, p) == pr && TakenOff(k, p) == k
  {
    forall i: nat ensures Live(TakenOff(k, p), i) <==> Live(k, i) {
    }
    if !OnSome(pr, p) {
      WithoutNone(pr, p);
      NowhereIsTakenOff(pr, sr, keys, desc, k, p);
    }
  }

  lemma NowhereIsTakenOff(pr: PRings, sr: SRings, keys: seq<Key>, desc: map<Key, nat>, k: State, p: nat)
    requires ReadyTied(pr, k) && SemdsTied(pr, sr, keys, desc, k) && !OnSome(pr, p)
    ensures TakenOff(k, p) == k
  {
    MinusNone(k.free, {p});
    MinusNone(k.hi, {p});
    MinusNone(k.lo, {p});
    forall a | a in k.blocked ensures Minus(k.blocked[a], {p}) == k.blocked[a] {
      assert Procq(desc[a]) in pr;
      MinusNone(k.blocked[a], {p});
    }
    assert TakenOff(k, p).blocked == k.blocked;
  }

  lemma EnqueueTied(pr: PRings, sr: SRings, keys: seq<Key>, desc: map<Key, nat>, cr: map<nat, seq<nat>>, k: State, p: nat)
    requires ListsTied(pr, sr, keys, desc, cr, k) && p < |k.pcb|
    ensures QueueHead(k, p) in pr
    ensures ListsTied(pr[QueueHead(k, p) := pr[QueueHead(k, p)] + [p]], sr, keys, desc, cr, Enqueue(k, p))
  {
    assert forall i: nat :: Live(Enqueue(k, p), i) <==> Live(k, i);
  }

  lemma UnreadyTied(pr: PRings, sr: SRings, keys: seq<Key>, desc: map<Key, nat>, cr: map<nat, seq<nat>>, k: State, p: nat)
    requires ListsTied(pr, sr, keys, desc, cr, k) && p < |k.pcb|
    ensures QueueHead(k, p) in pr
    ensures ListsTied(pr[QueueHead(k, p) := Minus(pr[QueueHead(k, p)], {p})], sr, keys, desc, cr, Unready(k, p))
  {
    assert forall i: nat :: Live(Unready(k, p), i) <==> Live(k, i);
  }

  lemma SpawnTied(pr: PRings, sr: SRings, keys: seq<Key>, desc: map<Key, nat>, cr: map<nat, seq<nat>>, k: State, prio: bool, pid: Pid.Word)
    requires ListsTied(pr, sr, keys, desc, cr, k) && k.free != [] && k.free[0] < |k.pcb| == |k.kids| == |k.birth|
    ensures PcbFree in pr && (if prio then ReadyHi else ReadyLo) in pr
    ensures var c := k.free[0]; var h := if prio then ReadyHi else ReadyLo;
      ListsTied(pr[PcbFree := k.free[1..]][h := pr[h] + [c]], sr, keys, desc, cr[c := []], SpawnAs(k, prio, pid))
  {
    assert forall i: nat :: Live(SpawnAs(k, prio, pid), i) ==> i == k.free[0] || Live(k, i);
  }

  lemma AdoptTied(pr: PRings, sr: SRings, keys: seq<Key>, desc: map<Key, nat>, cr: map<nat, seq<nat>>, k: State, p: nat, c: nat)
    requires ListsTied(pr, sr, keys, desc, cr, k) && p in cr && p < |k.kids| && c < |k.pcb|
    ensures ListsTied(pr, sr, keys, desc, cr[p := cr[p] + [c]], Adopt(k, p, c))
  {
  }

  lemma DetachTied(pr: PRings, sr: SRings, keys: seq<Key>, desc: map<Key, nat>, cr: map<nat, seq<nat>>, k: State, p: nat, c: nat)
    requires ListsTied(pr, sr, keys, desc, cr, k) && p in cr && c < |k.pcb| && k.pcb[c].parent == Some(p)
    ensures p < |k.kids|
    ensures ListsTied(pr, sr, keys, desc, cr[p := Minus(cr[p], {c})], Detach(k, c))
  {
  }

  /** free_pcb of a process that is on no list */
  function Bury(k: State, p: nat): State
    requires p < |k.pcb|
  {
    k.(pcb := k.pcb[p := k.pcb[p].(pid := Pid.NULL_PID)], free := [p] + k.free)
  }

  lemma BuryTied(pr: PRings, sr: SRings, keys: seq<Key>, desc: map<Key, nat>, cr: map<nat, seq<nat>>, k: State, p: nat)
    requires ListsTied(pr, sr, keys, desc, cr, k) && p < |k.pcb|
    ensures PcbFree in pr
    ensures ListsTied(pr[PcbFree := [p] + pr[PcbFree]], sr, keys, desc, cr, Bury(k, p))
  {
  }

  lemma MovedTied(pr: PRings, sr: SRings, keys: seq<Key>, desc: map<Key, nat>, cr: map<nat, seq<nat>>, k: State, p: nat)
    requires ListsTied(pr, sr, keys, desc, cr, k) && p < |k.pcb|
    ensures QueueHead(k, p) in pr
    ensures ListsTied(Moved(pr, QueueHead(k, p), p), sr, keys, desc, cr, Enqueue(TakenOff(k, p), p))
    ensures !OnSome(pr, p) ==> TakenOff(k, p) == k
  {
    TakenOffTied(pr, sr, keys, desc, cr, k, p);
    EnqueueTied(Without(pr, p), sr, keys, desc, cr, TakenOff(k, p), p);
  }

  lemma FreedTied(pr: PRings, sr: SRings, keys: seq<Key>, desc: map<Key, nat>, cr: map<nat, seq<nat>>, k: State, p: nat)
    requires ListsTied(pr, sr, keys, desc, cr, k) && p < |k.pcb|
    ensures PcbFree in pr && pr[PcbFree] == k.free
    ensures ListsTied(Without(pr, p)[PcbFree := [p] + Minus(pr[PcbFree], {p})], sr, keys, desc, cr, Bury(TakenOff(k, p), p))
    ensures !OnSome(pr, p) ==> TakenOff(k, p) == k && p !in k.free
  {
    TakenOffTied(pr, sr, keys, desc, cr, k, p);
    BuryTied(Without(pr, p), sr, keys, desc, cr, TakenOff(k, p), p);
  }

  /** Nobody's child list holds a free slot. */
  lemma FreeNotAChild(cr: map<nat, seq<nat>>, k: State, c: nat)
    requires KidsTied(cr, k) && Forest(k) && (!Live(k, c) || k.pcb[c].parent.None?)
    ensures !OnSome(cr, c)
  {
  }

  function Uncounted(k: State): State { k.(processCount := k.processCount - 1) }

  /** kill_process step by step: out of the forest, off its queue, then onto the free list. */
  function KilledAlone(k: State, p: nat): State
    requires p < |k.pcb| && (k.pcb[p].parent.Some? ==> k.pcb[p].parent.value < |k.kids|)
  {
    var k1 := Uncounted(Detach(k, p));
    Bury(if Waits(k1, p) then Unblock(k1, p) else Unready(k1, p), p)
  }

  /** Of a process without children it leaves the state with exactly that process killed. */
  lemma KillOneSteps(k: State, p: nat, cpu: Option<nat>)
    requires Core(k, cpu) && Live(k, p) && k.kids[p] == []
    ensures k.pcb[p].parent.Some? ==> k.pcb[p].parent.value < |k.kids|
    ensures KillAll(k, [p]) == KilledAlone(k, p)
  {
    KillOneKids(k, p);
    AloneCases(k, p);
    if Waits(k, p) {
      KillOneWaiting(k, p, cpu);
      KillWaitingSteps(k, p);
    } else {
      KillOneRunnable(k, p, cpu);
      KillRunnableSteps(k, p);
    }
  }

  lemma AloneCases(k: State, p: nat)
    requires Live(k, p) && (k.pcb[p].parent.Some? ==> k.pcb[p].parent.value < |k.kids|)
    ensures KilledAlone(k, p) ==
      if Waits(k, p) then Bury(Unblock(Uncounted(Detach(k, p)), p), p) else Bury(Unready(Uncounted(Detach(k, p)), p), p)
  {
    assert Waits(Uncounted(Detach(k, p)), p) <==> Waits(k, p);
  }

  lemma KillWaitingSteps(k: State, p: nat)
    requires Waits(k, p) && (k.pcb[p].parent.Some? ==> k.pcb[p].parent.value < |k.kids|)
    requires KidsWithout(k.kids, {p}) == Detach(k, p).kids
    requires Minus(k.hi, {p}) == k.hi && Minus(k.lo, {p}) == k.lo && |Waiting(k) * {p}| == 1
    ensures KillAll(k, [p]) == Bury(Unblock(Uncounted(Detach(k, p)), p), p)
  {
    KillOneTable(k, p);
    BuriedWaiting(k, p);
  }

  lemma BuriedWaiting(k: State, p: nat)
    requires Waits(k, p) && (k.pcb[p].parent.Some? ==> k.pcb[p].parent.value < |k.kids|)
    ensures var k' := Bury(Unblock(Uncounted(Detach(k, p)), p), p);
      && k'.pcb == k.pcb[p := Buried(k.pcb[p])] && k'.kids == Detach(k, p).kids
      && k' == k.(pcb := k'.pcb, kids := k'.kids, free := [p] + k.free, blocked := QueuesWithout(k.blocked, {p}),
                  processCount := k.processCount - 1, softblockCount := k.softblockCount - 1)
  {
    assert Bury(Unblock(Uncounted(Detach(k, p)), p), p).pcb == k.pcb[p := Buried(k.pcb[p])];
  }

  lemma KillRunnableSteps(k: State, p: nat)
    requires Runnable(k, p) && (k.pcb[p].parent.Some? ==> k.pcb[p].parent.value < |k.kids|)
    requires KidsWithout(k.kids, {p}) == Detach(k, p).kids
    requires QueuesWithout(k.blocked, {p}) == k.blocked && |Waiting(k) * {p}| == 0
    requires if k.pcb[p].prio then Minus(k.lo, {p}) == k.lo else Minus(k.hi, {p}) == k.hi
    ensures KillAll(k, [p]) == Bury(Unready(Uncounted(Detach(k, p)), p), p)
  {
    KillOneTable(k, p);
    BuriedRunnable(k, p);
  }

  lemma BuriedRunnable(k: State, p: nat)
    requires Runnable(k, p) && (k.pcb[p].parent.Some? ==> k.pcb[p].parent.value < |k.kids|)
    ensures var k' := Bury(Unready(Uncounted(Detach(k, p)), p), p);
      && k'.pcb == k.pcb[p := Buried(k.pcb[p])] && k'.kids == Detach(k, p).kids
      && k' == k.(pcb := k'.pcb, kids := k'.kids, free := [p] + k.free, processCount := k.processCount - 1,
                  hi := if k.pcb[p].prio then Minus(k.hi, {p}) else k.hi,
                  lo := if k.pcb[p].prio then k.lo else Minus(k.lo, {p}))
  {
    assert Bury(Unready(Uncounted(Detach(k, p)), p), p).pcb == k.pcb[p := Buried(k.pcb[p])];
  }

  lemma KillOneTable(k: State, p: nat)
    requires Live(k, p)
    ensures TableWithout(k.pcb, {p}) == k.pcb[p := Buried(k.pcb[p])] && ToSet([p]) == {p} && Reverse([p]) == [p]
  {
  }

  lemma KillOneKids(k: State, p: nat)
    requires Forest(k) && Live(k, p) && k.kids[p] == []
    ensures k.pcb[p].parent.Some? ==> k.pcb[p].parent.value < |k.kids|
    ensures KidsWithout(k.kids, {p}) == Detach(k, p).kids
  {
    forall i: nat | i < |k.kids| && k.pcb[p].parent != Some(i)
      ensures Minus(k.kids[i], {p}) == k.kids[i]
    {
      assert p !in k.kids[i];
      MinusNone(k.kids[i], {p});
    }
    if k.pcb[p].parent.Some? {
      assert Live(k, k.pcb[p].parent.value);
    }
  }

  lemma KillOneWaiting(k: State, p: nat, cpu: Option<nat>)
    requires OnLists(k, cpu) && Waits(k, p)
    ensures Minus(k.hi, {p}) == k.hi && Minus(k.lo, {p}) == k.lo && |Waiting(k) * {p}| == 1
  {
    MinusNone(k.hi, {p});
    MinusNone(k.lo, {p});
    assert Waiting(k) * {p} == {p};
  }

  lemma KillOneRunnable(k: State, p: nat, cpu: Option<nat>)
    requires Owned(k, cpu) && NoEmptyQueue(k) && Runnable(k, p)
    ensures QueuesWithout(k.blocked, {p}) == k.blocked && |Waiting(k) * {p}| == 0
    ensures if k.pcb[p].prio then Minus(k.lo, {p}) == k.lo else Minus(k.hi, {p}) == k.hi
  {
    NotQueued(k, p);
    assert Waiting(k) * {p} == {};
    if k.pcb[p].prio {
      MinusNone(k.lo, {p});
    } else {
      MinusNone(k.hi, {p});
    }
  }

  lemma NotQueued(k: State, p: nat)
    requires OnQueues(k) && NoEmptyQueue(k) && !Waits(k, p)
    ensures QueuesWithout(k.blocked, {p}) == k.blocked
  {
    forall a | a in k.blocked ensures Minus(k.blocked[a], {p}) == k.blocked[a] {
      assert p !in k.blocked[a];
      MinusNone(k.blocked[a], {p});
    }
    assert forall a :: a in QueuesWithout(k.blocked, {p}) <==> a in k.blocked;
  }

  /** After it leaves its queue, a process is on no list. */
  lemma OffAfterUnblock(k: State, p: nat, cpu: Option<nat>)
    requires OnLists(k, cpu) && OnQueues(k) && NoEmptyQueue(k) && Waits(k, p)
    ensures OffLists(Unblock(k, p), p)
  {
  }

  lemma OffAfterUnready(k: State, p: nat, cpu: Option<nat>)
    requires OnLists(k, cpu) && OnQueues(k) && Runnable(k, p)
    ensures OffLists(Unready(k, p), p)
  {
  }

  /** A live process on no list has the processor: it does not wait and is not ready. */
  lemma OnNoneIsRunning(pr: PRings, sr: SRings, keys: seq<Key>, desc: map<Key, nat>, k: State, p: nat)
    requires ReadyTied(pr, k) && SemdsTied(pr, sr, keys, desc, k) && OnQueues(k) && Live(k, p) && !OnSome(pr, p)
    ensures Runnable(k, p) && Unready(k, p) == k
  {
    if Waits(k, p) {
      OnQueueSomewhere(pr, sr, keys, desc, k, k.pcb[p].semAdd.value, p);
    }
    assert p !in pr[ReadyHi] && p !in pr[ReadyLo];
    MinusNone(k.hi, {p});
    MinusNone(k.lo, {p});
  }

  lemma FreeSlots(cr: map<nat, seq<nat>>, k: State, cpu: Option<nat>)
    requires KidsTied(cr, k) && Core(k, cpu)
    ensures NoDup(k.free) && forall c: nat :: c in k.free ==> c < |k.pcb| && !OnSome(cr, c)
  {
    forall c: nat | c in k.free ensures c < |k.pcb| && !OnSome(cr, c) {
      FreeNotAChild(cr, k, c);
    }
  }

  lemma UncountedKeeps(k: State, cpu: Option<nat>)
    requires Owned(k, cpu) && NoEmptyQueue(k)
    ensures Owned(Uncounted(k), cpu) && NoEmptyQueue(Uncounted(k))
  {
  }

  /** What kill_process relies on in its victim. */
  lemma VictimFacts(k: State, p: nat, cpu: Option<nat>)
    requires Core(k, cpu) && Live(k, p)
    ensures k.pcb[p].parent.Some? ==> Live(k, k.pcb[p].parent.value) && p in k.kids[k.pcb[p].parent.value]
    ensures k.pcb[p].parent.Some? ==> k.pcb[p].parent.value < |k.kids|
    ensures var k1 := Uncounted(Detach(k, p)); Owned(k1, cpu) && NoEmptyQueue(k1) && Live(k1, p) && (Waits(k1, p) <==> Waits(k, p))
  {
    DetachKeeps(k, p, cpu);
    UncountedKeeps(Detach(k, p), cpu);
  }

  lemma RunningIsOff(k: State, p: nat)
    requires Core(k, Some(p)) && Runnable(k, p)
    ensures OffLists(k, p)
  {
  }

  /** A queue that loses its head, which gets the processor. */
  lemma TakeTied(pr: PRings, sr: SRings, keys: seq<Key>, desc: map<Key, nat>, cr: map<nat, seq<nat>>, k: State, high: bool, p: nat)
    requires ListsTied(pr, sr, keys, desc, cr, k)
    ensures (if high then ReadyHi else ReadyLo) in pr
    ensures var h := if high then ReadyHi else ReadyLo;
      ListsTied(pr[h := Minus(pr[h], {p})], sr, keys, desc, cr, Taken(k, high, p))
  {
    assert forall i: nat :: Live(Taken(k, high, p), i) <==> Live(k, i);
  }

  function Taken(k: State, high: bool, p: nat): State {
    if high then k.(hi := Minus(k.hi, {p}), active := Some(p)) else k.(lo := Minus(k.lo, {p}), active := Some(p))
  }

  /** Pointers and counters are not part of the lists. */
  lemma PointersTied(pr: PRings, sr: SRings, keys: seq<Key>, desc: map<Key, nat>, cr: map<nat, seq<nat>>, k: State, k': State)
    requires ListsTied(pr, sr, keys, desc, cr, k) && k' == k.(active := k'.active, yielder := k'.yielder, mem := k'.mem, softblockCount := k'.softblockCount)
    ensures ListsTied(pr, sr, keys, desc, cr, k')
  {
  }

  /** A yielder is still on no list after somebody else is selected. */
  lemma YielderStaysOff(k: State, y: nat)
    requires OffLists(k, y) && forall i :: i in k.hi || i in k.lo ==> i < |k.pcb|
    ensures OffLists(Select(k).0, y)
  {
  }

  /** Leaving a ready queue does not concern the semaphore queues. */
  lemma UnreadyQueues(k: State, p: nat)
    requires OnQueues(k) && Fifo(k) && p < |k.pcb|
    ensures OnQueues(Unready(k, p)) && Fifo(Unready(k, p)) && (Waits(Unready(k, p), p) <==> Waits(k, p))
  {
    assert forall i: nat :: Live(Unready(k, p), i) <==> Live(k, i);
    MinusNoDup(k.hi, {p});
    MinusNoDup(k.lo, {p});
  }

  /** Waking as the program does it: off the queue, onto the ready queue, then the count. */
  lemma WakeSteps(k: State, a: Key, t: nat, cpu: Option<nat>)
    requires Owned(k, cpu) && NoEmptyQueue(k) && Queue(k, a) != [] && t == Queue(k, a)[0]
    ensures Waits(k, t) && OffLists(Unpark(k, t), t)
    ensures Wake(k, a) == Roused(Unpark(k, t), t)
  {
  }

  function Roused(k: State, t: nat): State
    requires t < |k.pcb|
  {
    Enqueue(k, t).(softblockCount := k.softblockCount - 1)
  }

  lemma RousedEitherWay(k: State, t: nat)
    requires t < |k.pcb|
    ensures Enqueue(k.(softblockCount := k.softblockCount - 1), t) == Roused(k, t)
    ensures OffLists(k, t) <==> OffLists(k.(softblockCount := k.softblockCount - 1), t)
  {
  }

  lemma SupportTied(pr: PRings, sr: SRings, keys: seq<Key>, desc: map<Key, nat>, cr: map<nat, seq<nat>>, k: State, c: nat, support: bool)
    requires ListsTied(pr, sr, keys, desc, cr, k) && c < |k.pcb|
    ensures ListsTied(pr, sr, keys, desc, cr, WithSupport(k, c, support))
  {
  }

  /** What a newly spawned process looks like to its creator. */
  lemma SpawnedFacts(cr: map<nat, seq<nat>>, k: State, prio: bool)
    requires Core(k, k.active) && k.active.Some? && Runnable(k, k.active.value) && k.free != []
    ensures k.free[0] < |k.pcb| < 32 && |k.birth| == |k.pcb| == |k.kids|
    ensures var k1, c := Spawn(k, prio), k.free[0];
      Live(k1, k.active.value) && k1.pcb[c].parent == None && |k1.pcb| == |k.pcb| && k1.active == k.active
    ensures KidsTied(cr, Spawn(k, prio)) ==> !OnSome(cr, k.free[0])
  {
    SpawnKeeps(k, prio, k.active);
    if KidsTied(cr, Spawn(k, prio)) {
      FreeNotAChild(cr, Spawn(k, prio), k.free[0]);
    }
  }
}
