/**
 Terminating a process with its whole progeny, as one change of the nucleus: which processes go,
 and what is left of every queue, of the forest and of the counters (os/src/scheduler.c, kill_progeny).
 */
module Progeny {
  import opened Options
  import opened Pid
  import opened Sequences
  import opened Kernel

  function Reverse(s: seq<nat>): (r: seq<nat>)
    ensures |r| == |s|
    ensures forall x: nat :: x in r <==> x in s
  {
    if s == [] then [] else Reverse(s[1..]) + [s[0]]
  }

  lemma {:induction false} ReverseAppend(s: seq<nat>, t: seq<nat>)
    ensures Reverse(s + t) == Reverse(t) + Reverse(s)
  {
    if s == [] {
      assert s + t == t;
    } else {
      assert (s + t)[1..] == s[1..] + t;
      ReverseAppend(s[1..], t);
    }
  }

  lemma {:induction false} ReverseNoDup(s: seq<nat>)
    requires NoDup(s)
    ensures NoDup(Reverse(s))
  {
    if s != [] {
      HeadLeaves(s);
      ReverseNoDup(s[1..]);
      NoDupAppend(Reverse(s[1..]), [s[0]]);
    }
  }

  // ---- the tree below a process ----------------------------------------------------------------

  /** `x` is `r` or has `r` among its ancestors. */
  ghost predicate Descends(k: State, x: nat, r: nat)
    requires Forest(k) && Live(k, x)
    decreases k.birth[x]
  {
    x == r || (k.pcb[x].parent.Some? && Descends(k, k.pcb[x].parent.value, r))
  }

  /** The order in which kill_progeny reaches the tree of `r`: children first, oldest child first. */
  ghost function Postorder(k: State, r: nat): seq<nat>
    requires Forest(k) && Live(k, r)
    decreases k.spawned - k.birth[r], |k.kids[r]| + 1
  {
    assert forall c :: c in k.kids[r] ==> Live(k, c) && k.pcb[c].parent == Some(r);
    PostorderAll(k, k.kids[r], k.birth[r]) + [r]
  }

  ghost function PostorderAll(k: State, cs: seq<nat>, after: nat): seq<nat>
    requires Forest(k) && forall c :: c in cs ==> Live(k, c) && k.birth[c] > after
    decreases k.spawned - after, |cs|
  {
    if cs == [] then [] else Postorder(k, cs[0]) + PostorderAll(k, cs[1..], after)
  }

  lemma {:induction false} DescendsTransitive(k: State, x: nat, y: nat, r: nat)
    requires Forest(k) && Live(k, x) && Live(k, y) && Descends(k, x, y) && Descends(k, y, r)
    ensures Descends(k, x, r)
    decreases k.birth[x]
  {
    if x != y {
      DescendsTransitive(k, k.pcb[x].parent.value, y, r);
    }
  }

  lemma {:induction false} DescendsIsYounger(k: State, x: nat, r: nat)
    requires Forest(k) && Live(k, x) && Descends(k, x, r)
    ensures Live(k, r) && k.birth[r] <= k.birth[x] && (x != r ==> k.birth[r] < k.birth[x])
    decreases k.birth[x]
  {
    if x != r {
      DescendsIsYounger(k, k.pcb[x].parent.value, r);
    }
  }

  /** A strict descendant of `r` descends from one of its children. */
  lemma {:induction false} ThroughChild(k: State, x: nat, r: nat) returns (c: nat)
    requires Forest(k) && Live(k, x) && Descends(k, x, r) && x != r
    ensures Live(k, r) && Live(k, c) && c in k.kids[r] && Descends(k, x, c)
    decreases k.birth[x]
  {
    var p := k.pcb[x].parent.value;
    if p == r {
      assert x in k.kids[r];
      c := x;
    } else {
      c := ThroughChild(k, p, r);
    }
  }

  /** Ancestors form a chain: of two ancestors of one process, one descends from the other. */
  lemma {:induction false} AncestorsChain(k: State, x: nat, a: nat, b: nat)
    requires Forest(k) && Live(k, x) && Live(k, a) && Live(k, b) && Descends(k, x, a) && Descends(k, x, b)
    ensures Descends(k, a, b) || Descends(k, b, a)
    decreases k.birth[x]
  {
    if x != a && x != b {
      AncestorsChain(k, k.pcb[x].parent.value, a, b);
    }
  }

  /** The trees of two different children of one process have nothing in common. */
  lemma SiblingsApart(k: State, x: nat, p: nat, a: nat, b: nat)
    requires Forest(k) && Live(k, x) && Live(k, a) && Live(k, b) && a != b
    requires k.pcb[a].parent == Some(p) && k.pcb[b].parent == Some(p)
    ensures !(Descends(k, x, a) && Descends(k, x, b))
  {
    if Descends(k, x, a) && Descends(k, x, b) {
      AncestorsChain(k, x, a, b);
      if Descends(k, a, b) {
        DescendsIsYounger(k, p, b);
      } else {
        DescendsIsYounger(k, p, a);
      }
    }
  }

  /** Exactly the process and its descendants are reached. */
  lemma {:induction false} PostorderMembers(k: State, r: nat)
    requires Forest(k) && Live(k, r)
    ensures forall x :: x in Postorder(k, r) <==> Live(k, x) && Descends(k, x, r)
    decreases k.spawned - k.birth[r], |k.kids[r]| + 1
  {
    PostorderAllMembers(k, k.kids[r], k.birth[r]);
    forall x | Live(k, x) && Descends(k, x, r)
      ensures x in Postorder(k, r)
    {
      if x != r {
        var c := ThroughChild(k, x, r);
      }
    }
    forall x | x in Postorder(k, r)
      ensures Live(k, x) && Descends(k, x, r)
    {
      if x != r {
        var c :| c in k.kids[r] && Live(k, x) && Descends(k, x, c);
        DescendsTransitive(k, x, c, r);
      }
    }
  }

  lemma {:induction false} PostorderAllMembers(k: State, cs: seq<nat>, after: nat)
    requires Forest(k) && forall c :: c in cs ==> Live(k, c) && k.birth[c] > after
    ensures forall x :: x in PostorderAll(k, cs, after) <==> Live(k, x) && exists c :: c in cs && Descends(k, x, c)
    decreases k.spawned - after, |cs|
  {
    if cs != [] {
      PostorderMembers(k, cs[0]);
      PostorderAllMembers(k, cs[1..], after);
      assert forall c :: c in cs <==> c == cs[0] || c in cs[1..];
    }
  }

  ghost predicate Siblings(k: State, cs: seq<nat>, p: nat) {
    NoDup(cs) && forall c :: c in cs ==> Live(k, c) && k.pcb[c].parent == Some(p)
  }

  /** No process is reached twice. */
  lemma {:induction false} PostorderNoDup(k: State, r: nat)
    requires Forest(k) && Live(k, r)
    ensures NoDup(Postorder(k, r))
    decreases k.spawned - k.birth[r], |k.kids[r]| + 1
  {
    PostorderAllNoDup(k, k.kids[r], r);
    PostorderAllMembers(k, k.kids[r], k.birth[r]);
    if r in PostorderAll(k, k.kids[r], k.birth[r]) {
      var c :| c in k.kids[r] && Descends(k, r, c);
      DescendsIsYounger(k, r, c);
    }
  }

  lemma {:induction false} PostorderAllNoDup(k: State, cs: seq<nat>, p: nat)
    requires Forest(k) && Live(k, p) && Siblings(k, cs, p)
    ensures NoDup(PostorderAll(k, cs, k.birth[p]))
    decreases k.spawned - k.birth[p], |cs|
  {
    if cs != [] {
      assert cs[0] in cs && cs == [cs[0]] + cs[1..];
      PostorderNoDup(k, cs[0]);
      PostorderAllNoDup(k, cs[1..], p);
      SiblingTreesApart(k, [cs[0]], cs[1..], p);
      PostorderMembers(k, cs[0]);
      PostorderAllMembers(k, cs[1..], k.birth[p]);
      NoDupAppend(Postorder(k, cs[0]), PostorderAll(k, cs[1..], k.birth[p]));
    }
  }

  /** The trees of two groups of siblings have nothing in common. */
  lemma SiblingTreesApart(k: State, cs: seq<nat>, ds: seq<nat>, p: nat)
    requires Forest(k) && Live(k, p) && Siblings(k, cs + ds, p)
    ensures forall x, c, d :: Live(k, x) && c in cs && d in ds && Live(k, c) && Live(k, d) ==>
      !(Descends(k, x, c) && Descends(k, x, d))
  {
    forall x, c, d | Live(k, x) && c in cs && d in ds && Live(k, c) && Live(k, d)
      ensures !(Descends(k, x, c) && Descends(k, x, d))
    {
      var i :| 0 <= i < |cs| && cs[i] == c;
      var j :| 0 <= j < |ds| && ds[j] == d;
      assert (cs + ds)[i] == c && (cs + ds)[|cs| + j] == d;
      SiblingsApart(k, x, p, c, d);
    }
  }

  lemma {:induction false} PostorderAllAppend(k: State, cs: seq<nat>, ds: seq<nat>, after: nat)
    requires Forest(k) && forall c :: c in cs + ds ==> Live(k, c) && k.birth[c] > after
    ensures (forall c :: c in cs ==> c in cs + ds) && (forall c :: c in ds ==> c in cs + ds)
    ensures PostorderAll(k, cs + ds, after) == PostorderAll(k, cs, after) + PostorderAll(k, ds, after)
  {
    if cs == [] {
      assert cs + ds == ds;
    } else {
      assert (cs + ds)[1..] == cs[1..] + ds;
      PostorderAllAppend(k, cs[1..], ds, after);
    }
  }

  /** The order of a tree depends only on the child lists inside it. */
  lemma {:induction false} PostorderFrame(k: State, k': State, r: nat)
    requires Forest(k) && Forest(k') && Live(k, r)
    requires |k'.pcb| == |k.pcb| && k'.birth == k.birth && k'.spawned == k.spawned
    requires forall x :: x in Postorder(k, r) && Live(k, x) ==> Live(k', x) && k'.kids[x] == k.kids[x]
    ensures Live(k', r) && Postorder(k', r) == Postorder(k, r)
    decreases k.spawned - k.birth[r], |k.kids[r]| + 1
  {
    assert r in Postorder(k, r);
    PostorderAllFrame(k, k', k.kids[r], k.birth[r]);
  }

  lemma {:induction false} PostorderAllFrame(k: State, k': State, cs: seq<nat>, after: nat)
    requires Forest(k) && Forest(k') && forall c :: c in cs ==> Live(k, c) && k.birth[c] > after
    requires |k'.pcb| == |k.pcb| && k'.birth == k.birth && k'.spawned == k.spawned
    requires forall x :: x in PostorderAll(k, cs, after) && Live(k, x) ==> Live(k', x) && k'.kids[x] == k.kids[x]
    ensures forall c :: c in cs ==> Live(k', c)
    ensures PostorderAll(k', cs, after) == PostorderAll(k, cs, after)
    decreases k.spawned - after, |cs|
  {
    if cs != [] {
      PostorderFrame(k, k', cs[0]);
      PostorderAllFrame(k, k', cs[1..], after);
    }
  }

  // ---- what is left after a kill ---------------------------------------------------------------

  /** A freed pcb: out of the forest, off every queue, without a name. */
  function Buried(b: Pcb): Pcb {
    b.(parent := None, semAdd := None, pid := NULL_PID)
  }

  function TableWithout(pcb: seq<Pcb>, dead: set<nat>): seq<Pcb> {
    seq(|pcb|, i requires 0 <= i < |pcb| => if i in dead then Buried(pcb[i]) else pcb[i])
  }

  function KidsWithout(kids: seq<seq<nat>>, dead: set<nat>): seq<seq<nat>> {
    seq(|kids|, i requires 0 <= i < |kids| => if i in dead then [] else Minus(kids[i], dead))
  }

  /** The nucleus after the processes of `order` are killed one after the other. */
  function KillAll(k: State, order: seq<nat>): State {
    var dead := ToSet(order);
    k.(pcb := TableWithout(k.pcb, dead),
       free := Reverse(order) + k.free,
       hi := Minus(k.hi, dead),
       lo := Minus(k.lo, dead),
       blocked := QueuesWithout(k.blocked, dead),
       kids := KidsWithout(k.kids, dead),
       processCount := k.processCount - |order|,
       softblockCount := k.softblockCount - |Waiting(k) * dead|)
  }

  /** The tree of `r` killed, as kill_progeny does it. */
  ghost function KillTree(k: State, r: nat): State
    requires Forest(k) && Live(k, r)
  {
    KillAll(k, Postorder(k, r))
  }

  lemma QueuesNone(k: State)
    requires Fifo(k)
    ensures QueuesWithout(k.blocked, {}) == k.blocked
  {
    forall a | a in k.blocked ensures Minus(k.blocked[a], {}) == k.blocked[a] {
      MinusNone(k.blocked[a], {});
    }
    assert forall a :: a in QueuesWithout(k.blocked, {}) <==> a in k.blocked;
  }

  lemma KidsNone(kids: seq<seq<nat>>)
    ensures KidsWithout(kids, {}) == kids
  {
    forall i | 0 <= i < |kids| ensures KidsWithout(kids, {})[i] == kids[i] { MinusNone(kids[i], {}); }
    assert KidsWithout(kids, {}) == kids;
  }

  lemma KillNobody(k: State)
    requires Fifo(k)
    ensures KillAll(k, []) == k
  {
    assert ToSet<nat>([]) == {};
    assert TableWithout(k.pcb, {}) == k.pcb;
    MinusNone(k.hi, {});
    MinusNone(k.lo, {});
    QueuesNone(k);
    KidsNone(k.kids);
    assert Waiting(k) * {} == {};
  }

  lemma QueuesTwice(q: map<Key, seq<nat>>, a: set<nat>, b: set<nat>)
    ensures QueuesWithout(QueuesWithout(q, a), b) == QueuesWithout(q, a + b)
  {
    forall x | x in q ensures Minus(Minus(q[x], a), b) == Minus(q[x], a + b) {
      MinusMinus(q[x], a, b);
    }
  }

  lemma KidsTwice(kids: seq<seq<nat>>, a: set<nat>, b: set<nat>)
    ensures KidsWithout(KidsWithout(kids, a), b) == KidsWithout(kids, a + b)
  {
    forall i | 0 <= i < |kids| ensures Minus(Minus(kids[i], a), b) == Minus(kids[i], a + b) {
      MinusMinus(kids[i], a, b);
    }
  }

  lemma WaitingAfter(k: State, order: seq<nat>)
    ensures Waiting(KillAll(k, order)) == Waiting(k) - ToSet(order)
  {
  }

  lemma TableTwice(pcb: seq<Pcb>, a: set<nat>, b: set<nat>)
    ensures TableWithout(TableWithout(pcb, a), b) == TableWithout(pcb, a + b)
  {
  }

  lemma CountTwice(w: set<nat>, a: set<nat>, b: set<nat>)
    ensures |w * (a + b)| == |w * a| + |(w - a) * b|
  {
    assert w * (a + b) == w * a + (w - a) * b && (w * a) !! ((w - a) * b);
  }

  lemma FreedTwice(a: seq<nat>, b: seq<nat>, free: seq<nat>)
    ensures Reverse(b) + (Reverse(a) + free) == Reverse(a + b) + free
  {
    ReverseAppend(a, b);
  }

  /** Killing in two goes is killing in one. */
  lemma KillTwice(k: State, a: seq<nat>, b: seq<nat>)
    ensures KillAll(KillAll(k, a), b) == KillAll(k, a + b)
  {
    var d, e := ToSet(a), ToSet(b);
    assert ToSet(a + b) == d + e;
    TableTwice(k.pcb, d, e);
    FreedTwice(a, b, k.free);
    MinusMinus(k.hi, d, e);
    MinusMinus(k.lo, d, e);
    QueuesTwice(k.blocked, d, e);
    KidsTwice(k.kids, d, e);
    WaitingAfter(k, a);
    CountTwice(Waiting(k), d, e);
  }

  // ---- the invariant survives ------------------------------------------------------------------

  /** Whoever goes takes its children along. */
  ghost predicate Closed(k: State, order: seq<nat>) {
    && NoDup(order)
    && (forall x :: x in order ==> Live(k, x))
    && (forall x: nat :: Live(k, x) && k.pcb[x].parent.Some? && k.pcb[x].parent.value in order ==> x in order)
  }

  /** The survivors of a kill keep their pcbs. */
  lemma Survivors(k: State, order: seq<nat>)
    ensures forall i: nat :: Live(KillAll(k, order), i) <==> Live(k, i) && i !in order
    ensures forall i: nat :: i < |k.pcb| && i !in order ==> KillAll(k, order).pcb[i] == k.pcb[i]
  {
  }

  lemma KillOnLists(k: State, order: seq<nat>, cpu: Option<nat>)
    requires OnLists(k, cpu) && forall x :: x in order ==> Live(k, x)
    ensures OnLists(KillAll(k, order), cpu)
  {
    Survivors(k, order);
    ListsAfter(k, KillAll(k, order), order, cpu);
  }

  lemma ListsAfter(k: State, k': State, order: seq<nat>, cpu: Option<nat>)
    requires OnLists(k, cpu) && |k'.pcb| == |k.pcb| && forall x :: x in order ==> Live(k, x)
    requires k'.free == Reverse(order) + k.free
    requires k'.hi == Minus(k.hi, ToSet(order)) && k'.lo == Minus(k.lo, ToSet(order))
    requires forall i: nat :: Live(k', i) <==> Live(k, i) && i !in order
    requires forall i: nat :: i < |k.pcb| && i !in order ==> k'.pcb[i] == k.pcb[i]
    ensures OnLists(k', cpu)
  {
    forall i: nat
      ensures i in k'.free <==> i < |k.pcb| && !Live(k', i)
      ensures Runnable(k', i) <==> Runnable(k, i) && i !in order
    {
      assert i in Reverse(order) <==> i in order;
    }
  }

  lemma KillOnQueues(k: State, order: seq<nat>)
    requires OnQueues(k)
    ensures OnQueues(KillAll(k, order))
  {
    var k', dead := KillAll(k, order), ToSet(order);
    Survivors(k, order);
    QueuesAfter(k, k', order);
  }

  lemma QueuesAfter(k: State, k': State, order: seq<nat>)
    requires OnQueues(k) && k'.blocked == QueuesWithout(k.blocked, ToSet(order)) && |k'.pcb| == |k.pcb|
    requires forall i: nat :: Live(k', i) <==> Live(k, i) && i !in order
    requires forall i: nat :: i < |k.pcb| && i !in order ==> k'.pcb[i] == k.pcb[i]
    ensures OnQueues(k')
  {
    forall i: nat | Waits(k', i)
      ensures k'.pcb[i].semAdd.value in k'.blocked
    {
      assert Live(k', i) && i !in order;
      assert Waits(k, i) && k'.pcb[i] == k.pcb[i];
      var a := k.pcb[i].semAdd.value;
      assert a in k.blocked && i in k.blocked[a];
      assert i in Minus(k.blocked[a], ToSet(order));
    }
    forall a, i: nat | a in k'.blocked
      ensures i in k'.blocked[a] <==> Live(k', i) && k'.pcb[i].semAdd == Some(a)
    {
      assert i in k.blocked[a] <==> Live(k, i) && k.pcb[i].semAdd == Some(a);
    }
  }

  lemma KillFifo(k: State, order: seq<nat>, cpu: Option<nat>)
    requires OnLists(k, cpu) && Fifo(k) && NoDup(order) && forall x :: x in order ==> Live(k, x)
    ensures Fifo(KillAll(k, order))
  {
    var dead := ToSet(order);
    ReverseNoDup(order);
    NoDupAppend(Reverse(order), k.free);
    MinusNoDup(k.hi, dead);
    MinusNoDup(k.lo, dead);
    forall a | a in k.blocked ensures NoDup(Minus(k.blocked[a], dead)) {
      MinusNoDup(k.blocked[a], dead);
    }
  }

  lemma KillCounted(k: State, order: seq<nat>)
    requires Counted(k)
    ensures Counted(KillAll(k, order))
  {
    WaitingAfter(k, order);
    var w := Waiting(k);
    assert w == w * ToSet(order) + (w - ToSet(order));
  }

  lemma KillForest(k: State, order: seq<nat>)
    requires Forest(k) && Closed(k, order)
    ensures Forest(KillAll(k, order))
  {
    Survivors(k, order);
    ForestAfter(k, KillAll(k, order), order);
  }

  lemma ForestAfter(k: State, k': State, order: seq<nat>)
    requires Forest(k) && Closed(k, order)
    requires k'.kids == KidsWithout(k.kids, ToSet(order)) && |k'.pcb| == |k.pcb|
    requires k'.birth == k.birth && k'.spawned == k.spawned
    requires forall i: nat :: Live(k', i) <==> Live(k, i) && i !in order
    requires forall i: nat :: i < |k.pcb| && i !in order ==> k'.pcb[i] == k.pcb[i]
    ensures Forest(k')
  {
    forall p: nat | p < |k'.kids| ensures NoDup(k'.kids[p]) {
      MinusNoDup(k.kids[p], ToSet(order));
    }
    ParentsAfter(k, k', order);
    OffspringAfter(k, k', order);
  }

  /** A survivor's parent survives. */
  lemma ParentsAfter(k: State, k': State, order: seq<nat>)
    requires |k.birth| == |k.pcb| == |k'.pcb| && k'.birth == k.birth
    requires forall i: nat :: Live(k, i) && k.pcb[i].parent.Some? ==>
      Live(k, k.pcb[i].parent.value) && k.birth[k.pcb[i].parent.value] < k.birth[i]
    requires forall x: nat :: Live(k, x) && k.pcb[x].parent.Some? && k.pcb[x].parent.value in order ==> x in order
    requires forall i: nat :: Live(k', i) <==> Live(k, i) && i !in order
    requires forall i: nat :: i < |k.pcb| && i !in order ==> k'.pcb[i] == k.pcb[i]
    ensures forall i: nat :: Live(k', i) && k'.pcb[i].parent.Some? ==>
      Live(k', k'.pcb[i].parent.value) && k'.birth[k'.pcb[i].parent.value] < k'.birth[i]
  {
  }

  lemma OffspringAfter(k: State, k': State, order: seq<nat>)
    requires |k.kids| == |k.pcb| == |k'.pcb| && k'.kids == KidsWithout(k.kids, ToSet(order))
    requires forall p: nat, c: nat :: p < |k.kids| ==> (c in k.kids[p] <==> Live(k, c) && k.pcb[c].parent == Some(p))
    requires forall x: nat :: Live(k, x) && k.pcb[x].parent.Some? && k.pcb[x].parent.value in order ==> x in order
    requires forall i: nat :: Live(k', i) <==> Live(k, i) && i !in order
    requires forall i: nat :: i < |k.pcb| && i !in order ==> k'.pcb[i] == k.pcb[i]
    ensures forall p: nat, c: nat :: p < |k'.kids| ==> (c in k'.kids[p] <==> Live(k', c) && k'.pcb[c].parent == Some(p))
  {
    forall p: nat, c: nat | p < |k'.kids|
      ensures c in k'.kids[p] <==> Live(k', c) && k'.pcb[c].parent == Some(p)
    {
      assert c in k.kids[p] <==> Live(k, c) && k.pcb[c].parent == Some(p);
      KidAfter(k, k', order, p, c);
    }
  }

  lemma KidAfter(k: State, k': State, order: seq<nat>, p: nat, c: nat)
    requires p < |k.kids| && (c in k.kids[p] <==> Live(k, c) && k.pcb[c].parent == Some(p))
    requires Live(k, c) && k.pcb[c].parent == Some(p) && p in order ==> c in order
    requires k'.kids == KidsWithout(k.kids, ToSet(order)) && |k'.pcb| == |k.pcb|
    requires Live(k', c) <==> Live(k, c) && c !in order
    requires c < |k.pcb| && c !in order ==> k'.pcb[c] == k.pcb[c]
    ensures c in k'.kids[p] <==> Live(k', c) && k'.pcb[c].parent == Some(p)
  {
    if p in order {
      assert k'.kids[p] == [];
    } else {
      assert k'.kids[p] == Minus(k.kids[p], ToSet(order));
    }
  }

  lemma KillNamed(k: State, order: seq<nat>)
    requires Named(k)
    ensures Named(KillAll(k, order))
  {
    var k' := KillAll(k, order);
    assert forall i: nat :: Live(k', i) ==> Live(k, i) && k'.pcb[i] == k.pcb[i];
  }

  lemma KillKeeps(k: State, order: seq<nat>, cpu: Option<nat>)
    requires Core(k, cpu) && Closed(k, order)
    ensures Core(KillAll(k, order), cpu)
  {
    KillOnLists(k, order, cpu);
    KillOnQueues(k, order);
    KillFifo(k, order, cpu);
    KillCounted(k, order);
    KillForest(k, order);
    KillNamed(k, order);
  }

  lemma PostorderClosed(k: State, r: nat)
    requires Forest(k) && Live(k, r)
    ensures Closed(k, Postorder(k, r))
  {
    PostorderNoDup(k, r);
    PostorderMembers(k, r);
    forall x: nat | Live(k, x) && k.pcb[x].parent.Some? && k.pcb[x].parent.value in Postorder(k, r)
      ensures x in Postorder(k, r)
    {
      assert Descends(k, x, r);
    }
  }

  lemma KillTreeKeeps(k: State, r: nat, cpu: Option<nat>)
    requires Core(k, cpu) && Live(k, r)
    ensures Core(KillTree(k, r), cpu)
  {
    PostorderClosed(k, r);
    KillKeeps(k, Postorder(k, r), cpu);
  }

  lemma DetachKeeps(k: State, c: nat, cpu: Option<nat>)
    requires Core(k, cpu) && Live(k, c)
    ensures k.pcb[c].parent.Some? ==> k.pcb[c].parent.value < |k.kids|
    ensures Core(Detach(k, c), cpu)
  {
    if k.pcb[c].parent.Some? {
      var k' := Detach(k, c);
      DetachForest(k, c);
      OwnedFrame(k, k', cpu);
      assert Waiting(k') == Waiting(k) by {
        assert forall i: nat :: Waits(k', i) <==> Waits(k, i);
      }
      DetachNamed(k, c);
    }
  }

  lemma DetachNamed(k: State, c: nat)
    requires Named(k) && c < |k.pcb| && (k.pcb[c].parent.Some? ==> k.pcb[c].parent.value < |k.kids|)
    ensures Named(Detach(k, c))
  {
  }

  lemma DetachForest(k: State, c: nat)
    requires Forest(k) && Live(k, c) && k.pcb[c].parent.Some?
    ensures k.pcb[c].parent.value < |k.kids|
    ensures Forest(Detach(k, c))
  {
    var p := k.pcb[c].parent.value;
    assert Live(k, p);
    var k' := Detach(k, c);
    assert forall i: nat :: Live(k', i) <==> Live(k, i);
    MinusNoDup(k.kids[p], {c});
    forall q: nat, i: nat | q < |k'.kids|
      ensures i in k'.kids[q] <==> Live(k', i) && k'.pcb[i].parent == Some(q)
    {
      assert i in k.kids[q] <==> Live(k, i) && k.pcb[i].parent == Some(q);
    }
  }

  // ---- kill_progeny, one child at a time -------------------------------------------------------

  lemma KidsDetached(kids: seq<seq<nat>>, p: nat, c: nat, dead: set<nat>)
    requires p < |kids| && c in dead
    ensures KidsWithout(kids[p := Minus(kids[p], {c})], dead) == KidsWithout(kids, dead)
  {
    MinusMinus(kids[p], {c}, dead);
    assert {c} + dead == dead;
  }

  lemma TableDetached(pcb: seq<Pcb>, c: nat, dead: set<nat>)
    requires c < |pcb| && c in dead
    ensures TableWithout(pcb[c := pcb[c].(parent := None)], dead) == TableWithout(pcb, dead)
  {
  }

  /** Detaching a process that is killed anyway makes no difference. */
  lemma DetachThenKill(k: State, c: nat, order: seq<nat>)
    requires c < |k.pcb| && c in order
    requires k.pcb[c].parent.Some? ==> k.pcb[c].parent.value < |k.kids|
    ensures KillAll(Detach(k, c), order) == KillAll(k, order)
  {
    if k.pcb[c].parent.Some? {
      var k', dead := Detach(k, c), ToSet(order);
      TableDetached(k.pcb, c, dead);
      KidsDetached(k.kids, k.pcb[c].parent.value, c, dead);
      assert Waiting(k') == Waiting(k) by {
        assert forall i: nat :: Waits(k', i) <==> Waits(k, i);
      }
    }
  }

  /** The nucleus when kill_progeny(r) has dealt with the first `j` children of `r`. */
  ghost function AfterChildren(k: State, r: nat, j: nat): State
    requires Forest(k) && Live(k, r) && j <= |k.kids[r]|
  {
    KidsOf(k, r);
    KillAll(k, PostorderAll(k, k.kids[r][..j], k.birth[r]))
  }

  lemma KidsOf(k: State, r: nat)
    requires Forest(k) && Live(k, r)
    ensures Siblings(k, k.kids[r], r)
    ensures forall c :: c in k.kids[r] ==> Live(k, c) && k.birth[c] > k.birth[r]
  {
  }

  lemma ChildrenClosed(k: State, r: nat, j: nat)
    requires Forest(k) && Live(k, r) && j <= |k.kids[r]|
    ensures forall c :: c in k.kids[r][..j] ==> Live(k, c) && k.birth[c] > k.birth[r]
    ensures Closed(k, PostorderAll(k, k.kids[r][..j], k.birth[r]))
  {
    KidsOf(k, r);
    var cs := k.kids[r][..j];
    PostorderAllNoDup(k, cs, r);
    PostorderAllMembers(k, cs, k.birth[r]);
    var order := PostorderAll(k, cs, k.birth[r]);
    forall x: nat | Live(k, x) && k.pcb[x].parent.Some? && k.pcb[x].parent.value in order
      ensures x in order
    {
      var c :| c in cs && Descends(k, k.pcb[x].parent.value, c);
      assert Descends(k, x, c);
    }
  }

  /** Neither `r` itself nor the trees of its later children are touched by the first `j` kills. */
  lemma LaterUntouched(k: State, r: nat, j: nat, x: nat)
    requires Forest(k) && Live(k, r) && j < |k.kids[r]| && Live(k, x)
    requires x == r || exists i :: j <= i < |k.kids[r]| && Live(k, k.kids[r][i]) && Descends(k, x, k.kids[r][i])
    ensures forall c :: c in k.kids[r][..j] ==> Live(k, c) && k.birth[c] > k.birth[r]
    ensures x !in PostorderAll(k, k.kids[r][..j], k.birth[r])
  {
    ChildrenClosed(k, r, j);
    KidsOf(k, r);
    PostorderAllMembers(k, k.kids[r][..j], k.birth[r]);
    if x in PostorderAll(k, k.kids[r][..j], k.birth[r]) {
      var c :| c in k.kids[r][..j] && Descends(k, x, c);
      if x == r {
        DescendsIsYounger(k, r, c);
      } else {
        var i :| j <= i < |k.kids[r]| && Live(k, k.kids[r][i]) && Descends(k, x, k.kids[r][i]);
        SiblingsApart(k, x, r, c, k.kids[r][i]);
      }
    }
  }

  lemma KidsAfter(k: State, r: nat, j: nat)
    requires Forest(k) && Live(k, r) && j <= |k.kids[r]|
    ensures Live(AfterChildren(k, r, j), r) && AfterChildren(k, r, j).kids[r] == k.kids[r][j..]
  {
    KidsOf(k, r);
    var cs := k.kids[r];
    var order := PostorderAll(k, cs[..j], k.birth[r]);
    PostorderAllMembers(k, cs[..j], k.birth[r]);
    if r in order {
      var c :| c in cs[..j] && Descends(k, r, c);
      DescendsIsYounger(k, r, c);
    }
    Survivors(k, order);
    forall x | x in cs[j..] ensures x !in order {
      var i :| j <= i < |cs| && cs[i] == x;
      LaterUntouched(k, r, j, x);
    }
    forall x | x in cs[..j] ensures x in order {
      assert Descends(k, x, x);
    }
    MinusPrefix(cs, j, ToSet(order));
  }

  /** Nobody in the tree of a later child has a child among the first `j` trees. */
  lemma LaterKidsKept(k: State, r: nat, j: nat, x: nat, order: seq<nat>)
    requires Forest(k) && Live(k, r) && j < |k.kids[r]| && Live(k, k.kids[r][j])
    requires Live(k, x) && Descends(k, x, k.kids[r][j])
    requires forall c :: c in k.kids[r][..j] ==> Live(k, c) && k.birth[c] > k.birth[r]
    requires order == PostorderAll(k, k.kids[r][..j], k.birth[r])
    ensures x !in order && Minus(k.kids[x], ToSet(order)) == k.kids[x]
  {
    LaterUntouched(k, r, j, x);
    forall y | y in k.kids[x] ensures y !in ToSet(order) {
      assert Live(k, y) && k.pcb[y].parent == Some(x);
      assert Descends(k, y, k.kids[r][j]);
      LaterUntouched(k, r, j, y);
    }
    MinusNone(k.kids[x], ToSet(order));
  }

  /** The tree of a later child keeps its processes and their child lists. */
  lemma LaterTreeKept(k: State, r: nat, j: nat, x: nat)
    requires Forest(k) && Live(k, r) && j < |k.kids[r]| && Live(k, k.kids[r][j])
    requires Live(k, x) && Descends(k, x, k.kids[r][j])
    ensures x != r && Live(AfterChildren(k, r, j), x)
    ensures AfterChildren(k, r, j).kids[x] == k.kids[x] && AfterChildren(k, r, j).pcb[x] == k.pcb[x]
  {
    KidsOf(k, r);
    assert k.kids[r][j] in k.kids[r];
    DescendsIsYounger(k, x, k.kids[r][j]);
    var order := PostorderAll(k, k.kids[r][..j], k.birth[r]);
    Survivors(k, order);
    LaterKidsKept(k, r, j, x, order);
  }

  /** The child's tree, seen after the earlier children are gone and the child is detached, is as it was. */
  lemma ChildTreeKept(k: State, r: nat, j: nat, s: State, s1: State)
    requires Forest(k) && Live(k, r) && j < |k.kids[r]| && Live(k, k.kids[r][j])
    requires s == AfterChildren(k, r, j) && Forest(s1) && |s1.pcb| == |s.pcb|
    requires s1.birth == k.birth && s1.spawned == k.spawned
    requires forall x: nat :: x != r && Live(s, x) ==> Live(s1, x) && s1.kids[x] == s.kids[x]
    ensures Live(s1, k.kids[r][j]) && Postorder(s1, k.kids[r][j]) == Postorder(k, k.kids[r][j])
  {
    var c := k.kids[r][j];
    PostorderMembers(k, c);
    forall x | x in Postorder(k, c) && Live(k, x)
      ensures Live(s1, x) && s1.kids[x] == k.kids[x]
    {
      LaterTreeKept(k, r, j, x);
    }
    PostorderFrame(k, s1, c);
  }

  lemma NextChildReady(k: State, r: nat, j: nat, cpu: Option<nat>)
    requires Core(k, cpu) && Live(k, r) && j < |k.kids[r]|
    ensures var s, c := AfterChildren(k, r, j), k.kids[r][j];
      && Live(k, c) && Live(s, r) && Live(s, c) && s.pcb[c].parent == Some(r) && r < |s.kids|
      && s.kids[r] == k.kids[r][j..]
      && Core(s, cpu) && Core(Detach(s, c), cpu)
  {
    var s, c := AfterChildren(k, r, j), k.kids[r][j];
    KidsOf(k, r);
    assert c in k.kids[r];
    ChildrenClosed(k, r, j);
    KillKeeps(k, PostorderAll(k, k.kids[r][..j], k.birth[r]), cpu);
    KidsAfter(k, r, j);
    LaterTreeKept(k, r, j, c);
    DetachKeeps(s, c, cpu);
  }

  /** One turn of the loop in kill_progeny: detach the first remaining child and kill its tree. */
  lemma NextChild(k: State, r: nat, j: nat, cpu: Option<nat>)
    requires Core(k, cpu) && Live(k, r) && j < |k.kids[r]|
    ensures var s, c := AfterChildren(k, r, j), k.kids[r][j];
      && Live(s, c) && s.pcb[c].parent == Some(r) && r < |s.kids|
      && Core(Detach(s, c), cpu) && Live(Detach(s, c), c)
      && KillTree(Detach(s, c), c) == AfterChildren(k, r, j + 1)
  {
    NextChildReady(k, r, j, cpu);
    var s, c := AfterChildren(k, r, j), k.kids[r][j];
    ChildTreeKept(k, r, j, s, Detach(s, c));
    DetachThenKill(s, c, Postorder(k, c));
    OneMoreTree(k, r, j);
  }

  lemma OrderGrows(k: State, r: nat, j: nat)
    requires Forest(k) && Live(k, r) && j < |k.kids[r]|
    ensures Siblings(k, k.kids[r], r) && Live(k, k.kids[r][j])
    ensures forall c :: c in k.kids[r] ==> Live(k, c) && k.birth[c] > k.birth[r]
    ensures PostorderAll(k, k.kids[r][..j + 1], k.birth[r])
         == PostorderAll(k, k.kids[r][..j], k.birth[r]) + Postorder(k, k.kids[r][j])
  {
    var cs, c := k.kids[r], k.kids[r][j];
    KidsOf(k, r);
    assert c in cs;
    assert cs[..j + 1] == cs[..j] + [c];
    PostorderAllAppend(k, cs[..j], [c], k.birth[r]);
    assert PostorderAll(k, [c], k.birth[r]) == Postorder(k, c) + PostorderAll(k, [], k.birth[r]);
  }

  lemma OneMoreTree(k: State, r: nat, j: nat)
    requires Forest(k) && Live(k, r) && j < |k.kids[r]| && Live(k, k.kids[r][j])
    ensures KillAll(AfterChildren(k, r, j), Postorder(k, k.kids[r][j])) == AfterChildren(k, r, j + 1)
  {
    OrderGrows(k, r, j);
    KillTwice(k, PostorderAll(k, k.kids[r][..j], k.birth[r]), Postorder(k, k.kids[r][j]));
  }

  /** After the last child only `r` itself is left to kill. */
  lemma LastChild(k: State, r: nat, cpu: Option<nat>)
    requires Core(k, cpu) && Live(k, r)
    ensures var s := AfterChildren(k, r, |k.kids[r]|);
      && Core(s, cpu) && Live(s, r) && r < |s.kids| && s.kids[r] == [] && s.pcb[r] == k.pcb[r]
      && KillAll(s, [r]) == KillTree(k, r)
  {
    var cs := k.kids[r];
    KidsOf(k, r);
    ChildrenClosed(k, r, |cs|);
    KidsAfter(k, r, |cs|);
    assert cs[..|cs|] == cs;
    var order := PostorderAll(k, cs, k.birth[r]);
    KillKeeps(k, order, cpu);
    Survivors(k, order);
    KillTwice(k, order, [r]);
  }

  ghost predicate Detachable(k: State, c: nat) {
    c < |k.pcb| && (k.pcb[c].parent.Some? ==> k.pcb[c].parent.value < |k.kids|)
  }

  /** What is left of the child list after `j` children, and that its head can be detached. */
  lemma ChildrenLeft(k: State, r: nat, j: nat, cpu: Option<nat>)
    requires Core(k, cpu) && Live(k, r) && j <= |k.kids[r]|
    ensures var s := AfterChildren(k, r, j);
      Live(s, r) && r < |s.kids| && s.kids[r] == k.kids[r][j..] && |s.pcb| == |k.pcb|
    ensures j < |k.kids[r]| ==> var s, c := AfterChildren(k, r, j), k.kids[r][j];
      s.kids[r][0] == c && Live(s, c) && s.pcb[c].parent == Some(r) && Detachable(s, c)
  {
    KidsAfter(k, r, j);
    if j < |k.kids[r]| {
      NextChildReady(k, r, j, cpu);
    }
  }

  lemma NoChildYet(k: State, r: nat)
    requires Forest(k) && Fifo(k) && Live(k, r)
    ensures AfterChildren(k, r, 0) == k
  {
    assert k.kids[r][..0] == [];
    KillNobody(k);
  }

  lemma ChildIsYounger(k: State, r: nat, j: nat)
    requires Forest(k) && Live(k, r) && j < |k.kids[r]|
    ensures var c := k.kids[r][j];
      Live(k, c) && k.pcb[c].parent == Some(r) && k.birth[c] > k.birth[r] && k.spawned > k.birth[c] && Detachable(k, c)
  {
  }

  /** The state kill_progeny(r) is in between two kills: `j` children done, the next one, if any, detached. */
  ghost predicate Halfway(k: State, r: nat, j: nat, child: Option<nat>, now: State)
    requires Forest(k) && Live(k, r)
  {
    && j <= |k.kids[r]|
    && (child.None? <==> j == |k.kids[r]|)
    && (child.Some? ==> child.value == k.kids[r][j] && Detachable(AfterChildren(k, r, j), child.value))
    && now == if child.Some? then Detach(AfterChildren(k, r, j), child.value) else AfterChildren(k, r, j)
  }
}
