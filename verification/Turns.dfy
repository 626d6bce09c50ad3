/** First come, first served in the low ready queue, event by event and over runs of the machine. */
module Turns {
  import opened Options
  import opened Pid
  import opened Sequences
  import opened Kernel
  import opened Progeny
  import opened Steps
  import opened Scheduling
  import opened Runs
  import opened Fairness
  import opened Effects

  lemma {:induction false} AheadPrefix(s: seq<nat>, q: seq<nat>, x: nat)
    requires s <= q && x in s
    ensures x in q && Ahead(q, x) == Ahead(s, x)
  {
    assert q == s + q[|s|..];
    AheadAppend(s, q[|s|..], x);
  }

  /** Somebody who was waiting in the low queue has got the processor. */
  predicate LowPicked(k: State, k': State) { k'.active.Some? && k'.active.value in k.lo }

  /** `x`, waiting in the low queue of `k`, runs, or waits with no more ahead of it, one fewer if that queue was served. */
  ghost predicate Moves(k: State, k': State, x: nat)
    requires x in k.lo
  {
    k'.active == Some(x) || (x in k'.lo && Ahead(k'.lo, x) + (if LowPicked(k, k') then 1 else 0) <= Ahead(k.lo, x))
  }

  /** The low queue before the election starts with those of `s` who waited in `k` and survived. */
  ghost predicate Survived(k: State, k': State, s: seq<nat>, x: nat) {
    && x in k.lo && x in s && Ahead(s, x) <= Ahead(k.lo, x)
    && forall y :: y in k.lo && Live(k', y) ==> y in s
  }

  lemma ElectionMoves(k: State, k': State, s: seq<nat>, r: Ready, o: Outcome, x: nat)
    requires Survived(k, k', s, x) && s <= r.lo && Elects(r, k', o)
    requires k'.active.Some? && o.Dispatched? ==> Live(k', k'.active.value) && k'.active.value !in k'.lo
    ensures Moves(k, k', x)
  {
    AheadPrefix(s, r.lo, x);
    if r.hi == [] && r.lo[0] != x {
      assert k'.lo == r.lo[1..];
    }
  }

  lemma ContinuingMoves(k: State, k': State, r: Ready, o: Outcome, x: nat)
    requires x in k.lo && k.lo <= r.lo && Continues(k.active, r, k', o)
    requires k.active.Some? ==> k.active.value !in k.lo
    requires k'.active.Some? && o.Dispatched? ==> Live(k', k'.active.value) && k'.active.value !in k'.lo
    ensures Moves(k, k', x)
  {
    AheadPrefix(k.lo, r.lo, x);
    if k.active.None? {
      ElectionMoves(k, k', k.lo, r, o, x);
    }
  }

  lemma {:induction false} JoinAllExtends(r: Ready, pcb: seq<Pcb>, ps: seq<nat>)
    ensures r.lo <= JoinAll(r, pcb, ps).lo
    decreases |ps|
  {
    if ps != [] {
      JoinAllExtends(Join(r, ps[0] < |pcb| && pcb[ps[0]].prio, ps[0]), pcb, ps[1..]);
    }
  }

  lemma NextDispatches(k: State, e: Event)
    requires Stable(k) && Enabled(k, e) && !DevicePanic(k, e)
    ensures k.active.Some? ==> k.active.value !in k.lo
    ensures var (k', o) := Next(k, e);
      o.Dispatched? ==> k'.active.Some? && Live(k', k'.active.value) && k'.active.value !in k'.lo
  {
    if k.active.Some? {
      ActiveOffQueues(k);
    }
    var (k', o) := Next(k, e);
    if o.Dispatched? {
      StableFacts(k');
      ActiveOffQueues(k');
    }
  }

  lemma DeathMoves(k: State, k': State, r: nat, q: Ready, o: Outcome, x: nat)
    requires Forest(k) && Live(k, r) && Killed(k, k', r) && x in k.lo && Live(k', x)
    requires Left(k, r).lo <= q.lo && Elects(q, k', o)
    requires k'.active.Some? && o.Dispatched? ==> Live(k', k'.active.value) && k'.active.value !in k'.lo
    ensures Moves(k, k', x)
  {
    AheadMinus(k.lo, Tree(k, r), x);
    forall y | y in k.lo && Live(k', y) ensures y in Left(k, r).lo {
      assert Live(k, y) && !Descends(k, y, r);
    }
    ElectionMoves(k, k', Left(k, r).lo, q, o, x);
  }

  lemma YieldMoves(k: State, x: nat)
    requires Stable(k) && k.active.Some? && x in k.lo
    ensures Moves(k, Next(k, YieldCall).0, x)
  {
    YieldEffect(k);
    NextDispatches(k, YieldCall);
    var k', c := Next(k, YieldCall).0, k.active.value;
    if k.hi != [] {
      AheadPrefix(k.lo, k'.lo, x);
    } else if k.lo[0] != x {
      AheadPrefix(k.lo[1..], k'.lo, x);
    }
  }

  /** The events after which the running process goes on. */
  predicate IsQuiet(e: Event) { e == Ignored || e == ClockTick || e.Completion? || e.CreateCall? }

  lemma QuietMoves(k: State, e: Event, x: nat)
    requires Stable(k) && Enabled(k, e) && IsQuiet(e) && (e.CreateCall? ==> IsPlain(e)) && x in k.lo
    ensures Moves(k, Next(k, e).0, x)
  {
    NextDispatches(k, e);
    var (k', o) := Next(k, e);
    match e
    case Ignored =>
      IgnoredEffect(k);
      ContinuingMoves(k, k', Queues(k), o, x);
    case ClockTick =>
      ClockEffect(k);
      JoinAllExtends(Queues(k), k.pcb, Queue(k, k.timer));
      ContinuingMoves(k, k', if Value(k, k.timer) == 0 then JoinAll(Queues(k), k.pcb, Queue(k, k.timer)) else Queues(k), o, x);
    case Completion(device) =>
      CompletionEffect(k, device);
      var t := Queue(k, device)[0];
      ContinuingMoves(k, k', Join(Queues(k), k.pcb[t].prio, t), o, x);
    case CreateCall(prio, _, support) =>
      CreateEffect(k, prio, support);
      if k.free != [] {
        ContinuingMoves(k, k', Join(Queues(k), prio == 1, k.free[0]), o, x);
      }
  }

  lemma AllSurvive(k: State, k': State, x: nat)
    requires x in k.lo
    ensures Survived(k, k', k.lo, x)
  {
  }

  lemma PMoves(k: State, e: Event, a: Key, x: nat)
    requires Stable(k) && IsP(k, e, a) && x in k.lo
    ensures Enabled(k, e) && !DevicePanic(k, e) && Moves(k, Next(k, e).0, x)
  {
    PHandled(k, e, a);
    NextDispatches(k, e);
    PEffect(k, e, a);
    OperationMoves(k, Next(k, e).0, Next(k, e).1, Value(k, a) == 0, a, x);
  }

  lemma VMoves(k: State, a: Key, x: nat)
    requires Stable(k) && k.active.Some? && x in k.lo
    ensures Moves(k, Next(k, VerhogenCall(Some(a))).0, x)
  {
    var e := VerhogenCall(Some(a));
    NextDispatches(k, e);
    VEffect(k, a);
    OperationMoves(k, Next(k, e).0, Next(k, e).1, Value(k, a) == 1, a, x);
  }

  /** After a P or V the caller is blocked, or a woken waiter, if there is one, and the caller have joined their queues. */
  lemma OperationMoves(k: State, k': State, o: Outcome, blocks: bool, a: Key, x: nat)
    requires x in k.lo && k.active.Some? && k.active.value < |k.pcb| && (Queue(k, a) != [] ==> Queue(k, a)[0] < |k.pcb|)
    requires k'.active.Some? && o.Dispatched? ==> Live(k', k'.active.value) && k'.active.value !in k'.lo
    requires var c := k.active.value;
      var q := if blocks then Queues(k)
        else if Queue(k, a) == [] then Join(Queues(k), k.pcb[c].prio, c)
        else Join(Join(Queues(k), k.pcb[Queue(k, a)[0]].prio, Queue(k, a)[0]), k.pcb[c].prio, c);
      Elects(q, k', o)
    ensures Moves(k, k', x)
  {
    var c := k.active.value;
    AllSurvive(k, k', x);
    if blocks {
      ElectionMoves(k, k', k.lo, Queues(k), o, x);
    } else if Queue(k, a) == [] {
      ElectionMoves(k, k', k.lo, Join(Queues(k), k.pcb[c].prio, c), o, x);
    } else {
      var t := Queue(k, a)[0];
      ElectionMoves(k, k', k.lo, Join(Join(Queues(k), k.pcb[t].prio, t), k.pcb[c].prio, c), o, x);
    }
  }

  lemma SliceMoves(k: State, e: Event, x: nat)
    requires Stable(k) && (e == TimeSlice || (e == InquiryCall && k.active.Some?)) && x in k.lo
    ensures Moves(k, Next(k, e).0, x)
  {
    NextDispatches(k, e);
    SliceEffect(k, e);
    AllSurvive(k, Next(k, e).0, x);
    var q := if k.active.Some? then Join(Queues(k), k.pcb[k.active.value].prio, k.active.value) else Queues(k);
    ElectionMoves(k, Next(k, e).0, k.lo, q, Next(k, e).1, x);
  }

  lemma RefusedMoves(k: State, e: Event, x: nat)
    requires Stable(k) && Refused(k, e) && x in k.lo
    ensures Enabled(k, e) && !DevicePanic(k, e)
    ensures !Live(Next(k, e).0, x) || Moves(k, Next(k, e).0, x)
  {
    StableFacts(k);
    RefusedEffect(k, e);
    NextDispatches(k, e);
    var (k', o) := Next(k, e);
    var c := k.active.value;
    if !k.pcb[c].support && Live(k', x) {
      DeathMoves(k, k', c, Left(k, c), o, x);
    }
  }

  lemma TerminateMoves(k: State, pid: Word, r: nat, x: nat)
    requires Stable(k) && Names(k, pid, r) && x in k.lo
    ensures !Live(Next(k, TerminateCall(pid)).0, x) || Moves(k, Next(k, TerminateCall(pid)).0, x)
  {
    StableFacts(k);
    TerminateEffect(k, pid, r);
    NextDispatches(k, TerminateCall(pid));
    var (k', o) := Next(k, TerminateCall(pid));
    var c := k.active.value;
    if Live(k', x) {
      DeathMoves(k, k', r, if Descends(k, c, r) then Left(k, r) else Join(Left(k, r), k.pcb[c].prio, c), o, x);
    }
  }

  /** A low-priority process in the queue runs, dies, or moves up by one whenever somebody from it is dispatched. */
  lemma LowAdvances(k: State, e: Event, x: nat)
    requires Stable(k) && Enabled(k, e) && !DevicePanic(k, e) && x in k.lo
    ensures !Live(Next(k, e).0, x) || Moves(k, Next(k, e).0, x)
  {
    EveryEventHasItsEffect(k, e);
    if Refused(k, e) {
      RefusedMoves(k, e, x);
    } else if a :| IsP(k, e, a) {
      PMoves(k, e, a, x);
    } else if e.TerminateCall? {
      var r :| Names(k, e.pid, r);
      TerminateMoves(k, e.pid, r, x);
    } else if e.VerhogenCall? {
      VMoves(k, e.sem.value, x);
    } else if IsQuiet(e) {
      QuietMoves(k, e, x);
    } else if e == YieldCall {
      YieldMoves(k, x);
    } else {
      SliceMoves(k, e, x);
    }
  }

  /** `x` is in the low queue before every event of the run and after the last. */
  ghost predicate WaitsLow(k: State, o: Outcome, es: seq<Event>, x: nat)
    requires Scheduled(k, o)
    decreases |es|
  {
    && Stable(k) && x in k.lo
    && (es == [] || o.Halts?
        || if !Enabled(k, es[0]) then WaitsLow(k, o, es[1..], x)
           else DevicePanic(k, es[0]) || WaitsLow(Next(k, es[0]).0, Next(k, es[0]).1, es[1..], x))
  }

  /** How often somebody from the low queue is dispatched in a run. */
  ghost function LowPicks(k: State, o: Outcome, es: seq<Event>): nat
    requires Scheduled(k, o)
    decreases |es|
  {
    if es == [] || o.Halts? || !Stable(k) then 0
    else if !Enabled(k, es[0]) then LowPicks(k, o, es[1..])
    else if DevicePanic(k, es[0]) then 0
    else (if LowPicked(k, Next(k, es[0]).0) then 1 else 0) + LowPicks(Next(k, es[0]).0, Next(k, es[0]).1, es[1..])
  }

  /**
   No low-priority process is overtaken by another: one that has `n` others ahead of it sees at most `n`
   dispatches from the low queue while it waits there, whatever else happens.
   */
  lemma {:induction false} LowBoundedWait(k: State, o: Outcome, es: seq<Event>, x: nat)
    requires Scheduled(k, o) && WaitsLow(k, o, es, x)
    ensures LowPicks(k, o, es) <= Ahead(k.lo, x)
    decreases |es|
  {
    if es == [] || o.Halts? {
    } else if !Enabled(k, es[0]) {
      LowBoundedWait(k, o, es[1..], x);
    } else if !DevicePanic(k, es[0]) {
      LowAdvances(k, es[0], x);
      var k', o' := Next(k, es[0]).0, Next(k, es[0]).1;
      WaitingIsLive(k', x);
      LowBoundedWait(k', o', es[1..], x);
    }
  }

  lemma WaitingIsLive(k: State, x: nat)
    requires Stable(k) && x in k.lo
    ensures Live(k, x) && k.active != Some(x)
  {
  }
}
