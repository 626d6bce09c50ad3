/** The order in which processes get the processor, over runs of the machine. */
module Fairness {
  import opened Options
  import Pid
  import opened Sequences
  import opened Kernel
  import opened Progeny
  import opened Steps
  import opened Semaphores
  import opened Scheduling
  import opened Runs

  /** How many are ahead of `x`. */
  function Ahead(s: seq<nat>, x: nat): (r: nat)
    requires x in s
    ensures r < |s| && s[r] == x
  {
    if s[0] == x then 0 else 1 + Ahead(s[1..], x)
  }

  lemma {:induction false} AheadAppend(s: seq<nat>, t: seq<nat>, x: nat)
    requires x in s
    ensures x in s + t && Ahead(s + t, x) == Ahead(s, x)
  {
    if s[0] != x {
      assert (s + t)[1..] == s[1..] + t;
      AheadAppend(s[1..], t, x);
    }
  }

  lemma {:induction false} AheadMinus(s: seq<nat>, dead: set<nat>, x: nat)
    requires x in s && x !in dead
    ensures x in Minus(s, dead) && Ahead(Minus(s, dead), x) <= Ahead(s, x)
  {
    if s[0] != x {
      AheadMinus(s[1..], dead, x);
    }
  }

  /** The queue moves up by one when its head leaves. */
  lemma HeadGone(s: seq<nat>, x: nat)
    requires NoDup(s) && x in s && x != s[0]
    ensures x in Minus(s, {s[0]}) && Ahead(Minus(s, {s[0]}), x) == Ahead(s, x) - 1
  {
    MinusAt(s, 0);
    assert Minus(s, {s[0]}) == s[1..];
  }

  /** `x` keeps its place in the high queue or moves up, or it is dead. */
  ghost predicate KeepsPlace(s: seq<nat>, k': State, x: nat)
    requires x in s
  {
    !Live(k', x) || (x in k'.hi && Ahead(k'.hi, x) <= Ahead(s, x))
  }

  lemma WakeKeepsPlace(k: State, a: Key, x: nat)
    requires x in k.hi && Queue(k, a) != [] && Queue(k, a)[0] < |k.pcb|
    ensures x in Wake(k, a).hi && Ahead(Wake(k, a).hi, x) == Ahead(k.hi, x)
  {
    AheadAppend(k.hi, [Queue(k, a)[0]], x);
  }

  lemma KillKeepsPlace(k: State, r: nat, x: nat)
    requires Forest(k) && Live(k, r) && x in k.hi
    ensures KeepsPlace(k.hi, KillTree(k, r), x)
  {
    var order := Postorder(k, r);
    Survivors(k, order);
    if x !in order {
      AheadMinus(k.hi, ToSet(order), x);
    }
  }

  lemma PassUpKeepsPlace(k: State, x: nat)
    requires Stable(k) && x in k.hi
    ensures PassUpOrDie(k).Handled? && KeepsPlace(k.hi, PassUpOrDie(k).k, x)
  {
    if k.active.Some? && !k.pcb[k.active.value].support {
      KillKeepsPlace(k, k.active.value, x);
    }
  }

  lemma {:induction false} TickKeepsPlace(k: State, cpu: Option<nat>, x: nat)
    requires Fit(k, cpu) && 0 <= Value(k, k.timer) <= 1 && x in k.hi
    ensures forall i :: i in Queue(k, k.timer) ==> i < |k.pcb|
    ensures x in Tick(k).hi && Ahead(Tick(k).hi, x) == Ahead(k.hi, x)
    decreases |Queue(k, k.timer)|
  {
    TickReady(k, cpu);
    if Value(k, k.timer) == 0 {
      if Queue(k, k.timer) == [] {
        TickOnce(k);
      } else {
        TickStep(k, cpu);
        WakeKeepsPlace(k, k.timer, x);
        TickKeepsPlace(Wake(k, k.timer), cpu, x);
      }
    }
  }

  lemma CreateKeepsPlace(k: State, prio: bool, support: bool, x: nat)
    requires Stable(k) && k.active.Some? && x in k.hi
    ensures KeepsPlace(k.hi, Created(k, prio, support), x)
  {
    if k.free != [] {
      AheadAppend(k.hi, [k.free[0]], x);
      CreatedHigh(k, prio, support);
    }
  }

  lemma CreatedHigh(k: State, prio: bool, support: bool)
    requires Stable(k) && k.active.Some? && k.free != []
    ensures Created(k, prio, support).hi == if prio then k.hi + [k.free[0]] else k.hi
  {
    SpawnKeeps(k, prio, k.active);
  }

  lemma PKeepsPlace(k: State, a: Key, p: nat, x: nat)
    requires Wakeable(k) && p < |k.pcb| && Unready(k, p) == k && x in k.hi && k.pcb[p].semAdd.None?
    ensures P(k, Some(a), Some(p)).Handled? && KeepsPlace(k.hi, P(k, Some(a), Some(p)).k, x)
  {
    if DecideP(Value(k, a), Queue(k, a) != []).Wakes? {
      WakeKeepsPlace(k, a, x);
    }
  }

  lemma VKeepsPlace(k: State, a: Key, x: nat)
    requires Wakeable(k) && x in k.hi && (k.active.Some? ==> k.active.value < |k.pcb| && Unready(k, k.active.value) == k)
    ensures KeepsPlace(k.hi, V(k, Some(a)).0, x)
  {
    if DecideV(Value(k, a), Queue(k, a) != []).Wakes? {
      WakeKeepsPlace(k, a, x);
    }
  }

  lemma TerminateKeepsPlace(k: State, pid: Pid.Word, x: nat)
    requires Stable(k) && k.active.Some? && x in k.hi
    ensures TerminateProcess(k, pid).Handled? && KeepsPlace(k.hi, TerminateProcess(k, pid).k, x)
  {
    if pid == 0 {
      KillKeepsPlace(k, k.active.value, x);
    } else if FindProcess(k, pid).Some? {
      FoundIsLive(k, pid);
      KillKeepsPlace(k, FindProcess(k, pid).value, x);
    } else {
      PassUpKeepsPlace(k, x);
    }
  }

  lemma ProcessHandlerKeepsPlace(k: State, e: Event, x: nat)
    requires Stable(k) && k.active.Some? && IsCall(e) && !IsSemaphoreCall(e) && x in k.hi
    ensures HandleProcessCall(k, e).Handled? && KeepsPlace(k.hi, HandleProcessCall(k, e).k, x)
  {
    match e
    case CreateCall(prio, given, support) =>
      if (prio != 0 && prio != 1) || !given {
        PassUpKeepsPlace(k, x);
      } else {
        CreateKeepsPlace(k, prio == 1, support, x);
      }
    case TerminateCall(pid) => TerminateKeepsPlace(k, pid, x);
    case YieldCall => SameQueueKeepsPlace(k, k.(yielder := k.active), x);
    case InquiryCall => SameQueueKeepsPlace(k, k, x);
    case Fault => PassUpKeepsPlace(k, x);
  }

  lemma SameQueueKeepsPlace(k: State, k': State, x: nat)
    requires k'.hi == k.hi && x in k.hi
    ensures KeepsPlace(k.hi, k', x)
  {
  }

  lemma SemaphoreHandlerKeepsPlace(k: State, e: Event, x: nat)
    requires Stable(k) && k.active.Some? && IsSemaphoreCall(e) && !DevicePanic(k, e) && x in k.hi
    ensures HandleSemaphoreCall(k, e).Handled? && KeepsPlace(k.hi, HandleSemaphoreCall(k, e).k, x)
  {
    StableWakeable(k, k.active);
    UnreadyNone(k, k.active.value);
    PassUpKeepsPlace(k, x);
    match e
    case PasserenCall(sem) => if sem.Some? { PKeepsPlace(k, sem.value, k.active.value, x); }
    case VerhogenCall(sem) => if sem.Some? { VKeepsPlace(k, sem.value, x); }
    case DoIoCall(command) => if command.Some? { PKeepsPlace(k, command.value, k.active.value, x); }
    case ClockWaitCall => PKeepsPlace(k, k.timer, k.active.value, x);
  }

  lemma InterruptHandlerKeepsPlace(k: State, e: Event, x: nat)
    requires Stable(k) && Enabled(k, e) && !IsCall(e) && x in k.hi
    ensures KeepsPlace(k.hi, HandleInterrupt(k, e).k, x)
  {
    if e.ClockTick? {
      TickKeepsPlace(k, k.active, x);
    } else if e.Completion? {
      StableWakeable(k, k.active);
      if k.active.Some? {
        UnreadyNone(k, k.active.value);
      }
      VKeepsPlace(k, e.device, x);
    }
  }

  lemma HandlerKeepsPlace(k: State, e: Event, x: nat)
    requires Stable(k) && Enabled(k, e) && !DevicePanic(k, e) && x in k.hi
    ensures Handle(k, e).Handled? && KeepsPlace(k.hi, Handle(k, e).k, x)
  {
    if !IsCall(e) {
      InterruptHandlerKeepsPlace(k, e, x);
    } else if IsSemaphoreCall(e) {
      SemaphoreHandlerKeepsPlace(k, e, x);
    } else {
      ProcessHandlerKeepsPlace(k, e, x);
    }
  }

  // ---- the scheduler's choice ------------------------------------------------------------------

  /** The state in which the scheduler selects: after an enqueued process has joined its queue. */
  function Queued(k: State, c: Control): State
    requires c.pcb.Some? ==> c.pcb.value < |k.pcb|
  {
    if c.enqueue && c.pcb.Some? then Enqueue(k, c.pcb.value) else k
  }

  predicate Preserves(c: Control) { c.pcb.Some? && !c.enqueue }

  /** The scheduler takes the head of the high queue. */
  predicate PicksHigh(k: State, c: Control)
    requires c.pcb.Some? ==> c.pcb.value < |k.pcb|
  {
    !Preserves(c) && Queued(k, c).hi != []
  }

  lemma RequeueKeepsPlace(k: State, x: nat)
    requires x in k.hi && (k.yielder.Some? ==> k.yielder.value < |k.pcb|)
    ensures x in Requeue(k).hi && Ahead(Requeue(k).hi, x) == Ahead(k.hi, x) && Requeue(k).active == k.active
  {
    if k.yielder.Some? {
      AheadAppend(k.hi, [k.yielder.value], x);
    }
  }

  ghost predicate Advances(s: seq<nat>, k': State, x: nat, step: nat)
    requires x in s
  {
    k'.active == Some(x) || (x in k'.hi && Ahead(k'.hi, x) + step <= Ahead(s, x))
  }

  lemma SelectAdvances(k: State, x: nat)
    requires x in k.hi && NoDup(k.hi) && (k.yielder.Some? ==> k.yielder.value < |k.pcb|)
    requires forall i :: i in k.hi || i in k.lo ==> i < |k.pcb|
    ensures Select(k).1 == Dispatched && Advances(k.hi, Requeue(Select(k).0), x, 1)
  {
    if x != k.hi[0] {
      HeadGone(k.hi, x);
      RequeueKeepsPlace(Select(k).0, x);
    }
  }

  lemma ScheduleAdvances(k: State, c: Control, x: nat)
    requires Schedulable(k, c) && x in k.hi
    ensures forall i :: i in k.hi || i in k.lo ==> i < |k.pcb|
    ensures Schedule(k, c).1 == Dispatched
    ensures Advances(k.hi, Schedule(k, c).0, x, if PicksHigh(k, c) then 1 else 0)
  {
    ReadyInTable(k, OffList(k, c));
    if Preserves(c) {
      RequeueKeepsPlace(k.(active := c.pcb), x);
    } else if c.pcb.Some? {
      EnqueueKeeps(k, c.pcb.value);
      ReadyInTable(Queued(k, c), None);
      AheadAppend(k.hi, [c.pcb.value], x);
      SelectAdvances(Queued(k, c), x);
    } else {
      SelectAdvances(k, x);
    }
  }

  /** Does this event end with the head of the high queue being picked? */
  ghost predicate HighPick(k: State, e: Event)
    requires Stable(k) && Enabled(k, e) && !DevicePanic(k, e)
  {
    HandleSound(k, e);
    PicksHigh(Handle(k, e).k, Handle(k, e).control)
  }

  /** A high-priority process in the queue runs, dies, or moves up by one with every pick from it. */
  lemma EventAdvances(k: State, e: Event, x: nat)
    requires Stable(k) && Enabled(k, e) && !DevicePanic(k, e) && x in k.hi
    ensures var k' := Next(k, e).0; !Live(k', x) || Advances(k.hi, k', x, if HighPick(k, e) then 1 else 0)
  {
    HandlerKeepsPlace(k, e, x);
    HandleSound(k, e);
    var h, c := Handle(k, e).k, Handle(k, e).control;
    if Live(h, x) {
      ScheduleAdvances(h, c, x);
    } else {
      DeadStaysDead(h, c, x);
    }
  }

  lemma DeadStaysDead(k: State, c: Control, x: nat)
    requires Schedulable(k, c) && !Live(k, x)
    ensures forall i :: i in k.hi || i in k.lo ==> i < |k.pcb|
    ensures !Live(Schedule(k, c).0, x)
  {
    ReadyInTable(k, OffList(k, c));
    SchedulePcbs(k, c);
  }

  lemma SchedulePcbs(k: State, c: Control)
    requires forall i :: i in k.hi || i in k.lo ==> i < |k.pcb|
    requires c.pcb.Some? ==> c.pcb.value < |k.pcb|
    requires k.yielder.Some? ==> k.yielder.value < |k.pcb|
    ensures Schedule(k, c).0.pcb == k.pcb
  {
    assert Queued(k, c).pcb == k.pcb;
    assert Select(Queued(k, c)).0.pcb == k.pcb;
  }

  /** `x` is in the high queue before every event of the run and after the last. */
  ghost predicate WaitsThrough(k: State, o: Outcome, es: seq<Event>, x: nat)
    requires Scheduled(k, o)
    decreases |es|
  {
    && Stable(k) && x in k.hi
    && (es == [] || o.Halts?
        || if !Enabled(k, es[0]) then WaitsThrough(k, o, es[1..], x)
           else DevicePanic(k, es[0]) || WaitsThrough(Next(k, es[0]).0, Next(k, es[0]).1, es[1..], x))
  }

  /** How often the head of the high queue is picked in a run. */
  ghost function HighPicks(k: State, o: Outcome, es: seq<Event>): nat
    requires Scheduled(k, o)
    decreases |es|
  {
    if es == [] || o.Halts? || !Stable(k) then 0
    else if !Enabled(k, es[0]) then HighPicks(k, o, es[1..])
    else if DevicePanic(k, es[0]) then 0
    else (if HighPick(k, es[0]) then 1 else 0) + HighPicks(Next(k, es[0]).0, Next(k, es[0]).1, es[1..])
  }

  /**
   No high-priority process is overtaken: one that has `n` others ahead of it sees at most `n` picks
   from the high queue while it waits there, whatever else happens.
   */
  lemma {:induction false} BoundedWait(k: State, o: Outcome, es: seq<Event>, x: nat)
    requires Scheduled(k, o) && WaitsThrough(k, o, es, x)
    ensures HighPicks(k, o, es) <= Ahead(k.hi, x)
    decreases |es|
  {
    if es == [] || o.Halts? {
    } else if !Enabled(k, es[0]) {
      BoundedWait(k, o, es[1..], x);
    } else if !DevicePanic(k, es[0]) {
      EventAdvances(k, es[0], x);
      var k', o' := Next(k, es[0]).0, Next(k, es[0]).1;
      QueuedIsNotRunning(k', x);
      BoundedWait(k', o', es[1..], x);
    }
  }

  lemma QueuedIsNotRunning(k: State, x: nat)
    requires Stable(k) && x in k.hi
    ensures Live(k, x) && k.active != Some(x)
  {
  }

  /** From `k` on, a low-priority process got the processor. */
  predicate PicksLow(k: State, k': State, o: Outcome) {
    o == Dispatched && k'.active.Some? && k'.active.value < |k.pcb| && !k.pcb[k'.active.value].prio
  }

  ghost predicate OnlyYielder(k: State, s: seq<nat>) {
    forall i :: i in s ==> k.yielder == Some(i)
  }

  lemma SelectLow(k: State)
    requires forall j :: j in k.hi ==> j < |k.pcb| && k.pcb[j].prio
    requires forall j :: j in k.lo ==> j < |k.pcb|
    requires k.yielder.Some? ==> k.yielder.value < |k.pcb|
    ensures PicksLow(k, Select(k).0, Select(k).1) ==> OnlyYielder(k, Requeue(Select(k).0).hi)
  {
  }

  lemma HighAreHigh(k: State, cpu: Option<nat>)
    requires Core(k, cpu)
    ensures forall j :: j in k.hi ==> j < |k.pcb| && k.pcb[j].prio
    ensures forall j :: j in k.lo ==> j < |k.pcb|
  {
  }

  /**
   A low-priority process is selected only when no high-priority one is ready, except one that
   yielded in this very event.
   */
  lemma LowOnlyWithoutHigh(k: State, c: Control)
    requires Schedulable(k, c) && !Preserves(c)
    ensures forall j :: j in k.hi || j in k.lo ==> j < |k.pcb|
    ensures PicksLow(k, Schedule(k, c).0, Schedule(k, c).1) ==> OnlyYielder(k, Schedule(k, c).0.hi)
  {
    ReadyInTable(k, OffList(k, c));
    if c.pcb.Some? {
      EnqueueKeeps(k, c.pcb.value);
      LowSelected(Enqueue(k, c.pcb.value), None);
    } else {
      LowSelected(k, k.yielder);
    }
  }

  lemma LowSelected(k: State, cpu: Option<nat>)
    requires Core(k, cpu) && (k.yielder.Some? ==> k.yielder.value < |k.pcb|)
    ensures forall j :: j in k.hi || j in k.lo ==> j < |k.pcb|
    ensures PicksLow(k, Select(k).0, Select(k).1) ==> OnlyYielder(k, Requeue(Select(k).0).hi)
  {
    HighAreHigh(k, cpu);
    SelectLow(k);
  }

  lemma ProcessCallHandled(k: State, e: Event)
    requires Stable(k) && Enabled(k, e) && IsCall(e) && !IsSemaphoreCall(e)
    ensures !DevicePanic(k, e) && Handle(k, e) == HandleProcessCall(k, e)
  {
  }

  lemma HandledYield(k: State)
    requires Stable(k) && k.active.Some?
    ensures !DevicePanic(k, YieldCall) && Handle(k, YieldCall) == Handled(k.(yielder := k.active), BLOCK)
  {
    ProcessCallHandled(k, YieldCall);
    assert HandleProcessCall(k, YieldCall) == Handled(k.(yielder := k.active), BLOCK);
  }

  lemma NextOf(k: State, e: Event, h: State, c: Control)
    requires Stable(k) && Enabled(k, e) && !DevicePanic(k, e) && Handle(k, e) == Handled(h, c)
    requires (forall i :: i in h.hi || i in h.lo ==> i < |h.pcb|) && (c.pcb.Some? ==> c.pcb.value < |h.pcb|)
    requires h.yielder.Some? ==> h.yielder.value < |h.pcb|
    ensures Next(k, e) == Schedule(h, c)
  {
  }

  lemma NextYield(k: State)
    requires Stable(k) && k.active.Some?
    ensures var h := k.(yielder := k.active);
      (forall i :: i in h.hi || i in h.lo ==> i < |h.pcb|) && k.active.value < |k.pcb|
      && Next(k, YieldCall) == Schedule(h, BLOCK)
  {
    ReadyInTable(k, k.active);
    HandledYield(k);
    NextOf(k, YieldCall, k.(yielder := k.active), BLOCK);
  }

  lemma YieldedSelect(h: State)
    requires (forall i :: i in h.hi || i in h.lo ==> i < |h.pcb|) && h.yielder.Some? && h.yielder.value < |h.pcb|
    requires (h.hi != [] ==> Some(h.hi[0]) != h.yielder) && (h.lo != [] ==> Some(h.lo[0]) != h.yielder)
    ensures Schedule(h, BLOCK).1 == Dispatched
    ensures Schedule(h, BLOCK).0.active == h.yielder <==> h.hi == [] && h.lo == []
  {
  }

  lemma ReadyIsNotActive(k: State)
    requires Stable(k) && k.active.Some?
    ensures (k.hi != [] ==> Some(k.hi[0]) != k.active) && (k.lo != [] ==> Some(k.lo[0]) != k.active)
  {
    YieldHead(k, k.active.value);
  }

  /** A process that yields keeps the processor exactly when nobody else is ready. */
  lemma YielderKeepsIffAlone(k: State)
    requires Stable(k) && k.active.Some?
    ensures Next(k, YieldCall).1 == Dispatched
    ensures Next(k, YieldCall).0.active == k.active <==> k.hi == [] && k.lo == []
  {
    NextYield(k);
    ReadyIsNotActive(k);
    YieldedSelect(k.(yielder := k.active));
  }
}
