/**
 What schedule does with the state a handler leaves, and what holds in every run of the machine.
 */
module Scheduling {
  import opened Options
  import opened Pid
  import opened Sequences
  import opened Kernel
  import opened Progeny
  import opened Steps

  /** What schedule promises for each of its ways out; the deadlock panic is not among them. */
  ghost predicate Scheduled(k: State, o: Outcome) {
    match o
    case Dispatched => Stable(k) && k.active.Some?
    case Idles => Stable(k) && k.active.None? && k.processCount == k.softblockCount > 0
    case Halts => k.processCount == 0 && k.softblockCount == 0 && forall i: nat :: !Live(k, i)
    case Deadlocks => false
  }

  lemma NoneReady(k: State)
    requires OnLists(k, None) && k.hi == [] && k.lo == []
    ensures forall i: nat :: !Runnable(k, i)
  {
  }

  /** Every slot is free, ready, waiting, or running. */
  lemma EverySlotSomewhere(k: State)
    requires OnLists(k, None) && k.hi == [] && k.lo == []
    ensures Below(|k.pcb|) == ToSet(k.free) + Waiting(k) && ToSet(k.free) !! Waiting(k)
  {
  }

  /** With nobody ready and nobody running, every process waits on a semaphore. */
  lemma AllWait(k: State)
    requires Core(k, None) && k.hi == [] && k.lo == []
    ensures k.processCount == k.softblockCount
    ensures k.processCount == 0 ==> forall i: nat :: !Live(k, i)
  {
    EverySlotSomewhere(k);
    NoDupCardinality(k.free);
    if k.processCount == 0 {
      assert Waiting(k) == {};
      NoneLive(k);
    }
  }

  lemma NoneLive(k: State)
    requires OnLists(k, None) && k.hi == [] && k.lo == [] && Waiting(k) == {}
    ensures forall i: nat :: !Live(k, i)
  {
    NoneReady(k);
    forall i: nat ensures !Live(k, i) {
      assert !Runnable(k, i);
      assert Waits(k, i) ==> i in Waiting(k);
    }
  }

  /** A ready process is taken off its queue and given the processor. */
  lemma PickKeeps(k: State, p: nat)
    requires Core(k, None) && Runnable(k, p)
    ensures Core(Unready(k, p).(active := Some(p), yielder := None), Some(p))
    ensures Runnable(Unready(k, p).(active := Some(p), yielder := None), p)
  {
    UnreadyKeeps(k, p);
    CoreIgnoresPointers(Unready(k, p), Some(p), None, Some(p));
  }

  lemma SelectHead(k: State)
    requires Core(k, None)
    ensures k.hi != [] ==> Runnable(k, k.hi[0]) && Unready(k, k.hi[0]) == k.(hi := Minus(k.hi, {k.hi[0]}))
    ensures k.lo != [] ==> Runnable(k, k.lo[0]) && Unready(k, k.lo[0]) == k.(lo := Minus(k.lo, {k.lo[0]}))
  {
  }

  lemma SelectReady(k: State, p: nat)
    requires Core(k, None) && Runnable(k, p) && k.yielder.None? && 0 <= Value(k, k.timer) <= 1
    ensures Stable(Unready(k, p).(active := Some(p)))
  {
    PickKeeps(k, p);
    assert Unready(k, p).(active := Some(p)) == Unready(k, p).(active := Some(p), yielder := None);
  }

  lemma SelectNobody(k: State)
    requires Core(k, None) && k.yielder.None? && 0 <= Value(k, k.timer) <= 1 && k.hi == [] && k.lo == []
    ensures Scheduled(Select(k).0, Select(k).1)
  {
    AllWait(k);
    CoreIgnoresPointers(k, None, None, None);
  }

  lemma SelectSound(k: State)
    requires Core(k, None) && k.yielder.None? && 0 <= Value(k, k.timer) <= 1
    ensures forall i :: i in k.hi || i in k.lo ==> i < |k.pcb|
    ensures Scheduled(Select(k).0, Select(k).1)
  {
    SelectHead(k);
    if k.hi != [] {
      SelectReady(k, k.hi[0]);
    } else if k.lo != [] {
      SelectReady(k, k.lo[0]);
    } else {
      SelectNobody(k);
    }
  }

  /** Queueing the yielder first and then picking the chosen process gives the same state. */
  lemma YielderFirst(k: State, y: nat, p: nat)
    requires Core(k, Some(y)) && Runnable(k, y) && Runnable(k, p) && p != y
    ensures Core(Enqueue(k, y), None) && Runnable(Enqueue(k, y), p)
    ensures Unready(Enqueue(k, y), p) == Enqueue(Unready(k, p), y)
  {
    EnqueueKeeps(k, y);
    MinusAppend(k.hi, [y], {p});
    MinusAppend(k.lo, [y], {p});
    MinusNone([y], {p});
  }

  lemma YieldHead(k: State, y: nat)
    requires Core(k, Some(y))
    ensures k.hi != [] ==> Runnable(k, k.hi[0]) && k.hi[0] != y && Unready(k, k.hi[0]) == k.(hi := Minus(k.hi, {k.hi[0]}))
    ensures k.lo != [] ==> Runnable(k, k.lo[0]) && k.lo[0] != y && Unready(k, k.lo[0]) == k.(lo := Minus(k.lo, {k.lo[0]}))
  {
  }

  lemma PickPastYielder(k: State, y: nat, p: nat)
    requires Core(k, Some(y)) && Runnable(k, y) && Runnable(k, p) && p != y
    ensures var k' := Enqueue(Unready(k, p), y).(active := Some(p), yielder := None); Core(k', Some(p)) && Runnable(k', p)
  {
    YielderFirst(k, y, p);
    PickKeeps(Enqueue(k, y), p);
  }

  ghost predicate Yielding(k: State) {
    k.yielder.Some? && Core(k, k.yielder) && Runnable(k, k.yielder.value) && 0 <= Value(k, k.timer) <= 1
  }

  lemma YieldTo(k: State, p: nat)
    requires Yielding(k) && Runnable(k, p) && p != k.yielder.value
    ensures Stable(Requeue(Unready(k, p).(active := Some(p))))
  {
    var y := k.yielder.value;
    PickPastYielder(k, y, p);
    assert Requeue(Unready(k, p).(active := Some(p))) == Enqueue(Unready(k, p), y).(active := Some(p), yielder := None);
  }

  lemma YieldToSelf(k: State)
    requires Yielding(k) && k.hi == [] && k.lo == []
    ensures Select(k).1.Dispatched? && Scheduled(Requeue(Select(k).0), Dispatched)
  {
    CoreIgnoresPointers(k, k.yielder, None, k.yielder);
  }

  lemma ReadyInTable(k: State, cpu: Option<nat>)
    requires Core(k, cpu)
    ensures forall i :: i in k.hi || i in k.lo ==> i < |k.pcb|
  {
  }

  lemma PreserveSound(k: State, p: nat)
    requires Core(k, Some(p)) && Runnable(k, p) && k.yielder.None? && 0 <= Value(k, k.timer) <= 1
    ensures Stable(k.(active := Some(p)))
  {
    CoreIgnoresPointers(k, Some(p), None, Some(p));
  }

  /**
   The scheduler keeps the ownership invariant, dispatches only a live process that is on no list,
   idles only when everyone waits, halts only when nobody is left, and never finds a deadlock.
   */
  lemma ScheduleSound(k: State, c: Control)
    requires Schedulable(k, c)
    ensures forall i :: i in k.hi || i in k.lo ==> i < |k.pcb|
    ensures Scheduled(Schedule(k, c).0, Schedule(k, c).1)
  {
    ReadyInTable(k, OffList(k, c));
    if c.pcb.Some? && !c.enqueue {
      PreserveSound(k, c.pcb.value);
    } else if c.pcb.Some? {
      EnqueueKeeps(k, c.pcb.value);
      SelectSound(Enqueue(k, c.pcb.value));
    } else if k.yielder.None? {
      SelectSound(k);
    } else {
      YieldScheduled(k, c);
    }
  }

  lemma YieldScheduled(k: State, c: Control)
    requires Yielding(k) && c.pcb.None? && forall i :: i in k.hi || i in k.lo ==> i < |k.pcb|
    ensures Scheduled(Schedule(k, c).0, Schedule(k, c).1)
  {
    YieldHead(k, k.yielder.value);
    if k.hi != [] {
      YieldTo(k, k.hi[0]);
    } else if k.lo != [] {
      YieldTo(k, k.lo[0]);
    } else {
      YieldToSelf(k);
    }
  }
}
