/**
 What each event does to the machine, seen from outside: who lives, whose child it is, who waits where,
 who is ready in which order and who has the processor afterwards. Nothing here refers to the functions
 that the steps are made of.
 */
module Effects {
  import opened Options
  import opened Pid
  import opened Sequences
  import opened Kernel
  import opened Progeny
  import opened Steps
  import opened Semaphores
  import opened Scheduling
  import opened Runs
  import opened Conservation
  import opened Fairness

  /** The two ready queues. */
  datatype Ready = Ready(hi: seq<nat>, lo: seq<nat>)

  function Queues(k: State): Ready { Ready(k.hi, k.lo) }

  /** One more process at the end of the queue of its priority. */
  function Join(r: Ready, high: bool, p: nat): Ready {
    if high then Ready(r.hi + [p], r.lo) else Ready(r.hi, r.lo + [p])
  }

  /** The head of the high queue gets the processor, else that of the low queue, else nobody. */
  ghost predicate Elects(r: Ready, k': State, o: Outcome) {
    if r.hi != [] then
      o == Dispatched && k'.active == Some(r.hi[0]) && k'.hi == r.hi[1..] && k'.lo == r.lo
    else if r.lo != [] then
      o == Dispatched && k'.active == Some(r.lo[0]) && k'.hi == [] && k'.lo == r.lo[1..]
    else
      k'.hi == [] && k'.lo == [] && if k'.processCount == 0 then o == Halts else o == Idles && k'.active == None
  }

  /** The running process goes on; an idle processor takes whoever is ready. */
  ghost predicate Continues(running: Option<nat>, r: Ready, k': State, o: Outcome) {
    if running.Some? then o == Dispatched && k'.active == running && k'.hi == r.hi && k'.lo == r.lo
    else Elects(r, k', o)
  }

  /** Nothing but the ready queues and the running process may differ. */
  ghost predicate OnlyReady(k: State, k': State) {
    k' == k.(hi := k'.hi, lo := k'.lo, active := k'.active)
  }

  // ---- the scheduler ---------------------------------------------------------------------------

  lemma SelectElects(k: State)
    requires NoDup(k.hi) && NoDup(k.lo) && k.yielder.None?
    requires forall i :: i in k.hi || i in k.lo ==> i < |k.pcb|
    ensures Select(k).1 != Deadlocks ==> Elects(Queues(k), Select(k).0, Select(k).1)
    ensures OnlyReady(k, Select(k).0) && Select(k).0.yielder.None?
  {
    if k.hi != [] {
      MinusAt(k.hi, 0);
      assert Minus(k.hi, {k.hi[0]}) == k.hi[1..];
    } else if k.lo != [] {
      MinusAt(k.lo, 0);
      assert Minus(k.lo, {k.lo[0]}) == k.lo[1..];
    }
  }

  /** schedule with nobody or with a process to enqueue. */
  lemma ScheduleElects(h: State, c: Control)
    requires Schedulable(h, c) && h.yielder.None? && (c.pcb.Some? ==> c.enqueue && c.pcb.value < |h.pcb|)
    ensures forall i :: i in h.hi || i in h.lo ==> i < |h.pcb|
    ensures var r := if c.pcb.None? then Queues(h) else Join(Queues(h), h.pcb[c.pcb.value].prio, c.pcb.value);
      Elects(r, Schedule(h, c).0, Schedule(h, c).1) && OnlyReady(h, Schedule(h, c).0)
  {
    ScheduleSound(h, c);
    if c.pcb.Some? {
      EnqueueKeeps(h, c.pcb.value);
      ReadyInTable(Enqueue(h, c.pcb.value), None);
      SelectElects(Enqueue(h, c.pcb.value));
    } else {
      SelectElects(h);
    }
  }

  /** schedule with a process that goes on. */
  lemma SchedulePreserves(h: State, p: nat)
    requires h.yielder.None? && p < |h.pcb| && forall i :: i in h.hi || i in h.lo ==> i < |h.pcb|
    ensures Schedule(h, Control(Some(p), false)) == (h.(active := Some(p)), Dispatched)
  {
  }

  /** From a handler that re-enqueues the caller or gives it up to the next state. */
  lemma NextElects(k: State, e: Event, h: State, c: Control)
    requires Stable(k) && Enabled(k, e) && !DevicePanic(k, e) && Handle(k, e) == Handled(h, c)
    requires h.yielder.None? && (c.pcb.Some? ==> c.enqueue && c.pcb.value < |h.pcb|)
    ensures var r := if c.pcb.None? then Queues(h) else Join(Queues(h), h.pcb[c.pcb.value].prio, c.pcb.value);
      Elects(r, Next(k, e).0, Next(k, e).1) && OnlyReady(h, Next(k, e).0)
  {
    HandleSound(k, e);
    ScheduleElects(h, c);
    NextOf(k, e, h, c);
  }

  /** From a handler that preserves the running process, if any, to the next state. */
  lemma NextContinues(k: State, e: Event, h: State)
    requires Stable(k) && Enabled(k, e) && !DevicePanic(k, e) && Handle(k, e) == Handled(h, Preserve(k.active))
    requires h.yielder.None? && (k.active.Some? ==> k.active.value < |h.pcb|)
    ensures Continues(k.active, Queues(h), Next(k, e).0, Next(k, e).1) && OnlyReady(h, Next(k, e).0)
  {
    HandleSound(k, e);
    ReadyInTable(h, OffList(h, Preserve(k.active)));
    NextOf(k, e, h, Preserve(k.active));
    if k.active.Some? {
      SchedulePreserves(h, k.active.value);
    } else {
      ScheduleElects(h, Preserve(None));
    }
  }

  lemma StableFacts(k: State)
    requires Stable(k)
    ensures k.yielder.None? && Wakeable(k) && Forest(k) && OnQueues(k) && Fifo(k)
    ensures k.active.Some? ==> Runnable(k, k.active.value) && k.active.value < |k.pcb| && Unready(k, k.active.value) == k
  {
    StableWakeable(k, k.active);
    if k.active.Some? {
      UnreadyNone(k, k.active.value);
    }
  }

  lemma ActiveOffQueues(k: State)
    requires Stable(k) && k.active.Some?
    ensures k.active.value !in k.hi && k.active.value !in k.lo
  {
  }

  // ---- time slices, inquiries, ignored interrupts, yields --------------------------------------

  /**
   At the end of a time slice, and after a system call that only asks, the caller goes to the end of the
   queue of its priority and the head of the high queue, else of the low one, runs; nothing else changes.
   */
  lemma SliceEffect(k: State, e: Event)
    requires Stable(k) && (e == TimeSlice || (e == InquiryCall && k.active.Some?))
    ensures k.active.Some? ==> k.active.value < |k.pcb|
    ensures var (k', o) := Next(k, e);
      var r := if k.active.Some? then Join(Queues(k), k.pcb[k.active.value].prio, k.active.value) else Queues(k);
      OnlyReady(k, k') && Elects(r, k', o)
  {
    StableFacts(k);
    assert Handle(k, e) == Handled(k, Reschedule(k));
    NextElects(k, e, k, Reschedule(k));
  }

  /** So it keeps the processor exactly when nobody of its priority or above is ready. */
  lemma SliceKeepsIff(k: State, e: Event)
    requires Stable(k) && k.active.Some? && (e == TimeSlice || e == InquiryCall)
    ensures k.active.value < |k.pcb|
    ensures Next(k, e).0.active == k.active <==> k.hi == [] && (k.pcb[k.active.value].prio || k.lo == [])
  {
    SliceEffect(k, e);
    ReadyIsNotActive(k);
  }

  lemma IgnoredEffect(k: State)
    requires Stable(k)
    ensures var (k', o) := Next(k, Ignored); OnlyReady(k, k') && Continues(k.active, Queues(k), k', o)
  {
    StableFacts(k);
    NextContinues(k, Ignored, k);
  }

  /** A yielder goes behind whoever is then ready; alone, it goes on. */
  lemma YieldEffect(k: State)
    requires Stable(k) && k.active.Some?
    ensures k.active.value < |k.pcb|
    ensures var (k', o) := Next(k, YieldCall);
      var c := k.active.value;
      && OnlyReady(k, k') && o == Dispatched
      && if k.hi != [] then k'.active == Some(k.hi[0]) && Queues(k') == Join(Ready(k.hi[1..], k.lo), k.pcb[c].prio, c)
         else if k.lo != [] then k'.active == Some(k.lo[0]) && Queues(k') == Join(Ready([], k.lo[1..]), k.pcb[c].prio, c)
         else k'.active == Some(c) && Queues(k') == Ready([], [])
  {
    StableFacts(k);
    ActiveOffQueues(k);
    NextYield(k);
    YielderSchedules(k.(yielder := k.active), k.active.value);
  }

  lemma YielderSchedules(h: State, c: nat)
    requires (forall i :: i in h.hi || i in h.lo ==> i < |h.pcb|) && h.yielder == Some(c) && c < |h.pcb|
    requires NoDup(h.hi) && NoDup(h.lo) && c !in h.hi && c !in h.lo
    ensures var (k', o) := Schedule(h, BLOCK);
      && OnlyReady(h.(yielder := None), k') && o == Dispatched
      && if h.hi != [] then k'.active == Some(h.hi[0]) && Queues(k') == Join(Ready(h.hi[1..], h.lo), h.pcb[c].prio, c)
         else if h.lo != [] then k'.active == Some(h.lo[0]) && Queues(k') == Join(Ready([], h.lo[1..]), h.pcb[c].prio, c)
         else k'.active == Some(c) && Queues(k') == Ready([], [])
  {
    if h.hi != [] {
      MinusAt(h.hi, 0);
      assert Minus(h.hi, {h.hi[0]}) == h.hi[1..];
    } else if h.lo != [] {
      MinusAt(h.lo, 0);
      assert Minus(h.lo, {h.lo[0]}) == h.lo[1..];
    }
  }

  // ---- semaphores ------------------------------------------------------------------------------

  /** What no operation on a semaphore touches. */
  ghost predicate SameProcesses(k: State, k': State) {
    && k'.free == k.free && k'.kids == k.kids && k'.processCount == k.processCount
    && k'.spawned == k.spawned && k'.birth == k.birth && k'.timer == k.timer && k'.yielder == k.yielder
  }

  ghost predicate SameQueues(k: State, k': State, but: Key) {
    forall b: Key :: b != but ==> Queue(k', b) == Queue(k, b)
  }

  /** `p` has become the last to wait on `a`. */
  ghost predicate Blocked(k: State, k': State, a: Key, p: nat)
    requires p < |k.pcb|
  {
    && SameProcesses(k, k') && k'.mem == k.mem && k'.softblockCount == k.softblockCount + 1
    && k'.pcb == k.pcb[p := k.pcb[p].(semAdd := Some(a))]
    && Queue(k', a) == Queue(k, a) + [p] && SameQueues(k, k', a)
  }

  /** `t`, the first to wait on `a`, waits no longer. */
  ghost predicate Woken(k: State, k': State, a: Key, t: nat)
    requires t < |k.pcb|
  {
    && SameProcesses(k, k') && k'.mem == k.mem && k'.softblockCount == k.softblockCount - 1
    && k'.pcb == k.pcb[t := k.pcb[t].(semAdd := None)]
    && Queue(k, a) == [t] + Queue(k', a) && SameQueues(k, k', a)
  }

  /** The value of `a` has become `v`. */
  ghost predicate Adjusted(k: State, k': State, a: Key, v: int) {
    && SameProcesses(k, k') && k'.blocked == k.blocked && k'.softblockCount == k.softblockCount && k'.pcb == k.pcb
    && forall b: Key :: Value(k', b) == if b == a then v else Value(k, b)
  }

  lemma BlockOnFields(k: State, a: Key, p: nat)
    requires p < |k.pcb|
    ensures Blocked(k, BlockOn(k, a, p), a, p) && Queues(BlockOn(k, a, p)) == Queues(k)
  {
  }

  lemma WakeFields(k: State, a: Key)
    requires OnQueues(k) && Fifo(k) && Queue(k, a) != []
    ensures var t := Queue(k, a)[0];
      t < |k.pcb| && Woken(k, Wake(k, a), a, t) && Queues(Wake(k, a)) == Join(Queues(k), k.pcb[t].prio, t)
  {
    HeadWaits(k, a);
    forall b: Key ensures Queue(Wake(k, a), b) == if b == a then Queue(k, b)[1..] else Queue(k, b) {
      QueueAfterWake(k, a, b);
    }
  }

  lemma ValueFields(k: State, a: Key, v: int)
    ensures Adjusted(k, WithValue(k, a, v), a, v) && Queues(WithValue(k, a, v)) == Queues(k)
  {
  }

  lemma BlockedCarries(k: State, h: State, k': State, a: Key, p: nat)
    requires p < |k.pcb| && Blocked(k, h, a, p) && OnlyReady(h, k')
    ensures Blocked(k, k', a, p)
  {
  }

  lemma WokenCarries(k: State, h: State, k': State, a: Key, t: nat)
    requires t < |k.pcb| && Woken(k, h, a, t) && OnlyReady(h, k')
    ensures Woken(k, k', a, t)
  {
  }

  lemma AdjustedCarries(k: State, h: State, k': State, a: Key, v: int)
    requires Adjusted(k, h, a, v) && OnlyReady(h, k')
    ensures Adjusted(k, k', a, v)
  {
    forall b: Key ensures Value(k', b) == Value(h, b) {
    }
  }

  /** A handler that blocks the caller, one that wakes a waiter, and one that moves the value. */
  lemma CallerBlocks(k: State, e: Event, a: Key)
    requires Stable(k) && Enabled(k, e) && !DevicePanic(k, e) && k.active.Some? && k.active.value < |k.pcb|
    requires Handle(k, e) == Handled(BlockOn(k, a, k.active.value), BLOCK)
    ensures Blocked(k, Next(k, e).0, a, k.active.value) && Elects(Queues(k), Next(k, e).0, Next(k, e).1)
  {
    var h := BlockOn(k, a, k.active.value);
    BlockOnFields(k, a, k.active.value);
    NextElects(k, e, h, BLOCK);
    BlockedCarries(k, h, Next(k, e).0, a, k.active.value);
  }

  lemma WaiterWakes(k: State, e: Event, a: Key)
    requires Stable(k) && Enabled(k, e) && !DevicePanic(k, e) && k.active.Some? && k.active.value < |k.pcb|
    requires Queue(k, a) != [] && Queue(k, a)[0] < |k.pcb|
    requires Handle(k, e) == Handled(Wake(k, a), Control(k.active, true))
    ensures var t, c := Queue(k, a)[0], k.active.value;
      && Woken(k, Next(k, e).0, a, t)
      && Elects(Join(Join(Queues(k), k.pcb[t].prio, t), k.pcb[c].prio, c), Next(k, e).0, Next(k, e).1)
  {
    var h, t := Wake(k, a), Queue(k, a)[0];
    StableFacts(k);
    WakeFields(k, a);
    NextElects(k, e, h, Control(k.active, true));
    WokenCarries(k, h, Next(k, e).0, a, t);
  }

  lemma ValueMoves(k: State, e: Event, a: Key, v: int)
    requires Stable(k) && Enabled(k, e) && !DevicePanic(k, e) && k.active.Some? && k.active.value < |k.pcb|
    requires Handle(k, e) == Handled(WithValue(k, a, v), Control(k.active, true))
    ensures Adjusted(k, Next(k, e).0, a, v)
    ensures Elects(Join(Queues(k), k.pcb[k.active.value].prio, k.active.value), Next(k, e).0, Next(k, e).1)
  {
    ValueFields(k, a, v);
    NextElects(k, e, WithValue(k, a, v), Control(k.active, true));
    AdjustedCarries(k, WithValue(k, a, v), Next(k, e).0, a, v);
  }

  /** P and V alike: block, wake the longest waiter, or with none move the value to `v`. */
  lemma OperationEffect(k: State, e: Event, a: Key, blocks: bool, v: int)
    requires Stable(k) && Enabled(k, e) && !DevicePanic(k, e) && k.active.Some? && k.active.value < |k.pcb|
    requires Queue(k, a) != [] ==> Queue(k, a)[0] < |k.pcb|
    requires Handle(k, e) == if blocks then Handled(BlockOn(k, a, k.active.value), BLOCK)
                             else if Queue(k, a) != [] then Handled(Wake(k, a), Control(k.active, true))
                             else Handled(WithValue(k, a, v), Control(k.active, true))
    ensures var (k', o) := Next(k, e);
      var c := k.active.value;
      if blocks then Blocked(k, k', a, c) && Elects(Queues(k), k', o)
      else if Queue(k, a) != [] then
        var t := Queue(k, a)[0];
        Woken(k, k', a, t) && Elects(Join(Join(Queues(k), k.pcb[t].prio, t), k.pcb[c].prio, c), k', o)
      else Adjusted(k, k', a, v) && Elects(Join(Queues(k), k.pcb[c].prio, c), k', o)
  {
    if blocks {
      CallerBlocks(k, e, a);
    } else if Queue(k, a) != [] {
      WaiterWakes(k, e, a);
    } else {
      ValueMoves(k, e, a, v);
    }
  }

  /** The events that are a P on `a` by the running process. */
  predicate IsP(k: State, e: Event, a: Key) {
    && k.active.Some?
    && (e == PasserenCall(Some(a)) || (e == ClockWaitCall && a == k.timer)
        || (e == DoIoCall(Some(a)) && Queue(k, a) == [] && Value(k, a) <= 0))
  }

  lemma IsPHandled(k: State, e: Event, a: Key)
    requires Stable(k) && IsP(k, e, a)
    ensures k.active.value < |k.pcb| && Wakeable(k) && Enabled(k, e) && !DevicePanic(k, e)
    ensures Handle(k, e) == P(k, Some(a), k.active)
  {
    StableFacts(k);
    SemaphoreCallHandled(k, e);
    if e.DoIoCall? {
      assert HandleSemaphoreCall(k, e) == DoIo(k, Some(a));
    } else {
      assert HandleSemaphoreCall(k, e) == Passeren(k, Some(a));
    }
  }

  lemma SemaphoreCallHandled(k: State, e: Event)
    requires Stable(k) && k.active.Some? && IsSemaphoreCall(e)
    ensures Enabled(k, e) && Handle(k, e) == HandleSemaphoreCall(k, e)
  {
  }

  lemma PCases(k: State, a: Key)
    requires k.active.Some? && Runnable(k, k.active.value) && Wakeable(k) && Unready(k, k.active.value) == k
    ensures Value(k, a) == 0 ==> P(k, Some(a), k.active) == Handled(BlockOn(k, a, k.active.value), BLOCK)
    ensures Value(k, a) != 0 && Queue(k, a) != [] ==> P(k, Some(a), k.active) == Handled(Wake(k, a), Control(k.active, true))
    ensures Value(k, a) != 0 && Queue(k, a) == [] ==>
      P(k, Some(a), k.active) == Handled(WithValue(k, a, Value(k, a) - 1), Control(k.active, true))
  {
  }

  lemma PHandled(k: State, e: Event, a: Key)
    requires Stable(k) && IsP(k, e, a)
    ensures k.active.value < |k.pcb| && Enabled(k, e) && !DevicePanic(k, e) && (Queue(k, a) != [] ==> Queue(k, a)[0] < |k.pcb|)
    ensures Value(k, a) == 0 ==> Handle(k, e) == Handled(BlockOn(k, a, k.active.value), BLOCK)
    ensures Value(k, a) != 0 && Queue(k, a) != [] ==> Handle(k, e) == Handled(Wake(k, a), Control(k.active, true))
    ensures Value(k, a) != 0 && Queue(k, a) == [] ==>
      Handle(k, e) == Handled(WithValue(k, a, Value(k, a) - 1), Control(k.active, true))
  {
    StableFacts(k);
    IsPHandled(k, e, a);
    PCases(k, a);
  }

  /**
   A P at zero blocks the caller behind those who wait, and somebody else runs. Elsewhere the longest waiter
   becomes ready, or with none the value drops, and the caller is re-enqueued.
   */
  lemma PEffect(k: State, e: Event, a: Key)
    requires Stable(k) && IsP(k, e, a)
    ensures k.active.value < |k.pcb| && (Queue(k, a) != [] ==> Queue(k, a)[0] < |k.pcb|) && !DevicePanic(k, e)
    ensures var (k', o) := Next(k, e);
      var c := k.active.value;
      if Value(k, a) == 0 then Blocked(k, k', a, c) && Elects(Queues(k), k', o)
      else if Queue(k, a) != [] then
        var t := Queue(k, a)[0];
        Woken(k, k', a, t) && Elects(Join(Join(Queues(k), k.pcb[t].prio, t), k.pcb[c].prio, c), k', o)
      else Adjusted(k, k', a, Value(k, a) - 1) && Elects(Join(Queues(k), k.pcb[c].prio, c), k', o)
  {
    PHandled(k, e, a);
    OperationEffect(k, e, a, Value(k, a) == 0, Value(k, a) - 1);
  }

  lemma VHandled(k: State, a: Key)
    requires Stable(k) && k.active.Some?
    ensures Unready(k, k.active.value) == k && k.active.value < |k.pcb| && Wakeable(k)
    ensures Value(k, a) == 1 ==> Handle(k, VerhogenCall(Some(a))) == Handled(BlockOn(k, a, k.active.value), BLOCK)
    ensures Value(k, a) != 1 && Queue(k, a) != [] ==>
      Handle(k, VerhogenCall(Some(a))) == Handled(Wake(k, a), Control(k.active, true))
    ensures Value(k, a) != 1 && Queue(k, a) == [] ==>
      Handle(k, VerhogenCall(Some(a))) == Handled(WithValue(k, a, Value(k, a) + 1), Control(k.active, true))
  {
    StableFacts(k);
    VCases(k, a);
    assert Handle(k, VerhogenCall(Some(a))) == Verhogen(k, Some(a));
  }

  /** A V at one blocks the caller; elsewhere the longest waiter becomes ready, or with none the value rises. */
  lemma VEffect(k: State, a: Key)
    requires Stable(k) && k.active.Some?
    ensures k.active.value < |k.pcb| && (Queue(k, a) != [] ==> Queue(k, a)[0] < |k.pcb|)
    ensures var (k', o) := Next(k, VerhogenCall(Some(a)));
      var c := k.active.value;
      if Value(k, a) == 1 then Blocked(k, k', a, c) && Elects(Queues(k), k', o)
      else if Queue(k, a) != [] then
        var t := Queue(k, a)[0];
        Woken(k, k', a, t) && Elects(Join(Join(Queues(k), k.pcb[t].prio, t), k.pcb[c].prio, c), k', o)
      else Adjusted(k, k', a, Value(k, a) + 1) && Elects(Join(Queues(k), k.pcb[c].prio, c), k', o)
  {
    var e := VerhogenCall(Some(a));
    VHandled(k, a);
    OperationEffect(k, e, a, Value(k, a) == 1, Value(k, a) + 1);
  }

  /** A device is done: the longest waiter on its semaphore becomes ready, and the running process goes on. */
  lemma CompletionEffect(k: State, device: Key)
    requires Stable(k) && Enabled(k, Completion(device))
    ensures Queue(k, device)[0] < |k.pcb|
    ensures var (k', o) := Next(k, Completion(device));
      var t := Queue(k, device)[0];
      Woken(k, k', device, t) && Continues(k.active, Join(Queues(k), k.pcb[t].prio, t), k', o)
  {
    StableFacts(k);
    WakeFields(k, device);
    CompletionHandled(k, device);
    NextContinues(k, Completion(device), Wake(k, device));
    WokenCarries(k, Wake(k, device), Next(k, Completion(device)).0, device, Queue(k, device)[0]);
  }

  lemma CompletionIs(k: State, device: Key)
    requires Stable(k) && Enabled(k, Completion(device)) && Wakeable(k) && (k.active.Some? ==> k.active.value < |k.pcb|)
    ensures Handle(k, Completion(device)) == Handled(V(k, Some(device)).0, Preserve(k.active))
  {
  }

  lemma CompletionHandled(k: State, device: Key)
    requires Stable(k) && Enabled(k, Completion(device))
    ensures Queue(k, device)[0] < |k.pcb| && Handle(k, Completion(device)) == Handled(Wake(k, device), Preserve(k.active))
  {
    StableFacts(k);
    CompletionSound(k, device);
    CompletionIs(k, device);
  }

  // ---- the interval timer ----------------------------------------------------------------------

  /** Several processes, one after the other, at the ends of their queues. */
  function JoinAll(r: Ready, pcb: seq<Pcb>, ps: seq<nat>): Ready
    decreases |ps|
  {
    if ps == [] then r else JoinAll(Join(r, ps[0] < |pcb| && pcb[ps[0]].prio, ps[0]), pcb, ps[1..])
  }

  /** All who waited on `a` wait no longer, and its value has become `v`. */
  ghost predicate Released(k: State, k': State, a: Key, v: int) {
    && SameProcesses(k, k') && k'.softblockCount == k.softblockCount - |Queue(k, a)|
    && |k'.pcb| == |k.pcb|
    && (forall i: nat :: i < |k.pcb| ==> k'.pcb[i] == if i in Queue(k, a) then k.pcb[i].(semAdd := None) else k.pcb[i])
    && Queue(k', a) == [] && SameQueues(k, k', a)
    && forall b: Key :: Value(k', b) == if b == a then v else Value(k, b)
  }

  lemma {:induction false} TickFields(k: State, cpu: Option<nat>)
    requires Fit(k, cpu) && Value(k, k.timer) == 0
    ensures forall i :: i in Queue(k, k.timer) ==> i < |k.pcb|
    ensures Released(k, Tick(k), k.timer, 1) && Queues(Tick(k)) == JoinAll(Queues(k), k.pcb, Queue(k, k.timer))
    ensures Tick(k).active == k.active
    decreases |Queue(k, k.timer)|
  {
    TickReady(k, cpu);
    if Queue(k, k.timer) == [] {
      TickEnds(k);
    } else {
      TickStep(k, cpu);
      WakeFields(k, k.timer);
      TickFields(Wake(k, k.timer), cpu);
      TickMore(k);
    }
  }

  lemma TickEnds(k: State)
    requires Queue(k, k.timer) == [] && Value(k, k.timer) == 0
    ensures Released(k, Tick(k), k.timer, 1) && Queues(Tick(k)) == Queues(k) && Tick(k).active == k.active
  {
    TickOnce(k);
    ValueFields(k, k.timer, 1);
  }

  /** One more waiter released before the others. */
  lemma TickMore(k: State)
    requires OnQueues(k) && Fifo(k) && Queue(k, k.timer) != [] && Queue(k, k.timer)[0] < |k.pcb| && Value(k, k.timer) == 0
    requires forall i :: i in Queue(k, k.timer) ==> i < |k.pcb|
    requires Woken(k, Wake(k, k.timer), k.timer, Queue(k, k.timer)[0])
    requires var k1, t := Wake(k, k.timer), Queue(k, k.timer)[0];
      && Queues(k1) == Join(Queues(k), k.pcb[t].prio, t) && Value(k1, k1.timer) == 0
      && (forall i :: i in Queue(k1, k1.timer) ==> i < |k1.pcb|)
      && Released(k1, Tick(k1), k1.timer, 1) && Queues(Tick(k1)) == JoinAll(Queues(k1), k1.pcb, Queue(k1, k1.timer))
      && Tick(k1).active == k1.active
    ensures Released(k, Tick(k), k.timer, 1) && Queues(Tick(k)) == JoinAll(Queues(k), k.pcb, Queue(k, k.timer))
    ensures Tick(k).active == k.active
  {
    var k1, q := Wake(k, k.timer), Queue(k, k.timer);
    assert Tick(k) == Tick(k1);
    assert q[1..] == Queue(k1, k.timer);
    SamePrioJoins(Join(Queues(k), k.pcb[q[0]].prio, q[0]), k.pcb, k1.pcb, q[1..]);
    ReleasedTransitive(k, k1, Tick(k), k.timer);
    assert k1.active == k.active;
  }

  lemma {:induction false} SamePrioJoins(r: Ready, pcb: seq<Pcb>, pcb': seq<Pcb>, ps: seq<nat>)
    requires |pcb| == |pcb'| && forall i: nat :: i < |pcb| ==> pcb'[i].prio == pcb[i].prio
    ensures JoinAll(r, pcb, ps) == JoinAll(r, pcb', ps)
    decreases |ps|
  {
    if ps != [] {
      SamePrioJoins(Join(r, ps[0] < |pcb| && pcb[ps[0]].prio, ps[0]), pcb, pcb', ps[1..]);
    }
  }

  lemma ReleasedTransitive(k: State, k1: State, k': State, a: Key)
    requires Queue(k, a) != [] && Queue(k, a)[0] < |k.pcb| && Woken(k, k1, a, Queue(k, a)[0]) && Released(k1, k', a, 1)
    ensures Released(k, k', a, 1)
  {
    var t := Queue(k, a)[0];
    forall b: Key ensures Value(k1, b) == Value(k, b) {
    }
    forall i: nat | i < |k.pcb|
      ensures k'.pcb[i] == if i in Queue(k, a) then k.pcb[i].(semAdd := None) else k.pcb[i]
    {
      assert i in Queue(k, a) <==> i == t || i in Queue(k1, a);
    }
  }

  lemma ReleasedCarries(k: State, h: State, k': State, a: Key, v: int)
    requires Released(k, h, a, v) && OnlyReady(h, k')
    ensures Released(k, k', a, v)
  {
    forall b: Key ensures Value(k', b) == Value(h, b) {
    }
  }

  lemma ClockHandled(k: State)
    requires Stable(k)
    ensures forall i :: i in Queue(k, k.timer) ==> i < |k.pcb|
    ensures Handle(k, ClockTick) == Handled(Tick(k), Preserve(k.active))
  {
    TickReady(k, k.active);
  }

  /** A tick makes all who wait for the clock ready, in the order in which they came, and leaves its semaphore at one. */
  lemma ClockEffect(k: State)
    requires Stable(k)
    ensures var (k', o) := Next(k, ClockTick);
      if Value(k, k.timer) == 0 then
        Released(k, k', k.timer, 1) && Continues(k.active, JoinAll(Queues(k), k.pcb, Queue(k, k.timer)), k', o)
      else OnlyReady(k, k') && Continues(k.active, Queues(k), k', o)
  {
    StableFacts(k);
    ClockHandled(k);
    if Value(k, k.timer) == 0 {
      TickFields(k, k.active);
      NextContinues(k, ClockTick, Tick(k));
      ReleasedCarries(k, Tick(k), Next(k, ClockTick).0, k.timer, 1);
    } else {
      NextContinues(k, ClockTick, k);
    }
  }

  // ---- creation --------------------------------------------------------------------------------

  /** `c` has come to life as a child of `p`; every other process is as it was. */
  ghost predicate Born(k: State, k': State, c: nat, p: nat, high: bool, support: bool)
    requires c < |k.pcb| && p < |k.kids| && c < |k.kids| && c < |k.birth|
  {
    && |k'.pcb| == |k.pcb| && !Live(k, c) && Live(k', c)
    && k'.pcb[c] == Pcb(Some(p), None, support, high, k'.pcb[c].pid)
    && (forall i: nat :: i < |k.pcb| && i != c ==> k'.pcb[i] == k.pcb[i])
    && k'.kids == k.kids[c := []][p := k.kids[p] + [c]]
    && k.free == [c] + k'.free && k'.processCount == k.processCount + 1
    && k'.spawned == k.spawned + 1 && k'.birth == k.birth[c := k.spawned]
    && k'.softblockCount == k.softblockCount && k'.blocked == k.blocked && k'.mem == k.mem
    && k'.timer == k.timer && k'.yielder == k.yielder
  }

  lemma CreatedFields(k: State, high: bool, support: bool)
    requires Stable(k) && k.active.Some? && k.free != []
    ensures var c, p := k.free[0], k.active.value;
      c < |k.pcb| && p < |k.kids| && c < |k.kids| && c < |k.birth| && c != p
    ensures var k' := Created(k, high, support);
      && Born(k, k', k.free[0], k.active.value, high, support)
      && Queues(k') == Join(Queues(k), high, k.free[0]) && k'.active == k.active
  {
    var c, p := k.free[0], k.active.value;
    assert c in k.free && c != p;
    MakePidIsNotNull(c, k.spawned % 0x1_0000_0000);
    AdoptedFields(k, c, p, high, support, MakePid(c, k.spawned % 0x1_0000_0000));
  }

  lemma MakePidIsNotNull(i: nat, r: Word)
    requires i < 31
    ensures MakePid(i, r) != NULL_PID
  {
    PidRoundTrip(i, r);
  }

  lemma AdoptedFields(k: State, c: nat, p: nat, high: bool, support: bool, pid: Word)
    requires k.free != [] && c == k.free[0] && c < |k.pcb| == |k.kids| == |k.birth| && p < |k.kids| && p != c
    requires !Live(k, c) && pid != NULL_PID
    ensures var k' := Adopt(WithSupport(SpawnAs(k, high, pid), c, support), p, c);
      Born(k, k', c, p, high, support) && Queues(k') == Join(Queues(k), high, c) && k'.active == k.active
  {
  }

  lemma BornCarries(k: State, h: State, k': State, c: nat, p: nat, high: bool, support: bool)
    requires c < |k.pcb| && p < |k.kids| && c < |k.kids| && c < |k.birth|
    requires Born(k, h, c, p, high, support) && OnlyReady(h, k')
    ensures Born(k, k', c, p, high, support)
  {
  }

  /**
   With a free slot the first one becomes a ready child of the caller, the youngest, with the priority and
   support structure given; without one nothing changes; in both cases the caller goes on.
   */
  lemma CreateEffect(k: State, prio: int, support: bool)
    requires Stable(k) && k.active.Some? && (prio == 0 || prio == 1)
    ensures k.active.value < |k.kids| && (k.free != [] ==> k.free[0] < |k.pcb| == |k.kids| == |k.birth|)
    ensures var (k', o) := Next(k, CreateCall(prio, true, support));
      if k.free == [] then k' == k && o == Dispatched
      else
        && Born(k, k', k.free[0], k.active.value, prio == 1, support)
        && Continues(k.active, Join(Queues(k), prio == 1, k.free[0]), k', o)
  {
    var e := CreateCall(prio, true, support);
    StableFacts(k);
    CreateHandled(k, prio, support);
    if k.free == [] {
      NextContinues(k, e, k);
    } else {
      CreatedFields(k, prio == 1, support);
      NextContinues(k, e, Created(k, prio == 1, support));
      BornCarries(k, Created(k, prio == 1, support), Next(k, e).0, k.free[0], k.active.value, prio == 1, support);
    }
  }

  lemma CreateHandled(k: State, prio: int, support: bool)
    requires Stable(k) && k.active.Some? && (prio == 0 || prio == 1)
    ensures Handle(k, CreateCall(prio, true, support)) == Handled(Created(k, prio == 1, support), Preserve(k.active))
    ensures k.free == [] ==> Created(k, prio == 1, support) == k
    ensures |k.pcb| == |k.kids| == |k.birth|
  {
    ProcessCallHandled(k, CreateCall(prio, true, support));
  }

  // ---- death -----------------------------------------------------------------------------------

  /** `r` and its descendants are dead; everybody else, every queue and the forest are what they were without them. */
  ghost predicate Killed(k: State, k': State, r: nat)
    requires Forest(k) && Live(k, r)
  {
    && |k'.pcb| == |k.pcb| && |k'.kids| == |k.kids|
    && (forall x: nat :: Live(k', x) <==> Live(k, x) && !Descends(k, x, r))
    && (forall x: nat :: x < |k.pcb| && x !in Tree(k, r) ==> k'.pcb[x] == k.pcb[x])
    && ToSet(k'.free) == ToSet(k.free) + Tree(k, r) && |k'.free| == |k.free| + |Tree(k, r)|
    && (forall a: Key :: Queue(k', a) == Minus(Queue(k, a), Tree(k, r)))
    && k'.processCount == k.processCount - |Tree(k, r)|
    && k'.softblockCount == k.softblockCount - |Waiting(k) * Tree(k, r)|
    && (forall x: nat :: Live(k', x) ==>
          k'.kids[x] == if k.pcb[r].parent == Some(x) then Minus(k.kids[x], {r}) else k.kids[x])
    && k'.mem == k.mem && k'.timer == k.timer && k'.yielder == k.yielder
  }

  lemma TreeFields(k: State, r: nat)
    requires Forest(k) && Live(k, r)
    ensures Killed(k, KillTree(k, r), r) && KillTree(k, r).active == k.active
    ensures Queues(KillTree(k, r)) == Ready(Minus(k.hi, Tree(k, r)), Minus(k.lo, Tree(k, r)))
  {
    var k' := KillTree(k, r);
    KilledExactly(k, r);
    forall a: Key ensures Queue(k', a) == Minus(Queue(k, a), Tree(k, r)) {
      KilledQueues(k, r, a);
    }
    KilledQueues(k, r, 0);
    forall x: nat | Live(k', x)
      ensures k'.kids[x] == if k.pcb[r].parent == Some(x) then Minus(k.kids[x], {r}) else k.kids[x]
    {
      KilledForest(k, r, x);
    }
    forall x: nat ensures Live(k, x) ==> (x in Tree(k, r) <==> Descends(k, x, r)) {
    }
  }

  lemma KilledCarries(k: State, h: State, k': State, r: nat)
    requires Forest(k) && Live(k, r) && Killed(k, h, r) && OnlyReady(h, k')
    ensures Killed(k, k', r)
  {
    forall a: Key ensures Queue(k', a) == Queue(h, a) {
    }
    forall x: nat ensures Live(k', x) <==> Live(h, x) {
    }
  }

  /** The ready queues without the dead. */
  ghost function Left(k: State, r: nat): Ready
    requires Forest(k) && Live(k, r)
  {
    Ready(Minus(k.hi, Tree(k, r)), Minus(k.lo, Tree(k, r)))
  }

  /** An event whose handler kills the tree of `r`, the caller with it, or kills it and re-enqueues the caller. */
  lemma TreeDies(k: State, e: Event, r: nat, c: Control)
    requires Stable(k) && Enabled(k, e) && !DevicePanic(k, e) && k.active.Some? && Live(k, r) && Live(k, k.active.value)
    requires Handle(k, e) == Handled(KillTree(k, r), c)
    requires c == if Descends(k, k.active.value, r) then BLOCK else Control(k.active, true)
    ensures Killed(k, Next(k, e).0, r)
    ensures var p := k.active.value;
      Elects(if Descends(k, p, r) then Left(k, r) else Join(Left(k, r), k.pcb[p].prio, p), Next(k, e).0, Next(k, e).1)
  {
    var p := k.active.value;
    StableFacts(k);
    TreeFields(k, r);
    if !Descends(k, p, r) {
      assert p !in Tree(k, r);
    }
    NextElects(k, e, KillTree(k, r), c);
    KilledCarries(k, KillTree(k, r), Next(k, e).0, r);
  }

  /** The requests that the nucleus does not serve: it passes them up, or kills the caller. */
  ghost predicate Refused(k: State, e: Event) {
    && k.active.Some?
    && match e
       case Fault => true
       case CreateCall(prio, given, _) => (prio != 0 && prio != 1) || !given
       case TerminateCall(pid) => pid != NULL_PID && forall i: nat :: Live(k, i) ==> k.pcb[i].pid != pid
       case PasserenCall(sem) => sem.None?
       case VerhogenCall(sem) => sem.None?
       case DoIoCall(command) => command.None? || Queue(k, command.value) != []
       case _ => false
  }

  lemma RefusedHandled(k: State, e: Event)
    requires Stable(k) && Refused(k, e)
    ensures Enabled(k, e) && !DevicePanic(k, e) && Handle(k, e) == PassUpOrDie(k)
  {
    if IsSemaphoreCall(e) {
      RefusedOperation(k, e);
    } else {
      ProcessCallHandled(k, e);
      if e.TerminateCall? {
        RefusedPid(k, e.pid);
      }
    }
  }

  lemma RefusedOperation(k: State, e: Event)
    requires Stable(k) && Refused(k, e) && IsSemaphoreCall(e)
    ensures !DevicePanic(k, e) && Handle(k, e) == PassUpOrDie(k)
  {
    SemaphoreCallHandled(k, e);
  }

  lemma RefusedPid(k: State, pid: Word)
    requires Stable(k) && Refused(k, TerminateCall(pid))
    ensures TerminateProcess(k, pid) == PassUpOrDie(k)
  {
    if FindProcess(k, pid).Some? {
      FindProcessIsSearch(k, pid, FindProcess(k, pid).value);
    }
  }

  /**
   A fault, a bad argument of CREATEPROCESS, an unknown pid, a NULL semaphore and DOIO on a busy device or on
   none: a caller with a support structure goes on and nothing changes, any other dies with its descendants.
   */
  lemma RefusedEffect(k: State, e: Event)
    requires Stable(k) && Refused(k, e)
    ensures Enabled(k, e) && !DevicePanic(k, e) && Live(k, k.active.value)
    ensures var (k', o) := Next(k, e);
      var c := k.active.value;
      if k.pcb[c].support then k' == k && o == Dispatched
      else Killed(k, k', c) && Elects(Left(k, c), k', o)
  {
    var c := k.active.value;
    StableFacts(k);
    RefusedHandled(k, e);
    PassUpCases(k);
    if k.pcb[c].support {
      NextContinues(k, e, k);
    } else {
      TreeDies(k, e, c, BLOCK);
    }
  }

  lemma PassUpCases(k: State)
    requires Stable(k) && k.active.Some?
    ensures Live(k, k.active.value)
    ensures PassUpOrDie(k) == if k.pcb[k.active.value].support then Handled(k, Preserve(k.active))
                              else Handled(KillTree(k, k.active.value), BLOCK)
  {
  }

  /** Whom a TERMPROCESS with this pid names: 0 the caller, anything else the live process that has it. */
  ghost predicate Names(k: State, pid: Word, r: nat) {
    Live(k, r) && k.active.Some? && if pid == 0 then k.active == Some(r) else k.pcb[r].pid == pid
  }

  /**
   TERMPROCESS kills the process it names and all its descendants and nobody else; the caller, if it is not
   among them, goes to the end of its ready queue.
   */
  lemma TerminateEffect(k: State, pid: Word, r: nat)
    requires Stable(k) && Names(k, pid, r)
    ensures Live(k, k.active.value)
    ensures var (k', o) := Next(k, TerminateCall(pid));
      var c := k.active.value;
      && Killed(k, k', r)
      && Elects(if Descends(k, c, r) then Left(k, r) else Join(Left(k, r), k.pcb[c].prio, c), k', o)
  {
    StableFacts(k);
    TerminateHandled(k, pid, r);
    TreeDies(k, TerminateCall(pid), r, if Descends(k, k.active.value, r) then BLOCK else Control(k.active, true));
  }

  lemma CallerFate(k: State, r: nat, c: nat)
    requires Forest(k) && Live(k, r) && Live(k, c)
    ensures var k' := KillTree(k, r);
      |k'.pcb| == |k.pcb| && k'.active == k.active && (k'.pcb[c].pid == NULL_PID <==> Descends(k, c, r))
  {
    KilledExactly(k, r);
    assert Live(KillTree(k, r), c) <==> c !in Tree(k, r);
  }

  lemma TerminatedSelf(k: State)
    requires Stable(k) && k.active.Some? && Live(k, k.active.value)
    ensures TerminateProcess(k, 0) == Handled(KillTree(k, k.active.value), BLOCK)
    ensures Descends(k, k.active.value, k.active.value)
  {
  }

  lemma TerminatedOther(k: State, pid: Word, r: nat, caller: nat)
    requires Stable(k) && k.active == Some(caller) && caller < |k.pcb| && Live(k, r)
    requires pid != 0 && FindProcess(k, pid) == Some(r)
    requires |KillTree(k, r).pcb| == |k.pcb| && KillTree(k, r).active == k.active
    ensures TerminateProcess(k, pid) ==
      Handled(KillTree(k, r), if KillTree(k, r).pcb[caller].pid == NULL_PID then BLOCK else Control(k.active, true))
  {
  }

  lemma TerminateIs(k: State, pid: Word)
    requires Stable(k) && k.active.Some?
    ensures Handle(k, TerminateCall(pid)) == TerminateProcess(k, pid)
  {
    ProcessCallHandled(k, TerminateCall(pid));
  }

  lemma TerminateHandled(k: State, pid: Word, r: nat)
    requires Stable(k) && Names(k, pid, r)
    ensures Live(k, k.active.value)
    ensures Handle(k, TerminateCall(pid)) ==
      Handled(KillTree(k, r), if Descends(k, k.active.value, r) then BLOCK else Control(k.active, true))
  {
    StableFacts(k);
    TerminateIs(k, pid);
    if pid == 0 {
      TerminatedSelf(k);
    } else {
      FindProcessIsSearch(k, pid, r);
      CallerFate(k, r, k.active.value);
      TerminatedOther(k, pid, r, k.active.value);
    }
  }

  /** Who is elected or left in the queues. */
  lemma ElectsMembers(r: Ready, k': State, o: Outcome, c: nat)
    requires Elects(r, k', o)
    ensures c in r.hi || c in r.lo ==> k'.active == Some(c) || c in k'.hi || c in k'.lo
    ensures c !in r.hi && c !in r.lo ==> c !in k'.hi && c !in k'.lo && (k'.active == Some(c) ==> r == Ready([], []) && o == Halts)
  {
  }

  /** Afterwards the caller runs or is ready exactly when it is not among the dead. */
  lemma CallerAfterTerminate(k: State, pid: Word, r: nat)
    requires Stable(k) && Names(k, pid, r)
    ensures Live(k, k.active.value)
    ensures var k', c := Next(k, TerminateCall(pid)).0, k.active.value;
      (k'.active == Some(c) && Live(k', c)) || c in k'.hi || c in k'.lo <==> !Descends(k, c, r)
  {
    var c := k.active.value;
    StableFacts(k);
    ActiveOffQueues(k);
    TerminateEffect(k, pid, r);
    var (k', o) := Next(k, TerminateCall(pid));
    CallerAfter(k, k', o, r, c);
  }

  lemma CallerAfter(k: State, k': State, o: Outcome, r: nat, c: nat)
    requires Forest(k) && Live(k, r) && Live(k, c) && c !in k.hi && c !in k.lo && Killed(k, k', r)
    requires Elects(if Descends(k, c, r) then Left(k, r) else Join(Left(k, r), k.pcb[c].prio, c), k', o)
    ensures (k'.active == Some(c) && Live(k', c)) || c in k'.hi || c in k'.lo <==> !Descends(k, c, r)
  {
    var q := if Descends(k, c, r) then Left(k, r) else Join(Left(k, r), k.pcb[c].prio, c);
    ElectsMembers(q, k', o, c);
    assert Live(k', c) <==> !Descends(k, c, r);
  }

  // ---- nothing is left out ---------------------------------------------------------------------

  /** The events that are described on their own. */
  predicate IsPlain(e: Event) {
    || e == YieldCall || e == InquiryCall || e == TimeSlice || e == Ignored || e == ClockTick || e.Completion?
    || (e.CreateCall? && (e.prio == 0 || e.prio == 1) && e.stateGiven)
    || (e.VerhogenCall? && e.sem.Some?)
  }

  /** Every event that can happen is one of those described. */
  lemma EveryEventHasItsEffect(k: State, e: Event)
    requires Stable(k) && Enabled(k, e) && !DevicePanic(k, e)
    ensures || IsPlain(e) || Refused(k, e) || (exists a :: IsP(k, e, a))
            || (e.TerminateCall? && exists r :: Names(k, e.pid, r))
  {
    if e.TerminateCall? {
      TerminateIsCovered(k, e.pid);
    } else {
      OtherIsCovered(k, e);
    }
  }

  lemma OtherIsCovered(k: State, e: Event)
    requires Enabled(k, e) && !DevicePanic(k, e) && !e.TerminateCall?
    ensures IsPlain(e) || Refused(k, e) || exists a :: IsP(k, e, a)
  {
    match e
    case PasserenCall(sem) => if sem.Some? { assert IsP(k, e, sem.value); }
    case DoIoCall(command) => if command.Some? && Queue(k, command.value) == [] { assert IsP(k, e, command.value); }
    case ClockWaitCall => assert IsP(k, e, k.timer);
    case _ =>
  }

  lemma TerminateIsCovered(k: State, pid: Word)
    requires Stable(k) && k.active.Some?
    ensures Refused(k, TerminateCall(pid)) || exists r :: Names(k, pid, r)
  {
    StableFacts(k);
    if pid == 0 {
      assert Names(k, pid, k.active.value);
    } else if r: nat :| Live(k, r) && k.pcb[r].pid == pid {
      assert Names(k, pid, r);
    }
  }

  // ---- power-on --------------------------------------------------------------------------------

  /** Power-on leaves one process, of low priority and with no parent, running; everything else is empty. */
  lemma BootEffect(n: nat, mem: map<Key, int>, timer: Key)
    requires 0 < n < 32 && timer !in mem
    ensures var (k, o) := Boot(n, mem, timer);
      && o == Dispatched && k.active == Some(n - 1) && |k.pcb| == n
      && (forall i: nat :: Live(k, i) <==> i == n - 1)
      && !k.pcb[n - 1].prio && k.pcb[n - 1].parent.None? && k.pcb[n - 1].semAdd.None?
      && Queues(k) == Ready([], []) && k.blocked == map[] && k.mem == mem && k.processCount == 1 && k.softblockCount == 0
  {
    BootSound(n, mem, timer);
    MakePidIsNotNull(n - 1, 0);
  }
}
