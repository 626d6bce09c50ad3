/**
 Conservation for one binary semaphore in any run of the machine: P and V both may block, waiters may
 be killed, and still completed Vs minus completed Ps is the change of the value.
 */
module Conservation {
  import opened Options
  import opened Pid
  import opened Sequences
  import opened Kernel
  import opened Progeny
  import opened Steps
  import opened Semaphores
  import opened Scheduling
  import opened Runs

  datatype Op = OpP | OpV

  /** Completed operations on one semaphore, and the operation each process last blocked in there. */
  datatype Tally = Tally(ps: int, vs: int, pending: map<nat, Op>)

  function Complete(t: Tally, op: Op): Tally {
    if op == OpP then t.(ps := t.ps + 1) else t.(vs := t.vs + 1)
  }

  /** A woken process has completed the operation it was blocked in. */
  function CompletePending(t: Tally, p: nat): Tally {
    if p in t.pending then Complete(t, t.pending[p]) else t
  }

  function TallyP(k: State, a: Key, p: nat, t: Tally): Tally {
    match DecideP(Value(k, a), Queue(k, a) != [])
    case Blocks => t.(pending := t.pending[p := OpP])
    case Wakes => CompletePending(Complete(t, OpP), Queue(k, a)[0])
    case Adjusts => Complete(t, OpP)
  }

  function TallyV(k: State, a: Key, t: Tally): Tally {
    match DecideV(Value(k, a), Queue(k, a) != [])
    case Blocks => if k.active.Some? then t.(pending := t.pending[k.active.value := OpV]) else t
    case Wakes => CompletePending(Complete(t, OpV), Queue(k, a)[0])
    case Adjusts => Complete(t, OpV)
  }

  function TallyTick(k: State, t: Tally): Tally
    requires forall i :: i in Queue(k, k.timer) ==> i < |k.pcb|
    decreases |Queue(k, k.timer)|
  {
    if Value(k, k.timer) == 1 then t
    else if Queue(k, k.timer) == [] then TallyV(k, k.timer, t)
    else
      assert Queue(k, k.timer)[0] in Queue(k, k.timer);
      WakeQueue(k, k.timer);
      TallyTick(Wake(k, k.timer), TallyV(k, k.timer, t))
  }

  function TallySemaphoreCall(k: State, e: Event, a: Key, t: Tally): Tally
    requires k.active.Some? && IsSemaphoreCall(e)
  {
    match e
    case PasserenCall(sem) => if sem == Some(a) then TallyP(k, a, k.active.value, t) else t
    case DoIoCall(command) => if command == Some(a) && Queue(k, a) == [] then TallyP(k, a, k.active.value, t) else t
    case ClockWaitCall => if a == k.timer then TallyP(k, a, k.active.value, t) else t
    case VerhogenCall(sem) => if sem == Some(a) then TallyV(k, a, t) else t
  }

  ghost function TallyInterrupt(k: State, e: Event, a: Key, t: Tally): Tally
    requires Stable(k) && !IsCall(e)
  {
    match e
    case Completion(device) => if device == a then TallyV(k, a, t) else t
    case ClockTick => TickReady(k, k.active); if a == k.timer then TallyTick(k, t) else t
    case _ => t
  }

  /** What an event adds to the tally of semaphore `a`. */
  ghost function TallyNext(k: State, e: Event, a: Key, t: Tally): Tally
    requires Stable(k) && Enabled(k, e)
  {
    if !IsCall(e) then TallyInterrupt(k, e, a, t)
    else if IsSemaphoreCall(e) then TallySemaphoreCall(k, e, a, t)
    else t
  }

  /**
   The conservation law, with what it rests on: the value is binary, and whoever waits at zero is
   blocked in a P, whoever waits at one in a V.
   */
  ghost predicate Balanced(k: State, a: Key, initial: int, t: Tally) {
    && 0 <= Value(k, a) <= 1
    && t.vs - t.ps == Value(k, a) - initial
    && forall i :: i in Queue(k, a) ==> i in t.pending && t.pending[i] == if Value(k, a) == 0 then OpP else OpV
  }

  lemma QueueAfterWake(k: State, b: Key, a: Key)
    requires OnQueues(k) && Fifo(k) && Queue(k, b) != []
    ensures Queue(k, b)[0] < |k.pcb|
    ensures Queue(Wake(k, b), a) == if a == b then Queue(k, a)[1..] else Queue(k, a)
    ensures Value(Wake(k, b), a) == Value(k, a)
  {
    HeadWaits(k, b);
    var h := Queue(k, b)[0];
    if a in k.blocked {
      if a == b {
        MinusAt(k.blocked[a], 0);
        assert Minus(k.blocked[a], {h}) == k.blocked[a][1..];
      } else {
        assert h !in k.blocked[a];
        MinusNone(k.blocked[a], {h});
      }
    }
  }

  /** One semaphore of the kernel as its P and V see it. */
  function Sem(k: State, a: Key): Semaphore<nat> { Semaphore(Value(k, a), Queue(k, a)) }

  /** P on one semaphore is what module Semaphores says it is, and every other semaphore stays. */
  lemma PProjects(k: State, b: Key, p: nat, a: Key)
    requires OnQueues(k) && Fifo(k) && Wakeable(k) && p < |k.pcb| && k.pcb[p].semAdd.None? && Unready(k, p) == k
    ensures P(k, Some(b), Some(p)).Handled?
    ensures Sem(P(k, Some(b), Some(p)).k, a) == if a == b then Sem(k, a).AfterP(p) else Sem(k, a)
  {
    if Sem(k, b).PDecision() == Wakes {
      QueueAfterWake(k, b, a);
    }
  }

  /** And so is V, by the running process or, when it need not block, by an interrupt. */
  lemma VProjects(k: State, b: Key, p: nat, a: Key)
    requires OnQueues(k) && Fifo(k) && Wakeable(k)
    requires if k.active.Some? then k.active == Some(p) && p < |k.pcb| && k.pcb[p].semAdd.None? && Unready(k, p) == k
             else Value(k, b) != 1
    ensures Sem(V(k, Some(b)).0, a) == if a == b then Sem(k, a).AfterV(p) else Sem(k, a)
  {
    if Sem(k, b).VDecision() == Wakes {
      QueueAfterWake(k, b, a);
    }
  }

  /** One more waiter, blocked in the operation that blocks at the present value. */
  lemma BlockBalanced(k: State, b: Key, p: nat, a: Key, initial: int, t: Tally)
    requires p < |k.pcb| && Balanced(k, a, initial, t)
    ensures Balanced(BlockOn(k, b, p), a, initial,
                     if a == b then t.(pending := t.pending[p := if Value(k, a) == 0 then OpP else OpV]) else t)
  {
  }

  /** A completing operation wakes the opposite one, and the two cancel out. */
  lemma WakeBalanced(k: State, b: Key, op: Op, a: Key, initial: int, t: Tally)
    requires OnQueues(k) && Fifo(k) && Queue(k, b) != [] && Balanced(k, a, initial, t)
    requires a == b ==> op == if Value(k, a) == 0 then OpV else OpP
    ensures Queue(k, b)[0] < |k.pcb|
    ensures Balanced(Wake(k, b), a, initial, if a == b then CompletePending(Complete(t, op), Queue(k, a)[0]) else t)
  {
    QueueAfterWake(k, b, a);
    if a == b {
      assert Queue(k, a)[0] in Queue(k, a);
    }
  }

  /** With nobody waiting the operation moves the value. */
  lemma AdjustBalanced(k: State, b: Key, v: int, a: Key, initial: int, t: Tally)
    requires Queue(k, b) == [] && Balanced(k, a, initial, t)
    requires a == b ==> v == 1 - Value(k, a)
    ensures Balanced(WithValue(k, b, v), a, initial, if a == b then Complete(t, if v == 0 then OpP else OpV) else t)
  {
  }

  lemma PBalanced(k: State, b: Key, p: nat, a: Key, initial: int, t: Tally)
    requires OnQueues(k) && Fifo(k) && Wakeable(k) && p < |k.pcb| && k.pcb[p].semAdd.None? && Unready(k, p) == k
    requires Balanced(k, a, initial, t)
    ensures P(k, Some(b), Some(p)).Handled?
    ensures Balanced(P(k, Some(b), Some(p)).k, a, initial, if a == b then TallyP(k, a, p, t) else t)
  {
    match DecideP(Value(k, b), Queue(k, b) != [])
    case Blocks => BlockBalanced(k, b, p, a, initial, t);
    case Wakes => WakeBalanced(k, b, OpP, a, initial, t);
    case Adjusts => AdjustBalanced(k, b, Value(k, b) - 1, a, initial, t);
  }

  lemma VBalanced(k: State, b: Key, a: Key, initial: int, t: Tally)
    requires OnQueues(k) && Fifo(k) && Wakeable(k) && Balanced(k, a, initial, t) && (k.active.None? ==> Value(k, b) != 1)
    requires k.active.Some? ==> k.active.value < |k.pcb| && k.pcb[k.active.value].semAdd.None? && Unready(k, k.active.value) == k
    ensures Balanced(V(k, Some(b)).0, a, initial, if a == b then TallyV(k, a, t) else t)
  {
    match DecideV(Value(k, b), Queue(k, b) != [])
    case Blocks => BlockBalanced(k, b, k.active.value, a, initial, t);
    case Wakes => WakeBalanced(k, b, OpV, a, initial, t);
    case Adjusts => AdjustBalanced(k, b, Value(k, b) + 1, a, initial, t);
  }

  lemma ActivePBalanced(k: State, b: Key, a: Key, initial: int, t: Tally)
    requires Stable(k) && k.active.Some? && Wakeable(k) && Balanced(k, a, initial, t)
    ensures P(k, Some(b), k.active).Handled?
    ensures Balanced(P(k, Some(b), k.active).k, a, initial, if a == b then TallyP(k, a, k.active.value, t) else t)
  {
    UnreadyNone(k, k.active.value);
    PBalanced(k, b, k.active.value, a, initial, t);
  }

  lemma ActiveVBalanced(k: State, b: Key, a: Key, initial: int, t: Tally)
    requires Stable(k) && Wakeable(k) && Balanced(k, a, initial, t) && (k.active.None? ==> Value(k, b) != 1)
    ensures Balanced(V(k, Some(b)).0, a, initial, if a == b then TallyV(k, a, t) else t)
  {
    if k.active.Some? {
      UnreadyNone(k, k.active.value);
    }
    VBalanced(k, b, a, initial, t);
  }

  /** A kill only takes waiters away. */
  lemma KillBalanced(k: State, r: nat, a: Key, initial: int, t: Tally)
    requires Forest(k) && Live(k, r) && Balanced(k, a, initial, t)
    ensures Balanced(KillTree(k, r), a, initial, t)
  {
    KilledQueues(k, r, a);
    assert Value(KillTree(k, r), a) == Value(k, a);
  }

  lemma PassUpBalanced(k: State, a: Key, initial: int, t: Tally)
    requires Stable(k) && Balanced(k, a, initial, t)
    ensures PassUpOrDie(k).Handled? && Balanced(PassUpOrDie(k).k, a, initial, t)
  {
    if k.active.Some? && !k.pcb[k.active.value].support {
      KillBalanced(k, k.active.value, a, initial, t);
    }
  }

  lemma {:induction false} TickBalanced(k: State, cpu: Option<nat>, a: Key, initial: int, t: Tally)
    requires Fit(k, cpu) && 0 <= Value(k, k.timer) <= 1 && Balanced(k, a, initial, t)
    ensures forall i :: i in Queue(k, k.timer) ==> i < |k.pcb|
    ensures Balanced(Tick(k), a, initial, if a == k.timer then TallyTick(k, t) else t)
    decreases |Queue(k, k.timer)|
  {
    TickReady(k, cpu);
    if Value(k, k.timer) == 0 {
      if Queue(k, k.timer) == [] {
        TickOnce(k);
        AdjustBalanced(k, k.timer, 1, a, initial, t);
      } else {
        TickStep(k, cpu);
        WakeBalanced(k, k.timer, OpV, a, initial, t);
        TickBalanced(Wake(k, k.timer), cpu, a, initial, if a == k.timer then TallyV(k, a, t) else t);
      }
    }
  }

  /** The scheduler leaves semaphores and their queues alone. */
  lemma ScheduleBalanced(k: State, c: Control, a: Key, initial: int, t: Tally)
    requires Schedulable(k, c) && Balanced(k, a, initial, t)
    ensures forall i :: i in k.hi || i in k.lo ==> i < |k.pcb|
    ensures Balanced(Schedule(k, c).0, a, initial, t)
  {
    ReadyInTable(k, OffList(k, c));
    ScheduleKeepsSemaphores(k, c);
    SameSemaphores(k, Schedule(k, c).0, a, initial, t);
  }

  lemma ScheduleKeepsSemaphores(k: State, c: Control)
    requires forall i :: i in k.hi || i in k.lo ==> i < |k.pcb|
    requires c.pcb.Some? ==> c.pcb.value < |k.pcb|
    requires k.yielder.Some? ==> k.yielder.value < |k.pcb|
    ensures Schedule(k, c).0.blocked == k.blocked && Schedule(k, c).0.mem == k.mem
  {
    var k1 := if c.pcb.Some? && c.enqueue then Enqueue(k, c.pcb.value) else k;
    assert k1.blocked == k.blocked && k1.mem == k.mem;
    assert Select(k1).0.blocked == k.blocked && Select(k1).0.mem == k.mem;
  }

  lemma CreateBalanced(k: State, prio: int, given: bool, support: bool, a: Key, initial: int, t: Tally)
    requires Stable(k) && k.active.Some? && Balanced(k, a, initial, t)
    ensures CreateProcess(k, prio, given, support).Handled?
    ensures Balanced(CreateProcess(k, prio, given, support).k, a, initial, t)
  {
    if (prio != 0 && prio != 1) || !given {
      PassUpBalanced(k, a, initial, t);
    } else {
      CreatedElsewhere(k, prio == 1, support);
      SameSemaphores(k, Created(k, prio == 1, support), a, initial, t);
    }
  }

  lemma SameSemaphores(k: State, k': State, a: Key, initial: int, t: Tally)
    requires k'.blocked == k.blocked && k'.mem == k.mem && Balanced(k, a, initial, t)
    ensures Balanced(k', a, initial, t)
  {
  }

  lemma CreatedElsewhere(k: State, prio: bool, support: bool)
    requires Stable(k) && k.active.Some?
    ensures Created(k, prio, support).blocked == k.blocked && Created(k, prio, support).mem == k.mem
  {
    if k.free != [] {
      assert k.free[0] in k.free;
      SpawnedElsewhere(k, prio, support, MakePid(k.free[0], k.spawned % 0x1_0000_0000), k.active.value);
    }
  }

  lemma SpawnedElsewhere(k: State, prio: bool, support: bool, pid: Word, parent: nat)
    requires k.free != [] && k.free[0] < |k.pcb| && |k.birth| == |k.pcb| == |k.kids| && parent < |k.kids|
    ensures var r := Adopt(WithSupport(SpawnAs(k, prio, pid), k.free[0], support), parent, k.free[0]);
      r.blocked == k.blocked && r.mem == k.mem
  {
  }

  lemma TerminateBalanced(k: State, pid: Word, a: Key, initial: int, t: Tally)
    requires Stable(k) && k.active.Some? && Balanced(k, a, initial, t)
    ensures TerminateProcess(k, pid).Handled? && Balanced(TerminateProcess(k, pid).k, a, initial, t)
  {
    if pid == 0 {
      KillBalanced(k, k.active.value, a, initial, t);
    } else if FindProcess(k, pid).Some? {
      FoundIsLive(k, pid);
      KillBalanced(k, FindProcess(k, pid).value, a, initial, t);
    } else {
      PassUpBalanced(k, a, initial, t);
    }
  }

  lemma ProcessHandlerBalanced(k: State, e: Event, a: Key, initial: int, t: Tally)
    requires Stable(k) && k.active.Some? && IsCall(e) && !IsSemaphoreCall(e) && Balanced(k, a, initial, t)
    ensures HandleProcessCall(k, e).Handled? && Balanced(HandleProcessCall(k, e).k, a, initial, t)
  {
    match e
    case CreateCall(prio, given, support) => CreateBalanced(k, prio, given, support, a, initial, t);
    case TerminateCall(pid) => TerminateBalanced(k, pid, a, initial, t);
    case YieldCall => SameSemaphores(k, k.(yielder := k.active), a, initial, t);
    case InquiryCall =>
    case Fault => PassUpBalanced(k, a, initial, t);
  }

  lemma PasserenBalanced(k: State, sem: Option<Key>, a: Key, initial: int, t: Tally)
    requires Stable(k) && k.active.Some? && Balanced(k, a, initial, t)
    ensures Passeren(k, sem).Handled?
    ensures Balanced(Passeren(k, sem).k, a, initial, if sem == Some(a) then TallyP(k, a, k.active.value, t) else t)
  {
    StableWakeable(k, k.active);
    if sem.None? {
      PassUpBalanced(k, a, initial, t);
    } else {
      ActivePBalanced(k, sem.value, a, initial, t);
    }
  }

  lemma VerhogenBalanced(k: State, sem: Option<Key>, a: Key, initial: int, t: Tally)
    requires Stable(k) && k.active.Some? && Balanced(k, a, initial, t)
    ensures Verhogen(k, sem).Handled?
    ensures Balanced(Verhogen(k, sem).k, a, initial, if sem == Some(a) then TallyV(k, a, t) else t)
  {
    StableWakeable(k, k.active);
    if sem.None? {
      PassUpBalanced(k, a, initial, t);
    } else {
      ActiveVBalanced(k, sem.value, a, initial, t);
    }
  }

  lemma DoIoBalanced(k: State, command: Option<Key>, a: Key, initial: int, t: Tally)
    requires Stable(k) && k.active.Some? && Balanced(k, a, initial, t)
    requires command.Some? && Queue(k, command.value) == [] ==> Value(k, command.value) <= 0
    ensures DoIo(k, command).Handled?
    ensures Balanced(DoIo(k, command).k, a, initial,
                     if command == Some(a) && Queue(k, a) == [] then TallyP(k, a, k.active.value, t) else t)
  {
    StableWakeable(k, k.active);
    if command.None? || Queue(k, command.value) != [] {
      PassUpBalanced(k, a, initial, t);
    } else {
      ActivePBalanced(k, command.value, a, initial, t);
    }
  }

  lemma SemaphoreHandlerBalanced(k: State, e: Event, a: Key, initial: int, t: Tally)
    requires Stable(k) && k.active.Some? && IsSemaphoreCall(e) && !DevicePanic(k, e) && Balanced(k, a, initial, t)
    ensures HandleSemaphoreCall(k, e).Handled?
    ensures Balanced(HandleSemaphoreCall(k, e).k, a, initial, TallySemaphoreCall(k, e, a, t))
  {
    match e
    case PasserenCall(sem) => PasserenBalanced(k, sem, a, initial, t);
    case VerhogenCall(sem) => VerhogenBalanced(k, sem, a, initial, t);
    case DoIoCall(command) => DoIoBalanced(k, command, a, initial, t);
    case ClockWaitCall => PasserenBalanced(k, Some(k.timer), a, initial, t);
  }

  lemma InterruptHandlerBalanced(k: State, e: Event, a: Key, initial: int, t: Tally)
    requires Stable(k) && Enabled(k, e) && !IsCall(e) && Balanced(k, a, initial, t)
    ensures Balanced(HandleInterrupt(k, e).k, a, initial, TallyInterrupt(k, e, a, t))
  {
    match e
    case TimeSlice =>
    case Ignored =>
    case ClockTick => TickBalanced(k, k.active, a, initial, t);
    case Completion(device) =>
      StableWakeable(k, k.active);
      ActiveVBalanced(k, device, a, initial, t);
  }

  /** Every event keeps the balance of every semaphore. */
  lemma EventBalanced(k: State, e: Event, a: Key, initial: int, t: Tally)
    requires Stable(k) && Enabled(k, e) && !DevicePanic(k, e) && Balanced(k, a, initial, t)
    ensures Balanced(Next(k, e).0, a, initial, TallyNext(k, e, a, t))
  {
    HandleSound(k, e);
    if !IsCall(e) {
      InterruptHandlerBalanced(k, e, a, initial, t);
    } else if IsSemaphoreCall(e) {
      SemaphoreHandlerBalanced(k, e, a, initial, t);
    } else {
      ProcessHandlerBalanced(k, e, a, initial, t);
    }
    ScheduleBalanced(Handle(k, e).k, Handle(k, e).control, a, initial, TallyNext(k, e, a, t));
  }

  /** The tally of a whole run. */
  ghost function RunTally(k: State, o: Outcome, es: seq<Event>, a: Key, t: Tally): Tally
    requires Scheduled(k, o)
    decreases |es|
  {
    if es == [] || o.Halts? then t
    else if !Enabled(k, es[0]) then RunTally(k, o, es[1..], a, t)
    else if DevicePanic(k, es[0]) then t
    else RunTally(Next(k, es[0]).0, Next(k, es[0]).1, es[1..], a, TallyNext(k, es[0], a, t))
  }

  /**
   For a semaphore that nobody waits on and whose value is zero or one, after any run: completed Vs
   minus completed Ps is the change of the value, the value is zero or one, and those waiting are
   blocked in Ps at zero and in Vs at one.
   */
  lemma {:induction false} ConservationInEveryRun(k: State, o: Outcome, es: seq<Event>, a: Key, initial: int, t: Tally)
    requires Scheduled(k, o) && Balanced(k, a, initial, t)
    ensures Balanced(Run(k, o, es).0, a, initial, RunTally(k, o, es, a, t))
    decreases |es|
  {
    if es == [] || o.Halts? {
    } else if !Enabled(k, es[0]) {
      ConservationInEveryRun(k, o, es[1..], a, initial, t);
    } else if !DevicePanic(k, es[0]) {
      EventBalanced(k, es[0], a, initial, t);
      ConservationInEveryRun(Next(k, es[0]).0, Next(k, es[0]).1, es[1..], a, initial, TallyNext(k, es[0], a, t));
    }
  }

  // ---- when a semaphore's value moves ----------------------------------------------------------

  /** The value of `a` is the same, or nobody waits on it any more. */
  ghost predicate MovesIdle(k: State, k': State, a: Key) { Value(k', a) != Value(k, a) ==> Queue(k', a) == [] }

  lemma PMovesIdle(k: State, b: Key, a: Key)
    requires Stable(k) && k.active.Some? && Wakeable(k)
    ensures P(k, Some(b), k.active).Handled? && MovesIdle(k, P(k, Some(b), k.active).k, a)
  {
    UnreadyNone(k, k.active.value);
    PProjects(k, b, k.active.value, a);
    assert Sem(P(k, Some(b), k.active).k, a).queue == Queue(P(k, Some(b), k.active).k, a);
  }

  lemma VMovesIdle(k: State, b: Key, a: Key)
    requires Stable(k) && Wakeable(k) && (k.active.None? ==> Value(k, b) != 1)
    ensures MovesIdle(k, V(k, Some(b)).0, a)
  {
    if k.active.Some? {
      UnreadyNone(k, k.active.value);
    }
    VProjects(k, b, if k.active.Some? then k.active.value else 0, a);
    assert Sem(V(k, Some(b)).0, a).queue == Queue(V(k, Some(b)).0, a);
  }

  lemma {:induction false} TickMovesIdle(k: State, cpu: Option<nat>, a: Key)
    requires Fit(k, cpu) && 0 <= Value(k, k.timer) <= 1
    ensures forall i :: i in Queue(k, k.timer) ==> i < |k.pcb|
    ensures MovesIdle(k, Tick(k), a)
    decreases |Queue(k, k.timer)|
  {
    TickReady(k, cpu);
    if Value(k, k.timer) == 0 {
      if Queue(k, k.timer) == [] {
        TickOnce(k);
      } else {
        TickStep(k, cpu);
        TickMovesIdle(Wake(k, k.timer), cpu, a);
        assert Value(Wake(k, k.timer), a) == Value(k, a);
      }
    }
  }

  lemma PassUpKeepsMem(k: State)
    requires Stable(k)
    ensures PassUpOrDie(k).Handled? && PassUpOrDie(k).k.mem == k.mem
  {
  }

  lemma TerminateKeepsMem(k: State, pid: Word)
    requires Stable(k) && k.active.Some?
    ensures TerminateProcess(k, pid).Handled? && TerminateProcess(k, pid).k.mem == k.mem
  {
    PassUpKeepsMem(k);
    if pid != 0 && FindProcess(k, pid).Some? {
      FoundIsLive(k, pid);
    }
  }

  lemma CreateKeepsMem(k: State, prio: int, given: bool, support: bool)
    requires Stable(k) && k.active.Some?
    ensures CreateProcess(k, prio, given, support).Handled? && CreateProcess(k, prio, given, support).k.mem == k.mem
  {
    PassUpKeepsMem(k);
    CreatedElsewhere(k, prio == 1, support);
  }

  lemma ProcessHandlerKeepsMem(k: State, e: Event)
    requires Stable(k) && k.active.Some? && IsCall(e) && !IsSemaphoreCall(e)
    ensures HandleProcessCall(k, e).Handled? && HandleProcessCall(k, e).k.mem == k.mem
  {
    match e
    case CreateCall(prio, given, support) => CreateKeepsMem(k, prio, given, support);
    case TerminateCall(pid) => TerminateKeepsMem(k, pid);
    case YieldCall =>
    case InquiryCall =>
    case Fault => PassUpKeepsMem(k);
  }

  lemma PasserenMovesIdle(k: State, sem: Option<Key>, a: Key)
    requires Stable(k) && k.active.Some?
    ensures Passeren(k, sem).Handled? && MovesIdle(k, Passeren(k, sem).k, a)
  {
    StableWakeable(k, k.active);
    if sem.None? {
      PassUpKeepsMem(k);
    } else {
      PMovesIdle(k, sem.value, a);
    }
  }

  lemma VerhogenMovesIdle(k: State, sem: Option<Key>, a: Key)
    requires Stable(k) && k.active.Some?
    ensures Verhogen(k, sem).Handled? && MovesIdle(k, Verhogen(k, sem).k, a)
  {
    StableWakeable(k, k.active);
    if sem.None? {
      PassUpKeepsMem(k);
    } else {
      VMovesIdle(k, sem.value, a);
    }
  }

  lemma DoIoMovesIdle(k: State, command: Option<Key>, a: Key)
    requires Stable(k) && k.active.Some?
    requires command.Some? && Queue(k, command.value) == [] ==> Value(k, command.value) <= 0
    ensures DoIo(k, command).Handled? && MovesIdle(k, DoIo(k, command).k, a)
  {
    StableWakeable(k, k.active);
    if command.None? || Queue(k, command.value) != [] {
      PassUpKeepsMem(k);
    } else {
      PMovesIdle(k, command.value, a);
    }
  }

  lemma SemaphoreHandlerMovesIdle(k: State, e: Event, a: Key)
    requires Stable(k) && k.active.Some? && IsSemaphoreCall(e) && !DevicePanic(k, e)
    ensures HandleSemaphoreCall(k, e).Handled? && MovesIdle(k, HandleSemaphoreCall(k, e).k, a)
  {
    match e
    case PasserenCall(sem) => PasserenMovesIdle(k, sem, a);
    case VerhogenCall(sem) => VerhogenMovesIdle(k, sem, a);
    case DoIoCall(command) => DoIoMovesIdle(k, command, a);
    case ClockWaitCall => PasserenMovesIdle(k, Some(k.timer), a);
  }

  lemma InterruptHandlerMovesIdle(k: State, e: Event, a: Key)
    requires Stable(k) && Enabled(k, e) && !IsCall(e)
    ensures MovesIdle(k, HandleInterrupt(k, e).k, a)
  {
    match e
    case TimeSlice =>
    case Ignored =>
    case ClockTick => TickMovesIdle(k, k.active, a);
    case Completion(device) =>
      StableWakeable(k, k.active);
      VMovesIdle(k, device, a);
  }

  /** An event changes the value of a semaphore only if nobody waits there afterwards. */
  lemma EventMovesIdle(k: State, e: Event, a: Key)
    requires Stable(k) && Enabled(k, e) && !DevicePanic(k, e)
    ensures MovesIdle(k, Next(k, e).0, a)
  {
    HandleSound(k, e);
    if !IsCall(e) {
      InterruptHandlerMovesIdle(k, e, a);
    } else if IsSemaphoreCall(e) {
      SemaphoreHandlerMovesIdle(k, e, a);
    } else {
      ProcessHandlerKeepsMem(k, e);
    }
    var h, c := Handle(k, e).k, Handle(k, e).control;
    ReadyInTable(h, OffList(h, c));
    ScheduleKeepsSemaphores(h, c);
  }

  /** Somebody waits on `a` after every event of the run. */
  ghost predicate Busy(k: State, o: Outcome, es: seq<Event>, a: Key)
    requires Scheduled(k, o)
    decreases |es|
  {
    if es == [] || o.Halts? then true
    else if !Enabled(k, es[0]) then Busy(k, o, es[1..], a)
    else if DevicePanic(k, es[0]) then true
    else Queue(Next(k, es[0]).0, a) != [] && Busy(Next(k, es[0]).0, Next(k, es[0]).1, es[1..], a)
  }

  /** While somebody waits on a semaphore its value stays what it is, in every run. */
  lemma {:induction false} ValueStaysWhileBusy(k: State, o: Outcome, es: seq<Event>, a: Key)
    requires Scheduled(k, o) && Busy(k, o, es, a)
    ensures Value(Run(k, o, es).0, a) == Value(k, a)
    decreases |es|
  {
    if es == [] || o.Halts? {
    } else if !Enabled(k, es[0]) {
      ValueStaysWhileBusy(k, o, es[1..], a);
    } else if !DevicePanic(k, es[0]) {
      EventMovesIdle(k, es[0], a);
      ValueStaysWhileBusy(Next(k, es[0]).0, Next(k, es[0]).1, es[1..], a);
    }
  }
}
