/**
 What one event does to the nucleus: the system call and interrupt handlers of os/src/syscall.c,
 os/src/semaphores.c and phase2/src/exception.c, each followed by os/src/scheduler.c's schedule.
 */
module Steps {
  import opened Options
  import opened Pid
  import opened Sequences
  import opened Kernel
  import opened Progeny
  import opened Semaphores

  /** What a handler hands to schedule: nobody, a process to keep running, or one to enqueue. */
  datatype Control = Control(pcb: Option<nat>, enqueue: bool)

  const BLOCK: Control := Control(None, false)

  function Preserve(p: Option<nat>): Control { Control(p, false) }

  function Reschedule(k: State): Control { Control(k.active, true) }

  /** A handler either returns to the scheduler or panics. */
  datatype Handled = Handled(k: State, control: Control) | Panicked

  // ---- semaphores ------------------------------------------------------------------------------

  function WithValue(k: State, a: Key, v: int): State { k.(mem := k.mem[a := v]) }

  /** The semaphore queues hold live table entries, so that the longest waiter can be woken. */
  ghost predicate Wakeable(k: State) {
    forall a :: Queue(k, a) != [] ==> Queue(k, a)[0] < |k.pcb|
  }

  ghost function P(k: State, a: Option<Key>, p: Option<nat>): Handled
    requires Wakeable(k) && (p.Some? ==> p.value < |k.pcb|)
  {
    if a.None? || p.None? then Handled(k, Reschedule(k))
    else match DecideP(Value(k, a.value), Queue(k, a.value) != [])
      case Blocks =>
        if k.pcb[p.value].semAdd.Some? then Panicked
        else Handled(BlockOn(Unready(k, p.value), a.value, p.value), BLOCK)
      case Wakes => Handled(Wake(k, a.value), Reschedule(k))
      case Adjusts => Handled(WithValue(k, a.value, Value(k, a.value) - 1), Reschedule(k))
  }

  /** V's new state and the process it returns. */
  ghost function V(k: State, a: Option<Key>): (State, Option<nat>)
    requires Wakeable(k) && (k.active.Some? ==> k.active.value < |k.pcb|)
  {
    if a.None? then (k, None)
    else match DecideV(Value(k, a.value), Queue(k, a.value) != [])
      case Blocks =>
        if k.active.Some? && k.pcb[k.active.value].semAdd.None?
        then (BlockOn(Unready(k, k.active.value), a.value, k.active.value), None)
        else (k, None)
      case Wakes => (Wake(k, a.value), Some(Queue(k, a.value)[0]))
      case Adjusts => (WithValue(k, a.value, Value(k, a.value) + 1), k.active)
  }

  // ---- the scheduler ---------------------------------------------------------------------------

  datatype Outcome = Dispatched | Idles | Halts | Deadlocks

  /** Process selection: high queue, low queue, yielder, and otherwise wait_or_die. */
  function Select(k: State): (State, Outcome)
    requires forall i :: i in k.hi || i in k.lo ==> i < |k.pcb|
  {
    if k.hi != [] then (k.(hi := Minus(k.hi, {k.hi[0]}), active := Some(k.hi[0])), Dispatched)
    else if k.lo != [] then (k.(lo := Minus(k.lo, {k.lo[0]}), active := Some(k.lo[0])), Dispatched)
    else if k.yielder.Some? then (k.(active := k.yielder, yielder := None), Dispatched)
    else if k.processCount == 0 then (k, Halts)
    else if k.softblockCount != 0 then (k.(active := None), Idles)
    else (k, Deadlocks)
  }

  function Requeue(k: State): State
    requires k.yielder.Some? ==> k.yielder.value < |k.pcb|
  {
    if k.yielder.Some? then Enqueue(k, k.yielder.value).(yielder := None) else k
  }

  /** schedule(c.pcb, c.enqueue) */
  function Schedule(k: State, c: Control): (State, Outcome)
    requires forall i :: i in k.hi || i in k.lo ==> i < |k.pcb|
    requires c.pcb.Some? ==> c.pcb.value < |k.pcb|
    requires k.yielder.Some? ==> k.yielder.value < |k.pcb|
  {
    if c.pcb.Some? && !c.enqueue then (Requeue(k.(active := c.pcb)), Dispatched)
    else
      var k1 := if c.pcb.Some? then Enqueue(k, c.pcb.value) else k;
      var (k2, o) := Select(k1);
      if o.Dispatched? then (Requeue(k2), o) else (k2, o)
  }

  // ---- handlers --------------------------------------------------------------------------------

  /** Between two events: the running process is on no list, and nobody runs only when nobody is ready. */
  ghost predicate Stable(k: State) {
    && Core(k, k.active)
    && k.yielder.None?
    && (k.active.Some? ==> Runnable(k, k.active.value))
    && (k.active.None? ==> k.hi == [] && k.lo == [])
    && 0 <= Value(k, k.timer) <= 1
  }

  /** The slot a pid names, if the process holding it is alive (find_process). */
  function FindProcess(k: State, pid: Word): Option<nat> {
    var i := MaskPidId(pid);
    if i >= |k.pcb| || k.pcb[i].pid != pid then None else Some(i)
  }

  lemma StableWakeable(k: State, cpu: Option<nat>)
    requires Core(k, cpu)
    ensures Wakeable(k)
  {
    forall a | Queue(k, a) != [] ensures Queue(k, a)[0] < |k.pcb| {
      HeadWaits(k, a);
    }
  }

  /** pass_up_or_die: the support level takes over, or the process and its progeny die. */
  ghost function PassUpOrDie(k: State): Handled
    requires Stable(k)
  {
    if k.active.None? then Handled(k, BLOCK)
    else if k.pcb[k.active.value].support then Handled(k, Preserve(k.active))
    else Handled(KillTree(k, k.active.value), BLOCK)
  }

  function WithSupport(k: State, c: nat, support: bool): State
    requires c < |k.pcb|
  {
    k.(pcb := k.pcb[c := k.pcb[c].(support := support)])
  }

  /** A child of the running process, in the first free slot if there is one. */
  ghost function Created(k: State, prio: bool, support: bool): State
    requires Stable(k) && k.active.Some?
  {
    if k.free == [] then k
    else
      assert k.free[0] in k.free;
      Adopt(WithSupport(Spawn(k, prio), k.free[0], support), k.active.value, k.free[0])
  }

  ghost function CreateProcess(k: State, prio: int, stateGiven: bool, support: bool): Handled
    requires Stable(k) && k.active.Some?
  {
    if (prio != 0 && prio != 1) || !stateGiven then PassUpOrDie(k)
    else Handled(Created(k, prio == 1, support), Preserve(k.active))
  }

  ghost function TerminateProcess(k: State, pid: Word): Handled
    requires Stable(k) && k.active.Some?
  {
    if pid == 0 then Handled(KillTree(k, k.active.value), BLOCK)
    else match FindProcess(k, pid)
      case None => PassUpOrDie(k)
      case Some(p) =>
        var k' := KillTree(k, p);
        Handled(k', if k'.pcb[k.active.value].pid == NULL_PID then BLOCK else Reschedule(k'))
  }

  ghost function Passeren(k: State, a: Option<Key>): Handled
    requires Stable(k) && k.active.Some?
  {
    StableWakeable(k, k.active);
    if a.None? then PassUpOrDie(k) else P(k, a, k.active)
  }

  ghost function Verhogen(k: State, a: Option<Key>): Handled
    requires Stable(k) && k.active.Some?
  {
    StableWakeable(k, k.active);
    if a.None? then PassUpOrDie(k)
    else
      var (k', p) := V(k, a);
      Handled(k', if p.None? then BLOCK else Reschedule(k'))
  }

  /** DOIO up to the device command: `sem` is the device's semaphore, if the address names a device. */
  ghost function DoIo(k: State, sem: Option<Key>): Handled
    requires Stable(k) && k.active.Some?
  {
    StableWakeable(k, k.active);
    if sem.None? || Queue(k, sem.value) != [] then PassUpOrDie(k)
    else if Value(k, sem.value) > 0 then Panicked
    else P(k, sem, k.active)
  }

  /** interrupt_timer's loop: V until the clock semaphore is one. */
  function Tick(k: State): State
    requires forall i :: i in Queue(k, k.timer) ==> i < |k.pcb|
    requires 0 <= Value(k, k.timer) <= 1
    decreases |Queue(k, k.timer)|
  {
    if Value(k, k.timer) == 1 then k
    else if Queue(k, k.timer) == [] then WithValue(k, k.timer, Value(k, k.timer) + 1)
    else
      assert Queue(k, k.timer)[0] in Queue(k, k.timer);
      WakeQueue(k, k.timer);
      Tick(Wake(k, k.timer))
  }

  lemma WakeQueue(k: State, a: Key)
    requires Queue(k, a) != [] && Queue(k, a)[0] < |k.pcb|
    ensures Queue(Wake(k, a), a) == Minus(Queue(k, a), {Queue(k, a)[0]})
    ensures |Queue(Wake(k, a), a)| < |Queue(k, a)|
  {
  }

  /** The events an idle or running machine can meet. */
  datatype Event =
    | CreateCall(prio: int, stateGiven: bool, support: bool)
    | TerminateCall(pid: Word)
    | PasserenCall(sem: Option<Key>)
    | VerhogenCall(sem: Option<Key>)
    | DoIoCall(command: Option<Key>)
    | ClockWaitCall
    | YieldCall
    | InquiryCall              // GETTIME, GETSUPPORTPTR, GETPROCESSID
    | Fault                    // a trap or a system call that is passed up
    | TimeSlice                // processor local timer
    | Ignored                  // inter-processor interrupt
    | ClockTick                // interval timer
    | Completion(device: Key)  // a device is done and someone waits for it

  predicate IsCall(e: Event) {
    !e.TimeSlice? && !e.Ignored? && !e.ClockTick? && !e.Completion?
  }

  ghost predicate Enabled(k: State, e: Event) {
    && (IsCall(e) ==> k.active.Some?)
    && (e.Completion? ==> Queue(k, e.device) != [] && Value(k, e.device) != 1)
  }

  lemma TickReady(k: State, cpu: Option<nat>)
    requires Core(k, cpu)
    ensures forall i :: i in Queue(k, k.timer) ==> Waits(k, i)
  {
    TickWaits(k);
  }

  lemma TickWaits(k: State)
    requires OnQueues(k)
    ensures forall i :: i in Queue(k, k.timer) ==> Waits(k, i)
  {
  }

  /** The system calls that are an operation on a semaphore. */
  predicate IsSemaphoreCall(e: Event) { e.PasserenCall? || e.VerhogenCall? || e.DoIoCall? || e.ClockWaitCall? }

  ghost function HandleSemaphoreCall(k: State, e: Event): Handled
    requires Stable(k) && k.active.Some? && IsSemaphoreCall(e)
  {
    match e
    case PasserenCall(sem) => Passeren(k, sem)
    case VerhogenCall(sem) => Verhogen(k, sem)
    case DoIoCall(device) => DoIo(k, device)
    case ClockWaitCall => Passeren(k, Some(k.timer))
  }

  /** The other system calls, and faults. */
  ghost function HandleProcessCall(k: State, e: Event): Handled
    requires Stable(k) && k.active.Some? && IsCall(e) && !IsSemaphoreCall(e)
  {
    match e
    case CreateCall(prio, given, support) => CreateProcess(k, prio, given, support)
    case TerminateCall(pid) => TerminateProcess(k, pid)
    case YieldCall => Handled(k.(yielder := k.active), BLOCK)
    case InquiryCall => Handled(k, Reschedule(k))
    case Fault => PassUpOrDie(k)
  }

  /** The longest waiter on a device's semaphore becomes ready, and the running process goes on. */
  ghost function CompleteDevice(k: State, device: Key): Handled
    requires Stable(k)
  {
    StableWakeable(k, k.active);
    Handled(V(k, Some(device)).0, Preserve(k.active))
  }

  ghost function TickClock(k: State): Handled
    requires Stable(k)
  {
    TickReady(k, k.active);
    Handled(Tick(k), Preserve(k.active))
  }

  ghost function HandleInterrupt(k: State, e: Event): Handled
    requires Stable(k) && !IsCall(e)
  {
    match e
    case TimeSlice => Handled(k, Reschedule(k))
    case Ignored => Handled(k, Preserve(k.active))
    case ClockTick => TickClock(k)
    case Completion(device) => CompleteDevice(k, device)
  }

  /** The handler's part of an event. */
  ghost function Handle(k: State, e: Event): Handled
    requires Stable(k) && Enabled(k, e)
  {
    if !IsCall(e) then HandleInterrupt(k, e)
    else if IsSemaphoreCall(e) then HandleSemaphoreCall(k, e)
    else HandleProcessCall(k, e)
  }

  // ---- what a handler leaves is fit for the scheduler ------------------------------------------

  /** Who is off every list when the scheduler is called. */
  function OffList(k: State, c: Control): Option<nat> {
    if c.pcb.Some? then c.pcb else k.yielder
  }

  ghost predicate Schedulable(k: State, c: Control) {
    && Core(k, OffList(k, c))
    && (c.pcb.Some? ==> k.yielder.None?)
    && (OffList(k, c).Some? ==> Runnable(k, OffList(k, c).value))
    && 0 <= Value(k, k.timer) <= 1
  }

  lemma NobodyOffList(k: State, p: nat)
    requires Core(k, Some(p)) && !Runnable(k, p)
    ensures Core(k, None)
  {
  }

  lemma UnreadyNone(k: State, p: nat)
    requires Core(k, Some(p)) && Runnable(k, p)
    ensures Unready(k, p) == k
  {
    MinusNone(k.hi, {p});
    MinusNone(k.lo, {p});
  }

  lemma ValueKeeps(k: State, a: Key, v: int, cpu: Option<nat>)
    requires Core(k, cpu)
    ensures Core(WithValue(k, a, v), cpu)
  {
    assert Waiting(WithValue(k, a, v)) == Waiting(k);
    OwnedFrame(k, WithValue(k, a, v), cpu);
    SameForest(k, WithValue(k, a, v));
    SameNames(k, WithValue(k, a, v));
  }

  /** Where the running process stands after one of its own requests. */
  ghost predicate Sound(h: Handled) {
    h.Handled? && Schedulable(h.k, h.control)
  }

  lemma WakeEffects(k: State, a: Key)
    requires Queue(k, a) != [] && Waits(k, Queue(k, a)[0])
    ensures var k', t := Wake(k, a), Queue(k, a)[0];
      && k'.mem == k.mem && k'.timer == k.timer && k'.active == k.active && k'.yielder == k.yielder
      && (forall i: nat :: Runnable(k', i) <==> Runnable(k, i) || i == t)
  {
  }

  /** Someone else is woken while `cpu` has the processor. */
  lemma WakeSound(k: State, a: Key)
    requires Stable(k) && Queue(k, a) != [] && Waits(k, Queue(k, a)[0])
    ensures Core(Wake(k, a), k.active) && Schedulable(Wake(k, a), Preserve(k.active))
    ensures k.active.Some? ==> Schedulable(Wake(k, a), Reschedule(k))
  {
    WakeKeeps(k, a, k.active);
    WakeEffects(k, a);
  }

  lemma BlockSound(k: State, a: Key)
    requires Stable(k) && k.active.Some?
    ensures Schedulable(BlockOn(Unready(k, k.active.value), a, k.active.value), BLOCK)
  {
    UnreadyNone(k, k.active.value);
    BlockOnKeeps(k, a, k.active.value);
  }

  lemma AdjustSound(k: State, a: Key, v: int)
    requires Stable(k) && k.active.Some?
    requires a == k.timer ==> 0 <= v <= 1
    ensures Schedulable(WithValue(k, a, v), Reschedule(k))
  {
    ValueKeeps(k, a, v, k.active);
    assert Value(WithValue(k, a, v), k.timer) == if a == k.timer then v else Value(k, k.timer);
  }

  lemma PSound(k: State, a: Key)
    requires Stable(k) && k.active.Some? && Wakeable(k)
    ensures Sound(P(k, Some(a), k.active))
  {
    match DecideP(Value(k, a), Queue(k, a) != [])
    case Blocks => BlockSound(k, a);
    case Wakes =>
      HeadWaits(k, a);
      WakeSound(k, a);
    case Adjusts => AdjustSound(k, a, Value(k, a) - 1);
  }

  lemma VCases(k: State, a: Key)
    requires k.active.Some? && Runnable(k, k.active.value) && Wakeable(k)
    ensures Value(k, a) == 1 ==> V(k, Some(a)) == (BlockOn(Unready(k, k.active.value), a, k.active.value), None)
    ensures Value(k, a) != 1 && Queue(k, a) != [] ==> V(k, Some(a)) == (Wake(k, a), Some(Queue(k, a)[0]))
    ensures Value(k, a) != 1 && Queue(k, a) != [] ==> Wake(k, a).active == k.active
    ensures Value(k, a) != 1 && Queue(k, a) == [] ==> V(k, Some(a)) == (WithValue(k, a, Value(k, a) + 1), k.active)
  {
  }

  lemma VBlocksSound(k: State, a: Key)
    requires Stable(k) && k.active.Some? && Wakeable(k) && Value(k, a) == 1
    ensures Sound(Verhogen(k, Some(a)))
  {
    BlockSound(k, a);
    VCases(k, a);
  }

  lemma VWakesSound(k: State, a: Key)
    requires Stable(k) && k.active.Some? && Wakeable(k) && Value(k, a) != 1 && Queue(k, a) != []
    ensures Sound(Verhogen(k, Some(a)))
  {
    HeadWaits(k, a);
    WakeSound(k, a);
    VCases(k, a);
  }

  lemma VAdjustsSound(k: State, a: Key)
    requires Stable(k) && k.active.Some? && Wakeable(k) && Value(k, a) != 1 && Queue(k, a) == []
    ensures Sound(Verhogen(k, Some(a)))
  {
    AdjustSound(k, a, Value(k, a) + 1);
    VCases(k, a);
  }

  lemma VSound(k: State, a: Key)
    requires Stable(k) && k.active.Some? && Wakeable(k)
    ensures Sound(Verhogen(k, Some(a)))
  {
    match DecideV(Value(k, a), Queue(k, a) != [])
    case Blocks => VBlocksSound(k, a);
    case Wakes => VWakesSound(k, a);
    case Adjusts => VAdjustsSound(k, a);
  }

  lemma KillSound(k: State, r: nat)
    requires Stable(k) && k.active.Some? && Live(k, r)
    ensures var k' := KillTree(k, r);
      Schedulable(k', if k'.pcb[k.active.value].pid == NULL_PID then BLOCK else Reschedule(k'))
  {
    var k' := KillTree(k, r);
    KillTreeKeeps(k, r, k.active);
    Survivors(k, Postorder(k, r));
    if k'.pcb[k.active.value].pid == NULL_PID {
      NobodyOffList(k', k.active.value);
    }
  }

  lemma SelfDies(k: State, r: nat)
    requires Forest(k) && Live(k, r)
    ensures KillTree(k, r).pcb[r].pid == NULL_PID
  {
  }

  lemma PassUpOrDieSound(k: State)
    requires Stable(k)
    ensures Sound(PassUpOrDie(k))
  {
    if k.active.Some? && !k.pcb[k.active.value].support {
      KillSound(k, k.active.value);
      SelfDies(k, k.active.value);
    }
  }

  lemma SupportKeeps(k: State, c: nat, support: bool, cpu: Option<nat>)
    requires Core(k, cpu) && c < |k.pcb|
    ensures Core(WithSupport(k, c, support), cpu)
  {
    var k' := WithSupport(k, c, support);
    assert forall i: nat :: Live(k', i) <==> Live(k, i);
    assert forall i: nat :: i < |k.pcb| ==> k'.pcb[i].semAdd == k.pcb[i].semAdd && k'.pcb[i].prio == k.pcb[i].prio;
    SupportOwned(k, k', cpu);
    assert Waiting(k') == Waiting(k);
    SameForest(k, k');
    SameNames(k, k');
  }

  lemma SupportOwned(k: State, k': State, cpu: Option<nat>)
    requires Owned(k, cpu) && |k'.pcb| == |k.pcb|
    requires k'.free == k.free && k'.hi == k.hi && k'.lo == k.lo && k'.blocked == k.blocked
    requires forall i: nat :: Live(k', i) <==> Live(k, i)
    requires forall i: nat :: i < |k.pcb| ==> k'.pcb[i].semAdd == k.pcb[i].semAdd && k'.pcb[i].prio == k.pcb[i].prio
    ensures Owned(k', cpu)
  {
  }

  lemma CreateSound(k: State, prio: int, given: bool, support: bool)
    requires Stable(k) && k.active.Some?
    ensures Sound(CreateProcess(k, prio, given, support))
  {
    if (prio != 0 && prio != 1) || !given {
      PassUpOrDieSound(k);
    } else {
      CreatedSound(k, prio == 1, support);
    }
  }

  lemma CreatedSound(k: State, prio: bool, support: bool)
    requires Stable(k) && k.active.Some?
    ensures Schedulable(Created(k, prio, support), Preserve(k.active))
  {
    if k.free != [] {
      var c := k.free[0];
      SpawnKeeps(k, prio, k.active);
      var k1 := Spawn(k, prio);
      SupportKeeps(k1, c, support, k.active);
      AdoptKeeps(WithSupport(k1, c, support), k.active.value, c, k.active);
      CreatedKeepsCaller(k, prio, support);
    }
  }

  lemma CreatedKeepsCaller(k: State, prio: bool, support: bool)
    requires Stable(k) && k.active.Some?
    ensures var k' := Created(k, prio, support);
      k'.yielder == k.yielder && Runnable(k', k.active.value) && Value(k', k.timer) == Value(k, k.timer) && k'.timer == k.timer
  {
    if k.free != [] {
      assert k.free[0] in k.free && k.free[0] != k.active.value;
    }
  }

  /** A state in which `cpu`, if any, may go on running. */
  ghost predicate Fit(k: State, cpu: Option<nat>) {
    Core(k, cpu) && (cpu.Some? ==> Runnable(k, cpu.value))
  }

  lemma TickStep(k: State, cpu: Option<nat>)
    requires Fit(k, cpu) && Queue(k, k.timer) != []
    ensures Queue(k, k.timer)[0] < |k.pcb|
    ensures var k' := Wake(k, k.timer);
      && Fit(k', cpu) && k'.mem == k.mem && k'.timer == k.timer && k'.active == k.active && k'.yielder == k.yielder
      && |Queue(k', k.timer)| < |Queue(k, k.timer)|
  {
    WakeKeeps(k, k.timer, cpu);
    WakeEffects(k, k.timer);
    WakeQueue(k, k.timer);
  }

  ghost predicate Ticked(k: State, k': State, cpu: Option<nat>) {
    && Fit(k', cpu)
    && k'.timer == k.timer && Value(k', k.timer) == 1
    && k'.active == k.active && k'.yielder == k.yielder
  }

  lemma TickLast(k: State, cpu: Option<nat>)
    requires Fit(k, cpu) && Value(k, k.timer) == 0 && Queue(k, k.timer) == []
    ensures Ticked(k, WithValue(k, k.timer, 1), cpu)
  {
    ValueKeeps(k, k.timer, 1, cpu);
  }

  lemma TickOnce(k: State)
    requires Queue(k, k.timer) == [] && Value(k, k.timer) == 0
    ensures Tick(k) == WithValue(k, k.timer, 1)
  {
  }

  lemma {:induction false} TickKeeps(k: State, cpu: Option<nat>)
    requires Fit(k, cpu) && 0 <= Value(k, k.timer) <= 1
    ensures forall i :: i in Queue(k, k.timer) ==> i < |k.pcb|
    ensures Ticked(k, Tick(k), cpu)
    decreases |Queue(k, k.timer)|
  {
    TickReady(k, cpu);
    if Value(k, k.timer) == 0 {
      if Queue(k, k.timer) == [] {
        TickOnce(k);
        TickLast(k, cpu);
      } else {
        TickStep(k, cpu);
        TickKeeps(Wake(k, k.timer), cpu);
      }
    }
  }

  lemma FoundIsLive(k: State, pid: Word)
    requires pid != NULL_PID && FindProcess(k, pid).Some?
    ensures Live(k, FindProcess(k, pid).value)
  {
  }

  lemma TerminateSound(k: State, pid: Word)
    requires Stable(k) && k.active.Some?
    ensures Sound(TerminateProcess(k, pid))
  {
    if pid == 0 {
      KillSound(k, k.active.value);
      SelfDies(k, k.active.value);
    } else if FindProcess(k, pid).Some? {
      FoundIsLive(k, pid);
      KillSound(k, FindProcess(k, pid).value);
      assert KillTree(k, FindProcess(k, pid).value).active == k.active;
    } else {
      PassUpOrDieSound(k);
    }
  }

  lemma CoreIgnoresPointers(k: State, active: Option<nat>, yielder: Option<nat>, cpu: Option<nat>)
    requires Core(k, cpu)
    ensures Core(k.(active := active, yielder := yielder), cpu)
  {
    var k' := k.(active := active, yielder := yielder);
    assert Waiting(k') == Waiting(k);
    OwnedFrame(k, k', cpu);
    SameForest(k, k');
    SameNames(k, k');
  }

  lemma YieldSound(k: State)
    requires Stable(k) && k.active.Some?
    ensures Schedulable(k.(yielder := k.active), BLOCK)
  {
    CoreIgnoresPointers(k, k.active, k.active, k.active);
  }

  lemma ClockSound(k: State)
    requires Stable(k)
    ensures forall i :: i in Queue(k, k.timer) ==> i < |k.pcb|
    ensures Schedulable(Tick(k), Preserve(k.active))
  {
    TickKeeps(k, k.active);
  }

  predicate DevicePanic(k: State, e: Event) {
    e.DoIoCall? && e.command.Some? && Queue(k, e.command.value) == [] && Value(k, e.command.value) > 0
  }

  lemma DoIoSound(k: State, command: Option<Key>)
    requires Stable(k) && k.active.Some?
    ensures if command.Some? && Queue(k, command.value) == [] && Value(k, command.value) > 0
            then DoIo(k, command).Panicked? else Sound(DoIo(k, command))
  {
    StableWakeable(k, k.active);
    if command.None? || Queue(k, command.value) != [] {
      PassUpOrDieSound(k);
    } else {
      PSound(k, command.value);
    }
  }

  lemma SemaphoreCallSound(k: State, sem: Option<Key>)
    requires Stable(k) && k.active.Some?
    ensures Sound(Passeren(k, sem)) && Sound(Verhogen(k, sem))
  {
    StableWakeable(k, k.active);
    if sem.None? {
      PassUpOrDieSound(k);
    } else {
      PSound(k, sem.value);
      VSound(k, sem.value);
    }
  }

  lemma CompletionSound(k: State, a: Key)
    requires Stable(k) && Wakeable(k) && Queue(k, a) != [] && Value(k, a) != 1
    ensures V(k, Some(a)) == (Wake(k, a), Some(Queue(k, a)[0]))
    ensures Schedulable(Wake(k, a), Preserve(k.active))
  {
    HeadWaits(k, a);
    WakeSound(k, a);
  }

  lemma SemaphoreHandlerSound(k: State, e: Event)
    requires Stable(k) && k.active.Some? && IsSemaphoreCall(e)
    ensures if DevicePanic(k, e) then HandleSemaphoreCall(k, e).Panicked? else Sound(HandleSemaphoreCall(k, e))
  {
    match e
    case PasserenCall(sem) => SemaphoreCallSound(k, sem);
    case VerhogenCall(sem) => SemaphoreCallSound(k, sem);
    case DoIoCall(command) => DoIoSound(k, command);
    case ClockWaitCall => SemaphoreCallSound(k, Some(k.timer));
  }

  lemma ProcessHandlerSound(k: State, e: Event)
    requires Stable(k) && k.active.Some? && IsCall(e) && !IsSemaphoreCall(e)
    ensures Sound(HandleProcessCall(k, e))
  {
    match e
    case CreateCall(prio, given, support) => CreateSound(k, prio, given, support);
    case TerminateCall(pid) => TerminateSound(k, pid);
    case YieldCall => YieldSound(k);
    case InquiryCall => IdleSound(k);
    case Fault => PassUpOrDieSound(k);
  }

  /** A handler that changes nothing. */
  lemma IdleSound(k: State)
    requires Stable(k)
    ensures Schedulable(k, Reschedule(k)) && Schedulable(k, Preserve(k.active))
  {
  }

  lemma InterruptHandlerSound(k: State, e: Event)
    requires Stable(k) && Enabled(k, e) && !IsCall(e)
    ensures Sound(HandleInterrupt(k, e))
  {
    match e
    case TimeSlice => IdleSound(k);
    case Ignored => IdleSound(k);
    case ClockTick => ClockSound(k);
    case Completion(device) =>
      StableWakeable(k, k.active);
      CompletionSound(k, device);
  }

  /** Whatever happens, the handler leaves a state the scheduler can work with, or a device misbehaved. */
  lemma HandleSound(k: State, e: Event)
    requires Stable(k) && Enabled(k, e)
    ensures if DevicePanic(k, e) then Handle(k, e).Panicked? else Sound(Handle(k, e))
  {
    if !IsCall(e) {
      InterruptHandlerSound(k, e);
    } else if IsSemaphoreCall(e) {
      SemaphoreHandlerSound(k, e);
    } else {
      ProcessHandlerSound(k, e);
    }
  }

  /** What interrupt_timer's loop keeps: the rest of the loop leads where the whole loop would. */
  ghost predicate Ticking(k0: State, k: State, cpu: Option<nat>) {
    && Fit(k, cpu) && 0 <= Value(k, k.timer) <= 1 && k.timer == k0.timer && k.active == k0.active
    && (forall i :: i in Queue(k0, k0.timer) ==> i < |k0.pcb|) && 0 <= Value(k0, k0.timer) <= 1
    && (forall i :: i in Queue(k, k.timer) ==> i < |k.pcb|) && Tick(k) == Tick(k0)
  }

  /** One V of interrupt_timer's loop, on a clock semaphore at zero. */
  lemma TickTurn(k0: State, k: State, cpu: Option<nat>)
    requires Ticking(k0, k, cpu) && Value(k, k.timer) == 0 && Wakeable(k) && (k.active.Some? ==> k.active.value < |k.pcb|)
    ensures var k' := V(k, Some(k.timer)).0;
      Ticking(k0, k', cpu) && (Value(k', k.timer) == 0 ==> |Queue(k', k.timer)| < |Queue(k, k.timer)|)
  {
    ClockV(k);
    if Queue(k, k.timer) == [] {
      TickEnds(k0, k, cpu);
    } else {
      TickWakes(k0, k, cpu);
    }
  }

  /** What V does to a clock semaphore at zero. */
  lemma ClockV(k: State)
    requires Value(k, k.timer) == 0 && Wakeable(k) && (k.active.Some? ==> k.active.value < |k.pcb|)
    ensures var q := Queue(k, k.timer);
      (q != [] ==> q[0] < |k.pcb|) &&
      V(k, Some(k.timer)).0 == if q == [] then WithValue(k, k.timer, 1) else Wake(k, k.timer)
  {
  }

  lemma TickEnds(k0: State, k: State, cpu: Option<nat>)
    requires Ticking(k0, k, cpu) && Value(k, k.timer) == 0 && Queue(k, k.timer) == []
    ensures Ticking(k0, WithValue(k, k.timer, 1), cpu) && Value(WithValue(k, k.timer, 1), k.timer) == 1
  {
    TickOnce(k);
    TickLast(k, cpu);
    assert Tick(WithValue(k, k.timer, 1)) == WithValue(k, k.timer, 1);
  }

  lemma TickWakes(k0: State, k: State, cpu: Option<nat>)
    requires Ticking(k0, k, cpu) && Value(k, k.timer) == 0 && Queue(k, k.timer) != []
    ensures Queue(k, k.timer)[0] < |k.pcb| && Ticking(k0, Wake(k, k.timer), cpu)
    ensures |Queue(Wake(k, k.timer), k.timer)| < |Queue(k, k.timer)|
  {
    TickStep(k, cpu);
    TickReady(Wake(k, k.timer), cpu);
  }
}
