/**
 The termination barrier: every U-proc does a V on the master semaphore when it terminates, and the
 root process does as many Ps as there are U-procs (phase3/src/support.c and phase3/src/test.c). Both
 operations may block.
 */
module Barrier {
  import opened Sequences
  import opened Semaphores

  /** A U-proc runs, is blocked in its V, or has completed its V. */
  datatype Stage = Working | Signalling | Done

  /** Who waits on the master semaphore: the root in a P, or U-proc `i` in its V. */
  datatype Waiter = Root | UProc(i: nat)

  /** `passed` counts the root's completed Ps. */
  datatype Master = Master(value: int, queue: seq<Waiter>, stage: seq<Stage>, passed: nat, rootWaits: bool)

  function Start(n: nat): Master { Master(0, [], seq(n, _ => Working), 0, false) }

  datatype Action = Signal(i: nat) | Await

  /** U-proc `i` reaches master_semaphore_v; the root reaches its next master_semaphore_p. */
  predicate Possible(s: Master, a: Action) {
    match a
    case Signal(i) => i < |s.stage| && s.stage[i] == Working
    case Await => !s.rootWaits && s.passed < |s.stage|
  }

  function Sem(s: Master): Semaphore<Waiter> { Semaphore(s.value, s.queue) }

  function WithSem(s: Master, m: Semaphore<Waiter>): Master { s.(value := m.value, queue := m.queue) }

  /** The operation that waiter `w` was blocked in is complete. */
  function Complete(s: Master, w: Waiter): Master {
    match w
    case Root => s.(passed := s.passed + 1, rootWaits := false)
    case UProc(i) => s.(stage := if i < |s.stage| then s.stage[i := Done] else s.stage)
  }

  function Act(s: Master, a: Action): (r: Master)
    requires Possible(s, a)
    ensures |r.stage| == |s.stage|
  {
    match a
    case Signal(i) => (
      var r := WithSem(s, Sem(s).AfterV(UProc(i)));
      match Sem(s).VDecision()
      case Blocks => r.(stage := s.stage[i := Signalling])
      case Wakes => Complete(r.(stage := s.stage[i := Done]), s.queue[0])
      case Adjusts => r.(stage := s.stage[i := Done])
    )
    case Await => (
      var r := WithSem(s, Sem(s).AfterP(Root));
      match Sem(s).PDecision()
      case Blocks => r.(rootWaits := true)
      case Wakes => Complete(r, s.queue[0]).(passed := s.passed + 1)
      case Adjusts => r.(passed := s.passed + 1)
    )
  }

  function With(stage: seq<Stage>, x: Stage): set<nat> { set i | i in Below(|stage|) && stage[i] == x }

  /**
   Completed Vs are completed Ps plus the value; at zero only the root can wait, at one only U-procs
   in their V do, each once.
   */
  ghost predicate Inv(s: Master) {
    && 0 <= s.value <= 1 && s.passed <= |s.stage|
    && |With(s.stage, Done)| == s.passed + s.value
    && NoDup(s.queue)
    && (s.value == 0 ==> s.queue == if s.rootWaits then [Root] else [])
    && (s.value == 1 ==> !s.rootWaits && Root !in s.queue)
    && (s.rootWaits ==> s.passed < |s.stage|)
    && (forall i: nat :: UProc(i) in s.queue <==> i < |s.stage| && s.stage[i] == Signalling)
  }

  lemma StartInv(n: nat)
    ensures Inv(Start(n))
  {
  }

  lemma Advance(stage: seq<Stage>, i: nat, x: Stage)
    requires i < |stage| && stage[i] != Done
    ensures |With(stage[i := Done], Done)| == |With(stage, Done)| + 1
    ensures x != Done ==> |With(stage[i := x], Done)| == |With(stage, Done)|
  {
    assert With(stage[i := Done], Done) == With(stage, Done) + {i};
    if x != Done {
      assert With(stage[i := x], Done) == With(stage, Done);
    }
  }

  lemma SignalKeeps(s: Master, i: nat)
    requires Inv(s) && Possible(s, Signal(i))
    ensures Inv(Act(s, Signal(i)))
  {
    Advance(s.stage, i, Signalling);
  }

  lemma AwaitKeeps(s: Master)
    requires Inv(s) && Possible(s, Await)
    ensures Inv(Act(s, Await))
  {
    if s.queue != [] {
      match s.queue[0]
      case Root =>
      case UProc(i) =>
        assert UProc(i) in s.queue;
        Advance(s.stage, i, Working);
    }
  }

  lemma ActKeeps(s: Master, a: Action)
    requires Inv(s) && Possible(s, a)
    ensures Inv(Act(s, a))
  {
    match a
    case Signal(i) => SignalKeeps(s, i);
    case Await => AwaitKeeps(s);
  }

  /** A sequence of steps each of which is possible when its turn comes. */
  ghost predicate PossibleRun(s: Master, acts: seq<Action>)
    decreases |acts|
  {
    acts == [] || (Possible(s, acts[0]) && PossibleRun(Act(s, acts[0]), acts[1..]))
  }

  ghost function Run(s: Master, acts: seq<Action>): Master
    requires PossibleRun(s, acts)
    decreases |acts|
  {
    if acts == [] then s else Run(Act(s, acts[0]), acts[1..])
  }

  /** U-procs that have not begun their V, and Ps the root has not begun. */
  function Remaining(s: Master): int {
    |With(s.stage, Working)| + |s.stage| - s.passed - (if s.rootWaits then 1 else 0)
  }

  lemma LeavesWorking(stage: seq<Stage>, i: nat, x: Stage)
    requires i < |stage| && x != Working
    ensures |With(stage[i := x], Working)| == |With(stage, Working)| - (if stage[i] == Working then 1 else 0)
  {
    var w, w' := With(stage, Working), With(stage[i := x], Working);
    forall j: nat ensures j in w' <==> j in w && j != i {
    }
    if stage[i] == Working {
      assert w == w' + {i};
    } else {
      assert w == w';
    }
  }

  /** Every step, blocking or not, is one of the 2N that remain. */
  lemma StepCounts(s: Master, a: Action)
    requires Inv(s) && Possible(s, a)
    ensures Remaining(Act(s, a)) == Remaining(s) - 1
  {
    match a
    case Signal(i) =>
      LeavesWorking(s.stage, i, Done);
      LeavesWorking(s.stage, i, Signalling);
      if s.queue != [] && s.value == 0 {
        assert s.queue[0] == Root;
      }
    case Await =>
      if s.queue != [] {
        match s.queue[0]
        case Root =>
        case UProc(i) =>
          assert UProc(i) in s.queue;
          LeavesWorking(s.stage, i, Done);
      }
  }

  lemma {:induction false} RunCounts(s: Master, acts: seq<Action>)
    requires Inv(s) && PossibleRun(s, acts)
    ensures Inv(Run(s, acts)) && Remaining(Run(s, acts)) == Remaining(s) - |acts|
    ensures |Run(s, acts).stage| == |s.stage|
    decreases |acts|
  {
    if acts != [] {
      ActKeeps(s, acts[0]);
      StepCounts(s, acts[0]);
      RunCounts(Act(s, acts[0]), acts[1..]);
    }
  }

  predicate EveryoneDone(stage: seq<Stage>) {
    forall i :: 0 <= i < |stage| ==> stage[i] == Done
  }

  lemma AllDone(stage: seq<Stage>)
    requires |With(stage, Done)| >= |stage|
    ensures EveryoneDone(stage)
  {
    var all, done := Below(|stage|), With(stage, Done);
    assert |all - done| == |all| - |all * done| && all * done == done;
    assert all - done == {};
    forall i | 0 <= i < |stage| ensures stage[i] == Done {
      assert i in all;
    }
  }

  lemma EveryoneCounts(stage: seq<Stage>)
    ensures EveryoneDone(stage) ==> |With(stage, Done)| == |stage|
  {
    if EveryoneDone(stage) {
      assert With(stage, Done) == Below(|stage|);
    }
  }

  /** While the root waits, some U-proc has yet to begin its V. */
  lemma RootWaitsForSomeone(s: Master) returns (i: nat)
    requires Inv(s) && s.rootWaits
    ensures i < |s.stage| && s.stage[i] == Working && i in With(s.stage, Working)
  {
    assert forall j: nat :: UProc(j) !in s.queue;
    EveryoneCounts(s.stage);
    i :| i < |s.stage| && s.stage[i] != Done;
  }

  lemma StartRemaining(n: nat)
    ensures Inv(Start(n)) && Remaining(Start(n)) == 2 * n
  {
    StartInv(n);
    assert With(Start(n).stage, Working) == Below(n);
  }

  /** The root gets past its N-th P only after every U-proc has completed its V. */
  lemma BarrierHolds(n: nat, acts: seq<Action>)
    requires PossibleRun(Start(n), acts)
    ensures var s := Run(Start(n), acts);
      |s.stage| == n && s.passed <= |With(s.stage, Done)| && (s.passed == n ==> EveryoneDone(s.stage))
  {
    StartInv(n);
    RunCounts(Start(n), acts);
    var s := Run(Start(n), acts);
    if s.passed == n {
      AllDone(s.stage);
    }
  }

  /** Before that, whatever the interleaving, somebody can always take a step. */
  lemma NeverStuck(n: nat, acts: seq<Action>)
    requires PossibleRun(Start(n), acts) && Run(Start(n), acts).passed < n
    ensures exists a :: Possible(Run(Start(n), acts), a)
  {
    StartInv(n);
    RunCounts(Start(n), acts);
    var s := Run(Start(n), acts);
    if s.rootWaits {
      var i := RootWaitsForSomeone(s);
      assert Possible(s, Signal(i));
    } else {
      assert Possible(s, Await);
    }
  }

  /** Every interleaving gets through: it has at most 2N steps, and after 2N all Ps and Vs are complete. */
  lemma EveryRunCompletes(n: nat, acts: seq<Action>)
    requires PossibleRun(Start(n), acts)
    ensures |acts| <= 2 * n
    ensures |acts| == 2 * n ==>
      var s := Run(Start(n), acts); s.passed == n && !s.rootWaits && EveryoneDone(s.stage)
  {
    StartRemaining(n);
    RunCounts(Start(n), acts);
    var s := Run(Start(n), acts);
    if |acts| == 2 * n {
      NobodyLeft(s);
      AllDone(s.stage);
    }
  }

  lemma NobodyLeft(s: Master)
    requires Inv(s) && Remaining(s) == 0
    ensures !s.rootWaits && s.passed == |s.stage|
  {
    if s.rootWaits {
      var i := RootWaitsForSomeone(s);
    }
  }
}
