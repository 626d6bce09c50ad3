/**
 The mutex of the swap pool table as the U-procs use it, for any number of them, step by step:
 phase3/src/pager.c with phase3/src/support.c's termination path, over the P and V of the nucleus.
 */
module SwapMutex {
  import opened Sequences
  import opened Semaphores

  /** Where a U-proc is with respect to the pager. */
  datatype Stage =
    | Outside          // running its own code, or done with the handler
    | Asking           // blocked in the P of support_tlb
    | Entered          // P has completed, the baton is not yet set
    | Inside           // the baton is set: picking a frame, doing flash I/O, updating tables
    | Leaving          // V has completed, the baton is not yet cleared
    | Trapped          // on its way through sys_terminate, before clean_after_uproc
    | Gone             // clean_after_uproc has dealt with the mutex

  datatype Pool = Pool(value: int, queue: seq<nat>, stage: seq<Stage>, baton: seq<bool>)

  /** One step of U-proc `i`. */
  datatype Action =
    | Fault(i: nat)        // SYSCALL(PASSEREN, &sem_swap_pool_table)
    | SetBaton(i: nat)
    | Release(i: nat)      // SYSCALL(VERHOGEN, &sem_swap_pool_table) at the end of support_tlb
    | ClearBaton(i: nat)
    | Trap(i: nat)         // support_trap after an I/O error, or a termination outside the pager
    | Clean(i: nat)        // clean_after_uproc: V if the baton is set

  function Start(n: nat): Pool {
    Pool(1, [], seq(n, _ => Outside), seq(n, _ => false))
  }

  predicate Possible(s: Pool, a: Action) {
    && |s.baton| == |s.stage| && a.i < |s.stage|
    && match a
       case Fault(i) => s.stage[i] == Outside
       case SetBaton(i) => s.stage[i] == Entered
       case Release(i) => s.stage[i] == Inside
       case ClearBaton(i) => s.stage[i] == Leaving
       case Trap(i) => s.stage[i] == Outside || s.stage[i] == Inside
       case Clean(i) => s.stage[i] == Trapped
  }

  predicate Waiters(s: Pool) { forall i :: i in s.queue ==> i < |s.stage| }

  function Mutex(s: Pool): Semaphore<nat> { Semaphore(s.value, s.queue) }

  function WithMutex(s: Pool, m: Semaphore<nat>): Pool { s.(value := m.value, queue := m.queue) }

  /** P by `i`, which is Asking if it blocks and Entered when it completes. */
  function Pass(s: Pool, i: nat): (r: Pool)
    requires i < |s.stage| && Waiters(s)
    ensures |r.stage| == |s.stage|
  {
    var r := WithMutex(s, Mutex(s).AfterP(i));
    match Mutex(s).PDecision()
    case Blocks => r.(stage := s.stage[i := Asking])
    case Wakes => assert s.queue[0] in s.queue; r.(stage := s.stage[s.queue[0] := Entered][i := Entered])
    case Adjusts => r.(stage := s.stage[i := Entered])
  }

  /** V by `i`, which goes on to `next`; a woken process completes its P. A V that blocks is stuck in place. */
  function Free(s: Pool, i: nat, next: Stage): (r: Pool)
    requires i < |s.stage| && Waiters(s)
    ensures |r.stage| == |s.stage|
  {
    var r := WithMutex(s, Mutex(s).AfterV(i));
    match Mutex(s).VDecision()
    case Blocks => r
    case Wakes => assert s.queue[0] in s.queue; r.(stage := s.stage[s.queue[0] := Entered][i := next])
    case Adjusts => r.(stage := s.stage[i := next])
  }

  function Act(s: Pool, a: Action): (r: Pool)
    requires Possible(s, a) && Waiters(s)
    ensures |r.stage| == |s.stage|
  {
    match a
    case Fault(i) => Pass(s, i)
    case SetBaton(i) => s.(stage := s.stage[i := Inside], baton := s.baton[i := true])
    case Release(i) => Free(s, i, Leaving)
    case ClearBaton(i) => s.(stage := s.stage[i := Outside], baton := s.baton[i := false])
    case Trap(i) => s.(stage := s.stage[i := Trapped])
    case Clean(i) => if s.baton[i] then Free(s, i, Gone) else s.(stage := s.stage[i := Gone])
  }

  /** A U-proc has the mutex from the completion of its P to the completion of its V. */
  predicate Holds(s: Pool, i: nat) {
    && i < |s.stage| && |s.baton| == |s.stage|
    && (s.stage[i] == Entered || s.stage[i] == Inside || (s.stage[i] == Trapped && s.baton[i]))
  }

  function Holders(s: Pool): set<nat> { set i | i in Below(|s.stage|) && Holds(s, i) }

  /** Waiters are those that ask, each once. */
  ghost predicate Queued(s: Pool) {
    NoDup(s.queue) && forall i: nat :: i in s.queue <==> i < |s.stage| && s.stage[i] == Asking
  }

  /** A baton is set exactly from entering the critical section to leaving the handler. */
  ghost predicate Batons(s: Pool) {
    && |s.baton| == |s.stage|
    && (forall i: nat :: i < |s.stage| && (s.stage[i].Outside? || s.stage[i].Asking? || s.stage[i].Entered?) ==> !s.baton[i])
    && (forall i: nat :: i < |s.stage| && (s.stage[i].Inside? || s.stage[i].Leaving?) ==> s.baton[i])
  }

  ghost predicate Inv(s: Pool) {
    && Batons(s) && Queued(s)
    && s.value + |Holders(s)| == 1 && s.value >= 0
    && (s.queue != [] ==> s.value == 0)
  }

  lemma StartInv(n: nat)
    ensures Inv(Start(n))
  {
  }

  /** Whoever holds the mutex is alone, and the value is zero. */
  lemma HolderAlone(s: Pool, i: nat)
    requires Inv(s) && Holds(s, i)
    ensures Holders(s) == {i} && s.value == 0
  {
    var others := Holders(s) - {i};
    assert Holders(s) == {i} + others && |others| == |Holders(s)| - 1;
    assert |others| == 0;
  }

  lemma PassKeeps(s: Pool, i: nat)
    requires Inv(s) && i < |s.stage| && s.stage[i] == Outside
    ensures Waiters(s) && Inv(Pass(s, i))
  {
    var s' := Pass(s, i);
    if s.value == 0 {
      assert s'.queue == s.queue + [i];
      assert Holders(s') == Holders(s);
    } else {
      assert Holders(s) == {};
      assert s.queue == [] && Holders(s') == {i};
    }
  }

  /** A V by the holder never blocks: it hands the mutex to the longest waiter or puts it back. */
  lemma FreeKeeps(s: Pool, i: nat, next: Stage)
    requires Inv(s) && Holds(s, i) && ((next == Leaving && s.stage[i] == Inside) || (next == Gone && s.stage[i] == Trapped))
    ensures Waiters(s) && Inv(Free(s, i, next)) && Free(s, i, next).stage[i] == next
    ensures Holders(Free(s, i, next)) == if s.queue == [] then {} else {s.queue[0]}
  {
    FreeHolders(s, i, next);
    FreeStages(s, i, next);
    FreeQueued(s, i, next);
    FreeBatons(s, i, next);
  }

  lemma FreeQueued(s: Pool, i: nat, next: Stage)
    requires Inv(s) && Holds(s, i) && Waiters(s) && (next == Leaving || next == Gone)
    ensures Queued(Free(s, i, next))
  {
    FreeStages(s, i, next);
    if s.queue != [] {
      HeadLeaves(s.queue);
    }
  }

  lemma FreeBatons(s: Pool, i: nat, next: Stage)
    requires Inv(s) && Holds(s, i) && Waiters(s) && (next == Leaving ==> s.stage[i] == Inside) && (next == Leaving || next == Gone)
    ensures Batons(Free(s, i, next))
  {
    FreeStages(s, i, next);
    if s.queue != [] {
      assert s.queue[0] in s.queue;
    }
  }

  lemma FreeStages(s: Pool, i: nat, next: Stage)
    requires Inv(s) && Holds(s, i) && Waiters(s)
    ensures var s' := Free(s, i, next);
      && s'.baton == s.baton && s'.queue == (if s.queue == [] then [] else s.queue[1..])
      && s'.value == (if s.queue == [] then 1 else 0)
      && forall j: nat :: j < |s.stage| ==>
        s'.stage[j] == if j == i then next else if s.queue != [] && j == s.queue[0] then Entered else s.stage[j]
  {
    HolderAlone(s, i);
    if s.queue != [] {
      assert s.queue[0] in s.queue;
    }
  }

  lemma FreeHolders(s: Pool, i: nat, next: Stage)
    requires Inv(s) && Holds(s, i) && Waiters(s) && (next == Leaving || next == Gone)
    ensures Holders(Free(s, i, next)) == if s.queue == [] then {} else {s.queue[0]}
  {
    HolderAlone(s, i);
    var s' := Free(s, i, next);
    if s.queue != [] {
      assert s.queue[0] in s.queue;
    }
    forall j: nat ensures Holds(s', j) <==> s.queue != [] && j == s.queue[0] {
      assert Holds(s, j) <==> j in Holders(s);
    }
  }

  /** A step that neither takes nor gives the mutex. */
  lemma QuietKeeps(s: Pool, a: Action)
    requires Inv(s) && Possible(s, a) && Waiters(s)
    requires a.SetBaton? || a.ClearBaton? || a.Trap? || (a.Clean? && !s.baton[a.i])
    ensures Inv(Act(s, a)) && Holders(Act(s, a)) == Holders(s)
  {
    QuietHolders(s, a);
    assert Act(s, a).queue == s.queue && Act(s, a).value == s.value;
  }

  lemma QuietHolders(s: Pool, a: Action)
    requires Inv(s) && Possible(s, a) && Waiters(s)
    requires a.SetBaton? || a.ClearBaton? || a.Trap? || (a.Clean? && !s.baton[a.i])
    ensures Holders(Act(s, a)) == Holders(s)
  {
    var s' := Act(s, a);
    forall j: nat ensures Holds(s', j) <==> Holds(s, j) {
      if j == a.i {
        assert s'.stage[j] != s.stage[j];
      }
    }
  }

  /** Every step keeps: value plus number of holders is one, waiters only while it is held. */
  lemma ActKeeps(s: Pool, a: Action)
    requires Inv(s) && Possible(s, a)
    ensures Waiters(s) && Inv(Act(s, a))
  {
    match a
    case Fault(i) => PassKeeps(s, i);
    case Release(i) => FreeKeeps(s, i, Leaving);
    case Clean(i) =>
      if s.baton[i] {
        FreeKeeps(s, i, Gone);
      } else {
        QuietKeeps(s, a);
      }
    case _ => QuietKeeps(s, a);
  }

  /** Any interleaving of any U-procs; steps that are not possible are skipped. */
  ghost function Run(s: Pool, acts: seq<Action>): (r: Pool)
    requires Inv(s)
    ensures Inv(r)
    decreases |acts|
  {
    if acts == [] then s
    else if !Possible(s, acts[0]) then Run(s, acts[1..])
    else
      ActKeeps(s, acts[0]);
      Run(Act(s, acts[0]), acts[1..])
  }

  /**
   For any number of U-procs and any interleaving, faults that end in an I/O error included: at most
   one U-proc is in the critical section, the mutex is free exactly when nobody holds it, and nobody
   waits for a free mutex.
   */
  lemma MutualExclusion(n: nat, acts: seq<Action>, i: nat, j: nat)
    ensures Inv(Start(n))
    ensures var s := Run(Start(n), acts);
      && (Holds(s, i) && Holds(s, j) ==> i == j)
      && (s.value == 1 <==> Holders(s) == {})
      && (s.queue != [] ==> exists h: nat :: Holds(s, h))
  {
    StartInv(n);
    var s := Run(Start(n), acts);
    if Holds(s, i) && Holds(s, j) {
      HolderAlone(s, i);
      assert j in Holders(s);
    }
    if s.queue != [] {
      var h :| h in Holders(s);
    }
  }

  /** Only a holder ever does a V on the mutex, and that V completes at once. */
  lemma OnlyHolderReleases(n: nat, acts: seq<Action>, a: Action)
    ensures Inv(Start(n))
    ensures var s := Run(Start(n), acts);
      Possible(s, a) && (a.Release? || (a.Clean? && s.baton[a.i])) ==>
        Holds(s, a.i) && s.value == 0 && Waiters(s) && Act(s, a).stage[a.i] == if a.Release? then Leaving else Gone
  {
    StartInv(n);
    var s := Run(Start(n), acts);
    if Possible(s, a) && (a.Release? || (a.Clean? && s.baton[a.i])) {
      HolderAlone(s, a.i);
      FreeKeeps(s, a.i, if a.Release? then Leaving else Gone);
    }
  }

  // ---- progress --------------------------------------------------------------------------------

  /** A fault on a free mutex takes it at once; on a held one it puts the U-proc behind those who wait. */
  lemma FaultEnters(s: Pool, i: nat)
    requires Inv(s) && Possible(s, Fault(i))
    ensures Waiters(s)
    ensures var s' := Act(s, Fault(i));
      if Holders(s) == {} then Holders(s') == {i} && s'.stage[i] == Entered && s'.value == 0 && s'.queue == []
      else Holders(s') == Holders(s) && s'.stage[i] == Asking && s'.value == 0 && s'.queue == s.queue + [i]
  {
    PassKeeps(s, i);
    if Holders(s) == {} {
      assert s.value == 1 && s.queue == [];
      assert Holders(Act(s, Fault(i))) == {i};
    } else {
      assert |Holders(s)| >= 1;
      assert s.value == 0;
      assert Holders(Act(s, Fault(i))) == Holders(s);
    }
  }

  /** A release hands the mutex to the longest waiter, or puts it back if nobody waits. */
  lemma ReleaseHandsOver(s: Pool, i: nat)
    requires Inv(s) && Possible(s, Release(i))
    ensures Waiters(s)
    ensures var s' := Act(s, Release(i));
      if s.queue == [] then Holders(s') == {} && s'.value == 1 && s'.queue == []
      else Holders(s') == {s.queue[0]} && s'.stage[s.queue[0]] == Entered && s'.value == 0 && s'.queue == s.queue[1..]
  {
    FreeKeeps(s, i, Leaving);
    FreeStages(s, i, Leaving);
    if s.queue != [] {
      assert s.queue[0] in s.queue;
    }
  }

  /** Where a step leads. */
  function Destination(s: Pool, a: Action): Stage {
    match a
    case Fault(_) => if s.value == 0 then Asking else Entered
    case SetBaton(_) => Inside
    case Release(_) => Leaving
    case ClearBaton(_) => Outside
    case Trap(_) => Trapped
    case Clean(_) => Gone
  }

  /** U-proc `j` has waited longest for the mutex that the step gives up. */
  predicate HandedTo(s: Pool, a: Action, j: nat)
    requires a.i < |s.baton|
  {
    (a.Release? || (a.Clean? && s.baton[a.i])) && s.queue != [] && j == s.queue[0]
  }

  /**
   Every step moves the U-proc that takes it on, changes at most its own baton, and touches nobody else's
   stage but that of the waiter it hands the mutex to.
   */
  lemma StepMoves(s: Pool, a: Action, j: nat)
    requires Inv(s) && Possible(s, a) && j < |s.stage|
    ensures Waiters(s) && |Act(s, a).baton| == |s.baton|
    ensures Act(s, a).baton[j] == if j == a.i && a.SetBaton? then true else if j == a.i && a.ClearBaton? then false else s.baton[j]
    ensures Act(s, a).stage[j] == if j == a.i then Destination(s, a) else if HandedTo(s, a, j) then Entered else s.stage[j]
  {
    ActKeeps(s, a);
    match a
    case Fault(i) => FaultEnters(s, i);
    case Release(i) => FreeStages(s, i, Leaving);
    case Clean(i) =>
      if s.baton[i] {
        FreeStages(s, i, Gone);
      }
    case _ =>
  }

  /** The step a U-proc that is neither waiting nor gone can take. */
  function NextStep(s: Pool, i: nat): Action
    requires i < |s.stage|
  {
    match s.stage[i]
    case Outside => Fault(i)
    case Asking => Fault(i)
    case Entered => SetBaton(i)
    case Inside => Release(i)
    case Leaving => ClearBaton(i)
    case Trapped => Clean(i)
    case Gone => Fault(i)
  }

  /** No interleaving gets stuck: as long as some U-proc is not gone, some U-proc can take a step. */
  lemma NeverStuck(n: nat, acts: seq<Action>, i: nat)
    ensures Inv(Start(n))
    ensures var s := Run(Start(n), acts);
      i < |s.stage| && s.stage[i] != Gone ==> exists a :: Possible(s, a)
  {
    StartInv(n);
    var s := Run(Start(n), acts);
    if i < |s.stage| && s.stage[i] != Gone {
      if s.stage[i] == Asking {
        assert i in s.queue;
        var h :| h in Holders(s);
        assert Possible(s, NextStep(s, h));
      } else {
        assert Possible(s, NextStep(s, i));
      }
    }
  }

  /** Nobody is overtaken: a waiting U-proc stays where it is, moves up by one, or gets the mutex from the front. */
  lemma WaitersAdvance(s: Pool, a: Action, j: nat)
    requires Inv(s) && Possible(s, a) && j < |s.queue|
    ensures Waiters(s)
    ensures var s' := Act(s, a);
      || (j < |s'.queue| && s'.queue[j] == s.queue[j])
      || (0 < j && j - 1 < |s'.queue| && s'.queue[j - 1] == s.queue[j])
      || (j == 0 && s.queue[0] < |s'.stage| && s'.stage[s.queue[0]] == Entered)
  {
    ActKeeps(s, a);
    assert s.queue[0] in s.queue;
    match a
    case Fault(i) =>
    case Release(i) => ReleaseHandsOver(s, i);
    case Clean(i) =>
      if s.baton[i] {
        FreeStages(s, i, Gone);
      }
    case _ =>
  }
}
