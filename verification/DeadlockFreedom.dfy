/** Threads that take their locks in the global order never deadlock, and every run of effective moves
  * ends with all threads finished. */
module DeadlockFreedom {
  import opened ScopedStore
  import opened Locks
  import opened Sessions
  import opened Concurrency
  import opened Serializability

  lemma {:induction false} ExecuteKeepsLocks(before: Before, txns: seq<Txn>, s0: Store, schedule: seq<Choice>)
    requires StrictTotal(before)
    ensures LocksOk(before, txns, Execute(before, txns, s0, schedule))
    decreases |schedule|
  {
    hide Effect;
    if schedule != [] {
      var sys := Execute(before, txns, s0, schedule[..|schedule| - 1]);
      var choice := schedule[|schedule| - 1];
      ExecuteKeepsLocks(before, txns, s0, schedule[..|schedule| - 1]);
      if choice.tid < |txns| && choice.Kill? {
        ReleaseKeepsLocks(before, txns, sys, choice.tid, Aborted(TransactionUnavailable), EMPTY);
      } else if choice.tid < |txns| {
        MoveKeepsLocks(before, txns, sys, choice.tid);
      }
    }
  }

  // ---------------------------------------------------------------- somebody can move

  function Wanted(before: Before, t: Txn, phase: Phase): LockRef
    requires phase.Acquiring? && phase.held < |Normalize(before, t.locks)|
  {
    Normalize(before, t.locks)[phase.held]
  }

  /** Following the owners of wanted locks climbs the global order, so it ends at a thread that can move. */
  lemma {:induction false} FindMover(before: Before, txns: seq<Txn>, sys: System, tid: nat) returns (mover: nat)
    requires StrictTotal(before) && LocksOk(before, txns, sys)
    requires tid < |txns| && !sys.phases[tid].Done?
    ensures mover < |txns| && !sys.phases[mover].Done? && !Blocked(before, txns[mover], sys, mover)
    decreases if Blocked(before, txns[tid], sys, tid)
              then set r | r in sys.owners && !before(r, Wanted(before, txns[tid], sys.phases[tid])) else {}
  {
    mover := tid;
    if Blocked(before, txns[tid], sys, tid) {
      var wanted := Wanted(before, txns[tid], sys.phases[tid]);
      var owner: nat := sys.owners[wanted];
      assert Owns(sys, owner, wanted);
      assert HeldBy(before, txns, sys, owner, wanted);
      NormalizeSorts(before, txns[owner].locks);
      mover := FindMover(before, txns, sys, owner);
    }
  }

  // ---------------------------------------------------------------- the termination measure

  /** The most moves a thread can still make. */
  function Remaining(before: Before, t: Txn, phase: Phase): nat {
    match phase
    case Acquiring(i) =>
      var n := |Normalize(before, t.locks)|;
      (if i <= n then n - i else 0) + t.bound + 2
    case Running(n, _, _) => (if n <= t.bound then t.bound - n else 0) + 1
    case Done(_) => 0
  }

  function Measure(before: Before, txns: seq<Txn>, phases: seq<Phase>): nat
    requires |phases| == |txns|
  {
    if txns == [] then 0
    else Remaining(before, txns[0], phases[0]) + Measure(before, txns[1..], phases[1..])
  }

  lemma {:induction false} MeasureUpdate(before: Before, txns: seq<Txn>, phases: seq<Phase>, tid: nat, phase: Phase)
    requires |phases| == |txns| && tid < |txns|
    ensures Measure(before, txns, phases[tid := phase]) - Measure(before, txns, phases)
         == Remaining(before, txns[tid], phase) - Remaining(before, txns[tid], phases[tid])
  {
    if tid == 0 {
      assert phases[0 := phase][1..] == phases[1..];
    } else {
      assert phases[tid := phase][1..] == phases[1..][tid - 1 := phase];
      MeasureUpdate(before, txns[1..], phases[1..], tid - 1, phase);
    }
  }

  /** A move of an unfinished, unblocked thread lowers the measure; every other move changes nothing. */
  lemma MoveLowersMeasure(before: Before, txns: seq<Txn>, sys: System, tid: nat)
    requires LocksOk(before, txns, sys) && tid < |txns|
    requires sys.phases[tid].Running? ==> sys.phases[tid].calls <= txns[tid].bound
    ensures
      var sys' := MoveThread(before, txns[tid], sys, tid);
      if sys.phases[tid].Done? || Blocked(before, txns[tid], sys, tid) then sys' == sys
      else Measure(before, txns, sys'.phases) < Measure(before, txns, sys.phases)
  {
    hide Effect;
    var sys' := MoveThread(before, txns[tid], sys, tid);
    assert sys'.phases == sys.phases[tid := sys'.phases[tid]];
    MeasureUpdate(before, txns, sys.phases, tid, sys'.phases[tid]);
  }

  lemma {:induction false} CallsWithinBound(before: Before, txns: seq<Txn>, s0: Store, schedule: seq<Choice>)
    ensures
      var sys := Execute(before, txns, s0, schedule);
      forall i :: 0 <= i < |txns| && sys.phases[i].Running? ==> sys.phases[i].calls <= txns[i].bound
    decreases |schedule|
  {
    hide Effect;
    if schedule != [] { CallsWithinBound(before, txns, s0, schedule[..|schedule| - 1]); }
  }

  // ---------------------------------------------------------------- the theorems

  ghost predicate Reachable(before: Before, txns: seq<Txn>, s0: Store, sys: System) {
    exists schedule :: Execute(before, txns, s0, schedule) == sys
  }

  predicate Finished(sys: System) {
    forall i :: 0 <= i < |sys.phases| ==> sys.phases[i].Done?
  }

  /** In every reachable state with an unfinished thread, some thread's next move makes progress. */
  lemma DeadlockFree(before: Before, txns: seq<Txn>, s0: Store, sys: System) returns (tid: nat)
    requires StrictTotal(before) && Reachable(before, txns, s0, sys) && |sys.phases| == |txns| && !Finished(sys)
    ensures Measure(before, txns, Next(before, txns, sys, Move(tid)).phases) < Measure(before, txns, sys.phases)
  {
    var schedule :| Execute(before, txns, s0, schedule) == sys;
    ExecuteKeepsLocks(before, txns, s0, schedule);
    CallsWithinBound(before, txns, s0, schedule);
    var i: nat :| i < |txns| && !sys.phases[i].Done?;
    tid := FindMover(before, txns, sys, i);
    MoveLowersMeasure(before, txns, sys, tid);
    assert Next(before, txns, sys, Move(tid)) == MoveThread(before, txns[tid], sys, tid);
  }

  lemma NextIsReachable(before: Before, txns: seq<Txn>, s0: Store, sys: System, choice: Choice)
    requires Reachable(before, txns, s0, sys) && |sys.phases| == |txns|
    ensures Reachable(before, txns, s0, Next(before, txns, sys, choice))
  {
    var schedule :| Execute(before, txns, s0, schedule) == sys;
    assert (schedule + [choice])[..|schedule|] == schedule;
    assert Execute(before, txns, s0, schedule + [choice]) == Next(before, txns, sys, choice);
  }

  ghost function Continue(before: Before, txns: seq<Txn>, sys: System, rest: seq<Choice>): (sys': System)
    requires |sys.phases| == |txns|
    ensures |sys'.phases| == |txns|
    decreases |rest|
  {
    if rest == [] then sys else Continue(before, txns, Next(before, txns, sys, rest[0]), rest[1..])
  }

  /** From every reachable state, at most Measure further moves finish every thread. */
  lemma {:induction false} EveryRunCanFinish(before: Before, txns: seq<Txn>, s0: Store, sys: System) returns (rest: seq<Choice>)
    requires StrictTotal(before) && Reachable(before, txns, s0, sys) && |sys.phases| == |txns|
    ensures |rest| <= Measure(before, txns, sys.phases)
    ensures Finished(Continue(before, txns, sys, rest))
    decreases Measure(before, txns, sys.phases)
  {
    if Finished(sys) {
      rest := [];
    } else {
      var tid := DeadlockFree(before, txns, s0, sys);
      var sys' := Next(before, txns, sys, Move(tid));
      NextIsReachable(before, txns, s0, sys, Move(tid));
      var tail := EveryRunCanFinish(before, txns, s0, sys');
      rest := [Move(tid)] + tail;
      assert rest[0] == Move(tid) && rest[1..] == tail;
    }
  }

  /** No move raises the measure, so a run contains at most Measure(start) moves that change anything. */
  lemma NoMoveRaisesMeasure(before: Before, txns: seq<Txn>, s0: Store, sys: System, choice: Choice)
    requires StrictTotal(before) && Reachable(before, txns, s0, sys) && |sys.phases| == |txns|
    ensures
      var sys' := Next(before, txns, sys, choice);
      sys' == sys || Measure(before, txns, sys'.phases) < Measure(before, txns, sys.phases)
  {
    hide Effect, MoveThread;
    var schedule :| Execute(before, txns, s0, schedule) == sys;
    ExecuteKeepsLocks(before, txns, s0, schedule);
    CallsWithinBound(before, txns, s0, schedule);
    if choice.tid < |txns| {
      match choice
      case Move(tid) => MoveLowersMeasure(before, txns, sys, tid);
      case Kill(tid) => MeasureUpdate(before, txns, sys.phases, tid, Done(Aborted(TransactionUnavailable)));
    }
  }
}
