/** Locks refuse nothing for good: whatever transactions do one after another, some schedule lets their threads do. */
module SerialSchedules {
  import opened ScopedStore
  import opened Locks
  import opened Sessions
  import opened Concurrency
  import opened Serializability
  import opened MutableRace

  /** The thread at place i of the order is done, with what its transaction returns at that place. */
  ghost predicate EndedAt(txns: seq<Txn>, s0: Store, order: seq<nat>, sys: System, i: nat)
    requires i < |order| && |sys.phases| == |txns| && forall j :: 0 <= j < |order| ==> order[j] < |txns|
  {
    sys.phases[order[i]] == Done(RunTransaction(txns[order[i]], Serial(txns, s0, order[..i])).0)
  }

  /** The threads of the order are done, as in the serial run; the others have not moved, and no lock is taken. */
  ghost predicate RanInOrder(txns: seq<Txn>, s0: Store, order: seq<nat>, sys: System)
    requires forall i :: 0 <= i < |order| ==> order[i] < |txns|
  {
    && |sys.phases| == |txns| && sys.owners == map[]
    && sys.committed == Serial(txns, s0, order)
    && (forall i :: 0 <= i < |order| ==> EndedAt(txns, s0, order, sys, i))
    && (forall t: nat :: t < |txns| && t !in order ==> sys.phases[t] == Acquiring(0))
  }

  lemma LastMove(before: Before, txns: seq<Txn>, sys: System, tid: nat)
    requires |sys.phases| == |txns| && tid < |txns| && InScope(txns[tid].scope, txns[tid].locks)
    requires ReachedAlone(txns[tid], sys.phases[tid], sys.committed)
    requires !(sys.phases[tid].rest.Call? && sys.phases[tid].calls < txns[tid].bound)
    requires forall ref :: ref in sys.owners ==> sys.owners[ref] == tid
    ensures
      var sys', (out, s') := Next(before, txns, sys, Move(tid)), RunTransaction(txns[tid], sys.committed);
      && sys'.phases == sys.phases[tid := Done(out)] && sys'.committed == s' && sys'.owners == map[]
  {
    hide Effect, Steps;
    var t, phase := txns[tid], sys.phases[tid];
    if phase.calls < t.bound { StepsStopped(t.body, SessionOf(t), sys.committed, phase.calls, t.bound); }
  }

  /** With no lock taken, a thread that has not moved can run to its end, with the outcome of its transaction. */
  lemma RunThread(before: Before, txns: seq<Txn>, s0: Store, schedule: seq<Choice>, tid: nat) returns (longer: seq<Choice>)
    requires StrictTotal(before) && tid < |txns|
    requires Execute(before, txns, s0, schedule).phases[tid] == Acquiring(0) && Execute(before, txns, s0, schedule).owners == map[]
    ensures
      var sys, sys' := Execute(before, txns, s0, schedule), Execute(before, txns, s0, longer);
      var (out, s') := RunTransaction(txns[tid], sys.committed);
      && sys'.committed == s' && sys'.owners == map[] && sys'.phases[tid] == Done(out)
      && forall u :: 0 <= u < |txns| && u != tid ==> sys'.phases[u] == sys.phases[u]
  {
    hide Execute, Next, Normalize, Effect, RunTransaction;
    var t, sys := txns[tid], Execute(before, txns, s0, schedule);
    longer := schedule;
    if InScope(t.scope, t.locks) {
      longer := AcquireAll(before, txns, s0, longer, tid);
      var sys1 := Execute(before, txns, s0, longer);
      assert Steps(t.body, SessionOf(t), sys.committed, 0) == (t.body, EMPTY);
      longer := CallAll(before, txns, s0, longer, tid, sys.committed);
      OnlyThreadTwice(sys, sys1, Execute(before, txns, s0, longer), tid, t);
      LastMove(before, txns, Execute(before, txns, s0, longer), tid);
    } else {
      Refused(before, txns, sys, tid);
    }
    OneMore(before, txns, s0, longer, Move(tid));
    longer := longer + [Move(tid)];
  }

  lemma Refused(before: Before, txns: seq<Txn>, sys: System, tid: nat)
    requires |sys.phases| == |txns| && tid < |txns| && !InScope(txns[tid].scope, txns[tid].locks)
    requires sys.phases[tid] == Acquiring(0) && sys.owners == map[]
    ensures
      var sys', (out, s') := Next(before, txns, sys, Move(tid)), RunTransaction(txns[tid], sys.committed);
      && sys'.phases == sys.phases[tid := Done(out)] && sys'.committed == s' && sys'.owners == map[]
  {
    hide Effect, Normalize;
  }

  lemma OneMoreThread(txns: seq<Txn>, s0: Store, order: seq<nat>, sys: System, sys': System)
    requires order != [] && forall i :: 0 <= i < |order| ==> order[i] < |txns|
    requires order[|order| - 1] !in order[..|order| - 1] && RanInOrder(txns, s0, order[..|order| - 1], sys)
    requires |sys'.phases| == |txns| && sys'.owners == map[]
    requires
      var tid := order[|order| - 1];
      var (out, s') := RunTransaction(txns[tid], sys.committed);
      && sys'.committed == s' && sys'.phases[tid] == Done(out)
      && forall u :: 0 <= u < |txns| && u != tid ==> sys'.phases[u] == sys.phases[u]
    ensures RanInOrder(txns, s0, order, sys')
  {
    hide RunTransaction, EndedAt;
    var n := |order| - 1;
    var rest, tid := order[..n], order[n];
    assert Serial(txns, s0, order) == RunTransaction(txns[tid], Serial(txns, s0, rest)).1;
    hide Serial;
    assert order == rest + [tid];
    forall i | 0 <= i < n ensures EndedAt(txns, s0, order, sys', i) { EndStays(txns, s0, order, sys, sys', i); }
    EndNow(txns, s0, order, sys, sys');
  }

  lemma EndStays(txns: seq<Txn>, s0: Store, order: seq<nat>, sys: System, sys': System, i: nat)
    requires i < |order| - 1 && |sys.phases| == |sys'.phases| == |txns| && forall j :: 0 <= j < |order| ==> order[j] < |txns|
    requires EndedAt(txns, s0, order[..|order| - 1], sys, i) && sys'.phases[order[i]] == sys.phases[order[i]]
    ensures EndedAt(txns, s0, order, sys', i)
  {
    hide RunTransaction, Serial;
    assert order[..|order| - 1][..i] == order[..i];
  }

  lemma EndNow(txns: seq<Txn>, s0: Store, order: seq<nat>, sys: System, sys': System)
    requires order != [] && |sys'.phases| == |txns| && forall j :: 0 <= j < |order| ==> order[j] < |txns|
    requires sys.committed == Serial(txns, s0, order[..|order| - 1])
    requires sys'.phases[order[|order| - 1]] == Done(RunTransaction(txns[order[|order| - 1]], sys.committed).0)
    ensures EndedAt(txns, s0, order, sys', |order| - 1)
  {
  }

  /** Every serial order of any of the transactions is the effect of some schedule: each of them then ends as it does
    * in that order, committed or not, and the committed store is the serial one. */
  lemma {:induction false} EverySerialOrderHappens(before: Before, txns: seq<Txn>, s0: Store, order: seq<nat>) returns (schedule: seq<Choice>)
    requires StrictTotal(before) && forall i :: 0 <= i < |order| ==> order[i] < |txns|
    requires forall i, j :: 0 <= i < j < |order| ==> order[i] != order[j]
    ensures RanInOrder(txns, s0, order, Execute(before, txns, s0, schedule))
    decreases |order|
  {
    hide Execute, RunTransaction, Serial;
    schedule := [];
    if order != [] {
      var n := |order| - 1;
      var rest, tid := order[..n], order[n];
      schedule := EverySerialOrderHappens(before, txns, s0, rest);
      var sys := Execute(before, txns, s0, schedule);
      assert tid !in rest;
      schedule := RunThread(before, txns, s0, schedule, tid);
      OneMoreThread(txns, s0, order, sys, Execute(before, txns, s0, schedule));
    } else {
      NothingMoved(before, txns, s0);
    }
  }

  lemma NothingMoved(before: Before, txns: seq<Txn>, s0: Store)
    ensures RanInOrder(txns, s0, [], Execute(before, txns, s0, []))
  {
  }
}
