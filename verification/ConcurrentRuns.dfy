/** Service calls running concurrently: whatever the schedule, the committed stores are those of a run in
  * which the committed calls are performed one after another, so everything proved of runs holds of them. */
module ConcurrentRuns {
  import opened Signing
  import opened Models
  import opened ScopedStore
  import opened ScopedInvariant
  import opened Locks
  import opened Sessions
  import opened Concurrency
  import opened Serializability
  import opened ProtocolSteps
  import opened ProtocolLocks
  import opened ProtocolRecords
  import opened ReplayInvariant
  import opened ProtocolRuns
  import opened ProtocolSafety

  /** Concurrent calls, with what each one's reads saw and the transaction it then runs. */
  datatype Batch = Batch(calls: seq<Call>, seen: seq<Store>, txns: seq<Txn>)

  ghost predicate Prepared(signer: Option<Signer>, b: Batch) {
    && |b.calls| == |b.seen| == |b.txns|
    && forall i :: 0 <= i < |b.calls| ==> Prepare(signer, b.calls[i], b.seen[i]) == Ready(b.txns[i])
  }

  /** After n choices the committed store was the one that call i's reads saw, and the call had not finished. */
  ghost predicate SawAt(before: Before, b: Batch, schedule: seq<Choice>, i: nat, n: nat)
    requires n <= |schedule| && i < |b.txns| == |b.seen|
  {
    var sys := Execute(before, b.txns, EMPTY, schedule[..n]);
    sys.committed == b.seen[i] && !sys.phases[i].Done?
  }

  /** Each call that committed had read a store that was committed before. */
  ghost predicate ReadEarlier(before: Before, b: Batch, schedule: seq<Choice>)
    requires |b.seen| == |b.txns|
  {
    forall i: nat :: i < |b.txns| && i in Execute(before, b.txns, EMPTY, schedule).order ==>
      exists n :: 0 <= n <= |schedule| && SawAt(before, b, schedule, i, n)
  }

  lemma InOrder(before: Before, signer: Option<Signer>, b: Batch, schedule: seq<Choice>)
    requires StrictTotal(before) && Prepared(signer, b)
    ensures OrderOk(b.txns, EMPTY, Execute(before, b.txns, EMPTY, schedule))
  {
    hide Execute, Prepare, StepLocked, Valid;
    EmptyIsValid();
    forall i | 0 <= i < |b.txns| ensures StepLocked(b.txns[i]) { EveryStepLocked(signer, b.calls[i], b.seen[i]); }
    LockedStepsAreSerializable(before, b.txns, EMPTY, schedule);
  }

  /** The commit order only grows. */
  lemma {:induction false} OrderGrows(before: Before, txns: seq<Txn>, s0: Store, schedule: seq<Choice>, n: nat)
    requires n <= |schedule|
    ensures Execute(before, txns, s0, schedule[..n]).order <= Execute(before, txns, s0, schedule).order
    decreases |schedule|
  {
    hide Effect;
    if n == |schedule| {
      assert schedule[..n] == schedule;
    } else {
      var shorter := schedule[..|schedule| - 1];
      OrderGrows(before, txns, s0, shorter, n);
      assert shorter[..n] == schedule[..n];
    }
  }

  /** What a committed call had read is a serial state no later than the one it ran on. */
  lemma SeenIsSerial(before: Before, signer: Option<Signer>, b: Batch, schedule: seq<Choice>, p: nat) returns (m: nat)
    requires StrictTotal(before) && Prepared(signer, b) && ReadEarlier(before, b, schedule)
    requires p < |Execute(before, b.txns, EMPTY, schedule).order|
    ensures
      var order := Execute(before, b.txns, EMPTY, schedule).order;
      && m <= p && (forall i :: 0 <= i < |order| ==> order[i] < |b.txns|)
      && b.seen[order[p]] == Serial(b.txns, EMPTY, order[..m])
  {
    hide Execute, Prepare, Serial;
    var order := Execute(before, b.txns, EMPTY, schedule).order;
    InOrder(before, signer, b, schedule);
    assert order[p] in order;
    var n :| 0 <= n <= |schedule| && SawAt(before, b, schedule, order[p], n);
    var early := Execute(before, b.txns, EMPTY, schedule[..n]);
    InOrder(before, signer, b, schedule[..n]);
    OrderGrows(before, b.txns, EMPTY, schedule, n);
    m := |early.order|;
    assert order[..m] == early.order;
    PrefixMember(early.order, order, p);
  }

  lemma PrefixMember(early: seq<nat>, late: seq<nat>, p: nat)
    requires early <= late && p < |late|
    ensures p < |early| ==> late[p] in early
  {
  }

  /** The run performs the first n committed calls: its states are the serial states. */
  ghost predicate Follows(signer: Option<Signer>, b: Batch, order: seq<nat>, steps: seq<Step>)
    requires |b.calls| == |b.seen| == |b.txns| && (forall i :: 0 <= i < |order| ==> order[i] < |b.txns|) && |steps| <= |order|
  {
    && (forall p :: 0 <= p <= |steps| ==> States(signer, steps)[p] == Serial(b.txns, EMPTY, order[..p]))
    && (forall p :: 0 <= p < |steps| ==>
          && steps[p].call == b.calls[order[p]] && steps[p].seenAt <= p
          && States(signer, steps)[steps[p].seenAt] == b.seen[order[p]])
  }

  lemma StatesSnoc(signer: Option<Signer>, steps: seq<Step>, step: Step)
    requires step.seenAt <= |steps|
    ensures
      var states := States(signer, steps);
      States(signer, steps + [step]) == states + [Perform(signer, step.call, states[step.seenAt], states[|steps|]).1]
  {
    hide Perform;
    assert (steps + [step])[..|steps|] == steps;
  }

  lemma SerialSnoc(txns: seq<Txn>, s0: Store, order: seq<nat>, n: nat)
    requires n < |order| && forall i :: 0 <= i < |order| ==> order[i] < |txns|
    ensures Serial(txns, s0, order[..n + 1]) == RunTransaction(txns[order[n]], Serial(txns, s0, order[..n])).1
  {
    hide RunTransaction;
    assert order[..n + 1][..n] == order[..n];
  }

  lemma FollowsOneMore(signer: Option<Signer>, b: Batch, order: seq<nat>, steps: seq<Step>, m: nat)
    requires Prepared(signer, b) && (forall i :: 0 <= i < |order| ==> order[i] < |b.txns|)
    requires |steps| < |order| && Follows(signer, b, order, steps) && m <= |steps|
    requires b.seen[order[|steps|]] == Serial(b.txns, EMPTY, order[..m])
    ensures Follows(signer, b, order, steps + [Step(b.calls[order[|steps|]], m)])
  {
    hide Prepare, RunTransaction, States, Serial;
    var n := |steps|;
    StatesSnoc(signer, steps, Step(b.calls[order[n]], m));
    SerialSnoc(b.txns, EMPTY, order, n);
  }

  lemma {:induction false} Follow(before: Before, signer: Option<Signer>, b: Batch, schedule: seq<Choice>, n: nat) returns (steps: seq<Step>)
    requires StrictTotal(before) && Prepared(signer, b) && ReadEarlier(before, b, schedule)
    requires n <= |Execute(before, b.txns, EMPTY, schedule).order|
    ensures
      var order := Execute(before, b.txns, EMPTY, schedule).order;
      && (forall i :: 0 <= i < |order| ==> order[i] < |b.txns|)
      && |steps| == n && Follows(signer, b, order, steps)
  {
    hide Execute, Prepare, Follows, Serial;
    var order := Execute(before, b.txns, EMPTY, schedule).order;
    InOrder(before, signer, b, schedule);
    if n == 0 {
      steps := [];
      NothingFollowed(signer, b, order);
    } else {
      steps := Follow(before, signer, b, schedule, n - 1);
      var m := SeenIsSerial(before, signer, b, schedule, n - 1);
      FollowsOneMore(signer, b, order, steps, m);
      steps := steps + [Step(b.calls[order[n - 1]], m)];
    }
  }

  lemma NothingFollowed(signer: Option<Signer>, b: Batch, order: seq<nat>)
    requires |b.calls| == |b.seen| == |b.txns| && (forall i :: 0 <= i < |order| ==> order[i] < |b.txns|)
    ensures Follows(signer, b, order, [])
  {
  }

  /** Every concurrent execution is a run: its commits, in their order, are the steps of the run, every
    * committed store is a state of the run, and every committed call returns what it returns in the run. */
  lemma ConcurrentIsRun(before: Before, signer: Option<Signer>, b: Batch, schedule: seq<Choice>) returns (steps: seq<Step>)
    requires StrictTotal(before) && Prepared(signer, b) && ReadEarlier(before, b, schedule)
    ensures
      var sys, states := Execute(before, b.txns, EMPTY, schedule), States(signer, steps);
      && |steps| == |sys.order| && (forall p :: 0 <= p < |steps| ==> sys.order[p] < |b.txns|)
      && sys.committed == states[|steps|]
      && (forall p :: 0 <= p < |steps| ==>
            && steps[p].call == b.calls[sys.order[p]] && steps[p].seenAt <= p
            && sys.phases[sys.order[p]] == Done(Perform(signer, steps[p].call, states[steps[p].seenAt], states[p]).0))
    ensures forall n :: 0 <= n <= |schedule| ==>
      exists p :: 0 <= p <= |steps| && Execute(before, b.txns, EMPTY, schedule[..n]).committed == States(signer, steps)[p]
  {
    hide Execute, Prepare, Serial, RunTransaction, States;
    var sys := Execute(before, b.txns, EMPTY, schedule);
    InOrder(before, signer, b, schedule);
    steps := Follow(before, signer, b, schedule, |sys.order|);
    assert sys.order[..|steps|] == sys.order;
    forall p | 0 <= p < |steps|
      ensures sys.phases[sys.order[p]] == Done(Perform(signer, steps[p].call, States(signer, steps)[steps[p].seenAt], States(signer, steps)[p]).0)
    {
    }
    forall n | 0 <= n <= |schedule|
      ensures exists p :: 0 <= p <= |steps| && Execute(before, b.txns, EMPTY, schedule[..n]).committed == States(signer, steps)[p]
    {
      var early := Execute(before, b.txns, EMPTY, schedule[..n]);
      InOrder(before, signer, b, schedule[..n]);
      OrderGrows(before, b.txns, EMPTY, schedule, n);
      assert sys.order[..|early.order|] == early.order;
      assert early.committed == States(signer, steps)[|early.order|];
    }
  }

  // ---------------------------------------------------------------- safety under concurrency

  /** No two simulations of the batch draw the same receipt identifier in one scope. */
  ghost predicate DifferentDraws(calls: seq<Call>) {
    forall i, j, scope, id :: 0 <= i < |calls| && 0 <= j < |calls| && i != j && Draws(calls[i], scope, id) ==>
      !Draws(calls[j], scope, id)
  }

  lemma RunDrawsDiffer(b: Batch, order: seq<nat>, steps: seq<Step>)
    requires DifferentDraws(b.calls) && |steps| == |order| && forall i :: 0 <= i < |order| ==> order[i] < |b.calls|
    requires forall i, j :: 0 <= i < j < |order| ==> order[i] != order[j]
    requires forall p :: 0 <= p < |steps| ==> steps[p].call == b.calls[order[p]]
    ensures DistinctDraws(steps)
  {
  }

  /** Every committed store of every concurrent execution is governed, and each of its receipts traces to an
    * authorised, verified and approved decision in its own scope. */
  lemma ConcurrentReceiptsAreJustified(before: Before, signer: Option<Signer>, b: Batch, schedule: seq<Choice>, n: nat,
                                       scope: Scope, planId: Id)
    requires StrictTotal(before) && Prepared(signer, b) && ReadEarlier(before, b, schedule) && DifferentDraws(b.calls)
    requires n <= |schedule|
    ensures
      var s := Execute(before, b.txns, EMPTY, schedule[..n]).committed;
      && Governed(signer, s) && ReceiptsDistinct(s)
      && (ReceiptAt(s, scope, planId).Some? ==>
            && RequestAt(s, scope, planId).Some?
            && var q := RequestAt(s, scope, planId).value;
               && EnvelopeAt(s, scope, q.envelopeId).Some? && AuthorityAt(s, scope, q.authorityDecisionId).Some?
               && Justified(signer, scope, EnvelopeAt(s, scope, q.envelopeId).value,
                            AuthorityAt(s, scope, q.authorityDecisionId).value, q, ReceiptAt(s, scope, planId).value))
  {
    hide Governed, ReceiptsDistinct, Extends, RequestAt, EnvelopeAt, AuthorityAt, ReceiptAt, Justified, States, FreshIds, Execute,
         Prepare, Perform, DifferentDraws, DistinctDraws, ReadEarlier;
    var steps := ConcurrentIsRun(before, signer, b, schedule);
    InOrder(before, signer, b, schedule);
    RunDrawsDiffer(b, Execute(before, b.txns, EMPTY, schedule).order, steps);
    DistinctDrawsAreFresh(signer, steps);
    EveryStateIsGoverned(signer, steps);
    var p :| 0 <= p <= |steps| && Execute(before, b.txns, EMPTY, schedule[..n]).committed == States(signer, steps)[p];
    EveryReceiptIsJustified(signer, steps, p, scope, planId);
  }
}
