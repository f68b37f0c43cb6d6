/** Runs of the protocol from an empty ledger. */
module ProtocolRuns {
  import opened Signing
  import opened Models
  import opened ScopedStore
  import opened ScopedInvariant
  import opened Sessions
  import opened SessionRules
  import opened LedgerOps
  import opened Authority
  import opened Gateway
  import opened Replay
  import opened Comparison
  import opened ProtocolSteps
  import opened ProtocolLocks
  import opened ProtocolRecords
  import opened ProtocolInvariant
  import opened ReplayInvariant

  /** A call and the earlier state that its reads saw. */
  datatype Step = Step(call: Call, seenAt: nat)

  /** Every state of the run, the empty ledger first. */
  ghost function States(signer: Option<Signer>, steps: seq<Step>): (states: seq<Store>)
    ensures |states| == |steps| + 1
  {
    if steps == [] then [EMPTY]
    else
      var before, step := States(signer, steps[..|steps| - 1]), steps[|steps| - 1];
      var seen := before[if step.seenAt < |before| then step.seenAt else |before| - 1];
      before + [Perform(signer, step.call, seen, before[|before| - 1]).1]
  }

  /** The receipt identifier a simulation draws is not in use in its scope. */
  ghost predicate Fresh(s: Store, call: Call) {
    call.SimulatePlan? ==>
      forall p :: ReceiptAt(s, call.simulate.scope, p).Some? ==>
        ReceiptAt(s, call.simulate.scope, p).value.receiptId != call.simulate.receiptId
  }

  ghost predicate FreshIds(signer: Option<Signer>, steps: seq<Step>) {
    forall i :: 0 <= i < |steps| ==> Fresh(States(signer, steps)[i], steps[i].call)
  }

  // ---------------------------------------------------------------- only simulations add receipts

  ghost predicate SameReceipts(s: Store, s': Store) {
    forall scope, p :: ReceiptAt(s', scope, p) == ReceiptAt(s, scope, p)
  }

  /** The locks of t do not allow writing receipts. */
  ghost predicate LocksNoReceipts(t: Txn) {
    || ChainLock(t.scope, ShadowExecutionReceipts) !in t.locks
    || forall key :: CanonicalLock(t.scope, ShadowExecutionReceipts, key) !in t.locks
  }

  /** Without both locks on receipts a transaction leaves them alone. */
  lemma UnlockedReceiptsStay(t: Txn, s: Store)
    requires Valid(s)
    requires LocksNoReceipts(t)
    ensures SameReceipts(s, RunTransaction(t, s).1)
  {
    hide RunTransaction, Valid;
    TransactionIsAtomicAndFramed(t, s);
    var s' := RunTransaction(t, s).1;
    forall scope, p ensures ReceiptAt(s', scope, p) == ReceiptAt(s, scope, p) {
      var k := RowKey(scope, ShadowExecutionReceipts, Name(p));
      assert k in s'.rows && (k !in s.rows || s'.rows[k] != s.rows[k]) ==>
        && CanonicalLock(t.scope, ShadowExecutionReceipts, k.ckey) in t.locks
        && ChainLock(t.scope, ShadowExecutionReceipts) in t.locks;
    }
  }

  lemma RegisterLocks(e: DecisionEnvelope)
    ensures LocksNoReceipts(RegisterTxn(e))
  {
  }

  lemma AuthorizeLocks(args: AuthorizeArgs, a: AuthorityDecision)
    ensures LocksNoReceipts(AuthorizeTxn(args, a))
  {
  }

  lemma PlanTxnLocks(scope: Scope, q: ExecutionRequest, g: GatewayDecision)
    ensures LocksNoReceipts(PlanTxn(scope, q, g))
  {
  }

  lemma OutcomeTxnLocks(signer: Option<Signer>, args: OutcomeArgs, q: ExecutionRequest, r: ShadowReceipt)
    ensures LocksNoReceipts(OutcomeTxn(signer, args, q, r))
  {
  }

  lemma ReplayTxnLocks(signer: Option<Signer>, args: ReplayArgs, hash: ManifestHash)
    ensures LocksNoReceipts(ReplayTxn(signer, args, hash))
  {
  }

  lemma CompareTxnLocks(signer: Option<Signer>, args: CompareArgs, b: ManifestHash, c: ManifestHash)
    ensures LocksNoReceipts(CompareTxn(signer, args, b, c))
  {
  }

  lemma OtherStepsLockNoReceipts(signer: Option<Signer>, call: Call, seen: Store)
    requires Prepare(signer, call, seen).Ready? && !call.SimulatePlan?
    ensures LocksNoReceipts(Prepare(signer, call, seen).txn)
  {
    hide LocksNoReceipts, RegisterTxn, AuthorizeTxn, PlanTxn, OutcomeTxn, ReplayTxn, CompareTxn, SnapshotTxn,
         Decide, Judge, ReceiptOk, ProjectsSimulated, RunTransaction, FindReport, Listing, EnvelopeAt, AuthorityAt, RequestAt;
    match call
    case Register(e) => RegisterLocks(e);
    case Authorize(args) =>
      var e := EnvelopeAt(seen, args.scope, args.envelopeId).value;
      AuthorizeLocks(args, Decide(signer, e, args.subject, args.role, args.approvals, args.authorityId, args.now));
    case CreatePlan(args) =>
      var e, a := EnvelopeAt(seen, args.scope, args.envelopeId).value, AuthorityAt(seen, args.scope, args.authorityId).value;
      PlanTxnLocks(args.scope, RequestOf(args), Judge(e, a, RequestOf(args), args.scope, args.gatewayId, args.decidedAt));
    case RecordOutcome(args) =>
      var q := RequestAt(seen, args.scope, args.planId).value;
      OutcomeTxnLocks(signer, args, q, ReceiptAt(seen, args.scope, q.planId).value);
    case ReplayPlan(args) =>
      ReplayTxnLocks(signer, args, RunTransaction(SnapshotTxn(signer, args), seen).0.value.report.fields.manifestHash);
    case CompareReplays(args) =>
      var pair := RunTransaction(LoadPairTxn(args), seen).0.value;
      CompareTxnLocks(signer, args, pair.baseline.fields.manifestHash, pair.candidate.fields.manifestHash);
    case SimulatePlan(_) =>
  }

  lemma DistinctKept(s: Store, s': Store)
    requires ReceiptsDistinct(s) && SameReceipts(s, s')
    ensures ReceiptsDistinct(s')
  {
    hide ReceiptAt;
  }

  lemma SimulatedReceipts(signer: Option<Signer>, args: SimulateArgs, s: Store, s': Store, q: ExecutionRequest,
                          g: GatewayDecision, r: ShadowReceipt)
    requires Simulates(signer, args, s, s', q, g, r) && Valid(s)
    requires Fresh(s, SimulatePlan(args)) && ReceiptsDistinct(s)
    ensures ReceiptsDistinct(s')
  {
    hide Valid, Judge, Simulate;
    var isNew := PayloadAt(s, args.scope, ShadowExecutionReceipts, Name(args.planId)).None?;
    var w := SimulateWrites(args.scope, args.planId, g, r, isNew);
    forall scope, p ensures ReceiptAt(s', scope, p) ==
      if isNew && scope == args.scope && p == args.planId then Some(r) else ReceiptAt(s, scope, p)
    {
      OneReceipt(s, s', w, args, g, r, isNew, scope, p);
    }
    if isNew { NewReceiptId(signer, args, s, s', q, g, r); }
    hide ReceiptAt;
  }

  lemma NewReceiptId(signer: Option<Signer>, args: SimulateArgs, s: Store, s': Store, q: ExecutionRequest,
                     g: GatewayDecision, r: ShadowReceipt)
    requires Simulates(signer, args, s, s', q, g, r)
    requires PayloadAt(s, args.scope, ShadowExecutionReceipts, Name(args.planId)).None?
    ensures r.receiptId == args.receiptId
  {
    hide Judge, Wrote;
  }

  lemma OneReceipt(s: Store, s': Store, w: map<Key, Record>, args: SimulateArgs, g: GatewayDecision, r: ShadowReceipt,
                   isNew: bool, scope: Scope, p: Id)
    requires w == SimulateWrites(args.scope, args.planId, g, r, isNew) && Wrote(s, s', w)
    ensures ReceiptAt(s', scope, p) ==
      if isNew && scope == args.scope && p == args.planId then Some(r) else ReceiptAt(s, scope, p)
  {
    hide Valid;
  }

  lemma SimulateKeepsDistinct(signer: Option<Signer>, args: SimulateArgs, seen: Store, s: Store)
    requires Governed(signer, s) && ReceiptsDistinct(s) && Fresh(s, SimulatePlan(args))
    requires ReadyToSimulate(signer, args, seen).Ready?
    ensures ReceiptsDistinct(RunTransaction(ReadyToSimulate(signer, args, seen).txn, s).1)
  {
    hide Governed, ReceiptsDistinct, Fresh, RunTransaction, Ends, Simulates, SimulationLocks, RequestAt;
    var q0 := RequestAt(seen, args.scope, args.planId).value;
    var t := SimulateTxn(signer, args, q0);
    GovernedIsValid(signer, s);
    SimulateRefs(args.scope, args.planId, q0.authorityDecisionId);
    var r := SimulateEnds(signer, args, q0, s);
    TransactionIsAfter(t, s);
    assert Ends(t, s) == SessionRules.After(t.body, SessionOf(t), s, t.bound) by { EndsIsAfter(t, s); }
    if Ends(t, s).0.Return? {
      SimulatedReceipts(signer, args, s, Ends(t, s).1, RequestAt(s, args.scope, args.planId).value,
                        GatewayAt(s, args.scope, args.planId).value, r.value);
    }
  }

  lemma EndsIsAfter(t: Txn, s: Store)
    ensures Ends(t, s) == SessionRules.After(t.body, SessionOf(t), s, t.bound)
  {
  }

  // ---------------------------------------------------------------- one step

  lemma StepKeepsDistinct(signer: Option<Signer>, call: Call, seen: Store, s: Store)
    requires Governed(signer, s) && ReceiptsDistinct(s) && Fresh(s, call)
    ensures ReceiptsDistinct(Perform(signer, call, seen, s).1)
  {
    hide Governed, ReceiptsDistinct, Fresh, RunTransaction, ReadyToSimulate, ReadyToAuthorize, ReadyToPlan, ReadyToRecord, ReadyToReplay,
         ReadyToCompare, RegisterTxn;
    if Prepare(signer, call, seen).Ready? {
      if call.SimulatePlan? {
        SimulateKeepsDistinct(signer, call.simulate, seen, s);
      } else {
        GovernedIsValid(signer, s);
        OtherStepsLockNoReceipts(signer, call, seen);
        UnlockedReceiptsStay(Prepare(signer, call, seen).txn, s);
        DistinctKept(s, Perform(signer, call, seen, s).1);
      }
    }
  }

  lemma ReplayKeeps(signer: Option<Signer>, args: ReplayArgs, seen: Store, s: Store)
    requires Extends(seen, s) && Governed(signer, s) && ReceiptsDistinct(s)
    requires ReadyToReplay(signer, args, seen).Ready?
    ensures
      var t := ReadyToReplay(signer, args, seen).txn;
      Governed(signer, RunTransaction(t, s).1) && Extends(s, RunTransaction(t, s).1)
  {
    hide Governed, ReceiptsDistinct, RunTransaction, Extends, RequestAt, ReplayTxn, SnapshotTxn;
    RecordsStay(seen, s, args.scope);
    ReplayCommitKeeps(signer, args, RunTransaction(SnapshotTxn(signer, args), seen).0.value.report.fields.manifestHash, s);
  }

  lemma ComparisonKeeps(signer: Option<Signer>, args: CompareArgs, seen: Store, s: Store)
    requires Governed(signer, s) && ReadyToCompare(signer, args, seen).Ready?
    ensures
      var t := ReadyToCompare(signer, args, seen).txn;
      Governed(signer, RunTransaction(t, s).1) && Extends(s, RunTransaction(t, s).1)
  {
    hide Governed, RunTransaction, Extends, CompareTxn;
    var pair := RunTransaction(LoadPairTxn(args), seen).0.value;
    CompareKeeps(signer, args, pair.baseline.fields.manifestHash, pair.candidate.fields.manifestHash, s);
  }

  lemma StepKeepsGoverned(signer: Option<Signer>, call: Call, seen: Store, s: Store)
    requires Governed(signer, seen) && Extends(seen, s) && Governed(signer, s) && ReceiptsDistinct(s)
    ensures Governed(signer, Perform(signer, call, seen, s).1) && Extends(s, Perform(signer, call, seen, s).1)
  {
    hide Governed, ReceiptsDistinct, RunTransaction, ReadyToSimulate, ReadyToAuthorize, ReadyToPlan, ReadyToRecord,
         ReadyToReplay, ReadyToCompare, RegisterTxn;
    if Prepare(signer, call, seen).Ready? {
      match call
      case Register(e) => RegisterKeeps(signer, e, s);
      case Authorize(args) => AuthorizeKeeps(signer, args, seen, s);
      case CreatePlan(args) => PlanKeeps(signer, args, seen, s);
      case SimulatePlan(args) => SimulateKeeps(signer, args, seen, s);
      case RecordOutcome(args) => RecordKeeps(signer, args, seen, s);
      case ReplayPlan(args) => ReplayKeeps(signer, args, seen, s);
      case CompareReplays(args) => ComparisonKeeps(signer, args, seen, s);
    }
  }

  // ---------------------------------------------------------------- every run

  ghost predicate Chronicle(signer: Option<Signer>, states: seq<Store>) {
    && (forall i :: 0 <= i < |states| ==> Governed(signer, states[i]) && ReceiptsDistinct(states[i]))
    && (forall i, j :: 0 <= i <= j < |states| ==> Extends(states[i], states[j]))
  }

  lemma EmptyIsGoverned(signer: Option<Signer>)
    ensures Governed(signer, EMPTY) && ReceiptsDistinct(EMPTY)
  {
    hide Valid, Fits;
    EmptyIsValid();
  }

  lemma ChronicleGrows(signer: Option<Signer>, states: seq<Store>, s: Store)
    requires Chronicle(signer, states) && states != []
    requires Governed(signer, s) && ReceiptsDistinct(s) && Extends(states[|states| - 1], s)
    ensures Chronicle(signer, states + [s])
  {
    hide Governed, ReceiptsDistinct;
    forall i | 0 <= i < |states| ensures Extends(states[i], s) {
      ExtendsIsTransitive(states[i], states[|states| - 1], s);
    }
  }

  lemma FreshPrefix(signer: Option<Signer>, steps: seq<Step>)
    requires FreshIds(signer, steps) && steps != []
    ensures FreshIds(signer, steps[..|steps| - 1])
    ensures Fresh(States(signer, steps[..|steps| - 1])[|steps| - 1], steps[|steps| - 1].call)
  {
    hide Fresh, Perform;
    var before := steps[..|steps| - 1];
    forall i | 0 <= i < |steps| ensures Fresh(States(signer, before)[i], steps[i].call) {
      assert States(signer, steps)[i] == States(signer, before)[i];
    }
  }

  /** Every state of every run is governed and keeps all records of the states before it. */
  lemma {:induction false} EveryStateIsGoverned(signer: Option<Signer>, steps: seq<Step>)
    requires FreshIds(signer, steps)
    ensures Chronicle(signer, States(signer, steps))
    decreases |steps|
  {
    hide Governed, ReceiptsDistinct, Fresh, Perform, Extends, FreshIds;
    if steps == [] {
      EmptyIsGoverned(signer);
      assert Extends(EMPTY, EMPTY) by { EmptyExtends(); }
    } else {
      FreshPrefix(signer, steps);
      EveryStateIsGoverned(signer, steps[..|steps| - 1]);
      var before, step := States(signer, steps[..|steps| - 1]), steps[|steps| - 1];
      var seen := before[if step.seenAt < |before| then step.seenAt else |before| - 1];
      StepKeepsGoverned(signer, step.call, seen, before[|before| - 1]);
      StepKeepsDistinct(signer, step.call, seen, before[|before| - 1]);
      ChronicleGrows(signer, before, Perform(signer, step.call, seen, before[|before| - 1]).1);
    }
  }

  lemma EmptyExtends()
    ensures Extends(EMPTY, EMPTY)
  {
  }

  // ---------------------------------------------------------------- drawing identifiers

  /** The call is a simulation in this scope that draws this receipt identifier. */
  predicate Draws(call: Call, scope: Scope, id: Id) {
    call.SimulatePlan? && call.simulate.scope == scope && call.simulate.receiptId == id
  }

  /** No two simulations in one scope draw the same receipt identifier. */
  ghost predicate DistinctDraws(steps: seq<Step>) {
    forall i, j, scope, id :: 0 <= i < j < |steps| && Draws(steps[i].call, scope, id) ==> !Draws(steps[j].call, scope, id)
  }

  /** Every receipt that s' has and s has not carries the identifier that the call drew in its scope. */
  ghost predicate DrewReceipts(call: Call, s: Store, s': Store) {
    forall scope, p :: ReceiptAt(s', scope, p).Some? && ReceiptAt(s', scope, p) != ReceiptAt(s, scope, p) ==>
      Draws(call, scope, ReceiptAt(s', scope, p).value.receiptId)
  }

  lemma SimulationDraws(signer: Option<Signer>, args: SimulateArgs, seen: Store, s: Store)
    requires Valid(s) && ReadyToSimulate(signer, args, seen).Ready?
    ensures DrewReceipts(SimulatePlan(args), s, RunTransaction(ReadyToSimulate(signer, args, seen).txn, s).1)
  {
    hide RunTransaction, Ends, Simulates, SimulationLocks, RequestAt, GatewayAt, Valid, Wrote;
    var q0 := RequestAt(seen, args.scope, args.planId).value;
    var t := SimulateTxn(signer, args, q0);
    SimulateRefs(args.scope, args.planId, q0.authorityDecisionId);
    var r := SimulateEnds(signer, args, q0, s);
    TransactionIsAfter(t, s);
    EndsIsAfter(t, s);
    if Ends(t, s).0.Return? {
      var s', q, g := Ends(t, s).1, RequestAt(s, args.scope, args.planId).value, GatewayAt(s, args.scope, args.planId).value;
      DrawnReceipt(signer, args, s, s', q, g, r.value);
    }
  }

  lemma DrawnReceipt(signer: Option<Signer>, args: SimulateArgs, s: Store, s': Store, q: ExecutionRequest,
                     g: GatewayDecision, r: ShadowReceipt)
    requires Simulates(signer, args, s, s', q, g, r) && Valid(s)
    ensures DrewReceipts(SimulatePlan(args), s, s')
  {
    hide Valid, Judge, Simulate, Wrote, ReceiptAt, SimulateWrites;
    var isNew := PayloadAt(s, args.scope, ShadowExecutionReceipts, Name(args.planId)).None?;
    var w := SimulateWrites(args.scope, args.planId, g, r, isNew);
    forall scope, p ensures ReceiptAt(s', scope, p) ==
      if isNew && scope == args.scope && p == args.planId then Some(r) else ReceiptAt(s, scope, p)
    {
      OneReceipt(s, s', w, args, g, r, isNew, scope, p);
    }
    if isNew { NewReceiptId(signer, args, s, s', q, g, r); }
  }

  lemma StepDraws(signer: Option<Signer>, call: Call, seen: Store, s: Store)
    requires Valid(s)
    ensures Valid(Perform(signer, call, seen, s).1) && DrewReceipts(call, s, Perform(signer, call, seen, s).1)
  {
    hide Valid, RunTransaction, ReadyToSimulate, ReadyToAuthorize, ReadyToPlan, ReadyToRecord, ReadyToReplay, ReadyToCompare,
         RegisterTxn, ReceiptAt;
    if Prepare(signer, call, seen).Ready? {
      TransactionIsAtomicAndFramed(Prepare(signer, call, seen).txn, s);
      if call.SimulatePlan? {
        SimulationDraws(signer, call.simulate, seen, s);
      } else {
        OtherStepsLockNoReceipts(signer, call, seen);
        UnlockedReceiptsStay(Prepare(signer, call, seen).txn, s);
      }
    }
  }

  /** Every receipt of the last state was drawn by one of the steps, in its own scope. */
  ghost predicate AllDrawn(steps: seq<Step>, s: Store) {
    forall scope, p :: ReceiptAt(s, scope, p).Some? ==>
      exists i :: 0 <= i < |steps| && Draws(steps[i].call, scope, ReceiptAt(s, scope, p).value.receiptId)
  }

  lemma DrawnStep(steps: seq<Step>, s: Store, s': Store)
    requires steps != [] && AllDrawn(steps[..|steps| - 1], s) && DrewReceipts(steps[|steps| - 1].call, s, s')
    ensures AllDrawn(steps, s')
  {
    hide ReceiptAt;
    var n := |steps| - 1;
    forall scope, p | ReceiptAt(s', scope, p).Some?
      ensures exists i :: 0 <= i < |steps| && Draws(steps[i].call, scope, ReceiptAt(s', scope, p).value.receiptId)
    {
      if ReceiptAt(s', scope, p) == ReceiptAt(s, scope, p) {
        var i :| 0 <= i < n && Draws(steps[..n][i].call, scope, ReceiptAt(s, scope, p).value.receiptId);
        assert steps[i] == steps[..n][i];
      } else {
        assert Draws(steps[n].call, scope, ReceiptAt(s', scope, p).value.receiptId);
      }
    }
  }

  lemma {:induction false} RunDraws(signer: Option<Signer>, steps: seq<Step>)
    ensures Valid(States(signer, steps)[|steps|]) && AllDrawn(steps, States(signer, steps)[|steps|])
    decreases |steps|
  {
    hide Valid, Perform, DrewReceipts, AllDrawn;
    if steps == [] {
      EmptyIsValid();
      NothingDrawn();
    } else {
      var before, step := States(signer, steps[..|steps| - 1]), steps[|steps| - 1];
      var seen := before[if step.seenAt < |before| then step.seenAt else |before| - 1];
      RunDraws(signer, steps[..|steps| - 1]);
      StepDraws(signer, step.call, seen, before[|before| - 1]);
      DrawnStep(steps, before[|before| - 1], Perform(signer, step.call, seen, before[|before| - 1]).1);
    }
  }

  lemma NothingDrawn()
    ensures AllDrawn([], EMPTY)
  {
  }

  /** The states of a run are those of its prefixes. */
  lemma {:induction false} StatesOfPrefix(signer: Option<Signer>, steps: seq<Step>, n: nat)
    requires n <= |steps|
    ensures States(signer, steps)[n] == States(signer, steps[..n])[n]
    decreases |steps|
  {
    hide Perform;
    if n == |steps| {
      assert steps[..n] == steps;
    } else {
      StatesOfPrefix(signer, steps[..|steps| - 1], n);
      assert steps[..|steps| - 1][..n] == steps[..n];
    }
  }

  /** It is enough that simulations draw different identifiers, as a UUID generator does. */
  lemma DistinctDrawsAreFresh(signer: Option<Signer>, steps: seq<Step>)
    requires DistinctDraws(steps)
    ensures FreshIds(signer, steps)
  {
    hide Valid, ReceiptAt, States;
    forall n | 0 <= n < |steps| ensures Fresh(States(signer, steps)[n], steps[n].call) {
      RunDraws(signer, steps[..n]);
      StatesOfPrefix(signer, steps, n);
      FreshDraw(steps, n, States(signer, steps)[n]);
    }
  }

  lemma FreshDraw(steps: seq<Step>, n: nat, s: Store)
    requires n < |steps| && DistinctDraws(steps) && AllDrawn(steps[..n], s)
    ensures Fresh(s, steps[n].call)
  {
    hide ReceiptAt;
    if steps[n].call.SimulatePlan? {
      var scope, id := steps[n].call.simulate.scope, steps[n].call.simulate.receiptId;
      forall p | ReceiptAt(s, scope, p).Some? ensures ReceiptAt(s, scope, p).value.receiptId != id {
        var i :| 0 <= i < n && Draws(steps[..n][i].call, scope, ReceiptAt(s, scope, p).value.receiptId);
        assert steps[i] == steps[..n][i] && Draws(steps[n].call, scope, id);
      }
    }
  }
}
