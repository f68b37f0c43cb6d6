/** Every lock set of grdi/ledger_ops.py is enough for its step: no step can meet an undeclared lock, run
  * on without end, or read what another transaction may change, so the protocol's transactions are
  * serializable and free of deadlock. */
module ProtocolLocks {
  import opened Signing
  import opened Models
  import opened ScopedStore
  import opened Locks
  import opened Sessions
  import opened SessionRules
  import opened Concurrency
  import opened Serializability
  import opened LedgerOps
  import opened Authority
  import opened Gateway
  import opened Outcomes
  import opened Replay
  import opened Comparison
  import opened ProtocolSteps

  // ---------------------------------------------------------------- one call at a time

  lemma PutLocked(wrote: bool, locks: LockContext, c: Collection, key: CKey, record: Record, next: Record -> Prog, n: nat)
    requires ChainLinked(c) && c in locks.chains && (c, key) in locks.canonicals
    requires forall r :: WellLocked(true, locks, next(r), n)
    ensures WellLocked(wrote, locks, Put(c, key, record, next), n + 1)
  {
    var p := Put(c, key, record, next);
    assert WriteLocked(locks, p.op);
    forall res ensures
      if res == Failure(UndeclaredLockRef) || res == Failure(StepLimit) then p.next(res).Raise?
      else if Covered(locks, {}, p.op, res) then WellLocked(true, locks, p.next(res), n)
      else p.next(res).Raise? && WellLocked(true, locks, p.next(res), n)
    {
      if res.Stored? { assert WellLocked(true, locks, next(res.row.payload.record), n); }
    }
  }

  lemma FetchLocked(wrote: bool, locks: LockContext, c: Collection, key: CKey, next: Record -> Prog, n: nat)
    requires ChainLinked(c)
    requires forall r :: WellLocked(wrote, locks, next(r), n)
    ensures WellLocked(wrote, locks, Fetch(c, key, next), n + 1)
  {
    var p := Fetch(c, key, next);
    assert WriteLocked(locks, p.op);
    forall res ensures
      if res == Failure(UndeclaredLockRef) || res == Failure(StepLimit) then p.next(res).Raise?
      else if Covered(locks, {}, p.op, res) then WellLocked(wrote, locks, p.next(res), n)
      else p.next(res).Raise? && WellLocked(wrote, locks, p.next(res), n)
    {
      if res.Found? { assert WellLocked(wrote, locks, next(res.row.payload.record), n); }
    }
  }

  lemma LookupLocked(wrote: bool, locks: LockContext, c: Collection, key: CKey, next: Option<Payload> -> Prog, n: nat)
    requires ChainLinked(c) && (c in locks.chains || (c, key) in locks.canonicals)
    requires forall p :: WellLocked(wrote, locks, next(p), n)
    ensures WellLocked(wrote, locks, Lookup(c, key, next), n + 1)
  {
    var p := Lookup(c, key, next);
    assert WriteLocked(locks, p.op);
    forall res ensures
      if res == Failure(UndeclaredLockRef) || res == Failure(StepLimit) then p.next(res).Raise?
      else if Covered(locks, {}, p.op, res) then WellLocked(wrote, locks, p.next(res), n)
      else p.next(res).Raise? && WellLocked(wrote, locks, p.next(res), n)
    {
      assert WellLocked(wrote, locks, next(None), n);
      if res.Found? { assert WellLocked(wrote, locks, next(Some(res.row.payload)), n); }
    }
  }

  lemma ListingLocked(wrote: bool, locks: LockContext, c: Collection, next: seq<Row> -> Prog, n: nat)
    requires ChainLinked(c) && c in locks.chains
    requires forall rows :: WellLocked(wrote, locks, next(rows), n)
    ensures WellLocked(wrote, locks, Listing1000(c, next), n + 1)
  {
  }

  lemma {:induction false} MoreCalls(wrote: bool, locks: LockContext, p: Prog, n: nat, m: nat)
    requires WellLocked(wrote, locks, p, n) && n <= m
    ensures WellLocked(wrote, locks, p, m)
    decreases n
  {
    hide Covered, WriteLocked;
    if p.Call? {
      forall res ensures
        if res == Failure(UndeclaredLockRef) || res == Failure(StepLimit) then p.next(res).Raise?
        else if Covered(locks, {}, p.op, res) then WellLocked(wrote || Writes(p.op), locks, p.next(res), m - 1)
        else p.next(res).Raise? && WellLocked(wrote || Writes(p.op), locks, p.next(res), m - 1)
      {
        if !(res == Failure(UndeclaredLockRef) || res == Failure(StepLimit)) {
          MoreCalls(wrote || Writes(p.op), locks, p.next(res), n - 1, m - 1);
        }
      }
    }
  }

  lemma Declared(refs: seq<LockRef>, scope: Scope, c: Collection)
    requires InScope(scope, refs)
    ensures ChainLock(scope, c) in refs ==> c in ContextOf(refs).chains
    ensures forall key :: CanonicalLock(scope, c, key) in refs ==> (c, key) in ContextOf(refs).canonicals
  {
  }

  // ---------------------------------------------------------------- register, authorize, plan

  lemma RegisterLocked(e: DecisionEnvelope)
    ensures InScope(EnvelopeScope(e), RegisterTxn(e).locks)
    ensures WellLocked(true, ContextOf(RegisterTxn(e).locks), RegisterCommit(e), 1)
  {
    var locks := ContextOf(RegisterTxn(e).locks);
    Declared(RegisterTxn(e).locks, EnvelopeScope(e), DecisionEnvelopes);
    assert RegisterTxn(e).locks[0] == ChainLock(EnvelopeScope(e), DecisionEnvelopes);
    assert RegisterTxn(e).locks[1] == CanonicalLock(EnvelopeScope(e), DecisionEnvelopes, Name(e.envelopeId));
    PutLocked(true, locks, DecisionEnvelopes, Name(e.envelopeId), EnvelopeRecord(e), (_: Record) => Return(EnvelopeRecord(e)), 0);
  }

  lemma AuthorizeLocked(args: AuthorizeArgs, a: AuthorityDecision)
    ensures InScope(args.scope, AuthorizeTxn(args, a).locks)
    ensures WellLocked(true, ContextOf(AuthorizeTxn(args, a).locks), AuthorizeCommit(args.envelopeId, a), 2)
  {
    var refs := AuthorizeTxn(args, a).locks;
    Declared(refs, args.scope, AuthorityDecisions);
    assert refs[2] == ChainLock(args.scope, AuthorityDecisions);
    assert refs[3] == CanonicalLock(args.scope, AuthorityDecisions, Name(a.authorityDecisionId));
    PutLocked(true, ContextOf(refs), AuthorityDecisions, Name(a.authorityDecisionId), AuthorityRecord(a),
              (_: Record) => Return(AuthorityRecord(a)), 0);
    FetchLocked(true, ContextOf(refs), DecisionEnvelopes, Name(args.envelopeId), (_: Record) => PutAuthority(a), 1);
  }

  lemma PlanRefs(scope: Scope, q: ExecutionRequest)
    ensures
      var refs := PlanLocks(scope, q.envelopeId, q.authorityDecisionId, q.planId);
      && InScope(scope, refs)
      && {ExecutionRequests, GatewayDecisions, GatewayDecisionEvents} <= ContextOf(refs).chains
      && {(ExecutionRequests, Name(q.planId)), (GatewayDecisions, Name(q.planId)),
          (GatewayDecisionEvents, EventKey(q.planId, GatewayDecisionCreated))} <= ContextOf(refs).canonicals
  {
    var refs := PlanLocks(scope, q.envelopeId, q.authorityDecisionId, q.planId);
    assert refs[4] == ChainLock(scope, ExecutionRequests) && refs[6] == ChainLock(scope, GatewayDecisions);
    assert refs[8] == ChainLock(scope, GatewayDecisionEvents);
    assert refs[5] == CanonicalLock(scope, ExecutionRequests, Name(q.planId));
    assert refs[7] == CanonicalLock(scope, GatewayDecisions, Name(q.planId));
    assert refs[9] == CanonicalLock(scope, GatewayDecisionEvents, EventKey(q.planId, GatewayDecisionCreated));
    Declared(refs, scope, ExecutionRequests);
    Declared(refs, scope, GatewayDecisions);
    Declared(refs, scope, GatewayDecisionEvents);
  }

  lemma PlanLocked(scope: Scope, q: ExecutionRequest, g: GatewayDecision)
    ensures InScope(scope, PlanTxn(scope, q, g).locks)
    ensures WellLocked(true, ContextOf(PlanTxn(scope, q, g).locks), PlanCommit(scope, q, g), 5)
  {
    hide ContextOf, PlanLocks, WellLocked;
    var locks := ContextOf(PlanTxn(scope, q, g).locks);
    PlanRefs(scope, q);
    assert WellLocked(true, locks, Return(GatewayRecord(g)), 0) by { ReturnLocked(locks, GatewayRecord(g)); }
    PutLocked(true, locks, GatewayDecisionEvents, EventKey(q.planId, GatewayDecisionCreated), EventRecord(CreatedEvent(scope, q, g)),
              (_: Record) => Return(GatewayRecord(g)), 0);
    PutLocked(true, locks, GatewayDecisions, Name(q.planId), GatewayRecord(g), (_: Record) => PutCreated(scope, q, g), 1);
    PutLocked(true, locks, ExecutionRequests, Name(q.planId), RequestRecord(q), (_: Record) => PutGateway(scope, q, g), 2);
    FetchLocked(true, locks, AuthorityDecisions, Name(q.authorityDecisionId), (_: Record) => PutRequest(scope, q, g), 3);
    FetchLocked(true, locks, DecisionEnvelopes, Name(q.envelopeId), (_: Record) => PlanAfterEnvelope(scope, q, g), 4);
  }

  lemma ReturnLocked(locks: LockContext, record: Record)
    ensures WellLocked(true, locks, Return(record), 0)
  {
  }

  // ---------------------------------------------------------------- simulate and outcome

  lemma SimulateRefs(scope: Scope, planId: Id, authorityId: Id)
    ensures
      var refs := SimulationLocks(scope, planId, authorityId);
      && InScope(scope, refs)
      && {ShadowExecutionReceipts, GatewayDecisionEvents} <= ContextOf(refs).chains
      && {(ShadowExecutionReceipts, Name(planId)), (GatewayDecisionEvents, EventKey(planId, SimulationRecorded))}
         <= ContextOf(refs).canonicals
  {
    var refs := SimulationLocks(scope, planId, authorityId);
    assert refs[3] == ChainLock(scope, ShadowExecutionReceipts) && refs[5] == ChainLock(scope, GatewayDecisionEvents);
    assert refs[4] == CanonicalLock(scope, ShadowExecutionReceipts, Name(planId));
    assert refs[6] == CanonicalLock(scope, GatewayDecisionEvents, EventKey(planId, SimulationRecorded));
    Declared(refs, scope, ShadowExecutionReceipts);
    Declared(refs, scope, GatewayDecisionEvents);
  }

  lemma CheckReceiptLocked(locks: LockContext, signer: Option<Signer>, args: SimulateArgs, q: ExecutionRequest,
                           g: GatewayDecision, r: Record)
    requires GatewayDecisionEvents in locks.chains
    requires (GatewayDecisionEvents, EventKey(args.planId, SimulationRecorded)) in locks.canonicals
    ensures WellLocked(true, locks, CheckReceipt(signer, args, q, g, r), 1)
  {
    if r.ReceiptRecord? {
      PutLocked(true, locks, GatewayDecisionEvents, EventKey(args.planId, SimulationRecorded),
                EventRecord(SimulationEvent(args.scope, args.planId, g, r.receipt)),
                (_: Record) => Return(ReceiptRecord(r.receipt)), 0);
    }
  }

  lemma PutReceiptLocked(locks: LockContext, signer: Option<Signer>, args: SimulateArgs, q: ExecutionRequest,
                         g: GatewayDecision, a: AuthorityDecision, e: DecisionEnvelope)
    requires {ShadowExecutionReceipts, GatewayDecisionEvents} <= locks.chains
    requires {(ShadowExecutionReceipts, Name(args.planId)), (GatewayDecisionEvents, EventKey(args.planId, SimulationRecorded))}
             <= locks.canonicals
    ensures WellLocked(true, locks, PutReceipt(signer, args, q, g, a, e), 2)
  {
    hide Simulate, CheckReceipt;
    var receipt := Simulate(signer, e, a, q, Judge(e, a, q, args.scope, "", args.now), args.receiptId, args.now);
    if receipt.Some? {
      forall r ensures WellLocked(true, locks, CheckReceipt(signer, args, q, g, r), 1) {
        CheckReceiptLocked(locks, signer, args, q, g, r);
      }
      PutLocked(true, locks, ShadowExecutionReceipts, Name(args.planId), ReceiptRecord(receipt.value),
                (r: Record) => CheckReceipt(signer, args, q, g, r), 1);
    }
  }

  lemma SimulateFreshLocked(locks: LockContext, signer: Option<Signer>, args: SimulateArgs, q: ExecutionRequest, g: GatewayDecision)
    requires {ShadowExecutionReceipts, GatewayDecisionEvents} <= locks.chains
    requires {(ShadowExecutionReceipts, Name(args.planId)), (GatewayDecisionEvents, EventKey(args.planId, SimulationRecorded))}
             <= locks.canonicals
    ensures WellLocked(true, locks, SimulateFresh(signer, args, q, g), 4)
  {
    hide PutReceipt;
    forall a ensures WellLocked(true, locks, SimulateAfterAuthority(signer, args, q, g, a), 3) {
      forall e ensures WellLocked(true, locks, PutReceipt(signer, args, q, g, a, e), 2) {
        PutReceiptLocked(locks, signer, args, q, g, a, e);
      }
      FetchLocked(true, locks, DecisionEnvelopes, Name(q.envelopeId), (r: Record) =>
        if r.EnvelopeRecord? then PutReceipt(signer, args, q, g, a, r.envelope) else Raise(KeyError), 2);
    }
    FetchLocked(true, locks, AuthorityDecisions, Name(q.authorityDecisionId), (r: Record) =>
      if r.AuthorityRecord? then SimulateAfterAuthority(signer, args, q, g, r.authority) else Raise(KeyError), 3);
  }

  lemma SimulateGatewayLocked(locks: LockContext, signer: Option<Signer>, args: SimulateArgs, q: ExecutionRequest, g: GatewayDecision)
    requires {ShadowExecutionReceipts, GatewayDecisionEvents} <= locks.chains
    requires {(ShadowExecutionReceipts, Name(args.planId)), (GatewayDecisionEvents, EventKey(args.planId, SimulationRecorded))}
             <= locks.canonicals
    ensures WellLocked(true, locks, SimulateAfterGateway(signer, args, q, g), 5)
  {
    hide SimulateFresh, CheckReceipt;
    SimulateFreshLocked(locks, signer, args, q, g);
    forall r ensures WellLocked(true, locks, CheckReceipt(signer, args, q, g, r), 4) {
      CheckReceiptLocked(locks, signer, args, q, g, r);
      MoreCalls(true, locks, CheckReceipt(signer, args, q, g, r), 1, 4);
    }
    LookupLocked(true, locks, ShadowExecutionReceipts, Name(args.planId), (p: Option<Payload>) =>
      match p
      case Some(payload) => CheckReceipt(signer, args, q, g, payload.record)
      case None => SimulateFresh(signer, args, q, g), 4);
  }

  lemma SimulateLocked(signer: Option<Signer>, args: SimulateArgs, q: ExecutionRequest)
    ensures InScope(args.scope, SimulateTxn(signer, args, q).locks)
    ensures WellLocked(true, ContextOf(SimulateTxn(signer, args, q).locks), SimulateCommit(signer, args), 7)
  {
    hide ContextOf, SimulationLocks, SimulateAfterGateway, WellLocked;
    var locks := ContextOf(SimulateTxn(signer, args, q).locks);
    SimulateRefs(args.scope, args.planId, q.authorityDecisionId);
    RaiseLocked(locks);
    forall q' ensures WellLocked(true, locks, SimulateAfterRequest(signer, args, q'), 6) {
      forall g ensures WellLocked(true, locks, SimulateAfterGateway(signer, args, q', g), 5) {
        SimulateGatewayLocked(locks, signer, args, q', g);
      }
      FetchLocked(true, locks, GatewayDecisions, Name(args.planId), (r: Record) =>
        if r.GatewayRecord? then SimulateAfterGateway(signer, args, q', r.gateway) else Raise(KeyError), 5);
    }
    FetchLocked(true, locks, ExecutionRequests, Name(args.planId), (r: Record) =>
      if r.RequestRecord? then SimulateAfterRequest(signer, args, r.request) else Raise(KeyError), 6);
  }

  lemma RaiseLocked(locks: LockContext)
    ensures forall wrote: bool, n: nat ::
      WellLocked(wrote, locks, Raise(KeyError), n) && WellLocked(wrote, locks, Raise(ValueError), n)
  {
  }

  lemma OutcomeLocked(signer: Option<Signer>, args: OutcomeArgs, q: ExecutionRequest, r: ShadowReceipt)
    ensures InScope(args.scope, OutcomeTxn(signer, args, q, r).locks)
    ensures WellLocked(true, ContextOf(OutcomeTxn(signer, args, q, r).locks), OutcomeCommit(signer, args, q, r), 2)
  {
    hide OutcomeOk, AssessmentsOk, NewOutcome;
    var refs := OutcomeTxn(signer, args, q, r).locks;
    var locks := ContextOf(refs);
    Declared(refs, args.scope, ShadowOutcomes);
    assert refs[3] == ChainLock(args.scope, ShadowOutcomes);
    assert refs[4] == CanonicalLock(args.scope, ShadowOutcomes, Name(r.receiptId));
    assert WellLocked(true, locks, PutOutcome(signer, args, q, r), 1) by {
      if signer.Some? {
        PutLocked(true, locks, ShadowOutcomes, Name(r.receiptId), OutcomeRecord(NewOutcome(signer.value, args, q, r)),
                  (stored: Record) => CheckOutcome(signer, q, r, stored), 0);
      }
    }
    LookupLocked(true, locks, ShadowOutcomes, Name(r.receiptId), (p: Option<Payload>) =>
      match p
      case Some(payload) => CheckOutcome(signer, q, r, payload.record)
      case None => PutOutcome(signer, args, q, r), 1);
  }

  // ---------------------------------------------------------------- replay

  ghost predicate ReplayChains(locks: LockContext) {
    GRDI_CHAINS + {ReplayReports} <= locks.chains
  }

  lemma EmitLocked(locks: LockContext, signer: Option<Signer>, args: ReplayArgs, src: Sources,
                   heads: map<Collection, Option<ChainHash>>, checks: seq<CheckStatus>, state: ReplayState,
                   drift: seq<DriftReason>, finish: ReplayReport -> Prog, n: nat)
    requires WellTyped(src) && forall p :: WellLocked(false, locks, finish(p), n)
    ensures WellLocked(false, locks, Emit(signer, args, src, heads, checks, state, drift, finish), n)
  {
    hide ReportBody;
  }

  lemma VerifyLocked(locks: LockContext, signer: Option<Signer>, args: ReplayArgs, src: Sources,
                     heads: map<Collection, Option<ChainHash>>, valid: bool, finish: ReplayReport -> Prog, n: nat)
    requires ReplayChains(locks) && WellTyped(src) && forall p :: WellLocked(false, locks, finish(p), n)
    ensures WellLocked(false, locks, AfterVerify(signer, args, src, heads, valid, finish), n + 1)
  {
    hide Emit, Validation, AnyInvalid, AnyIncomplete, WellLocked, StateFrom, PriorReports, WellTyped;
    var checks := Validation(signer, src, args.scope, valid);
    forall state, drift ensures WellLocked(false, locks, Emit(signer, args, src, heads, checks, state, drift, finish), n) {
      EmitLocked(locks, signer, args, src, heads, checks, state, drift, finish, n);
    }
    MoreCalls(false, locks, Emit(signer, args, src, heads, checks, INVALID, [], finish), n, n + 1);
    MoreCalls(false, locks, Emit(signer, args, src, heads, checks, INCOMPLETE, [], finish), n, n + 1);
    var next := (rows: seq<Row>) =>
      var (state, drift) := StateFrom(signer, SnapshotOf(src, args.scope), PriorReports(rows, args.planId));
      Emit(signer, args, src, heads, checks, state, drift, finish);
    forall rows ensures WellLocked(false, locks, next(rows), n) {
      var (state, drift) := StateFrom(signer, SnapshotOf(src, args.scope), PriorReports(rows, args.planId));
      assert WellLocked(false, locks, Emit(signer, args, src, heads, checks, state, drift, finish), n);
    }
    ListingLocked(false, locks, ReplayReports, next, n);
  }

  lemma SourcesLocked(locks: LockContext, signer: Option<Signer>, args: ReplayArgs, src: Sources, finish: ReplayReport -> Prog, n: nat)
    requires ReplayChains(locks) && WellTyped(src) && forall p :: WellLocked(false, locks, finish(p), n)
    ensures WellLocked(false, locks, AfterSources(signer, args, src, finish), n + 2)
  {
    hide AfterVerify, WellTyped;
    forall heads, valid ensures WellLocked(false, locks, AfterVerify(signer, args, src, heads, valid, finish), n + 1) {
      VerifyLocked(locks, signer, args, src, heads, valid, finish, n);
    }
    assert forall c :: c in GRDI_CHAINS ==> ChainLinked(c) && c in locks.chains;
  }

  /** Whatever continues with the sources in n calls can be reached in at most six more. */
  lemma LoadLocked(locks: LockContext, planId: Id, next: Sources -> Prog, n: nat)
    requires ReplayChains(locks) && forall src :: WellLocked(false, locks, next(src), n)
    ensures WellLocked(false, locks, LoadSources(planId, next), n + 6)
  {
    hide WellLocked, Lookup, Listing1000, FirstOutcome;
    RaiseLocked(locks);
    forall src ensures WellLocked(false, locks, AfterReceipt(planId, src, next), n + 1) {
      var next' := (rows: seq<Row>) => next(src.(outcome := FirstOutcome(rows, planId)));
      forall rows ensures WellLocked(false, locks, next'(rows), n) {
        assert WellLocked(false, locks, next(src.(outcome := FirstOutcome(rows, planId))), n);
      }
      ListingLocked(false, locks, ShadowOutcomes, next', n);
      if src.receipt.Some? && src.receipt.value.record.ReceiptRecord? {
        LookupLocked(false, locks, ShadowOutcomes, Name(src.receipt.value.record.receipt.receiptId), p => next(src.(outcome := p)), n);
      }
    }
    forall src ensures WellLocked(false, locks, AfterAuthority(planId, src, next), n + 2) {
      LookupLocked(false, locks, ShadowExecutionReceipts, Name(planId), p => AfterReceipt(planId, src.(receipt := p), next), n + 1);
    }
    forall q, src ensures WellLocked(false, locks, AfterEnvelope(planId, q, src, next), n + 3) {
      LookupLocked(false, locks, AuthorityDecisions, Name(q.authorityDecisionId), p => AfterAuthority(planId, src.(authority := p), next), n + 2);
    }
    forall q, src ensures WellLocked(false, locks, AfterGateway(planId, q, src, next), n + 4) {
      LookupLocked(false, locks, DecisionEnvelopes, Name(q.envelopeId), p => AfterEnvelope(planId, q, src.(envelope := p), next), n + 3);
    }
    forall src ensures WellLocked(false, locks, AfterRequest(planId, src, next), n + 5) {
      MoreCalls(false, locks, next(src), n, n + 5);
      if src.request.Some? && src.request.value.record.RequestRecord? {
        var q := src.request.value.record.request;
        LookupLocked(false, locks, GatewayDecisions, Name(planId), p => AfterGateway(planId, q, src.(gateway := p), next), n + 4);
      }
    }
    LookupLocked(false, locks, ExecutionRequests, Name(planId), p => AfterRequest(planId, NO_SOURCES.(request := p), next), n + 5);
  }

  lemma BuildLocked(locks: LockContext, signer: Option<Signer>, args: ReplayArgs, finish: ReplayReport -> Prog, n: nat)
    requires ReplayChains(locks) && forall p :: WellLocked(false, locks, finish(p), n)
    ensures WellLocked(false, locks, BuildReport(signer, args, finish), n + 8)
  {
    hide WellLocked, LoadSources, AfterSources, WellTyped;
    RaiseLocked(locks);
    forall src | WellTyped(src) ensures WellLocked(false, locks, AfterSources(signer, args, src, finish), n + 2) {
      SourcesLocked(locks, signer, args, src, finish, n);
    }
    LoadLocked(locks, args.planId, src => if WellTyped(src) then AfterSources(signer, args, src, finish) else Raise(KeyError), n + 2);
  }

  lemma SnapshotRefs(scope: Scope, planId: Id)
    ensures InScope(scope, ReplaySnapshotLocks(scope, planId))
    ensures ReplayChains(ContextOf(ReplaySnapshotLocks(scope, planId)))
  {
    var refs := ReplaySnapshotLocks(scope, planId);
    forall c | c in GRDI_CHAINS + {ReplayReports} ensures c in ContextOf(refs).chains {
      assert refs[0].coll == DecisionEnvelopes && refs[1].coll == AuthorityDecisions && refs[2].coll == ExecutionRequests;
      assert refs[3].coll == GatewayDecisions && refs[5].coll == ShadowExecutionReceipts && refs[6].coll == ShadowOutcomes;
      assert refs[7].coll == ReplayReports;
      assert ChainLock(scope, c) in refs;
      Declared(refs, scope, c);
    }
  }

  lemma ReplayRefs(scope: Scope, planId: Id, hash: ManifestHash)
    ensures InScope(scope, ReplayLocks(scope, planId, hash))
    ensures ReplayChains(ContextOf(ReplayLocks(scope, planId, hash)))
    ensures (ReplayReports, ManifestKey(hash)) in ContextOf(ReplayLocks(scope, planId, hash)).canonicals
  {
    hide ReplaySnapshotLocks;
    var refs, snapshot := ReplayLocks(scope, planId, hash), ReplaySnapshotLocks(scope, planId);
    SnapshotRefs(scope, planId);
    forall c | c in ContextOf(snapshot).chains ensures c in ContextOf(refs).chains {
      var r :| r in snapshot && r.key.None? && r.coll == c;
      assert r in refs;
    }
    assert refs[|snapshot| + 2] == CanonicalLock(scope, ReplayReports, ManifestKey(hash));
    Declared(refs, scope, ReplayReports);
  }

  lemma SnapshotLocked(signer: Option<Signer>, args: ReplayArgs)
    ensures InScope(args.scope, SnapshotTxn(signer, args).locks)
    ensures WellLocked(false, ContextOf(SnapshotTxn(signer, args).locks), SnapshotBody(signer, args), 8)
  {
    hide ContextOf, ReplaySnapshotLocks, BuildReport;
    SnapshotRefs(args.scope, args.planId);
    BuildLocked(ContextOf(SnapshotTxn(signer, args).locks), signer, args, report => Return(ReplayRecord(report)), 0);
  }

  lemma ReplayLocked(signer: Option<Signer>, args: ReplayArgs, hash: ManifestHash)
    ensures InScope(args.scope, ReplayTxn(signer, args, hash).locks)
    ensures WellLocked(false, ContextOf(ReplayTxn(signer, args, hash).locks), ReplayCommit(signer, args, hash), 10)
  {
    hide ContextOf, ReplayLocks, BuildReport, ReportOk, WellLocked;
    var locks := ContextOf(ReplayTxn(signer, args, hash).locks);
    ReplayRefs(args.scope, args.planId, hash);
    RaiseLocked(locks);
    forall record, n: nat ensures WellLocked(true, locks, CheckedReport(signer, record), n) { CheckedLocked(locks, signer, record, n); }
    forall rebuilt ensures WellLocked(true, locks, AfterRebuild(signer, hash, rebuilt), 2) {
      forall existing ensures WellLocked(true, locks, AfterExisting(signer, hash, rebuilt, existing), 1) {
        PutLocked(true, locks, ReplayReports, ManifestKey(hash), ReplayRecord(rebuilt), stored => CheckedReport(signer, stored), 0);
      }
      LookupLocked(true, locks, ReplayReports, ManifestKey(hash), existing => AfterExisting(signer, hash, rebuilt, existing), 1);
    }
    forall rebuilt ensures WellLocked(false, locks, AfterRebuild(signer, hash, rebuilt), 2) {
      BeforeAnyWrite(locks, AfterRebuild(signer, hash, rebuilt), 2);
    }
    BuildLocked(locks, signer, args, rebuilt => AfterRebuild(signer, hash, rebuilt), 2);
  }

  lemma CheckedLocked(locks: LockContext, signer: Option<Signer>, record: Record, n: nat)
    ensures WellLocked(true, locks, CheckedReport(signer, record), n)
    ensures WellLocked(true, locks, CheckedComparison(signer, record), n)
  {
    hide ReportOk, ComparisonOk;
  }

  // ---------------------------------------------------------------- comparison

  lemma CompareRefs(scope: Scope, baseline: ManifestHash, candidate: ManifestHash, pair: ComparisonHash)
    ensures
      var refs := ComparisonLocks(scope, baseline, candidate, pair);
      && InScope(scope, refs) && {ReplayReports, HistoricalComparisons} <= ContextOf(refs).chains
      && (HistoricalComparisons, PairKey(pair)) in ContextOf(refs).canonicals
    ensures
      var refs := ComparisonSnapshotLocks(scope);
      InScope(scope, refs) && {ReplayReports, HistoricalComparisons} <= ContextOf(refs).chains
  {
    var refs, snapshot := ComparisonLocks(scope, baseline, candidate, pair), ComparisonSnapshotLocks(scope);
    assert refs[0] == snapshot[0] == ChainLock(scope, ReplayReports);
    assert refs[1] == snapshot[1] == ChainLock(scope, HistoricalComparisons);
    assert refs[5] == CanonicalLock(scope, HistoricalComparisons, PairKey(pair));
    Declared(refs, scope, ReplayReports);
    Declared(refs, scope, HistoricalComparisons);
    Declared(snapshot, scope, ReplayReports);
    Declared(snapshot, scope, HistoricalComparisons);
  }

  lemma WithReportLocked(locks: LockContext, replayId: Id, next: ReplayReport -> Prog, n: nat)
    requires ReplayReports in locks.chains
    requires forall p: ReplayReport :: p.fields.replayId == replayId ==> WellLocked(true, locks, next(p), n)
    ensures WellLocked(true, locks, WithReport(replayId, next), n + 1)
  {
    hide WellLocked, FindReport;
    RaiseLocked(locks);
    var next' := (rows: seq<Row>) =>
      match FindReport(rows, replayId)
      case Some(report) => next(report)
      case None => Raise(KeyError);
    forall rows ensures WellLocked(true, locks, next'(rows), n) {
      assert FindReport(rows, replayId).Some? ==> WellLocked(true, locks, next(FindReport(rows, replayId).value), n);
    }
    ListingLocked(true, locks, ReplayReports, next', n);
  }

  /** The comparison's key is the one its locks name, because both reports were found by their ids. */
  lemma AfterPairLocked(locks: LockContext, signer: Option<Signer>, args: CompareArgs, baseline: ManifestHash,
                        candidate: ManifestHash, b: ReplayReport, c: ReplayReport)
    requires HistoricalComparisons in locks.chains
    requires (HistoricalComparisons, PairKey(ComparisonHash(args.baselineId, args.candidateId))) in locks.canonicals
    requires b.fields.replayId == args.baselineId && c.fields.replayId == args.candidateId
    ensures WellLocked(true, locks, AfterPair(signer, args, baseline, candidate, b, c), 2)
  {
    hide ReportOk, Compare, CheckedComparison;
    RaiseLocked(locks);
    forall record, n: nat ensures WellLocked(true, locks, CheckedComparison(signer, record), n) { CheckedLocked(locks, signer, record, n); }
    hide WellLocked;
    var key := ComparisonHash(args.baselineId, args.candidateId);
    forall body: ComparisonBody, existing | body.comparisonKey == key
      ensures WellLocked(true, locks, AfterStoredComparison(signer, body, existing), 1)
    {
      if signer.Some? {
        PutLocked(true, locks, HistoricalComparisons, PairKey(key), ComparisonRecord(SignedComparison(signer.value, body)),
                  stored => CheckedComparison(signer, stored), 0);
      }
    }
    forall body: ComparisonBody | body.comparisonKey == key
      ensures WellLocked(true, locks, Lookup(HistoricalComparisons, PairKey(key), existing => AfterStoredComparison(signer, body, existing)), 2)
    {
      LookupLocked(true, locks, HistoricalComparisons, PairKey(key), existing => AfterStoredComparison(signer, body, existing), 1);
    }
    MoreCalls(true, locks, Raise(ValueError), 0, 2);
  }

  lemma LoadPairLocked(args: CompareArgs)
    ensures InScope(args.scope, LoadPairTxn(args).locks)
    ensures WellLocked(true, ContextOf(LoadPairTxn(args).locks), LoadPair(args), 2)
  {
    hide ContextOf, WellLocked, WithReport, ComparisonSnapshotLocks;
    var locks := ContextOf(LoadPairTxn(args).locks);
    var any := ManifestHash(SnapshotOf(NO_SOURCES, args.scope));
    CompareRefs(args.scope, any, any, ComparisonHash("", ""));
    forall b, c ensures WellLocked(true, locks, Return(ReportPair(b, c)), 0) { ReturnLocked(locks, ReportPair(b, c)); }
    forall b ensures WellLocked(true, locks, LoadCandidate(args, b), 1) {
      WithReportLocked(locks, args.candidateId, c => Return(ReportPair(b, c)), 0);
    }
    WithReportLocked(locks, args.baselineId, b => LoadCandidate(args, b), 1);
  }

  lemma CompareLocked(signer: Option<Signer>, args: CompareArgs, baseline: ManifestHash, candidate: ManifestHash)
    ensures InScope(args.scope, CompareTxn(signer, args, baseline, candidate).locks)
    ensures WellLocked(true, ContextOf(CompareTxn(signer, args, baseline, candidate).locks), CompareCommit(signer, args, baseline, candidate), 4)
  {
    hide ContextOf, WellLocked, WithReport, AfterPair, ComparisonLocks;
    var locks := ContextOf(CompareTxn(signer, args, baseline, candidate).locks);
    CompareRefs(args.scope, baseline, candidate, ComparisonHash(args.baselineId, args.candidateId));
    forall b: ReplayReport | b.fields.replayId == args.baselineId
      ensures WellLocked(true, locks, WithReport(args.candidateId, c => AfterPair(signer, args, baseline, candidate, b, c)), 3)
    {
      forall c: ReplayReport | c.fields.replayId == args.candidateId
        ensures WellLocked(true, locks, AfterPair(signer, args, baseline, candidate, b, c), 2)
      {
        AfterPairLocked(locks, signer, args, baseline, candidate, b, c);
      }
      WithReportLocked(locks, args.candidateId, c => AfterPair(signer, args, baseline, candidate, b, c), 2);
    }
    WithReportLocked(locks, args.baselineId, b => WithReport(args.candidateId, c => AfterPair(signer, args, baseline, candidate, b, c)), 3);
  }

  // ---------------------------------------------------------------- every step

  ghost predicate StepLocked(t: Txn) {
    InScope(t.scope, t.locks) && WellLocked(false, ContextOf(t.locks), t.body, t.bound)
  }

  lemma EveryStepLocked(signer: Option<Signer>, call: Call, seen: Store)
    requires Prepare(signer, call, seen).Ready?
    ensures StepLocked(Prepare(signer, call, seen).txn)
  {
    hide WellLocked, RunTransaction, Decide, Judge, ReceiptOk, ProjectsSimulated, FindReport, ContextOf;
    var t := Prepare(signer, call, seen).txn;
    match call {
      case Register(e) => RegisterLocked(e);
      case Authorize(args) =>
        var e := EnvelopeAt(seen, args.scope, args.envelopeId).value;
        AuthorizeLocked(args, Decide(signer, e, args.subject, args.role, args.approvals, args.authorityId, args.now));
      case CreatePlan(args) =>
        var e, a := EnvelopeAt(seen, args.scope, args.envelopeId).value, AuthorityAt(seen, args.scope, args.authorityId).value;
        PlanLocked(args.scope, RequestOf(args), Judge(e, a, RequestOf(args), args.scope, args.gatewayId, args.decidedAt));
      case SimulatePlan(args) => SimulateLocked(signer, args, RequestAt(seen, args.scope, args.planId).value);
      case RecordOutcome(args) =>
        var q := RequestAt(seen, args.scope, args.planId).value;
        OutcomeLocked(signer, args, q, ReceiptAt(seen, args.scope, q.planId).value);
      case ReplayPlan(args) =>
        ReplayLocked(signer, args, RunTransaction(SnapshotTxn(signer, args), seen).0.value.report.fields.manifestHash);
      case CompareReplays(args) =>
        var pair := RunTransaction(LoadPairTxn(args), seen).0.value;
        CompareLocked(signer, args, pair.baseline.fields.manifestHash, pair.candidate.fields.manifestHash);
    }
    if !call.ReplayPlan? { BeforeAnyWrite(ContextOf(t.locks), t.body, t.bound); }
  }

  /** No call of the service can hit an undeclared lock or be cut off, whatever it saw and wherever its
    * transaction runs. */
  lemma NoUndeclaredLocks(signer: Option<Signer>, call: Call, seen: Store, s: Store)
    ensures Perform(signer, call, seen, s).0 != Aborted(UndeclaredLockRef)
    ensures Perform(signer, call, seen, s).0 != Aborted(StepLimit)
  {
    hide Prepare, WellLocked, RunTransaction;
    match Prepare(signer, call, seen)
    case Refused(_) => PreparationLocked(signer, call, seen);
    case Ready(t) =>
      EveryStepLocked(signer, call, seen);
      LockedTxnRuns(false, t, s);
  }

  /** Nor can the transactions that a replay or a comparison runs before its own. */
  lemma PreparationLocked(signer: Option<Signer>, call: Call, seen: Store)
    ensures Prepare(signer, call, seen) != Refused(UndeclaredLockRef) && Prepare(signer, call, seen) != Refused(StepLimit)
  {
    hide WellLocked, RunTransaction, Decide, Judge, ReceiptOk, ProjectsSimulated, ContextOf, Listing, Page;
    match call {
      case ReplayPlan(args) =>
        SnapshotLocked(signer, args);
        LockedTxnRuns(false, SnapshotTxn(signer, args), seen);
      case CompareReplays(args) =>
        LoadPairLocked(args);
        LockedTxnRuns(true, LoadPairTxn(args), seen);
      case _ =>
    }
  }

  lemma LockedTxnRuns(wrote: bool, t: Txn, s: Store)
    requires WellLocked(wrote, ContextOf(t.locks), t.body, t.bound)
    ensures RunTransaction(t, s).0 != Aborted(UndeclaredLockRef) && RunTransaction(t, s).0 != Aborted(StepLimit)
  {
    hide WellLocked, Steps, ContextOf;
    WellLockedRuns(wrote, t.body, SessionOf(t), s, t.bound);
  }

  /** A write outside a transaction: one append under its implicit locks. */
  function WriteTxn(scope: Scope, c: Collection, key: CKey, record: Record): Txn {
    Txn(scope, ImplicitLocks(scope, c, key), Put(c, key, record, stored => Return(stored)), 1)
  }

  /** The implicit locks of a standalone write to a chain-linked collection are enough for it. */
  lemma StandaloneWriteLocked(scope: Scope, c: Collection, key: CKey, record: Record)
    requires ChainLinked(c)
    ensures StepLocked(WriteTxn(scope, c, key, record))
  {
    var refs := ImplicitLocks(scope, c, key);
    assert refs[0] == ChainLock(scope, c) && refs[1] == CanonicalLock(scope, c, key);
    Declared(refs, scope, c);
    PutLocked(true, ContextOf(refs), c, key, record, stored => Return(stored), 0);
    BeforeAnyWrite(ContextOf(refs), WriteTxn(scope, c, key, record).body, 1);
  }

  /** Any mix of protocol steps and standalone writes to chain-linked collections is serializable. */
  lemma LockedStepsAreSerializable(before: Before, txns: seq<Txn>, s0: Store, schedule: seq<Choice>)
    requires StrictTotal(before) && Valid(s0) && forall i :: 0 <= i < |txns| ==> StepLocked(txns[i])
    ensures
      var sys := Execute(before, txns, s0, schedule);
      Valid(sys.committed) && OrderOk(txns, s0, sys)
  {
    hide WellLocked, Execute, OrderOk, Disciplined, ContextOf, Valid, Serial;
    var inserts: seq<Inserts> := seq(|txns|, _ => {});
    forall i | 0 <= i < |txns| ensures Disciplined(ContextOf(txns[i].locks), inserts[i], txns[i].body, txns[i].bound) {
      WellLockedIsDisciplined(false, ContextOf(txns[i].locks), txns[i].body, txns[i].bound);
    }
    Serializable(before, txns, inserts, s0, schedule);
  }

  /** Calls of the service running concurrently, each having read some earlier store, are serializable. */
  lemma ProtocolIsSerializable(before: Before, signer: Option<Signer>, calls: seq<Call>, seen: seq<Store>, txns: seq<Txn>,
                               s0: Store, schedule: seq<Choice>)
    requires StrictTotal(before) && Valid(s0) && |calls| == |seen| == |txns|
    requires forall i :: 0 <= i < |calls| ==> Prepare(signer, calls[i], seen[i]) == Ready(txns[i])
    ensures
      var sys := Execute(before, txns, s0, schedule);
      Valid(sys.committed) && OrderOk(txns, s0, sys)
  {
    hide Prepare, StepLocked, Execute;
    forall i | 0 <= i < |txns| ensures StepLocked(txns[i]) {
      EveryStepLocked(signer, calls[i], seen[i]);
    }
    LockedStepsAreSerializable(before, txns, s0, schedule);
  }
}
