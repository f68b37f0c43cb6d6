/** What holds of every governed store, and so in every state of every run: end-to-end safety, permanence
  * of eligibility, and steps that give the same answer when repeated. */
module ProtocolSafety {
  import opened Signing
  import opened Models
  import opened ScopedStore
  import opened ScopedInvariant
  import opened Locks
  import opened Sessions
  import opened SessionRules
  import opened LedgerOps
  import opened Authority
  import opened Gateway
  import opened Outcomes
  import opened ProtocolSteps
  import opened ProtocolLocks
  import opened ProtocolRecords
  import opened ProtocolInvariant
  import opened ReplayInvariant
  import opened ProtocolRuns
  import opened Unrolling

  // ---------------------------------------------------------------- end to end

  /** What a stored receipt guarantees about the request, the authority decision and the envelope behind it. */
  predicate Justified(signer: Option<Signer>, scope: Scope, e: DecisionEnvelope, a: AuthorityDecision, q: ExecutionRequest,
                      r: ShadowReceipt)
  {
    && EnvelopeScope(e) == scope && Scope(q.tenant, q.project) == scope
    && a.authorization.AUTHORIZED? && a.verification.VERIFIED?
    && a.authoritySubject != e.proposedBy
    && (a.authorityRole == e.requiredAuthority || a.authorityRole == "admin")
    && (forall p :: p in a.approvals ==> p.approved && p.approver != e.proposedBy)
    && ((e.riskLevel.High? || e.riskLevel.Critical?) ==> a.approvals != [])
    && signer.Some? && e.havSignature == Sign(signer.value, e.havReceipt)
    && e.havReceipt.verdict.PASS?
    && e.havReceipt.tenant == Some(scope.tenant) && e.havReceipt.project == Some(scope.project)
    && q.requestedAction == e.proposedAction
    && r.plan.requestedAction == e.proposedAction
    && r.planSignature == Sign(signer.value, r.plan)
    && !r.executed && !r.externalSideEffects && !r.connectorInvoked
  }

  lemma ReceiptIsJustified(signer: Option<Signer>, s: Store, scope: Scope, planId: Id)
    requires Governed(signer, s) && ReceiptAt(s, scope, planId).Some?
    ensures RequestAt(s, scope, planId).Some?
    ensures
      var q := RequestAt(s, scope, planId).value;
      && EnvelopeAt(s, scope, q.envelopeId).Some? && AuthorityAt(s, scope, q.authorityDecisionId).Some?
      && Justified(signer, scope, EnvelopeAt(s, scope, q.envelopeId).value, AuthorityAt(s, scope, q.authorityDecisionId).value,
                   q, ReceiptAt(s, scope, planId).value)
  {
    hide Governed, RequestAt, EnvelopeAt, AuthorityAt, ReceiptAt;
    ReceiptMeansEligible(signer, s, scope, planId);
  }

  /** In every state of every run, each stored shadow receipt traces in its own scope to a PASS receipt of
    * the configured signer and to an authorisation by someone allowed to give it. */
  lemma EveryReceiptIsJustified(signer: Option<Signer>, steps: seq<Step>, i: nat, scope: Scope, planId: Id)
    requires FreshIds(signer, steps) && i <= |steps|
    ensures
      var s := States(signer, steps)[i];
      ReceiptAt(s, scope, planId).Some? ==>
        && RequestAt(s, scope, planId).Some?
        && var q := RequestAt(s, scope, planId).value;
           && EnvelopeAt(s, scope, q.envelopeId).Some? && AuthorityAt(s, scope, q.authorityDecisionId).Some?
           && Justified(signer, scope, EnvelopeAt(s, scope, q.envelopeId).value,
                        AuthorityAt(s, scope, q.authorityDecisionId).value, q, ReceiptAt(s, scope, planId).value)
  {
    hide Governed, ReceiptsDistinct, Extends, RequestAt, EnvelopeAt, AuthorityAt, ReceiptAt, Justified, States, FreshIds;
    EveryStateIsGoverned(signer, steps);
    var s := States(signer, steps)[i];
    if ReceiptAt(s, scope, planId).Some? { ReceiptIsJustified(signer, s, scope, planId); }
  }

  // ---------------------------------------------------------------- records that come together

  lemma GatewayIsFit(signer: Option<Signer>, s: Store, scope: Scope, planId: Id)
    requires Governed(signer, s) && GatewayAt(s, scope, planId).Some?
    ensures RequestAt(s, scope, planId).Some?
  {
    hide Governed, RequestAt;
    StoredFits(signer, s, scope, GatewayDecisions, Name(planId));
  }

  lemma EventIsFit(signer: Option<Signer>, s: Store, scope: Scope, planId: Id, kind: EventType)
    requires Governed(signer, s) && EventAt(s, scope, planId, kind).Some?
    ensures kind.GatewayDecisionCreated? ==> RequestAt(s, scope, planId).Some?
    ensures kind.SimulationRecorded? ==> ReceiptAt(s, scope, planId).Some?
  {
    hide Governed, RequestAt, ReceiptAt;
    StoredFits(signer, s, scope, GatewayDecisionEvents, EventKey(planId, kind));
  }

  /** Request, gateway decision and CREATED event exist together; receipt and SIMULATION_RECORDED event
    * exist together; and the events carry the ids of the records they announce. */
  lemma RecordsComeTogether(signer: Option<Signer>, s: Store, scope: Scope, planId: Id)
    requires Governed(signer, s)
    ensures RequestAt(s, scope, planId).Some? <==> GatewayAt(s, scope, planId).Some?
    ensures RequestAt(s, scope, planId).Some? <==> EventAt(s, scope, planId, GatewayDecisionCreated).Some?
    ensures ReceiptAt(s, scope, planId).Some? <==> EventAt(s, scope, planId, SimulationRecorded).Some?
    ensures ReceiptAt(s, scope, planId).Some? ==> RequestAt(s, scope, planId).Some?
    ensures RequestAt(s, scope, planId).Some? ==>
      EventAt(s, scope, planId, GatewayDecisionCreated).value.gatewayDecisionId == GatewayAt(s, scope, planId).value.gatewayDecisionId
    ensures ReceiptAt(s, scope, planId).Some? ==>
      EventAt(s, scope, planId, SimulationRecorded).value.shadowReceiptId == ReceiptAt(s, scope, planId).value.receiptId
  {
    hide Governed, RequestAt, ReceiptAt, GatewayAt, EventAt, EnvelopeAt, AuthorityAt, Judge, Simulate;
    if RequestAt(s, scope, planId).Some? { RequestIsFit(signer, s, scope, planId); }
    if GatewayAt(s, scope, planId).Some? { GatewayIsFit(signer, s, scope, planId); }
    if ReceiptAt(s, scope, planId).Some? { ReceiptIsFit(signer, s, scope, planId); }
    if EventAt(s, scope, planId, GatewayDecisionCreated).Some? { EventIsFit(signer, s, scope, planId, GatewayDecisionCreated); }
    if EventAt(s, scope, planId, SimulationRecorded).Some? { EventIsFit(signer, s, scope, planId, SimulationRecorded); }
  }

  /** A plan has at most one outcome, and its state is the aggregate of its assessments. */
  lemma OneOutcomePerPlan(signer: Option<Signer>, s: Store, scope: Scope, id: Id, id': Id)
    requires Governed(signer, s) && OutcomeAt(s, scope, id).Some? && OutcomeAt(s, scope, id').Some?
    requires OutcomeAt(s, scope, id).value.fields.planId == OutcomeAt(s, scope, id').value.fields.planId
    ensures id == id'
    ensures
      var o := OutcomeAt(s, scope, id).value;
      && RequestAt(s, scope, o.fields.planId).Some?
      && o.fields.outcomeState == Aggregate(RequestAt(s, scope, o.fields.planId).value.expectedEffects, o.fields.assessments)
      && AssessmentsOk(o.fields.assessments)
  {
    hide Governed, RequestAt, ReceiptAt, OutcomeAt, Aggregate, AssessmentsOk;
    OutcomeIsFit(signer, s, scope, id);
    OutcomeIsFit(signer, s, scope, id');
  }

  // ---------------------------------------------------------------- permanence of eligibility

  /** Evaluating the gateway again, in any later store, gives the eligibility and reasons stored with the plan. */
  lemma EligibilityIsPermanent(signer: Option<Signer>, s: Store, s': Store, scope: Scope, planId: Id, id: Id, now: string)
    requires Governed(signer, s) && Extends(s, s') && RequestAt(s, scope, planId).Some?
    ensures RequestAt(s', scope, planId) == RequestAt(s, scope, planId) && GatewayAt(s, scope, planId).Some?
    ensures
      var q, g := RequestAt(s, scope, planId).value, GatewayAt(s, scope, planId).value;
      && EnvelopeAt(s', scope, q.envelopeId).Some? && AuthorityAt(s', scope, q.authorityDecisionId).Some?
      && var g' := Judge(EnvelopeAt(s', scope, q.envelopeId).value, AuthorityAt(s', scope, q.authorityDecisionId).value, q, scope, id, now);
         g'.eligibility == g.eligibility && g'.reasons == g.reasons && g'.policyVersion == g.policyVersion
  {
    hide Governed, Extends, RequestAt, GatewayAt, EnvelopeAt, AuthorityAt, EventAt, Reasons;
    RequestIsFit(signer, s, scope, planId);
    RecordsStay(s, s', scope);
  }

  /** A plan has a receipt only if it was stored as eligible and a signer is configured. */
  lemma BlockedPlansHaveNoReceipt(signer: Option<Signer>, s: Store, scope: Scope, planId: Id)
    requires Governed(signer, s) && ReceiptAt(s, scope, planId).Some?
    ensures GatewayAt(s, scope, planId).Some? && GatewayAt(s, scope, planId).value.eligibility.ELIGIBLE_FOR_SHADOW? && signer.Some?
  {
    hide Governed, RequestAt, GatewayAt, EnvelopeAt, AuthorityAt, EventAt, ReceiptAt, Reasons, NormalizedPlan;
    ReceiptIsFit(signer, s, scope, planId);
    EligibilityIsPermanent(signer, s, s, scope, planId, "", ReceiptAt(s, scope, planId).value.simulatedAt);
  }

  // ---------------------------------------------------------------- appends that must succeed

  /** Appending what is already stored changes nothing and returns it. */
  lemma PutSame(c: Collection, key: CKey, record: Record, next: Record -> Prog, ses: Session, s: Store, n: nat)
    requires n > 0 && Valid(s) && ses.locks.Some? && WriteAllowed(ses.locks, c, key)
    requires PayloadAt(s, ses.scope, c, key) == Some(Payload(record, ses.scope))
    ensures After(Put(c, key, record, next), ses, s, n) == After(next(record), ses, s, n - 1)
  {
    hide Valid;
    var k := Key(Group(ses.scope, c), key);
    RowsAreValid(s, k);
    OverlayEmpty(s);
    assert Effect(ses, Append(c, key, record), s) == AppendEffect(ses, c, key, record, s);
  }

  /** Appending a record with an identifier under a free key succeeds. */
  lemma PutFree(c: Collection, key: CKey, record: Record, next: Record -> Prog, ses: Session, s: Store, n: nat)
    returns (s1: Store)
    requires n > 0 && Valid(s) && ses.locks.Some? && WriteAllowed(ses.locks, c, key) && ChainLinked(c)
    requires PayloadAt(s, ses.scope, c, key).None? && ExtractRecordId(c, record).Some?
    ensures Wrote(s, s1, map[Key(Group(ses.scope, c), key) := record])
    ensures After(Put(c, key, record, next), ses, s, n) == After(next(record), ses, s1, n - 1)
  {
    hide Valid, Wrote;
    var op := Append(c, key, record);
    s1 := Overlay(s, Effect(ses, op, s).1);
    WroteNothing(s);
    PutEffect(ses, c, key, record, s, s, map[]);
    assert Effect(ses, op, s) == AppendEffect(ses, c, key, record, s);
  }

  // ---------------------------------------------------------------- repeated simulation

  lemma SimulationSession(signer: Option<Signer>, args: SimulateArgs, q: ExecutionRequest)
    ensures
      var ses := SessionOf(SimulateTxn(signer, args, q));
      && ses.scope == args.scope && ses.locks.Some?
      && WriteAllowed(ses.locks, ShadowExecutionReceipts, Name(args.planId))
      && WriteAllowed(ses.locks, GatewayDecisionEvents, EventKey(args.planId, SimulationRecorded))
  {
    hide ContextOf, SimulationLocks;
    SimulateRefs(args.scope, args.planId, q.authorityDecisionId);
  }

  lemma ReachReceipt(signer: Option<Signer>, args: SimulateArgs, ses: Session, s: Store)
    requires ses.scope == args.scope && RequestAt(s, args.scope, args.planId).Some? && GatewayAt(s, args.scope, args.planId).Some?
    ensures
      var q, g := RequestAt(s, args.scope, args.planId).value, GatewayAt(s, args.scope, args.planId).value;
      After(SimulateCommit(signer, args), ses, s, 7) ==
        match PayloadAt(s, args.scope, ShadowExecutionReceipts, Name(args.planId))
        case Some(p) => After(CheckReceipt(signer, args, q, g, p.record), ses, s, 4)
        case None => After(SimulateFresh(signer, args, q, g), ses, s, 4)
  {
    hide After, Fetch, Lookup, CheckReceipt, SimulateFresh;
    var q, g := RequestAt(s, args.scope, args.planId).value, GatewayAt(s, args.scope, args.planId).value;
    FetchAfter(ExecutionRequests, Name(args.planId), (r: Record) =>
      if r.RequestRecord? then SimulateAfterRequest(signer, args, r.request) else Raise(KeyError), ses, s, 7);
    FetchAfter(GatewayDecisions, Name(args.planId), (r: Record) =>
      if r.GatewayRecord? then SimulateAfterGateway(signer, args, q, r.gateway) else Raise(KeyError), ses, s, 6);
    LookupAfter(ShadowExecutionReceipts, Name(args.planId), (p: Option<Payload>) =>
      match p
      case Some(payload) => CheckReceipt(signer, args, q, g, payload.record)
      case None => SimulateFresh(signer, args, q, g), ses, s, 5);
  }

  /** Checking the stored receipt again only meets the event that is already there. */
  lemma CheckedAgain(signer: Option<Signer>, args: SimulateArgs, ses: Session, s: Store)
    requires Governed(signer, s) && ReceiptAt(s, args.scope, args.planId).Some? && ses.scope == args.scope && ses.locks.Some?
    requires WriteAllowed(ses.locks, GatewayDecisionEvents, EventKey(args.planId, SimulationRecorded))
    ensures RequestAt(s, args.scope, args.planId).Some? && GatewayAt(s, args.scope, args.planId).Some?
    ensures
      var q, g := RequestAt(s, args.scope, args.planId).value, GatewayAt(s, args.scope, args.planId).value;
      var r := ReceiptAt(s, args.scope, args.planId).value;
      After(CheckReceipt(signer, args, q, g, ReceiptRecord(r)), ses, s, 4) == (Return(ReceiptRecord(r)), s)
  {
    hide Governed, After, RequestAt, GatewayAt, EnvelopeAt, AuthorityAt, ReceiptAt, EventAt, Simulate, Judge, ReceiptOk, WriteAllowed,
         Put, Eligible, HavPasses, MayAuthorize;
    GovernedIsValid(signer, s);
    ReceiptMeansEligible(signer, s, args.scope, args.planId);
    ReceiptIsFit(signer, s, args.scope, args.planId);
    var r, g := ReceiptAt(s, args.scope, args.planId).value, GatewayAt(s, args.scope, args.planId).value;
    StoredEvent(signer, s, args, g, r);
    PutSame(GatewayDecisionEvents, EventKey(args.planId, SimulationRecorded),
            EventRecord(SimulationEvent(args.scope, args.planId, g, r)), (_: Record) => Return(ReceiptRecord(r)), ses, s, 4);
    NothingLeft(ReceiptRecord(r), ses, s);
  }

  /** Simulating a plan that has a receipt returns that receipt and changes nothing. */
  lemma RepeatedSimulation(signer: Option<Signer>, args: SimulateArgs, seen: Store, s: Store)
    requires Governed(signer, s) && ReceiptAt(s, args.scope, args.planId).Some?
    requires ReadyToSimulate(signer, args, seen).Ready?
    ensures Perform(signer, SimulatePlan(args), seen, s)
         == (Committed(ReceiptRecord(ReceiptAt(s, args.scope, args.planId).value)), s)
  {
    hide Governed, After, RequestAt, GatewayAt, SimulationLocks, ContextOf, SimulateCommit, WriteAllowed, RunTransaction, CheckReceipt,
         SimulateFresh;
    var q0 := RequestAt(seen, args.scope, args.planId).value;
    var t := SimulateTxn(signer, args, q0);
    var ses := SessionOf(t);
    SimulationSession(signer, args, q0);
    CheckedAgain(signer, args, ses, s);
    ReachReceipt(signer, args, ses, s);
    SimulateRefs(args.scope, args.planId, q0.authorityDecisionId);
    TransactionIsAfter(t, s);
  }

  lemma StoredEvent(signer: Option<Signer>, s: Store, args: SimulateArgs, g: GatewayDecision, r: ShadowReceipt)
    requires Governed(signer, s)
    requires EventAt(s, args.scope, args.planId, SimulationRecorded) == Some(SimulationEvent(args.scope, args.planId, g, r))
    ensures PayloadAt(s, args.scope, GatewayDecisionEvents, EventKey(args.planId, SimulationRecorded))
         == Some(Payload(EventRecord(SimulationEvent(args.scope, args.planId, g, r)), args.scope))
  {
    hide Governed;
    StoredFits(signer, s, args.scope, GatewayDecisionEvents, EventKey(args.planId, SimulationRecorded));
  }

  // ---------------------------------------------------------------- simulation succeeds exactly when eligible

  lemma FreshSimulation(signer: Option<Signer>, args: SimulateArgs, ses: Session, s: Store)
    requires Governed(signer, s) && RequestAt(s, args.scope, args.planId).Some? && ses.scope == args.scope && ses.locks.Some?
    requires GatewayAt(s, args.scope, args.planId).Some?
    requires PayloadAt(s, args.scope, ShadowExecutionReceipts, Name(args.planId)).None?
    requires WriteAllowed(ses.locks, ShadowExecutionReceipts, Name(args.planId))
    requires WriteAllowed(ses.locks, GatewayDecisionEvents, EventKey(args.planId, SimulationRecorded))
    ensures
      var q, g := RequestAt(s, args.scope, args.planId).value, GatewayAt(s, args.scope, args.planId).value;
      After(SimulateFresh(signer, args, q, g), ses, s, 4).0.Return? <==> signer.Some? && g.eligibility.ELIGIBLE_FOR_SHADOW?
  {
    hide Governed, After, RequestAt, GatewayAt, EnvelopeAt, AuthorityAt, EventAt, Simulate, Judge, ReceiptOk, Put, Fetch, CheckReceipt,
         WriteAllowed;
    var q, g := RequestAt(s, args.scope, args.planId).value, GatewayAt(s, args.scope, args.planId).value;
    EligibilityIsPermanent(signer, s, s, args.scope, args.planId, "", args.now) by { assert Extends(s, s) by { ExtendsItself(s); } }
    RequestIsFit(signer, s, args.scope, args.planId);
    var e, a := EnvelopeAt(s, args.scope, q.envelopeId).value, AuthorityAt(s, args.scope, q.authorityDecisionId).value;
    SimulatedReceiptValidates(signer, e, a, q, args.scope, "", args.receiptId, args.now);
    EligibleExactly(e, a, q, args.scope, "", args.now);
    ReachEnvelope(signer, args, ses, s, q, g);
    var r := Simulate(signer, e, a, q, Judge(e, a, q, args.scope, "", args.now), args.receiptId, args.now);
    RaisesEnd(ses, s);
    if r.Some? { ReceiptAndEvent(signer, args, ses, s, q, g, r.value); }
  }

  lemma ExtendsItself(s: Store)
    ensures Extends(s, s)
  {
  }

  lemma ReachEnvelope(signer: Option<Signer>, args: SimulateArgs, ses: Session, s: Store, q: ExecutionRequest, g: GatewayDecision)
    requires ses.scope == args.scope
    requires EnvelopeAt(s, args.scope, q.envelopeId).Some? && AuthorityAt(s, args.scope, q.authorityDecisionId).Some?
    ensures
      var e, a := EnvelopeAt(s, args.scope, q.envelopeId).value, AuthorityAt(s, args.scope, q.authorityDecisionId).value;
      After(SimulateFresh(signer, args, q, g), ses, s, 4) == After(PutReceipt(signer, args, q, g, a, e), ses, s, 2)
  {
    hide After, Fetch, PutReceipt;
    var a := AuthorityAt(s, args.scope, q.authorityDecisionId).value;
    FetchAfter(AuthorityDecisions, Name(q.authorityDecisionId), (x: Record) =>
      if x.AuthorityRecord? then SimulateAfterAuthority(signer, args, q, g, x.authority) else Raise(KeyError), ses, s, 4);
    FetchAfter(DecisionEnvelopes, Name(q.envelopeId), (x: Record) =>
      if x.EnvelopeRecord? then PutReceipt(signer, args, q, g, a, x.envelope) else Raise(KeyError), ses, s, 3);
  }

  /** A valid receipt for a plan without one is stored together with its event. */
  lemma ReceiptAndEvent(signer: Option<Signer>, args: SimulateArgs, ses: Session, s: Store, q: ExecutionRequest,
                        g: GatewayDecision, r: ShadowReceipt)
    requires Governed(signer, s) && ses.scope == args.scope && ses.locks.Some? && ReceiptOk(signer, r, q)
    requires PayloadAt(s, args.scope, ShadowExecutionReceipts, Name(args.planId)).None?
    requires WriteAllowed(ses.locks, ShadowExecutionReceipts, Name(args.planId))
    requires WriteAllowed(ses.locks, GatewayDecisionEvents, EventKey(args.planId, SimulationRecorded))
    ensures After(Put(ShadowExecutionReceipts, Name(args.planId), ReceiptRecord(r), (x: Record) =>
      CheckReceipt(signer, args, q, g, x)), ses, s, 2).0.Return?
  {
    hide Governed, After, ReceiptOk, Put, WriteAllowed, Wrote;
    GovernedIsValid(signer, s);
    var s1 := PutFree(ShadowExecutionReceipts, Name(args.planId), ReceiptRecord(r), (x: Record) =>
      CheckReceipt(signer, args, q, g, x), ses, s, 2);
    NoEventYet(signer, s, s1, args, r);
    var v := SimulationEvent(args.scope, args.planId, g, r);
    var s2 := PutFree(GatewayDecisionEvents, EventKey(args.planId, SimulationRecorded), EventRecord(v),
                      (_: Record) => Return(ReceiptRecord(r)), ses, s1, 1);
    NothingLeft(ReceiptRecord(r), ses, s2);
  }

  lemma NoEventYet(signer: Option<Signer>, s: Store, s1: Store, args: SimulateArgs, r: ShadowReceipt)
    requires Governed(signer, s) && PayloadAt(s, args.scope, ShadowExecutionReceipts, Name(args.planId)).None?
    requires Wrote(s, s1, map[Key(Group(args.scope, ShadowExecutionReceipts), Name(args.planId)) := ReceiptRecord(r)])
    ensures Valid(s1) && PayloadAt(s1, args.scope, GatewayDecisionEvents, EventKey(args.planId, SimulationRecorded)).None?
  {
    hide Governed, Valid;
    if PayloadAt(s, args.scope, GatewayDecisionEvents, EventKey(args.planId, SimulationRecorded)).Some? {
      StoredFits(signer, s, args.scope, GatewayDecisionEvents, EventKey(args.planId, SimulationRecorded));
      EventIsFit(signer, s, args.scope, args.planId, SimulationRecorded);
      assert false;
    }
  }

  /** A plan can be simulated, at any time, exactly if it was stored as eligible and a signer is configured;
    * so a BLOCKED plan never gains a receipt and an eligible one can always be simulated. */
  lemma SimulationSucceedsExactly(signer: Option<Signer>, args: SimulateArgs, seen: Store, s: Store)
    requires Governed(signer, s) && RequestAt(s, args.scope, args.planId).Some?
    requires ReadyToSimulate(signer, args, seen).Ready?
    ensures GatewayAt(s, args.scope, args.planId).Some?
    ensures Perform(signer, SimulatePlan(args), seen, s).0.Committed? <==>
      signer.Some? && GatewayAt(s, args.scope, args.planId).value.eligibility.ELIGIBLE_FOR_SHADOW?
  {
    hide Governed, After, RequestAt, GatewayAt, EventAt, SimulationLocks, ContextOf, SimulateCommit, WriteAllowed, RunTransaction,
         SimulateFresh, CheckReceipt;
    RecordsComeTogether(signer, s, args.scope, args.planId);
    if PayloadAt(s, args.scope, ShadowExecutionReceipts, Name(args.planId)).Some? {
      ResultsAreTyped(signer, s, args.scope, args.planId);
      RepeatedSimulation(signer, args, seen, s);
      BlockedPlansHaveNoReceipt(signer, s, args.scope, args.planId);
    } else {
      var q0 := RequestAt(seen, args.scope, args.planId).value;
      var t := SimulateTxn(signer, args, q0);
      SimulationSession(signer, args, q0);
      ReachReceipt(signer, args, SessionOf(t), s);
      FreshSimulation(signer, args, SessionOf(t), s);
      SimulateRefs(args.scope, args.planId, q0.authorityDecisionId);
      TransactionIsAfter(t, s);
    }
  }

  // ---------------------------------------------------------------- repeated outcome

  /** Recording an outcome again returns the first one unchanged, whatever the new assessments say. */
  lemma RepeatedOutcome(signer: Option<Signer>, args: OutcomeArgs, seen: Store, s: Store)
    requires Governed(signer, seen) && Extends(seen, s) && Governed(signer, s) && ReceiptsDistinct(s)
    requires ReadyToRecord(signer, args, seen).Ready? && ReceiptAt(s, args.scope, args.planId).Some?
    requires OutcomeAt(s, args.scope, ReceiptAt(s, args.scope, args.planId).value.receiptId).Some?
    ensures Perform(signer, RecordOutcome(args), seen, s)
         == (Committed(OutcomeRecord(OutcomeAt(s, args.scope, ReceiptAt(s, args.scope, args.planId).value.receiptId).value)), s)
  {
    hide Governed, After, RequestAt, ReceiptAt, ReadyToRecord, ReceiptOk, OutcomeOk, OutcomeLocks, ContextOf, RunTransaction,
         Extends, ReceiptsDistinct, Lookup, PutOutcome;
    ReadToRecord(signer, args, seen);
    RequestIsFit(signer, seen, args.scope, args.planId);
    RecordsStay(seen, s, args.scope);
    var q, r := RequestAt(seen, args.scope, args.planId).value, ReceiptAt(s, args.scope, args.planId).value;
    OutcomeOfPlan(signer, s, args.scope, args.planId);
    var t := OutcomeTxn(signer, args, q, r);
    var ses, o := SessionOf(t), OutcomeAt(s, args.scope, r.receiptId).value;
    LookupAfter(ShadowOutcomes, Name(r.receiptId), (p: Option<Payload>) =>
      match p
      case Some(payload) => CheckOutcome(signer, q, r, payload.record)
      case None => PutOutcome(signer, args, q, r), ses, s, 2);
    NothingLeft(OutcomeRecord(o), ses, s);
    OutcomeLocked(signer, args, q, r);
    TransactionIsAfter(t, s);
  }
}
