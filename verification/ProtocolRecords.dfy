/** What every stored protocol record says about the others (referential integrity), as a predicate that
  * later appends cannot break. */
module ProtocolRecords {
  import opened Signing
  import opened Models
  import opened ScopedStore
  import opened SessionRules
  import opened Authority
  import opened Gateway
  import opened Outcomes
  import opened Replay
  import opened Comparison
  import opened ProtocolSteps

  // ---------------------------------------------------------------- sources of a plan

  function PayloadAt(s: Store, scope: Scope, c: Collection, key: CKey): Option<Payload> {
    var k := Key(Group(scope, c), key);
    if k in s.rows then Some(s.rows[k].payload) else None
  }

  /** The six rows a replay of the plan rests on; an outcome is looked up by its receipt. */
  function SourcesAt(s: Store, scope: Scope, planId: Id): Sources {
    match RequestAt(s, scope, planId)
    case None => NO_SOURCES
    case Some(q) =>
      Sources(
        PayloadAt(s, scope, ExecutionRequests, Name(planId)),
        PayloadAt(s, scope, GatewayDecisions, Name(planId)),
        PayloadAt(s, scope, DecisionEnvelopes, Name(q.envelopeId)),
        PayloadAt(s, scope, AuthorityDecisions, Name(q.authorityDecisionId)),
        PayloadAt(s, scope, ShadowExecutionReceipts, Name(planId)),
        if ReceiptAt(s, scope, planId).Some?
        then PayloadAt(s, scope, ShadowOutcomes, Name(ReceiptAt(s, scope, planId).value.receiptId)) else None)
  }

  /** How far a plan has come: 4, 5 or 6 of the source rows. */
  datatype Stage = Planned | Simulated | Observed

  predicate Reached(src: Sources, stage: Stage) {
    match stage
    case Planned => true
    case Simulated => src.receipt.Some?
    case Observed => src.receipt.Some? && src.outcome.Some?
  }

  function UpTo(src: Sources, stage: Stage): Sources {
    match stage
    case Planned => src.(receipt := None, outcome := None)
    case Simulated => src.(outcome := None)
    case Observed => src
  }

  // ---------------------------------------------------------------- one record at a time

  predicate EnvelopeFits(scope: Scope, key: CKey, e: DecisionEnvelope) {
    key == Name(e.envelopeId) && EnvelopeScope(e) == scope
  }

  /** The decision is what the engine decides about the stored envelope. */
  predicate AuthorityFits(signer: Option<Signer>, s: Store, scope: Scope, key: CKey, a: AuthorityDecision) {
    && key == Name(a.authorityDecisionId)
    && EnvelopeAt(s, scope, a.envelopeId).Some?
    && a == Decide(signer, EnvelopeAt(s, scope, a.envelopeId).value, a.authoritySubject, a.authorityRole, a.approvals,
                   a.authorityDecisionId, a.decidedAt)
  }

  /** Request, gateway decision and CREATED event exist together and rest on a stored envelope and authority. */
  predicate RequestFits(s: Store, scope: Scope, key: CKey, q: ExecutionRequest) {
    && key == Name(q.planId)
    && Scope(q.tenant, q.project) == scope
    && q.actionHash == ActionHash(q.requestedAction)
    && EnvelopeAt(s, scope, q.envelopeId).Some?
    && AuthorityAt(s, scope, q.authorityDecisionId).Some?
    && GatewayAt(s, scope, q.planId).Some?
    && var g := GatewayAt(s, scope, q.planId).value;
       && g == Judge(EnvelopeAt(s, scope, q.envelopeId).value, AuthorityAt(s, scope, q.authorityDecisionId).value, q,
                     scope, g.gatewayDecisionId, g.decidedAt)
       && EventAt(s, scope, q.planId, GatewayDecisionCreated) == Some(CreatedEvent(scope, q, g))
  }

  predicate GatewayFits(s: Store, scope: Scope, key: CKey, g: GatewayDecision) {
    key == Name(g.planId) && RequestAt(s, scope, g.planId).Some?
  }

  predicate EventFits(s: Store, scope: Scope, key: CKey, v: GatewayEvent) {
    && key == EventKey(v.planId, v.kind)
    && match v.kind
       case GatewayDecisionCreated => RequestAt(s, scope, v.planId).Some?
       case SimulationRecorded => ReceiptAt(s, scope, v.planId).Some?
  }

  /** Receipt and SIMULATION_RECORDED event exist together, with matching ids, for an eligible plan. */
  predicate ReceiptFits(signer: Option<Signer>, s: Store, scope: Scope, key: CKey, r: ShadowReceipt) {
    && key == Name(r.planId)
    && RequestAt(s, scope, r.planId).Some?
    && var q := RequestAt(s, scope, r.planId).value;
       && EnvelopeAt(s, scope, q.envelopeId).Some?
       && AuthorityAt(s, scope, q.authorityDecisionId).Some?
       && GatewayAt(s, scope, r.planId).Some?
       && var e, a := EnvelopeAt(s, scope, q.envelopeId).value, AuthorityAt(s, scope, q.authorityDecisionId).value;
          && Simulate(signer, e, a, q, Judge(e, a, q, scope, "", r.simulatedAt), r.receiptId, r.simulatedAt) == Some(r)
          && EventAt(s, scope, r.planId, SimulationRecorded)
             == Some(SimulationEvent(scope, r.planId, GatewayAt(s, scope, r.planId).value, r))
  }

  /** An outcome is stored under its plan's receipt, validly signed, with the aggregate of its assessments. */
  predicate OutcomeFits(signer: Option<Signer>, s: Store, scope: Scope, key: CKey, o: ShadowOutcome) {
    && key == Name(o.fields.shadowReceiptId)
    && RequestAt(s, scope, o.fields.planId).Some?
    && ReceiptAt(s, scope, o.fields.planId).Some?
    && OutcomeOk(signer, o, RequestAt(s, scope, o.fields.planId).value, ReceiptAt(s, scope, o.fields.planId).value)
    && AssessmentsOk(o.fields.assessments)
  }

  /** The report is about this stage of its plan: its manifest, its checks, and whether they allow a comparison. */
  predicate ReportFitsStage(signer: Option<Signer>, s: Store, scope: Scope, p: ReplayReport, stage: Stage) {
    var src := SourcesAt(s, scope, p.fields.planId);
    && Reached(src, stage)
    && WellTyped(UpTo(src, stage))
    && p.fields.manifest.snapshot == SnapshotOf(UpTo(src, stage), scope)
    && p.fields.validation == Validation(signer, UpTo(src, stage), scope, true)
    && (p.fields.state.INVALID? <==> AnyInvalid(p.fields.validation))
    && (p.fields.state.INCOMPLETE? <==> !AnyInvalid(p.fields.validation) && AnyIncomplete(p.fields.validation))
    && (!stage.Observed? ==> Incomparable(p.fields.state))
    && (stage.Observed? ==> !Incomparable(p.fields.state))
  }

  /** A report's manifest is that of its plan's first four, five or six source rows. */
  predicate ReportFits(signer: Option<Signer>, s: Store, scope: Scope, key: CKey, p: ReplayReport) {
    && key == ManifestKey(p.fields.manifestHash)
    && ReportOk(signer, p)
    && p.fields.scope == scope
    && RequestAt(s, scope, p.fields.planId).Some?
    && exists stage :: ReportFitsStage(signer, s, scope, p, stage)
  }

  ghost predicate Compares(s: Store, scope: Scope, h: HistoricalComparison, b: ManifestHash, c: ManifestHash) {
    && ReportAt(s, scope, b).Some? && ReportAt(s, scope, c).Some?
    && var x, y := ReportAt(s, scope, b).value.fields, ReportAt(s, scope, c).value.fields;
       && x.replayId == h.fields.baselineReplayId && y.replayId == h.fields.candidateReplayId
       && h.fields.delta == Compare(x, y)
  }

  /** A stored comparison is the exact delta of two stored reports. */
  ghost predicate ComparisonFits(signer: Option<Signer>, s: Store, scope: Scope, key: CKey, h: HistoricalComparison) {
    && key == PairKey(h.fields.comparisonKey)
    && ComparisonOk(signer, h)
    && exists b, c :: Compares(s, scope, h, b, c)
  }

  ghost predicate Fits(signer: Option<Signer>, s: Store, scope: Scope, c: Collection, key: CKey, record: Record) {
    match record
    case EnvelopeRecord(e) => c.DecisionEnvelopes? && EnvelopeFits(scope, key, e)
    case AuthorityRecord(a) => c.AuthorityDecisions? && AuthorityFits(signer, s, scope, key, a)
    case RequestRecord(q) => c.ExecutionRequests? && RequestFits(s, scope, key, q)
    case GatewayRecord(g) => c.GatewayDecisions? && GatewayFits(s, scope, key, g)
    case EventRecord(v) => c.GatewayDecisionEvents? && EventFits(s, scope, key, v)
    case ReceiptRecord(r) => c.ShadowExecutionReceipts? && ReceiptFits(signer, s, scope, key, r)
    case OutcomeRecord(o) => c.ShadowOutcomes? && OutcomeFits(signer, s, scope, key, o)
    case ReplayRecord(p) => c.ReplayReports? && ReportFits(signer, s, scope, key, p)
    case ComparisonRecord(h) => c.HistoricalComparisons? && ComparisonFits(signer, s, scope, key, h)
    case OtherRecord(_, _) => false
    case ReportPair(_, _) => false
  }

  /** The invariant of the protocol. */
  ghost predicate Governed(signer: Option<Signer>, s: Store) {
    && Valid(s)
    && forall k :: k in s.rows && ChainLinked(k.group.coll) ==>
         Fits(signer, s, k.group.scope, k.group.coll, k.ckey, s.rows[k].payload.record)
  }

  // ---------------------------------------------------------------- appends keep every record fitting

  /** s' has every immutable row of s. */
  ghost predicate Extends(s: Store, s': Store) {
    forall k :: k in s.rows && ChainLinked(k.group.coll) ==> k in s'.rows && s'.rows[k] == s.rows[k]
  }

  lemma ExtendsIsTransitive(s: Store, s': Store, s'': Store)
    requires Extends(s, s') && Extends(s', s'')
    ensures Extends(s, s'')
  {
  }

  lemma RecordsStay(s: Store, s': Store, scope: Scope)
    requires Extends(s, s')
    ensures forall id :: EnvelopeAt(s, scope, id).Some? ==> EnvelopeAt(s', scope, id) == EnvelopeAt(s, scope, id)
    ensures forall id :: AuthorityAt(s, scope, id).Some? ==> AuthorityAt(s', scope, id) == AuthorityAt(s, scope, id)
    ensures forall id :: RequestAt(s, scope, id).Some? ==> RequestAt(s', scope, id) == RequestAt(s, scope, id)
    ensures forall id :: GatewayAt(s, scope, id).Some? ==> GatewayAt(s', scope, id) == GatewayAt(s, scope, id)
    ensures forall id :: ReceiptAt(s, scope, id).Some? ==> ReceiptAt(s', scope, id) == ReceiptAt(s, scope, id)
    ensures forall id :: OutcomeAt(s, scope, id).Some? ==> OutcomeAt(s', scope, id) == OutcomeAt(s, scope, id)
    ensures forall id, kind :: EventAt(s, scope, id, kind).Some? ==> EventAt(s', scope, id, kind) == EventAt(s, scope, id, kind)
    ensures forall h :: ReportAt(s, scope, h).Some? ==> ReportAt(s', scope, h) == ReportAt(s, scope, h)
  {
  }

  lemma PayloadsStay(s: Store, s': Store, scope: Scope, c: Collection)
    requires Extends(s, s') && ChainLinked(c)
    ensures forall key :: PayloadAt(s, scope, c, key).Some? ==> PayloadAt(s', scope, c, key) == PayloadAt(s, scope, c, key)
  {
  }

  lemma StoredFits(signer: Option<Signer>, s: Store, scope: Scope, c: Collection, key: CKey)
    requires Governed(signer, s) && ChainLinked(c) && PayloadAt(s, scope, c, key).Some?
    ensures
      var p := PayloadAt(s, scope, c, key).value;
      p.scope == scope && Fits(signer, s, scope, c, key, p.record)
  {
    hide Fits, Valid;
    RowsAreValid(s, Key(Group(scope, c), key));
  }

  lemma RequestIsFit(signer: Option<Signer>, s: Store, scope: Scope, planId: Id)
    requires Governed(signer, s) && RequestAt(s, scope, planId).Some?
    ensures
      var q := RequestAt(s, scope, planId).value;
      && RequestFits(s, scope, Name(planId), q) && q.planId == planId
      && PayloadAt(s, scope, ExecutionRequests, Name(planId)) == Some(Payload(RequestRecord(q), scope))
  {
    hide Governed, RequestFits;
    StoredFits(signer, s, scope, ExecutionRequests, Name(planId));
    assert RequestFits(s, scope, Name(planId), RequestAt(s, scope, planId).value);
    assert RequestAt(s, scope, planId).value.planId == planId by {
      var q := RequestAt(s, scope, planId).value;
      RequestKey(s, scope, Name(planId), q);
    }
  }

  lemma RequestKey(s: Store, scope: Scope, key: CKey, q: ExecutionRequest)
    requires RequestFits(s, scope, key, q)
    ensures key == Name(q.planId)
  {
  }

  /** The receipt and outcome rows of a governed store are a receipt and an outcome. */
  lemma ResultsAreTyped(signer: Option<Signer>, s: Store, scope: Scope, planId: Id)
    requires Governed(signer, s)
    ensures PayloadAt(s, scope, ShadowExecutionReceipts, Name(planId)).Some? ==>
      PayloadAt(s, scope, ShadowExecutionReceipts, Name(planId)).value.record.ReceiptRecord?
    ensures PayloadAt(s, scope, ShadowOutcomes, Name(planId)).Some? ==>
      PayloadAt(s, scope, ShadowOutcomes, Name(planId)).value.record.OutcomeRecord?
  {
    hide Governed, ReceiptFits, OutcomeFits;
    if PayloadAt(s, scope, ShadowExecutionReceipts, Name(planId)).Some? {
      StoredFits(signer, s, scope, ShadowExecutionReceipts, Name(planId));
    }
    if PayloadAt(s, scope, ShadowOutcomes, Name(planId)).Some? {
      StoredFits(signer, s, scope, ShadowOutcomes, Name(planId));
    }
  }

  /** The rows of a governed plan: the first four are there, and all are of their collection's kind. */
  lemma SourcesAreTyped(signer: Option<Signer>, s: Store, scope: Scope, planId: Id)
    requires Governed(signer, s) && RequestAt(s, scope, planId).Some?
    ensures
      var src, q := SourcesAt(s, scope, planId), RequestAt(s, scope, planId).value;
      && WellTyped(src)
      && src.request == Some(Payload(RequestRecord(q), scope))
      && q.planId == planId
      && src.envelope.Some? && EnvelopeAt(s, scope, q.envelopeId) == Some(src.envelope.value.record.envelope)
      && src.authority.Some? && AuthorityAt(s, scope, q.authorityDecisionId) == Some(src.authority.value.record.authority)
      && src.gateway.Some? && GatewayAt(s, scope, planId) == Some(src.gateway.value.record.gateway)
      && (src.receipt.Some? <==> ReceiptAt(s, scope, planId).Some?)
      && (src.receipt.Some? ==> ReceiptAt(s, scope, planId) == Some(src.receipt.value.record.receipt))
      && (src.outcome.Some? ==> src.receipt.Some?)
      && (src.outcome.Some? ==>
            OutcomeAt(s, scope, src.receipt.value.record.receipt.receiptId) == Some(src.outcome.value.record.outcome))
  {
    hide Governed, Judge;
    RequestIsFit(signer, s, scope, planId);
    ResultsAreTyped(signer, s, scope, planId);
    if ReceiptAt(s, scope, planId).Some? {
      ResultsAreTyped(signer, s, scope, ReceiptAt(s, scope, planId).value.receiptId);
    }
  }

  lemma RowsAreValid(s: Store, k: Key)
    requires Valid(s) && k in s.rows
    ensures RowValid(k, s.rows[k])
  {
  }

  /** Later sources have every row that earlier ones had. */
  lemma SourcesGrow(signer: Option<Signer>, s: Store, s': Store, scope: Scope, planId: Id)
    requires Governed(signer, s) && Extends(s, s') && RequestAt(s, scope, planId).Some?
    ensures
      var src, src' := SourcesAt(s, scope, planId), SourcesAt(s', scope, planId);
      && src'.request == src.request && src'.gateway == src.gateway && src'.envelope == src.envelope
      && src'.authority == src.authority
      && (src.receipt.Some? ==> src'.receipt == src.receipt)
      && (src.outcome.Some? ==> src'.outcome == src.outcome)
  {
    hide Governed, Extends, EnvelopeAt, AuthorityAt, GatewayAt, OutcomeAt, RequestAt, PayloadAt, WellTyped;
    SourcesAreTyped(signer, s, scope, planId);
    RecordsStay(s, s', scope);
    PayloadsStay(s, s', scope, ExecutionRequests);
    PayloadsStay(s, s', scope, GatewayDecisions);
    PayloadsStay(s, s', scope, DecisionEnvelopes);
    PayloadsStay(s, s', scope, AuthorityDecisions);
    PayloadsStay(s, s', scope, ShadowExecutionReceipts);
    PayloadsStay(s, s', scope, ShadowOutcomes);
  }

  /** Later sources agree with earlier ones on every stage reached before. */
  lemma StagesStay(signer: Option<Signer>, s: Store, s': Store, scope: Scope, planId: Id, stage: Stage)
    requires Governed(signer, s) && Extends(s, s') && RequestAt(s, scope, planId).Some?
    requires Reached(SourcesAt(s, scope, planId), stage)
    ensures Reached(SourcesAt(s', scope, planId), stage)
    ensures UpTo(SourcesAt(s', scope, planId), stage) == UpTo(SourcesAt(s, scope, planId), stage)
  {
    hide Governed, Extends, SourcesAt;
    SourcesGrow(signer, s, s', scope, planId);
  }

  lemma FitsStays(signer: Option<Signer>, s: Store, s': Store, scope: Scope, c: Collection, key: CKey, record: Record)
    requires Governed(signer, s) && Extends(s, s') && Fits(signer, s, scope, c, key, record)
    ensures Fits(signer, s', scope, c, key, record)
  {
    hide Governed, Extends, Judge, Decide, Simulate, OutcomeOk, AssessmentsOk, ReportOk, ComparisonOk, Compare,
         EnvelopeAt, AuthorityAt, RequestAt, GatewayAt, ReceiptAt, OutcomeAt, EventAt, ReportAt, SourcesAt, SnapshotOf;
    RecordsStay(s, s', scope);
    match record
    case ReplayRecord(p) =>
      var stage :| ReportFitsStage(signer, s, scope, p, stage);
      StagesStay(signer, s, s', scope, p.fields.planId, stage);
      assert ReportFitsStage(signer, s', scope, p, stage);
    case ComparisonRecord(h) =>
      var b, d :| Compares(s, scope, h, b, d);
      assert Compares(s', scope, h, b, d);
    case _ =>
  }

  /** A run that wrote only fitting records leaves a governed store. */
  lemma WritesKeepGoverned(signer: Option<Signer>, s: Store, s': Store, w: map<Key, Record>)
    requires Governed(signer, s) && Wrote(s, s', w)
    requires forall k :: k in w ==> Fits(signer, s', k.group.scope, k.group.coll, k.ckey, w[k])
    ensures Governed(signer, s') && Extends(s, s')
  {
    hide Fits, Valid;
    forall k | k in s'.rows && ChainLinked(k.group.coll)
      ensures Fits(signer, s', k.group.scope, k.group.coll, k.ckey, s'.rows[k].payload.record)
    {
      if k !in w {
        FitsStays(signer, s, s', k.group.scope, k.group.coll, k.ckey, s.rows[k].payload.record);
      }
    }
  }
}
