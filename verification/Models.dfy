/** Record types stored in the ledger (grdi/models.py, grdi/events.py) and the digests and signatures
  * taken over them (core_v3/transactions.py, core_v3/receipts.py).
  *
  * A digest is a constructor applied to the hashed value: equal digests come from equal values, which
  * is exactly what the ledger relies on SHA-256 for.  Free-form JSON documents are opaque text.
  */
module Models {

  import opened Signing

  type Json = string

  // ---------------------------------------------------------------- collections and keys

  datatype Collection =
    | DecisionEnvelopes | AuthorityDecisions | ExecutionRequests | GatewayDecisions
    | GatewayDecisionEvents | ShadowExecutionReceipts | ShadowOutcomes | ReplayReports
    | HistoricalComparisons
    | Claims | Evidence | Verifications | Actions | PolicyDecisions | Outcomes

  /** CAS_ALLOWED_COLLECTIONS: the mutable collections. */
  predicate CasAllowed(c: Collection) {
    c.Claims? || c.Evidence? || c.Verifications? || c.Actions? || c.PolicyDecisions? || c.Outcomes?
  }

  /** CHAIN_LINKED_COLLECTIONS: every collection that is not mutable. */
  predicate ChainLinked(c: Collection) {
    !CasAllowed(c)
  }

  datatype EventType = GatewayDecisionCreated | SimulationRecorded

  /** Canonical keys: an identifier, "plan:event type", a manifest digest or a comparison digest. */
  datatype CKey =
    | Name(text: Id)
    | EventKey(planId: Id, kind: EventType)
    | ManifestKey(manifest: ManifestHash)
    | PairKey(pair: ComparisonHash)

  datatype Scope = Scope(tenant: Id, project: Id)

  // ---------------------------------------------------------------- digests

  /** What is hashed for a stored record: the record with its scope, without "_chain". */
  datatype Payload = Payload(record: Record, scope: Scope)

  datatype PayloadHash = PayloadHash(payload: Payload)
  datatype ChainHash = ChainHash(prev: Option<ChainHash>, coll: Collection, payload: Payload)
  datatype ActionHash = ActionHash(action: Json)
  datatype ReceiptHash = ReceiptHash(receipt: ShadowReceipt)
  datatype ManifestHash = ManifestHash(snapshot: Snapshot)
  datatype ComparisonHash = ComparisonHash(baseline: Id, candidate: Id)

  // ---------------------------------------------------------------- protocol records

  datatype Verdict = PASS | WARN | HUMAN_REVIEW | REJECT | SOURCE_UNAVAILABLE | OtherVerdict(text: string)
  datatype HavBody = HavBody(tenant: Option<Id>, project: Option<Id>, verdict: Verdict, details: Json)

  datatype RiskLevel = Low | Medium | High | Critical

  datatype DecisionEnvelope = DecisionEnvelope(
    envelopeId: Id, tenant: Id, project: Id, domain: string, decisionType: string, subject: string,
    proposedBy: Id, proposedAction: Json, havReceipt: HavBody, havSignature: Signature<HavBody>, requiredAuthority: Id,
    riskLevel: RiskLevel, details: Json)

  datatype VerificationState = VERIFIED | NOT_VERIFIED
  datatype AuthorizationState = AUTHORIZED | NOT_AUTHORIZED | REQUIRES_APPROVAL
  datatype ExecutabilityState = EXECUTABLE | NOT_EXECUTABLE
  datatype ExecutionState = EXECUTED | NOT_EXECUTED

  datatype Approval = Approval(approver: Id, role: Id, approved: bool, details: Json)

  datatype AuthorityReason =
    | ReceiptSignerNotConfigured | InvalidHavReceiptSignature | HavReceiptTenantMismatch
    | HavReceiptProjectMismatch | HavVerdictRequiresReview(verdict: Verdict)
    | HavVerdictBlocks(verdict: Verdict) | UnsupportedHavVerdict | SelfAuthorizationForbidden
    | RequiredAuthorityMissing | ApprovalRejected | HumanApprovalRequired | ProposerApprovalForbidden

  datatype AuthorityDecision = AuthorityDecision(
    authorityDecisionId: Id, envelopeId: Id, authoritySubject: Id, authorityRole: Id,
    verification: VerificationState, authorization: AuthorizationState,
    executability: ExecutabilityState, execution: ExecutionState, policyVersion: string,
    reasons: seq<AuthorityReason>, approvals: seq<Approval>, decidedAt: string)

  datatype ExecutionRequest = ExecutionRequest(
    planId: Id, envelopeId: Id, authorityDecisionId: Id, tenant: Id, project: Id, requestedBy: Id,
    requestedAction: Json, actionHash: ActionHash, expectedEffects: seq<string>,
    rollbackStrategy: Json, createdAt: string)

  datatype Eligibility = ELIGIBLE_FOR_SHADOW | BLOCKED
  datatype SimulationState = NOT_SIMULATED | SIMULATED

  datatype GatewayReason =
    | ScopeMismatch | RequestScopeMismatch | EnvelopeAuthorityMismatch | RequestEnvelopeMismatch
    | RequestAuthorityMismatch | AuthorityRequiresApproval | AuthorityNotAuthorized
    | AuthorityNotVerified | UnexpectedExecutability | UnexpectedExecution | ActionHashMismatch
    | RequestedActionHashInconsistent

  datatype GatewayDecision = GatewayDecision(
    gatewayDecisionId: Id, planId: Id, envelopeId: Id, authorityDecisionId: Id,
    eligibility: Eligibility, reasons: seq<GatewayReason>, policyVersion: string,
    simulation: SimulationState, execution: ExecutionState, decidedAt: string)

  /** The event identifier is a UUID v5 of scope, plan and event type, so it is not stored twice. */
  datatype GatewayEvent = GatewayEvent(
    planId: Id, gatewayDecisionId: Id, kind: EventType, occurredAt: string, tenant: Id, project: Id,
    sourceRecordId: Id, shadowReceiptId: Id)

  datatype PlanBody = PlanBody(
    planId: Id, envelopeId: Id, authorityDecisionId: Id, requestedAction: Json, actionHash: ActionHash,
    expectedEffects: seq<string>, rollbackStrategy: Json, tenant: Id, project: Id,
    eligibility: Eligibility, executed: bool, externalSideEffects: bool, connectorInvoked: bool,
    execution: ExecutionState, policyVersion: string)

  datatype ShadowReceipt = ShadowReceipt(
    receiptId: Id, planId: Id, executed: bool, externalSideEffects: bool, connectorInvoked: bool,
    plan: PlanBody, planSignature: Signature<PlanBody>, simulatedAt: string)

  datatype AssessmentState = MATCHED | ASSESSED_DEVIATED | ASSESSED_NOT_EVALUATED
  datatype OutcomeState = CONSISTENT | DEVIATED | NOT_EVALUATED

  datatype EffectAssessment = EffectAssessment(
    expectedEffect: string, simulatedObservation: string, state: AssessmentState, details: Json)

  datatype OutcomeBody = OutcomeBody(
    outcomeId: Id, planId: Id, shadowReceiptId: Id, envelopeId: Id, authorityDecisionId: Id, tenant: Id,
    project: Id, recordedBy: Id, assessments: seq<EffectAssessment>, outcomeState: OutcomeState,
    metrics: Json, limitations: seq<string>, shadowOrigin: bool, executed: bool,
    externalSideEffects: bool, connectorInvoked: bool, execution: ExecutionState,
    sourceReceiptHash: ReceiptHash, recordedAt: string)

  /** A stored outcome repeats, outside the signature, every field of the signed body. */
  datatype ShadowOutcome = ShadowOutcome(
    fields: OutcomeBody, signed: OutcomeBody, signature: Signature<OutcomeBody>)

  datatype Label =
    | EnvelopeLabel | AuthorityLabel | RequestLabel | GatewayLabel | ReceiptLabel | OutcomeLabel
  datatype PolicyField = HavPolicy | AuthorityPolicy | GatewayPolicy | OutcomePolicy
  datatype ProtocolField = CoreVersion | GrdiVersion | ProtocolVersion | OutcomeLedgerVersion | ReplayAuditVersion

  datatype IdentityField = SubjectField | DomainField | DecisionTypeField

  /** A replay manifest without its chain heads: the part that manifest_hash covers. */
  datatype Snapshot = Snapshot(
    envelopeId: Id, authorityDecisionId: Id, planId: Id, gatewayDecisionId: Id, shadowReceiptId: Id,
    outcomeId: Id, scope: Scope, recordHashes: map<Label, PayloadHash>,
    policyVersions: map<PolicyField, string>, protocolVersions: map<ProtocolField, string>,
    identity: map<IdentityField, string>, outcome: Option<OutcomeState>)

  datatype Manifest = Manifest(snapshot: Snapshot, chainHeads: map<Collection, Option<ChainHash>>)

  datatype ReplayState = REPRODUCED | DRIFTED | INCOMPLETE | INVALID

  /** The checks of a replay: each fails for one reason, except those on receipt and outcome. */
  datatype Check =
    | LedgerChain | SignerNotConfigured | HavSignatureInvalid | EnvelopeScopeMismatch | AuthorityEnvelopeMismatch
    | GatewayPlanMismatch | ShadowReceiptInvalid | ShadowOutcomeInvalid | PlanEnvelopeMismatch | PlanAuthorityMismatch
    | OutcomeReceiptMismatch | OutcomePlanMismatch | RequestTenantMismatch | RequestProjectMismatch

  datatype CheckStatus = CheckInvalid(check: Check) | CheckIncomplete(missing: seq<Label>)

  datatype DriftReason =
    | RecordHashChanged(tag: Label) | PolicyVersionChanged(policy: PolicyField)
    | ProtocolVersionChanged(protocol: ProtocolField) | IdentityChanged(field: IdentityField) | OutcomeSnapshotChanged
    | PriorReplayInvalid(replayId: Id)

  datatype ReplayBody = ReplayBody(
    replayId: Id, planId: Id, outcomeId: Id, scope: Scope, requestedBy: Id, manifest: Manifest,
    manifestHash: ManifestHash, state: ReplayState, validation: seq<CheckStatus>,
    driftReasons: seq<DriftReason>, anythingExecuted: bool, execution: ExecutionState,
    createdAt: string)

  /** A stored report repeats, outside the signature, every field of the signed body. */
  datatype ReplayReport = ReplayReport(
    fields: ReplayBody, signed: ReplayBody, signature: Signature<ReplayBody>)

  datatype ComparisonState = EQUIVALENT | DIFFERENT | NOT_COMPARABLE | COMPARISON_INVALID

  datatype StructuralField =
    | EnvelopeIdField | AuthorityIdField | PlanIdField | GatewayIdField | ReceiptIdField | OutcomeIdField
  datatype StructuralDiff =
    | FieldDiff(field: StructuralField, baseline: Id, candidate: Id)
    | StateDiff(baselineState: ReplayState, candidateState: ReplayState)
  datatype EntryDiff<K, V> = EntryDiff(key: K, baseline: Option<V>, candidate: Option<V>)
  datatype OutcomeDiff = OutcomeDiff(baseline: Option<OutcomeState>, candidate: Option<OutcomeState>)

  datatype Delta = Delta(
    state: ComparisonState, structural: seq<StructuralDiff>, hashes: seq<EntryDiff<Label, PayloadHash>>,
    policies: seq<EntryDiff<PolicyField, string>>, outcomes: seq<OutcomeDiff>)

  datatype ComparisonBody = ComparisonBody(
    comparisonId: Id, baselineReplayId: Id, candidateReplayId: Id, scope: Scope, requestedBy: Id,
    delta: Delta, comparisonKey: ComparisonHash, createdAt: string)

  datatype HistoricalComparison = HistoricalComparison(
    fields: ComparisonBody, signed: ComparisonBody, signature: Signature<ComparisonBody>)

  // ---------------------------------------------------------------- the stored record

  datatype Record =
    | EnvelopeRecord(envelope: DecisionEnvelope)
    | AuthorityRecord(authority: AuthorityDecision)
    | RequestRecord(request: ExecutionRequest)
    | GatewayRecord(gateway: GatewayDecision)
    | EventRecord(event: GatewayEvent)
    | ReceiptRecord(receipt: ShadowReceipt)
    | OutcomeRecord(outcome: ShadowOutcome)
    | ReplayRecord(report: ReplayReport)
    | ComparisonRecord(comparison: HistoricalComparison)
    | OtherRecord(ids: map<Collection, Id>, document: Json)
    /** What loading two reports hands to a comparison; it has no identifier, so it is never stored. */
    | ReportPair(baseline: ReplayReport, candidate: ReplayReport)

  datatype RecordId = PlainId(id: Id) | EventUuid(planId: Id, kind: EventType)

  /** extract_record_id: the collection's identifier field of the record, if it has one. */
  function ExtractRecordId(c: Collection, r: Record): Option<RecordId> {
    match r
    case OtherRecord(ids, _) => if c in ids then Some(PlainId(ids[c])) else None
    case EnvelopeRecord(e) =>
      if c.DecisionEnvelopes? then Some(PlainId(e.envelopeId)) else None
    case AuthorityRecord(a) =>
      if c.DecisionEnvelopes? then Some(PlainId(a.envelopeId))
      else if c.AuthorityDecisions? then Some(PlainId(a.authorityDecisionId))
      else None
    case RequestRecord(q) =>
      if c.DecisionEnvelopes? then Some(PlainId(q.envelopeId))
      else if c.AuthorityDecisions? then Some(PlainId(q.authorityDecisionId))
      else if c.ExecutionRequests? then Some(PlainId(q.planId))
      else None
    case GatewayRecord(g) =>
      if c.DecisionEnvelopes? then Some(PlainId(g.envelopeId))
      else if c.AuthorityDecisions? then Some(PlainId(g.authorityDecisionId))
      else if c.ExecutionRequests? then Some(PlainId(g.planId))
      else if c.GatewayDecisions? then Some(PlainId(g.gatewayDecisionId))
      else None
    case EventRecord(e) =>
      if c.ExecutionRequests? then Some(PlainId(e.planId))
      else if c.GatewayDecisions? then Some(PlainId(e.gatewayDecisionId))
      else if c.GatewayDecisionEvents? then Some(EventUuid(e.planId, e.kind))
      else None
    case ReceiptRecord(s) =>
      if c.ExecutionRequests? then Some(PlainId(s.planId))
      else if c.ShadowExecutionReceipts? then Some(PlainId(s.receiptId))
      else None
    case OutcomeRecord(o) =>
      if c.DecisionEnvelopes? then Some(PlainId(o.fields.envelopeId))
      else if c.AuthorityDecisions? then Some(PlainId(o.fields.authorityDecisionId))
      else if c.ExecutionRequests? then Some(PlainId(o.fields.planId))
      else if c.ShadowOutcomes? || c.Outcomes? then Some(PlainId(o.fields.outcomeId))
      else None
    case ReplayRecord(p) =>
      if c.ExecutionRequests? then Some(PlainId(p.fields.planId))
      else if c.ShadowOutcomes? || c.Outcomes? then Some(PlainId(p.fields.outcomeId))
      else if c.ReplayReports? then Some(PlainId(p.fields.replayId))
      else None
    case ComparisonRecord(h) =>
      if c.HistoricalComparisons? then Some(PlainId(h.fields.comparisonId)) else None
    case ReportPair(_, _) => None
  }
}
