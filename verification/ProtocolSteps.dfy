/** The steps of the governance protocol (grdi/service.py): what each call reads first, and the scoped
  * transaction it then runs.
  *
  * The reads before a transaction see some earlier committed store; the transaction sees the store at
  * its place in the commit order.
  */
module ProtocolSteps {
  import opened Signing
  import opened Models
  import opened ScopedStore
  import opened Sessions
  import opened SessionRules
  import opened LedgerOps
  import opened Authority
  import opened Gateway
  import opened Outcomes
  import opened Replay
  import opened Comparison

  // ---------------------------------------------------------------- records by key

  function RecordAt(s: Store, scope: Scope, c: Collection, key: CKey): Option<Record> {
    var k := Key(Group(scope, c), key);
    if k in s.rows then Some(s.rows[k].payload.record) else None
  }

  function EnvelopeAt(s: Store, scope: Scope, id: Id): Option<DecisionEnvelope> {
    match RecordAt(s, scope, DecisionEnvelopes, Name(id))
    case Some(EnvelopeRecord(e)) => Some(e)
    case _ => None
  }

  function AuthorityAt(s: Store, scope: Scope, id: Id): Option<AuthorityDecision> {
    match RecordAt(s, scope, AuthorityDecisions, Name(id))
    case Some(AuthorityRecord(a)) => Some(a)
    case _ => None
  }

  function RequestAt(s: Store, scope: Scope, planId: Id): Option<ExecutionRequest> {
    match RecordAt(s, scope, ExecutionRequests, Name(planId))
    case Some(RequestRecord(q)) => Some(q)
    case _ => None
  }

  function GatewayAt(s: Store, scope: Scope, planId: Id): Option<GatewayDecision> {
    match RecordAt(s, scope, GatewayDecisions, Name(planId))
    case Some(GatewayRecord(g)) => Some(g)
    case _ => None
  }

  function EventAt(s: Store, scope: Scope, planId: Id, kind: EventType): Option<GatewayEvent> {
    match RecordAt(s, scope, GatewayDecisionEvents, EventKey(planId, kind))
    case Some(EventRecord(v)) => Some(v)
    case _ => None
  }

  function ReceiptAt(s: Store, scope: Scope, planId: Id): Option<ShadowReceipt> {
    match RecordAt(s, scope, ShadowExecutionReceipts, Name(planId))
    case Some(ReceiptRecord(r)) => Some(r)
    case _ => None
  }

  function OutcomeAt(s: Store, scope: Scope, receiptId: Id): Option<ShadowOutcome> {
    match RecordAt(s, scope, ShadowOutcomes, Name(receiptId))
    case Some(OutcomeRecord(o)) => Some(o)
    case _ => None
  }

  function ReportAt(s: Store, scope: Scope, hash: ManifestHash): Option<ReplayReport> {
    match RecordAt(s, scope, ReplayReports, ManifestKey(hash))
    case Some(ReplayRecord(p)) => Some(p)
    case _ => None
  }

  // ---------------------------------------------------------------- events

  function CreatedEvent(scope: Scope, q: ExecutionRequest, g: GatewayDecision): GatewayEvent {
    GatewayEvent(q.planId, g.gatewayDecisionId, GatewayDecisionCreated, g.decidedAt, scope.tenant, scope.project,
                 g.gatewayDecisionId, "")
  }

  function SimulationEvent(scope: Scope, planId: Id, g: GatewayDecision, r: ShadowReceipt): GatewayEvent {
    GatewayEvent(planId, g.gatewayDecisionId, SimulationRecorded, r.simulatedAt, scope.tenant, scope.project,
                 r.receiptId, r.receiptId)
  }

  /** project_gateway_state over the events of one plan: SIMULATED once a simulation was recorded. */
  predicate ProjectsSimulated(rows: seq<Row>, planId: Id) {
    exists row :: row in rows && row.payload.record.EventRecord? && row.payload.record.event.planId == planId
      && row.payload.record.event.kind.SimulationRecorded?
  }

  // ---------------------------------------------------------------- register and authorize

  function RegisterCommit(e: DecisionEnvelope): Prog {
    Put(DecisionEnvelopes, Name(e.envelopeId), EnvelopeRecord(e), (_: Record) => Return(EnvelopeRecord(e)))
  }

  function AuthorizeCommit(envelopeId: Id, a: AuthorityDecision): Prog {
    Fetch(DecisionEnvelopes, Name(envelopeId), (_: Record) => PutAuthority(a))
  }

  function PutAuthority(a: AuthorityDecision): Prog {
    Put(AuthorityDecisions, Name(a.authorityDecisionId), AuthorityRecord(a), (_: Record) => Return(AuthorityRecord(a)))
  }

  // ---------------------------------------------------------------- create_execution_plan

  function PlanCommit(scope: Scope, q: ExecutionRequest, g: GatewayDecision): Prog {
    Fetch(DecisionEnvelopes, Name(q.envelopeId), (_: Record) => PlanAfterEnvelope(scope, q, g))
  }

  function PlanAfterEnvelope(scope: Scope, q: ExecutionRequest, g: GatewayDecision): Prog {
    Fetch(AuthorityDecisions, Name(q.authorityDecisionId), (_: Record) => PutRequest(scope, q, g))
  }

  function PutRequest(scope: Scope, q: ExecutionRequest, g: GatewayDecision): Prog {
    Put(ExecutionRequests, Name(q.planId), RequestRecord(q), (_: Record) => PutGateway(scope, q, g))
  }

  function PutGateway(scope: Scope, q: ExecutionRequest, g: GatewayDecision): Prog {
    Put(GatewayDecisions, Name(q.planId), GatewayRecord(g), (_: Record) => PutCreated(scope, q, g))
  }

  function PutCreated(scope: Scope, q: ExecutionRequest, g: GatewayDecision): Prog {
    Put(GatewayDecisionEvents, EventKey(q.planId, GatewayDecisionCreated), EventRecord(CreatedEvent(scope, q, g)),
        (_: Record) => Return(GatewayRecord(g)))
  }

  // ---------------------------------------------------------------- simulate_execution_plan

  datatype SimulateArgs = SimulateArgs(scope: Scope, planId: Id, receiptId: Id, now: string)

  function SimulateCommit(signer: Option<Signer>, args: SimulateArgs): Prog {
    Fetch(ExecutionRequests, Name(args.planId), (r: Record) =>
      if r.RequestRecord? then SimulateAfterRequest(signer, args, r.request) else Raise(KeyError))
  }

  function SimulateAfterRequest(signer: Option<Signer>, args: SimulateArgs, q: ExecutionRequest): Prog {
    Fetch(GatewayDecisions, Name(args.planId), (r: Record) =>
      if r.GatewayRecord? then SimulateAfterGateway(signer, args, q, r.gateway) else Raise(KeyError))
  }

  function SimulateAfterGateway(signer: Option<Signer>, args: SimulateArgs, q: ExecutionRequest, g: GatewayDecision): Prog {
    Lookup(ShadowExecutionReceipts, Name(args.planId), (p: Option<Payload>) =>
      match p
      case Some(payload) => CheckReceipt(signer, args, q, g, payload.record)
      case None => SimulateFresh(signer, args, q, g))
  }

  function SimulateFresh(signer: Option<Signer>, args: SimulateArgs, q: ExecutionRequest, g: GatewayDecision): Prog {
    Fetch(AuthorityDecisions, Name(q.authorityDecisionId), (r: Record) =>
      if r.AuthorityRecord? then SimulateAfterAuthority(signer, args, q, g, r.authority) else Raise(KeyError))
  }

  function SimulateAfterAuthority(signer: Option<Signer>, args: SimulateArgs, q: ExecutionRequest, g: GatewayDecision,
                                  a: AuthorityDecision): Prog
  {
    Fetch(DecisionEnvelopes, Name(q.envelopeId), (r: Record) =>
      if r.EnvelopeRecord? then PutReceipt(signer, args, q, g, a, r.envelope) else Raise(KeyError))
  }

  /** The gateway is evaluated again before it simulates. */
  function PutReceipt(signer: Option<Signer>, args: SimulateArgs, q: ExecutionRequest, g: GatewayDecision,
                      a: AuthorityDecision, e: DecisionEnvelope): Prog
  {
    match Simulate(signer, e, a, q, Judge(e, a, q, args.scope, "", args.now), args.receiptId, args.now)
    case None => Raise(ValueError)
    case Some(receipt) =>
      Put(ShadowExecutionReceipts, Name(args.planId), ReceiptRecord(receipt), (r: Record) =>
        CheckReceipt(signer, args, q, g, r))
  }

  function CheckReceipt(signer: Option<Signer>, args: SimulateArgs, q: ExecutionRequest, g: GatewayDecision, r: Record): Prog {
    if r.ReceiptRecord? && ReceiptOk(signer, r.receipt, q) then PutSimulated(args, g, r.receipt) else Raise(ValueError)
  }

  /** _ensure_simulation_event. */
  function PutSimulated(args: SimulateArgs, g: GatewayDecision, r: ShadowReceipt): Prog {
    Put(GatewayDecisionEvents, EventKey(args.planId, SimulationRecorded),
        EventRecord(SimulationEvent(args.scope, args.planId, g, r)), (_: Record) => Return(ReceiptRecord(r)))
  }

  // ---------------------------------------------------------------- record_shadow_outcome

  datatype OutcomeArgs = OutcomeArgs(
    scope: Scope, planId: Id, recordedBy: Id, assessments: seq<EffectAssessment>, metrics: Json,
    limitations: seq<string>, outcomeId: Id, now: string)

  function OutcomeCommit(signer: Option<Signer>, args: OutcomeArgs, q: ExecutionRequest, r: ShadowReceipt): Prog {
    Lookup(ShadowOutcomes, Name(r.receiptId), (p: Option<Payload>) =>
      match p
      case Some(payload) => CheckOutcome(signer, q, r, payload.record)
      case None => PutOutcome(signer, args, q, r))
  }

  function NewOutcome(signer: Signer, args: OutcomeArgs, q: ExecutionRequest, r: ShadowReceipt): ShadowOutcome {
    SignedOutcome(signer, OutcomeBodyOf(q, r, args.scope, args.recordedBy, args.assessments, args.metrics,
                                        args.limitations, args.outcomeId, args.now))
  }

  function PutOutcome(signer: Option<Signer>, args: OutcomeArgs, q: ExecutionRequest, r: ShadowReceipt): Prog {
    if !AssessmentsOk(args.assessments) || signer.None? then Raise(ValueError)
    else
      Put(ShadowOutcomes, Name(r.receiptId), OutcomeRecord(NewOutcome(signer.value, args, q, r)), (stored: Record) =>
        CheckOutcome(signer, q, r, stored))
  }

  function CheckOutcome(signer: Option<Signer>, q: ExecutionRequest, r: ShadowReceipt, record: Record): Prog {
    if record.OutcomeRecord? && OutcomeOk(signer, record.outcome, q, r) then Return(record) else Raise(ValueError)
  }

  // ---------------------------------------------------------------- calls

  datatype PlanArgs = PlanArgs(
    scope: Scope, envelopeId: Id, authorityId: Id, requestedBy: Id, action: Json, effects: seq<string>,
    rollback: Json, planId: Id, gatewayId: Id, requestedAt: string, decidedAt: string)

  datatype AuthorizeArgs = AuthorizeArgs(
    scope: Scope, envelopeId: Id, subject: Id, role: Id, approvals: seq<Approval>, authorityId: Id, now: string)

  /** One call of the service, with the identifiers and times it will draw. */
  datatype Call =
    | Register(envelope: DecisionEnvelope)
    | Authorize(authorize: AuthorizeArgs)
    | CreatePlan(create: PlanArgs)
    | SimulatePlan(simulate: SimulateArgs)
    | RecordOutcome(outcome: OutcomeArgs)
    | ReplayPlan(replay: ReplayArgs)
    | CompareReplays(compare: CompareArgs)

  datatype Ready = Ready(txn: Txn) | Refused(error: Error)

  function RequestOf(args: PlanArgs): ExecutionRequest {
    ExecutionRequest(args.planId, args.envelopeId, args.authorityId, args.scope.tenant, args.scope.project,
                     args.requestedBy, args.action, ActionHash(args.action), args.effects, args.rollback, args.requestedAt)
  }

  function EnvelopeScope(e: DecisionEnvelope): Scope {
    Scope(e.tenant, e.project)
  }

  function RegisterTxn(e: DecisionEnvelope): Txn {
    Txn(EnvelopeScope(e), EnvelopeLocks(EnvelopeScope(e), e.envelopeId), RegisterCommit(e), 1)
  }

  function AuthorizeTxn(args: AuthorizeArgs, a: AuthorityDecision): Txn {
    Txn(args.scope, AuthorityLocks(args.scope, args.envelopeId, a.authorityDecisionId), AuthorizeCommit(args.envelopeId, a), 2)
  }

  function PlanTxn(scope: Scope, q: ExecutionRequest, g: GatewayDecision): Txn {
    Txn(scope, PlanLocks(scope, q.envelopeId, q.authorityDecisionId, q.planId), PlanCommit(scope, q, g), 5)
  }

  function SimulateTxn(signer: Option<Signer>, args: SimulateArgs, q: ExecutionRequest): Txn {
    Txn(args.scope, SimulationLocks(args.scope, args.planId, q.authorityDecisionId), SimulateCommit(signer, args), 7)
  }

  function OutcomeTxn(signer: Option<Signer>, args: OutcomeArgs, q: ExecutionRequest, r: ShadowReceipt): Txn {
    Txn(args.scope, OutcomeLocks(args.scope, args.planId, r.receiptId), OutcomeCommit(signer, args, q, r), 2)
  }

  function SnapshotTxn(signer: Option<Signer>, args: ReplayArgs): Txn {
    Txn(args.scope, ReplaySnapshotLocks(args.scope, args.planId), SnapshotBody(signer, args), 8)
  }

  function ReplayTxn(signer: Option<Signer>, args: ReplayArgs, hash: ManifestHash): Txn {
    Txn(args.scope, ReplayLocks(args.scope, args.planId, hash), ReplayCommit(signer, args, hash), 10)
  }

  function LoadPairTxn(args: CompareArgs): Txn {
    Txn(args.scope, ComparisonSnapshotLocks(args.scope), LoadPair(args), 2)
  }

  function CompareTxn(signer: Option<Signer>, args: CompareArgs, baseline: ManifestHash, candidate: ManifestHash): Txn {
    Txn(args.scope, ComparisonLocks(args.scope, baseline, candidate, ComparisonHash(args.baselineId, args.candidateId)),
        CompareCommit(signer, args, baseline, candidate), 4)
  }

  // ---------------------------------------------------------------- the reads before a transaction

  function ReadyToAuthorize(signer: Option<Signer>, args: AuthorizeArgs, seen: Store): Ready {
    match EnvelopeAt(seen, args.scope, args.envelopeId)
    case None => Refused(KeyError)
    case Some(e) =>
      Ready(AuthorizeTxn(args, Decide(signer, e, args.subject, args.role, args.approvals, args.authorityId, args.now)))
  }

  function ReadyToPlan(args: PlanArgs, seen: Store): Ready {
    match (EnvelopeAt(seen, args.scope, args.envelopeId), AuthorityAt(seen, args.scope, args.authorityId))
    case (Some(e), Some(a)) =>
      var q := RequestOf(args);
      Ready(PlanTxn(args.scope, q, Judge(e, a, q, args.scope, args.gatewayId, args.decidedAt)))
    case _ => Refused(KeyError)
  }

  function ReadyToSimulate(signer: Option<Signer>, args: SimulateArgs, seen: Store): Ready {
    match RequestAt(seen, args.scope, args.planId)
    case None => Refused(KeyError)
    case Some(q) => Ready(SimulateTxn(signer, args, q))
  }

  /** The plan must project to SIMULATED from the first MAX_LIST_LIMIT events of the scope. */
  ghost function ReadyToRecord(signer: Option<Signer>, args: OutcomeArgs, seen: Store): Ready {
    var events := Page(Listing(GroupRows(seen, Group(args.scope, GatewayDecisionEvents))), MAX_LIST_LIMIT, 0);
    match (RequestAt(seen, args.scope, args.planId), GatewayAt(seen, args.scope, args.planId))
    case (Some(q), Some(g)) =>
      if !ProjectsSimulated(events, args.planId) || !g.execution.NOT_EXECUTED? then Refused(ValueError)
      else (
        match ReceiptAt(seen, args.scope, q.planId)
        case None => Refused(KeyError)
        case Some(r) => if ReceiptOk(signer, r, q) then Ready(OutcomeTxn(signer, args, q, r)) else Refused(ValueError))
    case _ => Refused(KeyError)
  }

  /** The snapshot transaction decides which manifest hash the persisting transaction locks. */
  ghost function ReadyToReplay(signer: Option<Signer>, args: ReplayArgs, seen: Store): Ready {
    if RequestAt(seen, args.scope, args.planId).None? then Refused(KeyError)
    else
      match RunTransaction(SnapshotTxn(signer, args), seen).0
      case Committed(ReplayRecord(report)) => Ready(ReplayTxn(signer, args, report.fields.manifestHash))
      case Committed(_) => Refused(KeyError)
      case Aborted(error) => Refused(error)
  }

  /** The load transaction decides which manifest hashes the persisting transaction locks. */
  ghost function ReadyToCompare(signer: Option<Signer>, args: CompareArgs, seen: Store): Ready {
    match RunTransaction(LoadPairTxn(args), seen).0
    case Committed(ReportPair(b, c)) => Ready(CompareTxn(signer, args, b.fields.manifestHash, c.fields.manifestHash))
    case Committed(_) => Refused(KeyError)
    case Aborted(error) => Refused(error)
  }

  ghost function Prepare(signer: Option<Signer>, call: Call, seen: Store): Ready {
    match call
    case Register(e) => Ready(RegisterTxn(e))
    case Authorize(args) => ReadyToAuthorize(signer, args, seen)
    case CreatePlan(args) => ReadyToPlan(args, seen)
    case SimulatePlan(args) => ReadyToSimulate(signer, args, seen)
    case RecordOutcome(args) => ReadyToRecord(signer, args, seen)
    case ReplayPlan(args) => ReadyToReplay(signer, args, seen)
    case CompareReplays(args) => ReadyToCompare(signer, args, seen)
  }

  /** A call whose reads saw `seen` and whose transaction ran on s. */
  ghost function Perform(signer: Option<Signer>, call: Call, seen: Store, s: Store): (Outcome, Store) {
    match Prepare(signer, call, seen)
    case Refused(error) => (Aborted(error), s)
    case Ready(txn) => RunTransaction(txn, s)
  }
}
