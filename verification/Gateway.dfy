/** The shadow execution gateway (grdi/execution_gateway.py): eligibility and simulation. */
module Gateway {
  import opened Signing
  import opened Models

  const GRDI_GATEWAY_POLICY_VERSION := "1.0.0"

  /** What makes a plan eligible for shadow execution. */
  predicate Eligible(e: DecisionEnvelope, a: AuthorityDecision, q: ExecutionRequest, scope: Scope) {
    && Scope(e.tenant, e.project) == scope
    && Scope(q.tenant, q.project) == scope
    && a.envelopeId == e.envelopeId
    && q.envelopeId == e.envelopeId
    && q.authorityDecisionId == a.authorityDecisionId
    && a.authorization.AUTHORIZED?
    && a.verification.VERIFIED?
    && a.executability.NOT_EXECUTABLE?
    && a.execution.NOT_EXECUTED?
    && q.actionHash == ActionHash(q.requestedAction)
    && q.requestedAction == e.proposedAction
  }

  function AuthorizationReasons(a: AuthorityDecision): seq<GatewayReason> {
    match a.authorization
    case REQUIRES_APPROVAL => [AuthorityRequiresApproval]
    case NOT_AUTHORIZED => [AuthorityNotAuthorized]
    case AUTHORIZED => []
  }

  function When(condition: bool, reason: GatewayReason): seq<GatewayReason> {
    if condition then [reason] else []
  }

  function LinkReasons(e: DecisionEnvelope, a: AuthorityDecision, q: ExecutionRequest, scope: Scope): seq<GatewayReason> {
    When(Scope(e.tenant, e.project) != scope, ScopeMismatch)
    + When(Scope(q.tenant, q.project) != scope, RequestScopeMismatch)
    + When(a.envelopeId != e.envelopeId, EnvelopeAuthorityMismatch)
    + When(q.envelopeId != e.envelopeId, RequestEnvelopeMismatch)
    + When(q.authorityDecisionId != a.authorityDecisionId, RequestAuthorityMismatch)
  }

  function StateReasons(a: AuthorityDecision): seq<GatewayReason> {
    AuthorizationReasons(a)
    + When(a.verification.NOT_VERIFIED?, AuthorityNotVerified)
    + When(a.executability.EXECUTABLE?, UnexpectedExecutability)
    + When(a.execution.EXECUTED?, UnexpectedExecution)
  }

  function ActionReasons(e: DecisionEnvelope, q: ExecutionRequest): seq<GatewayReason> {
    When(q.actionHash != ActionHash(e.proposedAction), ActionHashMismatch)
    + When(ActionHash(q.requestedAction) != q.actionHash, RequestedActionHashInconsistent)
  }

  function Reasons(e: DecisionEnvelope, a: AuthorityDecision, q: ExecutionRequest, scope: Scope): seq<GatewayReason> {
    LinkReasons(e, a, q, scope) + StateReasons(a) + ActionReasons(e, q)
  }

  /** ExecutionGateway.evaluate, for a given identifier and time. */
  function Judge(e: DecisionEnvelope, a: AuthorityDecision, q: ExecutionRequest, scope: Scope, id: Id, now: string): GatewayDecision {
    var reasons := Reasons(e, a, q, scope);
    GatewayDecision(id, q.planId, e.envelopeId, a.authorityDecisionId,
                    if reasons == [] then ELIGIBLE_FOR_SHADOW else BLOCKED,
                    reasons, GRDI_GATEWAY_POLICY_VERSION, NOT_SIMULATED, NOT_EXECUTED, now)
  }

  /** A plan is eligible exactly when every link, state and action agrees. */
  lemma EligibleExactly(e: DecisionEnvelope, a: AuthorityDecision, q: ExecutionRequest, scope: Scope, id: Id, now: string)
    ensures Judge(e, a, q, scope, id, now).eligibility.ELIGIBLE_FOR_SHADOW? <==> Eligible(e, a, q, scope)
  {
    assert ActionHash(e.proposedAction).action == e.proposedAction;
  }

  /** Each reason is given exactly when its check fails. */
  lemma ReasonsExactly(e: DecisionEnvelope, a: AuthorityDecision, q: ExecutionRequest, scope: Scope, id: Id, now: string, r: GatewayReason)
    ensures r in Judge(e, a, q, scope, id, now).reasons <==>
      match r
      case ScopeMismatch => e.tenant != scope.tenant || e.project != scope.project
      case RequestScopeMismatch => q.tenant != scope.tenant || q.project != scope.project
      case EnvelopeAuthorityMismatch => a.envelopeId != e.envelopeId
      case RequestEnvelopeMismatch => q.envelopeId != e.envelopeId
      case RequestAuthorityMismatch => q.authorityDecisionId != a.authorityDecisionId
      case AuthorityRequiresApproval => a.authorization.REQUIRES_APPROVAL?
      case AuthorityNotAuthorized => a.authorization.NOT_AUTHORIZED?
      case AuthorityNotVerified => a.verification.NOT_VERIFIED?
      case UnexpectedExecutability => a.executability.EXECUTABLE?
      case UnexpectedExecution => a.execution.EXECUTED?
      case ActionHashMismatch => q.actionHash != ActionHash(e.proposedAction)
      case RequestedActionHashInconsistent => q.actionHash != ActionHash(q.requestedAction)
  {
    hide LinkReasons, StateReasons, ActionReasons;
    LinkReason(e, a, q, scope, r);
    StateReason(a, r);
    ActionReason(e, q, r);
  }

  lemma LinkReason(e: DecisionEnvelope, a: AuthorityDecision, q: ExecutionRequest, scope: Scope, r: GatewayReason)
    ensures r in LinkReasons(e, a, q, scope) <==>
      match r
      case ScopeMismatch => e.tenant != scope.tenant || e.project != scope.project
      case RequestScopeMismatch => q.tenant != scope.tenant || q.project != scope.project
      case EnvelopeAuthorityMismatch => a.envelopeId != e.envelopeId
      case RequestEnvelopeMismatch => q.envelopeId != e.envelopeId
      case RequestAuthorityMismatch => q.authorityDecisionId != a.authorityDecisionId
      case _ => false
  {
  }

  lemma StateReason(a: AuthorityDecision, r: GatewayReason)
    ensures r in StateReasons(a) <==>
      match r
      case AuthorityRequiresApproval => a.authorization.REQUIRES_APPROVAL?
      case AuthorityNotAuthorized => a.authorization.NOT_AUTHORIZED?
      case AuthorityNotVerified => a.verification.NOT_VERIFIED?
      case UnexpectedExecutability => a.executability.EXECUTABLE?
      case UnexpectedExecution => a.execution.EXECUTED?
      case _ => false
  {
  }

  lemma ActionReason(e: DecisionEnvelope, q: ExecutionRequest, r: GatewayReason)
    ensures r in ActionReasons(e, q) <==>
      match r
      case ActionHashMismatch => q.actionHash != ActionHash(e.proposedAction)
      case RequestedActionHashInconsistent => q.actionHash != ActionHash(q.requestedAction)
      case _ => false
  {
  }

  method CheckLinks(e: DecisionEnvelope, a: AuthorityDecision, q: ExecutionRequest, scope: Scope)
    returns (reasons: seq<GatewayReason>)
    ensures reasons == LinkReasons(e, a, q, scope)
  {
    reasons := [];
    if scope.tenant != e.tenant || scope.project != e.project { reasons := reasons + [ScopeMismatch]; }
    if q.tenant != scope.tenant || q.project != scope.project { reasons := reasons + [RequestScopeMismatch]; }
    assert reasons == When(Scope(e.tenant, e.project) != scope, ScopeMismatch) + When(Scope(q.tenant, q.project) != scope, RequestScopeMismatch);
    ghost var scopes := reasons;
    if a.envelopeId != e.envelopeId { reasons := reasons + [EnvelopeAuthorityMismatch]; }
    if q.envelopeId != e.envelopeId { reasons := reasons + [RequestEnvelopeMismatch]; }
    assert reasons == scopes + When(a.envelopeId != e.envelopeId, EnvelopeAuthorityMismatch)
                      + When(q.envelopeId != e.envelopeId, RequestEnvelopeMismatch);
    if q.authorityDecisionId != a.authorityDecisionId { reasons := reasons + [RequestAuthorityMismatch]; }
  }

  method CheckStates(a: AuthorityDecision) returns (reasons: seq<GatewayReason>)
    ensures reasons == StateReasons(a)
  {
    reasons := [];
    if a.authorization.REQUIRES_APPROVAL? {
      reasons := reasons + [AuthorityRequiresApproval];
    } else if a.authorization.NOT_AUTHORIZED? {
      reasons := reasons + [AuthorityNotAuthorized];
    }
    if a.verification.NOT_VERIFIED? { reasons := reasons + [AuthorityNotVerified]; }
    if a.executability.EXECUTABLE? { reasons := reasons + [UnexpectedExecutability]; }
    if a.execution.EXECUTED? { reasons := reasons + [UnexpectedExecution]; }
  }

  /** ExecutionGateway.evaluate: the reasons grow check by check, and any reason blocks. */
  method Evaluate(e: DecisionEnvelope, a: AuthorityDecision, q: ExecutionRequest, scope: Scope, id: Id, now: string)
    returns (g: GatewayDecision)
    ensures g == Judge(e, a, q, scope, id, now)
    ensures g.eligibility.ELIGIBLE_FOR_SHADOW? <==> Eligible(e, a, q, scope)
  {
    hide LinkReasons, StateReasons, Eligible;
    var links := CheckLinks(e, a, q, scope);
    var states := CheckStates(a);
    var reasons := links + states;
    if q.actionHash != ActionHash(e.proposedAction) { reasons := reasons + [ActionHashMismatch]; }
    if ActionHash(q.requestedAction) != q.actionHash { reasons := reasons + [RequestedActionHashInconsistent]; }
    assert reasons == Reasons(e, a, q, scope);
    EligibleExactly(e, a, q, scope, id, now);
    g := GatewayDecision(id, q.planId, e.envelopeId, a.authorityDecisionId,
                         if reasons == [] then ELIGIBLE_FOR_SHADOW else BLOCKED,
                         reasons, GRDI_GATEWAY_POLICY_VERSION, NOT_SIMULATED, NOT_EXECUTED, now);
  }

  // ---------------------------------------------------------------- simulation

  function NormalizedPlan(e: DecisionEnvelope, a: AuthorityDecision, q: ExecutionRequest, g: GatewayDecision): PlanBody {
    PlanBody(q.planId, e.envelopeId, a.authorityDecisionId, q.requestedAction, q.actionHash, q.expectedEffects,
             q.rollbackStrategy, q.tenant, q.project, g.eligibility, false, false, false, NOT_EXECUTED, g.policyVersion)
  }

  /** ExecutionGateway.simulate: the error, or a receipt over the signed plan. */
  function Simulate(signer: Option<Signer>, e: DecisionEnvelope, a: AuthorityDecision, q: ExecutionRequest,
                    g: GatewayDecision, id: Id, now: string): Option<ShadowReceipt>
  {
    if !g.eligibility.ELIGIBLE_FOR_SHADOW? || signer.None? then None
    else
      var plan := NormalizedPlan(e, a, q, g);
      Some(ShadowReceipt(id, q.planId, false, false, false, plan, Sign(signer.value, plan), now))
  }

  /** GRDIService._validate_shadow_receipt. */
  predicate ReceiptOk(signer: Option<Signer>, r: ShadowReceipt, q: ExecutionRequest) {
    && signer.Some?
    && VerifySignature(signer.value, r.plan, r.planSignature)
    && r.plan.planId == r.planId == q.planId
    && r.plan.envelopeId == q.envelopeId
    && r.plan.authorityDecisionId == q.authorityDecisionId
    && r.plan.actionHash == q.actionHash
    && r.plan.requestedAction == q.requestedAction
    && r.plan.tenant == q.tenant
    && r.plan.project == q.project
    && r.plan.expectedEffects == q.expectedEffects
    && r.plan.rollbackStrategy == q.rollbackStrategy
    && !r.executed && !r.externalSideEffects && !r.connectorInvoked
    && !r.plan.executed && !r.plan.externalSideEffects && !r.plan.connectorInvoked
  }

  /** Simulation succeeds exactly for an eligible plan and a configured signer, and its receipt passes
    * the validation that every later reader applies; no other plan's request accepts that receipt. */
  lemma SimulatedReceiptValidates(signer: Option<Signer>, e: DecisionEnvelope, a: AuthorityDecision,
                                  q: ExecutionRequest, scope: Scope, gid: Id, id: Id, now: string)
    ensures
      var r := Simulate(signer, e, a, q, Judge(e, a, q, scope, gid, now), id, now);
      && (r.Some? <==> signer.Some? && Eligible(e, a, q, scope))
      && (r.Some? ==> ReceiptOk(signer, r.value, q))
      && (forall q' :: r.Some? && ReceiptOk(signer, r.value, q') ==>
            && q'.planId == q.planId && q'.authorityDecisionId == q.authorityDecisionId
            && q'.requestedAction == e.proposedAction && Scope(q'.tenant, q'.project) == scope)
  {
    EligibleExactly(e, a, q, scope, gid, now);
  }

  /** A receipt is valid for a request exactly when it is the signer's receipt over the plan that the request asks
    * for, with nothing executed; only its id, its time and what the gateway said about the plan are free. */
  lemma ValidReceiptExactly(signer: Option<Signer>, r: ShadowReceipt, q: ExecutionRequest)
    ensures ReceiptOk(signer, r, q) <==>
      && signer.Some?
      && r == ShadowReceipt(r.receiptId, q.planId, false, false, false,
                            PlanBody(q.planId, q.envelopeId, q.authorityDecisionId, q.requestedAction, q.actionHash, q.expectedEffects,
                                     q.rollbackStrategy, q.tenant, q.project, r.plan.eligibility, false, false, false,
                                     r.plan.execution, r.plan.policyVersion),
                            Sign(signer.value, r.plan), r.simulatedAt)
  {
  }
}
