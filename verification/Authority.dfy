/** The authority engine (grdi/authority.py): a fail-closed decision that never grants execution. */
module Authority {
  import opened Signing
  import opened Models

  const GRDI_POLICY_VERSION := "1.0.0"

  // ---------------------------------------------------------------- what a decision means

  /** The envelope carries a PASS receipt that this signer produced for the envelope's own scope. */
  predicate HavPasses(signer: Option<Signer>, e: DecisionEnvelope) {
    && signer.Some?
    && e.havSignature == Sign(signer.value, e.havReceipt)
    && e.havReceipt.tenant == Some(e.tenant)
    && e.havReceipt.project == Some(e.project)
    && e.havReceipt.verdict.PASS?
  }

  predicate HighRisk(e: DecisionEnvelope) {
    e.riskLevel.High? || e.riskLevel.Critical?
  }

  predicate AllApproved(approvals: seq<Approval>) {
    forall a :: a in approvals ==> a.approved
  }

  predicate ApprovedBy(approvals: seq<Approval>, who: Id) {
    exists a :: a in approvals && a.approver == who
  }

  /** Who may authorise an envelope whose receipt passes. */
  predicate MayAuthorize(e: DecisionEnvelope, subject: Id, role: Id, approvals: seq<Approval>) {
    && subject != e.proposedBy
    && (role == e.requiredAuthority || role == "admin")
    && AllApproved(approvals)
    && (HighRisk(e) ==> approvals != [])
    && !ApprovedBy(approvals, e.proposedBy)
  }

  /** Everything else is right, but a high-risk envelope has no approvals yet. */
  predicate LacksApproval(e: DecisionEnvelope, subject: Id, role: Id, approvals: seq<Approval>) {
    && subject != e.proposedBy
    && (role == e.requiredAuthority || role == "admin")
    && approvals == []
    && HighRisk(e)
  }

  predicate NeedsReview(signer: Option<Signer>, e: DecisionEnvelope) {
    && signer.Some?
    && e.havSignature == Sign(signer.value, e.havReceipt)
    && (e.havReceipt.verdict.WARN? || e.havReceipt.verdict.HUMAN_REVIEW?)
  }

  // ---------------------------------------------------------------- the decision as a value

  function ReceiptReasons(signer: Option<Signer>, e: DecisionEnvelope): seq<AuthorityReason> {
    if signer.None? then [ReceiptSignerNotConfigured]
    else if !VerifySignature(signer.value, e.havReceipt, e.havSignature) then [InvalidHavReceiptSignature]
    else
      var scope :=
        (if e.havReceipt.tenant != Some(e.tenant) then [HavReceiptTenantMismatch] else [])
        + (if e.havReceipt.project != Some(e.project) then [HavReceiptProjectMismatch] else []);
      var verdict := e.havReceipt.verdict;
      scope + match verdict
        case PASS => if scope == [] then [] else [UnsupportedHavVerdict]
        case WARN => [HavVerdictRequiresReview(verdict)]
        case HUMAN_REVIEW => [HavVerdictRequiresReview(verdict)]
        case REJECT => [HavVerdictBlocks(verdict)]
        case SOURCE_UNAVAILABLE => [HavVerdictBlocks(verdict)]
        case OtherVerdict(_) => [UnsupportedHavVerdict]
  }

  function SubjectReasons(e: DecisionEnvelope, subject: Id, role: Id, approvals: seq<Approval>): seq<AuthorityReason> {
    if subject == e.proposedBy then [SelfAuthorizationForbidden]
    else if role != e.requiredAuthority && role != "admin" then [RequiredAuthorityMissing]
    else if !AllApproved(approvals) then [ApprovalRejected]
    else if HighRisk(e) && approvals == [] then [HumanApprovalRequired]
    else if ApprovedBy(approvals, e.proposedBy) then [ProposerApprovalForbidden]
    else []
  }

  /** AuthorityEngine.evaluate, for a given identifier and time. */
  function Decide(signer: Option<Signer>, e: DecisionEnvelope, subject: Id, role: Id, approvals: seq<Approval>,
                  id: Id, now: string): AuthorityDecision
  {
    var verified := HavPasses(signer, e);
    var reasons := ReceiptReasons(signer, e) + if verified then SubjectReasons(e, subject, role, approvals) else [];
    var authorization :=
      if verified && reasons == [] then AUTHORIZED
      else if NeedsReview(signer, e) || HumanApprovalRequired in reasons then REQUIRES_APPROVAL
      else NOT_AUTHORIZED;
    AuthorityDecision(id, e.envelopeId, subject, role, if verified then VERIFIED else NOT_VERIFIED, authorization,
                      NOT_EXECUTABLE, NOT_EXECUTED, GRDI_POLICY_VERSION, reasons, approvals, now)
  }

  /** The decision is AUTHORIZED exactly when the receipt passes and this authority may authorise; a
    * review is asked for exactly on a WARN or HUMAN_REVIEW receipt or a high-risk envelope without
    * approvals; and a decision gives no reasons exactly when it authorises. */
  lemma DecisionIsFailClosed(signer: Option<Signer>, e: DecisionEnvelope, subject: Id, role: Id,
                             approvals: seq<Approval>, id: Id, now: string)
    ensures
      var d := Decide(signer, e, subject, role, approvals, id, now);
      && (d.verification.VERIFIED? <==> HavPasses(signer, e))
      && (d.authorization.AUTHORIZED? <==> HavPasses(signer, e) && MayAuthorize(e, subject, role, approvals))
      && (d.authorization.REQUIRES_APPROVAL? <==>
            NeedsReview(signer, e) || (HavPasses(signer, e) && LacksApproval(e, subject, role, approvals)))
      && (d.reasons == [] <==> d.authorization.AUTHORIZED?)
      && d.executability.NOT_EXECUTABLE? && d.execution.NOT_EXECUTED?
  {
    var d := Decide(signer, e, subject, role, approvals, id, now);
    if HavPasses(signer, e) {
      VerifiesExactlySigned(signer.value, e.havReceipt, e.havSignature);
      assert d.reasons == SubjectReasons(e, subject, role, approvals);
    } else {
      assert ReceiptReasons(signer, e) != [];
      assert HumanApprovalRequired !in ReceiptReasons(signer, e);
    }
  }

  /** Each reason is given exactly when its check fails and no check before it stopped the evaluation. */
  lemma ReasonsExactly(signer: Option<Signer>, e: DecisionEnvelope, subject: Id, role: Id, approvals: seq<Approval>,
                       id: Id, now: string)
    ensures
      var reasons := Decide(signer, e, subject, role, approvals, id, now).reasons;
      var hav := e.havReceipt;
      var signed := signer.Some? && e.havSignature == Sign(signer.value, hav);
      var scoped := hav.tenant == Some(e.tenant) && hav.project == Some(e.project);
      && (ReceiptSignerNotConfigured in reasons <==> signer.None?)
      && (InvalidHavReceiptSignature in reasons <==> signer.Some? && e.havSignature != Sign(signer.value, hav))
      && (HavReceiptTenantMismatch in reasons <==> signed && hav.tenant != Some(e.tenant))
      && (HavReceiptProjectMismatch in reasons <==> signed && hav.project != Some(e.project))
      && (forall v :: HavVerdictRequiresReview(v) in reasons <==> signed && v == hav.verdict && (v.WARN? || v.HUMAN_REVIEW?))
      && (forall v :: HavVerdictBlocks(v) in reasons <==> signed && v == hav.verdict && (v.REJECT? || v.SOURCE_UNAVAILABLE?))
      && (UnsupportedHavVerdict in reasons <==> signed && (hav.verdict.OtherVerdict? || (hav.verdict.PASS? && !scoped)))
    ensures
      var reasons := Decide(signer, e, subject, role, approvals, id, now).reasons;
      var hav := e.havReceipt;
      var passes := && signer.Some? && e.havSignature == Sign(signer.value, hav)
                    && hav.tenant == Some(e.tenant) && hav.project == Some(e.project) && hav.verdict.PASS?;
      var entitled := subject != e.proposedBy && (role == e.requiredAuthority || role == "admin");
      var rejected := exists a :: a in approvals && !a.approved;
      var waiting := (e.riskLevel.High? || e.riskLevel.Critical?) && approvals == [];
      && (SelfAuthorizationForbidden in reasons <==> passes && subject == e.proposedBy)
      && (RequiredAuthorityMissing in reasons <==>
            passes && subject != e.proposedBy && role != e.requiredAuthority && role != "admin")
      && (ApprovalRejected in reasons <==> passes && entitled && rejected)
      && (HumanApprovalRequired in reasons <==> passes && entitled && waiting)
      && (ProposerApprovalForbidden in reasons <==>
            passes && entitled && !rejected && exists a :: a in approvals && a.approver == e.proposedBy)
  {
    hide ReceiptReasons, SubjectReasons, AllApproved;
    FirstReasons(signer, e);
    LaterReasons(e, subject, role, approvals);
  }

  lemma FirstReasons(signer: Option<Signer>, e: DecisionEnvelope)
    ensures
      var reasons := ReceiptReasons(signer, e);
      var hav := e.havReceipt;
      var signed := signer.Some? && e.havSignature == Sign(signer.value, hav);
      var scoped := hav.tenant == Some(e.tenant) && hav.project == Some(e.project);
      forall r :: r in reasons <==>
        match r
        case ReceiptSignerNotConfigured => signer.None?
        case InvalidHavReceiptSignature => signer.Some? && e.havSignature != Sign(signer.value, hav)
        case HavReceiptTenantMismatch => signed && hav.tenant != Some(e.tenant)
        case HavReceiptProjectMismatch => signed && hav.project != Some(e.project)
        case HavVerdictRequiresReview(v) => signed && v == hav.verdict && (v.WARN? || v.HUMAN_REVIEW?)
        case HavVerdictBlocks(v) => signed && v == hav.verdict && (v.REJECT? || v.SOURCE_UNAVAILABLE?)
        case UnsupportedHavVerdict => signed && (hav.verdict.OtherVerdict? || (hav.verdict.PASS? && !scoped))
        case _ => false
  {
  }

  lemma LaterReasons(e: DecisionEnvelope, subject: Id, role: Id, approvals: seq<Approval>)
    ensures
      var entitled := subject != e.proposedBy && (role == e.requiredAuthority || role == "admin");
      var rejected := exists a :: a in approvals && !a.approved;
      var waiting := (e.riskLevel.High? || e.riskLevel.Critical?) && approvals == [];
      forall r :: r in SubjectReasons(e, subject, role, approvals) <==>
        match r
        case SelfAuthorizationForbidden => subject == e.proposedBy
        case RequiredAuthorityMissing => subject != e.proposedBy && role != e.requiredAuthority && role != "admin"
        case ApprovalRejected => entitled && rejected
        case HumanApprovalRequired => entitled && waiting
        case ProposerApprovalForbidden => entitled && !rejected && exists a :: a in approvals && a.approver == e.proposedBy
        case _ => false
  {
  }

  // ---------------------------------------------------------------- the engine

  method AnyRejected(approvals: seq<Approval>) returns (found: bool)
    ensures found <==> !AllApproved(approvals)
  {
    for i := 0 to |approvals|
      invariant forall j :: 0 <= j < i ==> approvals[j].approved
    {
      if !approvals[i].approved { return true; }
    }
    found := false;
  }

  method AnyApprover(approvals: seq<Approval>, who: Id) returns (found: bool)
    ensures found <==> ApprovedBy(approvals, who)
  {
    for i := 0 to |approvals|
      invariant forall j :: 0 <= j < i ==> approvals[j].approver != who
    {
      if approvals[i].approver == who { return true; }
    }
    found := false;
  }

  /** AuthorityEngine.evaluate as written: states and reasons updated branch by branch. */
  method Evaluate(signer: Option<Signer>, e: DecisionEnvelope, subject: Id, role: Id, approvals: seq<Approval>,
                  id: Id, now: string)
    returns (d: AuthorityDecision)
    ensures d == Decide(signer, e, subject, role, approvals, id, now)
    ensures d.authorization.AUTHORIZED? <==> HavPasses(signer, e) && MayAuthorize(e, subject, role, approvals)
  {
    var reasons: seq<AuthorityReason> := [];
    var verification := NOT_VERIFIED;
    var authorization := NOT_AUTHORIZED;
    if signer.None? {
      reasons := reasons + [ReceiptSignerNotConfigured];
    } else if !VerifySignature(signer.value, e.havReceipt, e.havSignature) {
      reasons := reasons + [InvalidHavReceiptSignature];
    } else {
      if e.havReceipt.tenant != Some(e.tenant) { reasons := reasons + [HavReceiptTenantMismatch]; }
      if e.havReceipt.project != Some(e.project) { reasons := reasons + [HavReceiptProjectMismatch]; }
      var verdict := e.havReceipt.verdict;
      if verdict.PASS? && reasons == [] {
        verification := VERIFIED;
      } else if verdict.WARN? || verdict.HUMAN_REVIEW? {
        reasons := reasons + [HavVerdictRequiresReview(verdict)];
        authorization := REQUIRES_APPROVAL;
      } else if verdict.REJECT? || verdict.SOURCE_UNAVAILABLE? {
        reasons := reasons + [HavVerdictBlocks(verdict)];
      } else {
        reasons := reasons + [UnsupportedHavVerdict];
      }
    }
    assert reasons == ReceiptReasons(signer, e);
    assert verification.VERIFIED? <==> HavPasses(signer, e);
    if verification.VERIFIED? {
      var rejected := AnyRejected(approvals);
      var byProposer := AnyApprover(approvals, e.proposedBy);
      if subject == e.proposedBy {
        reasons := reasons + [SelfAuthorizationForbidden];
      } else if role != e.requiredAuthority && role != "admin" {
        reasons := reasons + [RequiredAuthorityMissing];
      } else if rejected {
        reasons := reasons + [ApprovalRejected];
      } else if HighRisk(e) && approvals == [] {
        reasons := reasons + [HumanApprovalRequired];
        authorization := REQUIRES_APPROVAL;
      } else if byProposer {
        reasons := reasons + [ProposerApprovalForbidden];
      } else {
        authorization := AUTHORIZED;
      }
    }
    DecisionIsFailClosed(signer, e, subject, role, approvals, id, now);
    d := AuthorityDecision(id, e.envelopeId, subject, role, verification, authorization, NOT_EXECUTABLE,
                           NOT_EXECUTED, GRDI_POLICY_VERSION, reasons, approvals, now);
  }
}
