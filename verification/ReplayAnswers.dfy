/** The answers of replay and compare (grdi/service.py, grdi/replay.py): when a call commits, what the report or the
  * comparison then says, entry by entry from the stored rows, and which error it gives otherwise. */
module ReplayAnswers {
  import opened Signing
  import opened Models
  import opened ScopedStore
  import opened ScopedInvariant
  import opened Locks
  import opened Sessions
  import opened SessionRules
  import opened Authority
  import opened Gateway
  import opened Outcomes
  import opened LedgerOps
  import opened Replay
  import opened Comparison
  import opened ProtocolSteps
  import opened ProtocolLocks
  import opened ProtocolRecords
  import opened ProtocolInvariant
  import opened ReplayInvariant
  import opened ReplayStability
  import opened ProtocolAnswers
  import opened Unrolling

  // ---------------------------------------------------------------- the checks of a replay

  /** Each check is reported as invalid exactly when it fails. */
  lemma ChecksExactly(signer: Option<Signer>, src: Sources, scope: Scope, chainValid: bool, check: Check)
    requires WellTyped(src) && src.request.Some?
    ensures
      var q := src.request.value.record.request;
      CheckInvalid(check) in Validation(signer, src, scope, chainValid) <==>
        match check
        case LedgerChain => !chainValid
        case SignerNotConfigured => src.envelope.Some? && signer.None?
        case HavSignatureInvalid =>
          && src.envelope.Some? && signer.Some?
          && src.envelope.value.record.envelope.havSignature != Sign(signer.value, src.envelope.value.record.envelope.havReceipt)
        case EnvelopeScopeMismatch =>
          && src.envelope.Some? && signer.Some?
          && var e := src.envelope.value.record.envelope;
             e.havSignature == Sign(signer.value, e.havReceipt) && (e.tenant != scope.tenant || e.project != scope.project)
        case AuthorityEnvelopeMismatch => src.authority.Some? && src.authority.value.record.authority.envelopeId != q.envelopeId
        case GatewayPlanMismatch => src.gateway.Some? && src.gateway.value.record.gateway.planId != q.planId
        case ShadowReceiptInvalid => src.receipt.Some? && !ReceiptOk(signer, src.receipt.value.record.receipt, q)
        case ShadowOutcomeInvalid =>
          && src.receipt.Some? && src.outcome.Some?
          && !OutcomeOk(signer, src.outcome.value.record.outcome, q, src.receipt.value.record.receipt)
        case PlanEnvelopeMismatch => src.envelope.Some? && src.envelope.value.record.envelope.envelopeId != q.envelopeId
        case PlanAuthorityMismatch =>
          src.authority.Some? && src.authority.value.record.authority.authorityDecisionId != q.authorityDecisionId
        case OutcomeReceiptMismatch =>
          && src.receipt.Some? && src.outcome.Some?
          && src.outcome.value.record.outcome.fields.shadowReceiptId != src.receipt.value.record.receipt.receiptId
        case OutcomePlanMismatch => src.outcome.Some? && src.outcome.value.record.outcome.fields.planId != q.planId
        case RequestTenantMismatch => q.tenant != scope.tenant
        case RequestProjectMismatch => q.project != scope.project
  {
    hide HavChecks, RecordChecks, LinkChecks, ReceiptOk, OutcomeOk, Missing;
    HavCheck(signer, src.envelope, scope, check);
    RecordCheck(signer, src, check);
    LinkCheck(src, scope, check);
  }

  lemma HavCheck(signer: Option<Signer>, envelope: Option<Payload>, scope: Scope, check: Check)
    requires envelope.Some? ==> envelope.value.record.EnvelopeRecord?
    ensures CheckInvalid(check) in HavChecks(signer, envelope, scope) <==>
      && envelope.Some?
      && var e := envelope.value.record.envelope;
         match check
         case SignerNotConfigured => signer.None?
         case HavSignatureInvalid => signer.Some? && e.havSignature != Sign(signer.value, e.havReceipt)
         case EnvelopeScopeMismatch =>
           signer.Some? && e.havSignature == Sign(signer.value, e.havReceipt) && (e.tenant != scope.tenant || e.project != scope.project)
         case _ => false
  {
    if envelope.Some? && signer.Some? {
      VerifiesExactlySigned(signer.value, envelope.value.record.envelope.havReceipt, envelope.value.record.envelope.havSignature);
    }
  }

  lemma RecordCheck(signer: Option<Signer>, src: Sources, check: Check)
    requires WellTyped(src) && src.request.Some?
    ensures
      var q := src.request.value.record.request;
      CheckInvalid(check) in RecordChecks(signer, src) <==>
        match check
        case AuthorityEnvelopeMismatch => src.authority.Some? && src.authority.value.record.authority.envelopeId != q.envelopeId
        case GatewayPlanMismatch => src.gateway.Some? && src.gateway.value.record.gateway.planId != q.planId
        case ShadowReceiptInvalid => src.receipt.Some? && !ReceiptOk(signer, src.receipt.value.record.receipt, q)
        case ShadowOutcomeInvalid =>
          && src.receipt.Some? && src.outcome.Some?
          && !OutcomeOk(signer, src.outcome.value.record.outcome, q, src.receipt.value.record.receipt)
        case _ => false
  {
    hide ReceiptOk, OutcomeOk;
  }

  lemma LinkCheck(src: Sources, scope: Scope, check: Check)
    requires WellTyped(src) && src.request.Some?
    ensures
      var q := src.request.value.record.request;
      CheckInvalid(check) in LinkChecks(src, scope) <==>
        match check
        case PlanEnvelopeMismatch => src.envelope.Some? && src.envelope.value.record.envelope.envelopeId != q.envelopeId
        case PlanAuthorityMismatch =>
          src.authority.Some? && src.authority.value.record.authority.authorityDecisionId != q.authorityDecisionId
        case OutcomeReceiptMismatch =>
          && src.receipt.Some? && src.outcome.Some?
          && src.outcome.value.record.outcome.fields.shadowReceiptId != src.receipt.value.record.receipt.receiptId
        case OutcomePlanMismatch => src.outcome.Some? && src.outcome.value.record.outcome.fields.planId != q.planId
        case RequestTenantMismatch => q.tenant != scope.tenant
        case RequestProjectMismatch => q.project != scope.project
        case _ => false
  {
  }

  // ---------------------------------------------------------------- the checks of a governed plan

  /** What a replay of a plan of a governed ledger checks and finds: nothing but the labels of the rows that are not
    * there yet, a receipt of the envelope that the signer did not sign, and an authority decision on another envelope. */
  lemma GovernedChecks(signer: Option<Signer>, s: Store, scope: Scope, planId: Id)
    requires Governed(signer, s) && ReceiptsDistinct(s) && RequestAt(s, scope, planId).Some? && signer.Some?
    ensures WellTyped(SourcesAt(s, scope, planId))
    ensures
      var q := RequestAt(s, scope, planId).value;
      && EnvelopeAt(s, scope, q.envelopeId).Some? && AuthorityAt(s, scope, q.authorityDecisionId).Some?
      && var e, a := EnvelopeAt(s, scope, q.envelopeId).value, AuthorityAt(s, scope, q.authorityDecisionId).value;
         Validation(signer, SourcesAt(s, scope, planId), scope, true)
         == (if ReceiptAt(s, scope, planId).None? then [CheckIncomplete([ReceiptLabel, OutcomeLabel])]
             else if OutcomeAt(s, scope, ReceiptAt(s, scope, planId).value.receiptId).None? then [CheckIncomplete([OutcomeLabel])]
             else [])
            + (if e.havSignature != Sign(signer.value, e.havReceipt) then [CheckInvalid(HavSignatureInvalid)] else [])
            + (if a.envelopeId != q.envelopeId then [CheckInvalid(AuthorityEnvelopeMismatch)] else [])
  {
    hide Governed, ReceiptsDistinct, RequestAt, ReceiptAt, OutcomeAt, EnvelopeAt, AuthorityAt, GatewayAt, SourcesAt, ReceiptOk, OutcomeOk,
         HavChecks, RecordChecks, LinkChecks, Missing, RequestFits;
    var src := SourcesAt(s, scope, planId);
    SourcesAreTyped(signer, s, scope, planId);
    RowsLoaded(signer, s, scope, planId);
    var q, e := src.request.value.record.request, src.envelope.value.record.envelope;
    EnvelopeIsFit(signer, s, scope, q.envelopeId);
    PlanIds(signer, s, scope, planId);
    HavOnly(signer, e, src.envelope.value, scope);
    if src.receipt.Some? { ReceiptMeansEligible(signer, s, scope, planId); }
    if src.outcome.Some? { OutcomeOfPlan(signer, s, scope, planId); }
    if src.outcome.Some? { OutcomeReceipt(signer, src.outcome.value.record.outcome, q, src.receipt.value.record.receipt); }
    MissingRows(src);
    RecordsOnly(signer, src);
    LinksHold(src, scope);
  }

  lemma RowsLoaded(signer: Option<Signer>, s: Store, scope: Scope, planId: Id)
    requires Governed(signer, s) && RequestAt(s, scope, planId).Some?
    ensures
      var src := SourcesAt(s, scope, planId);
      && (src.receipt.Some? <==> ReceiptAt(s, scope, planId).Some?)
      && (ReceiptAt(s, scope, planId).Some? ==>
            (src.outcome.Some? <==> OutcomeAt(s, scope, ReceiptAt(s, scope, planId).value.receiptId).Some?))
      && (src.outcome.Some? ==> src.receipt.Some?)
  {
    hide Governed;
    ResultsAreTyped(signer, s, scope, planId);
    if ReceiptAt(s, scope, planId).Some? { ResultsAreTyped(signer, s, scope, ReceiptAt(s, scope, planId).value.receiptId); }
  }

  lemma HavOnly(signer: Option<Signer>, e: DecisionEnvelope, envelope: Payload, scope: Scope)
    requires signer.Some? && envelope.record == EnvelopeRecord(e) && EnvelopeScope(e) == scope
    ensures HavChecks(signer, Some(envelope), scope)
         == if e.havSignature != Sign(signer.value, e.havReceipt) then [CheckInvalid(HavSignatureInvalid)] else []
  {
    VerifiesExactlySigned(signer.value, e.havReceipt, e.havSignature);
  }

  lemma MissingRows(src: Sources)
    requires src.request.Some? && src.gateway.Some? && src.envelope.Some? && src.authority.Some?
    requires src.outcome.Some? ==> src.receipt.Some?
    ensures Missing(src, LOAD_ORDER)
         == if src.receipt.None? then [ReceiptLabel, OutcomeLabel] else if src.outcome.None? then [OutcomeLabel] else []
  {
    var first := [RequestLabel, GatewayLabel, EnvelopeLabel, AuthorityLabel];
    assert LOAD_ORDER == first + [ReceiptLabel, OutcomeLabel];
    AllPresent(src, first, [ReceiptLabel, OutcomeLabel]);
    assert [OutcomeLabel][1..] == [] && [ReceiptLabel, OutcomeLabel][1..] == [OutcomeLabel];
    assert Missing(src, []) == [];
    assert Missing(src, [OutcomeLabel]) == if src.outcome.None? then [OutcomeLabel] else [];
    assert Missing(src, [ReceiptLabel, OutcomeLabel]) == (if src.receipt.None? then [ReceiptLabel] else []) + Missing(src, [OutcomeLabel]);
  }

  lemma {:induction false} AllPresent(src: Sources, tags: seq<Label>, rest: seq<Label>)
    requires forall tag :: tag in tags ==> Source(src, tag).Some?
    ensures Missing(src, tags + rest) == Missing(src, rest)
  {
    if tags == [] {
      assert tags + rest == rest;
    } else {
      assert tags[0] in tags;
      assert (tags + rest)[1..] == tags[1..] + rest;
      AllPresent(src, tags[1..], rest);
    }
  }

  lemma RecordsOnly(signer: Option<Signer>, src: Sources)
    requires WellTyped(src) && src.request.Some? && src.authority.Some? && src.gateway.Some?
    requires src.gateway.value.record.gateway.planId == src.request.value.record.request.planId
    requires src.receipt.Some? ==> ReceiptOk(signer, src.receipt.value.record.receipt, src.request.value.record.request)
    requires src.outcome.Some? && src.receipt.Some? ==>
      OutcomeOk(signer, src.outcome.value.record.outcome, src.request.value.record.request, src.receipt.value.record.receipt)
    ensures RecordChecks(signer, src)
         == if src.authority.value.record.authority.envelopeId != src.request.value.record.request.envelopeId
            then [CheckInvalid(AuthorityEnvelopeMismatch)] else []
  {
    hide ReceiptOk, OutcomeOk;
  }

  lemma LinksHold(src: Sources, scope: Scope)
    requires WellTyped(src) && src.request.Some? && src.envelope.Some? && src.authority.Some?
    requires
      var q := src.request.value.record.request;
      && src.envelope.value.record.envelope.envelopeId == q.envelopeId && Scope(q.tenant, q.project) == scope
      && src.authority.value.record.authority.authorityDecisionId == q.authorityDecisionId
      && (src.outcome.Some? ==>
            && src.receipt.Some? && src.outcome.value.record.outcome.fields.planId == q.planId
            && src.outcome.value.record.outcome.fields.shadowReceiptId == src.receipt.value.record.receipt.receiptId)
    ensures LinkChecks(src, scope) == []
  {
  }

  /** The state of the report on a plan without its outcome: INCOMPLETE exactly if the signer signed the envelope's
    * receipt and the authority decided about the plan's envelope, and otherwise INVALID; with a receipt it is always
    * INCOMPLETE. It names exactly the rows that are missing, and no drift. */
  lemma EarlyReportExactly(signer: Option<Signer>, args: ReplayArgs, s: Store)
    requires Governed(signer, s) && ReceiptsDistinct(s) && RequestAt(s, args.scope, args.planId).Some? && signer.Some?
    requires ReceiptAt(s, args.scope, args.planId).Some? ==>
      OutcomeAt(s, args.scope, ReceiptAt(s, args.scope, args.planId).value.receiptId).None?
    ensures WellTyped(SourcesAt(s, args.scope, args.planId))
    ensures
      var q := RequestAt(s, args.scope, args.planId).value;
      && EnvelopeAt(s, args.scope, q.envelopeId).Some? && AuthorityAt(s, args.scope, q.authorityDecisionId).Some?
      && var e, a := EnvelopeAt(s, args.scope, q.envelopeId).value, AuthorityAt(s, args.scope, q.authorityDecisionId).value;
         var p := ReportFor(signer, args, s);
         && p.state == (if e.havSignature == Sign(signer.value, e.havReceipt) && a.envelopeId == q.envelopeId then INCOMPLETE else INVALID)
         && p.driftReasons == []
         && (ReceiptAt(s, args.scope, args.planId).Some? ==> p.state.INCOMPLETE?)
         && forall tags :: CheckIncomplete(tags) in p.validation <==>
              tags == if ReceiptAt(s, args.scope, args.planId).None? then [ReceiptLabel, OutcomeLabel] else [OutcomeLabel]
  {
    hide Governed, ReceiptsDistinct, RequestAt, ReceiptAt, OutcomeAt, EnvelopeAt, AuthorityAt, SourcesAt, WellTyped, Validation,
         StateFrom, VerifiedHeads, SnapshotOf, Eligible, HavPasses, MayAuthorize;
    var scope, planId := args.scope, args.planId;
    GovernedChecks(signer, s, scope, planId);
    var q := RequestAt(s, scope, planId).value;
    var e, a := EnvelopeAt(s, scope, q.envelopeId).value, AuthorityAt(s, scope, q.authorityDecisionId).value;
    if ReceiptAt(s, scope, planId).Some? {
      ReceiptMeansEligible(signer, s, scope, planId);
      EligibleLinks(e, a, q, scope);
      PassIsSigned(signer, e);
    }
    var checks := Validation(signer, SourcesAt(s, scope, planId), scope, true);
    var tags := if ReceiptAt(s, scope, planId).None? then [ReceiptLabel, OutcomeLabel] else [OutcomeLabel];
    assert checks[0] == CheckIncomplete(tags);
    assert AnyIncomplete(checks) by { assert checks[0] in checks; }
    assert AnyInvalid(checks) <==> e.havSignature != Sign(signer.value, e.havReceipt) || a.envelopeId != q.envelopeId by {
      if e.havSignature != Sign(signer.value, e.havReceipt) { assert CheckInvalid(HavSignatureInvalid) in checks; }
      if a.envelopeId != q.envelopeId { assert CheckInvalid(AuthorityEnvelopeMismatch) in checks; }
    }
  }

  lemma PassIsSigned(signer: Option<Signer>, e: DecisionEnvelope)
    requires HavPasses(signer, e)
    ensures signer.Some? && e.havSignature == Sign(signer.value, e.havReceipt)
  {
  }

  // ---------------------------------------------------------------- what a report says

  /** A report is about this plan, for this caller, at this time; its manifest carries the ids, the hash of each stored
    * row, the policy and protocol versions, the decision's identity and the outcome, and the head of each source chain. */
  lemma ReportFields(signer: Option<Signer>, args: ReplayArgs, s: Store)
    requires Governed(signer, s) && RequestAt(s, args.scope, args.planId).Some?
    ensures WellTyped(SourcesAt(s, args.scope, args.planId))
    ensures
      var scope, q := args.scope, RequestAt(s, args.scope, args.planId).value;
      && EnvelopeAt(s, scope, q.envelopeId).Some? && AuthorityAt(s, scope, q.authorityDecisionId).Some?
      && GatewayAt(s, scope, args.planId).Some?
      && var e, g, r := EnvelopeAt(s, scope, q.envelopeId).value, GatewayAt(s, scope, args.planId).value, ReceiptAt(s, scope, args.planId);
         var o := if r.Some? then OutcomeAt(s, scope, r.value.receiptId) else None;
         var p := ReportFor(signer, args, s);
         var m := p.manifest.snapshot;
         && p.replayId == args.replayId && p.planId == args.planId && p.scope == scope && p.requestedBy == args.requestedBy
         && p.createdAt == args.now && p.outcomeId == m.outcomeId && p.manifestHash == ManifestHash(m)
         && !p.anythingExecuted && p.execution.NOT_EXECUTED?
         && m.envelopeId == q.envelopeId && m.authorityDecisionId == q.authorityDecisionId && m.planId == args.planId
         && m.gatewayDecisionId == g.gatewayDecisionId && m.scope == scope
         && m.shadowReceiptId == (if r.Some? then r.value.receiptId else "")
         && m.outcomeId == (if o.Some? then o.value.fields.outcomeId else "")
         && m.outcome == (if o.Some? then Some(o.value.fields.outcomeState) else None)
         && m.identity == map[SubjectField := e.subject, DomainField := e.domain, DecisionTypeField := e.decisionType]
         && m.policyVersions == map[HavPolicy := "1.0.0", AuthorityPolicy := "1.0.0", GatewayPolicy := "1.0.0", OutcomePolicy := "1.0.0"]
         && m.protocolVersions == map[CoreVersion := "4.1.0-rc.8", GrdiVersion := "0.5.0", ProtocolVersion := "2.0.0",
                                      OutcomeLedgerVersion := "0.1.0", ReplayAuditVersion := "0.1.0"]
  {
    hide Governed, RequestAt, ReceiptAt, OutcomeAt, EnvelopeAt, AuthorityAt, GatewayAt, SourcesAt, Validation, StateFrom, VerifiedHeads,
         ChainHeads, RecordHashes, Decide, Judge;
    var src := SourcesAt(s, args.scope, args.planId);
    SourcesAreTyped(signer, s, args.scope, args.planId);
    RowsLoaded(signer, s, args.scope, args.planId);
    var q := src.request.value.record.request;
    EnvelopeIsFit(signer, s, args.scope, q.envelopeId);
    PlanIds(signer, s, args.scope, args.planId);
    PolicyVersions(signer, s, args.scope, args.planId);
    ReportOwnFields(signer, args, s);
    hide ReportFor, WellTyped;
  }

  lemma ReportOwnFields(signer: Option<Signer>, args: ReplayArgs, s: Store)
    requires WellTyped(SourcesAt(s, args.scope, args.planId))
    ensures
      var p := ReportFor(signer, args, s);
      && p.replayId == args.replayId && p.planId == args.planId && p.scope == args.scope && p.requestedBy == args.requestedBy
      && p.createdAt == args.now && p.outcomeId == p.manifest.snapshot.outcomeId
      && p.manifest.snapshot == SnapshotOf(SourcesAt(s, args.scope, args.planId), args.scope)
      && p.manifestHash == ManifestHash(p.manifest.snapshot) && !p.anythingExecuted && p.execution.NOT_EXECUTED?
  {
    hide SourcesAt, WellTyped, Validation, StateFrom, VerifiedHeads, ChainHeads, SnapshotOf;
  }

  lemma PolicyVersions(signer: Option<Signer>, s: Store, scope: Scope, planId: Id)
    requires Governed(signer, s) && RequestAt(s, scope, planId).Some?
    ensures
      var q := RequestAt(s, scope, planId).value;
      && AuthorityAt(s, scope, q.authorityDecisionId).Some? && GatewayAt(s, scope, planId).Some?
      && AuthorityAt(s, scope, q.authorityDecisionId).value.policyVersion == "1.0.0"
      && GatewayAt(s, scope, planId).value.policyVersion == "1.0.0"
  {
    hide Governed, RequestAt, EnvelopeAt, AuthorityAt, GatewayAt, EventAt, Reasons, ReceiptReasons, SubjectReasons;
    RequestIsFit(signer, s, scope, planId);
    AuthorityIsFit(signer, s, scope, RequestAt(s, scope, planId).value.authorityDecisionId);
  }

  /** The record hashes of a report are those of the stored rows, one for each row that is there. */
  lemma ReportRowHashes(signer: Option<Signer>, args: ReplayArgs, s: Store)
    requires Governed(signer, s) && RequestAt(s, args.scope, args.planId).Some?
    ensures WellTyped(SourcesAt(s, args.scope, args.planId))
    ensures
      var scope, q := args.scope, RequestAt(s, args.scope, args.planId).value;
      && EnvelopeAt(s, scope, q.envelopeId).Some? && AuthorityAt(s, scope, q.authorityDecisionId).Some?
      && GatewayAt(s, scope, args.planId).Some?
      && var e, a := EnvelopeAt(s, scope, q.envelopeId).value, AuthorityAt(s, scope, q.authorityDecisionId).value;
         var g, r := GatewayAt(s, scope, args.planId).value, ReceiptAt(s, scope, args.planId);
         var o := if r.Some? then OutcomeAt(s, scope, r.value.receiptId) else None;
         ReportFor(signer, args, s).manifest.snapshot.recordHashes
         == map[EnvelopeLabel := PayloadHash(Payload(EnvelopeRecord(e), scope)),
                AuthorityLabel := PayloadHash(Payload(AuthorityRecord(a), scope)),
                RequestLabel := PayloadHash(Payload(RequestRecord(q), scope)),
                GatewayLabel := PayloadHash(Payload(GatewayRecord(g), scope))]
            + (if r.Some? then map[ReceiptLabel := PayloadHash(Payload(ReceiptRecord(r.value), scope))] else map[])
            + (if o.Some? then map[OutcomeLabel := PayloadHash(Payload(OutcomeRecord(o.value), scope))] else map[])
  {
    hide Governed, RequestAt, ReceiptAt, OutcomeAt, EnvelopeAt, AuthorityAt, GatewayAt, SourcesAt, Validation, StateFrom, VerifiedHeads,
         ChainHeads, RecordHashes;
    var src := SourcesAt(s, args.scope, args.planId);
    SourcesAreTyped(signer, s, args.scope, args.planId);
    RowsLoaded(signer, s, args.scope, args.planId);
    SourceScopes(signer, s, args.scope, args.planId);
    ManifestOf(signer, args, s);
    SnapshotHashes(src, args.scope);
    var q, e, a := src.request.value.record.request, src.envelope.value.record.envelope, src.authority.value.record.authority;
    var r := ReceiptAt(s, args.scope, args.planId);
    assert forall tag :: Source(src, tag).Some? ==> Source(src, tag).value.scope == args.scope;
    assert Source(src, EnvelopeLabel).value.scope == args.scope && Source(src, AuthorityLabel).value.scope == args.scope;
    assert Source(src, GatewayLabel).value.scope == args.scope;
    assert src.receipt.Some? ==> Source(src, ReceiptLabel).value.scope == args.scope;
    assert src.outcome.Some? ==> Source(src, OutcomeLabel).value.scope == args.scope;
    hide WellTyped, ReportFor, SnapshotOf;
    RowHashes(src, e, a, q, src.gateway.value.record.gateway, r, if r.Some? then OutcomeAt(s, args.scope, r.value.receiptId) else None,
              args.scope);
  }

  lemma SnapshotHashes(src: Sources, scope: Scope)
    requires WellTyped(src)
    ensures SnapshotOf(src, scope).recordHashes == RecordHashes(src)
  {
    hide RecordHashes;
  }

  lemma RowHashes(src: Sources, e: DecisionEnvelope, a: AuthorityDecision, q: ExecutionRequest, g: GatewayDecision,
                  r: Option<ShadowReceipt>, o: Option<ShadowOutcome>, scope: Scope)
    requires src == Sources(Some(Payload(RequestRecord(q), scope)), Some(Payload(GatewayRecord(g), scope)),
                            Some(Payload(EnvelopeRecord(e), scope)), Some(Payload(AuthorityRecord(a), scope)),
                            if r.Some? then Some(Payload(ReceiptRecord(r.value), scope)) else None,
                            if o.Some? then Some(Payload(OutcomeRecord(o.value), scope)) else None)
    ensures RecordHashes(src)
         == map[EnvelopeLabel := PayloadHash(Payload(EnvelopeRecord(e), scope)),
                AuthorityLabel := PayloadHash(Payload(AuthorityRecord(a), scope)),
                RequestLabel := PayloadHash(Payload(RequestRecord(q), scope)),
                GatewayLabel := PayloadHash(Payload(GatewayRecord(g), scope))]
            + (if r.Some? then map[ReceiptLabel := PayloadHash(Payload(ReceiptRecord(r.value), scope))] else map[])
            + (if o.Some? then map[OutcomeLabel := PayloadHash(Payload(OutcomeRecord(o.value), scope))] else map[])
  {
    hide RecordHashes;
    HashesOfRows(src);
  }

  lemma SourceScopes(signer: Option<Signer>, s: Store, scope: Scope, planId: Id)
    requires Governed(signer, s) && RequestAt(s, scope, planId).Some?
    ensures forall tag :: Source(SourcesAt(s, scope, planId), tag).Some? ==> Source(SourcesAt(s, scope, planId), tag).value.scope == scope
  {
    hide Governed, Fits, RequestAt, ReceiptAt;
    var q := RequestAt(s, scope, planId).value;
    ScopeStored(signer, s, scope, ExecutionRequests, Name(planId));
    ScopeStored(signer, s, scope, GatewayDecisions, Name(planId));
    ScopeStored(signer, s, scope, DecisionEnvelopes, Name(q.envelopeId));
    ScopeStored(signer, s, scope, AuthorityDecisions, Name(q.authorityDecisionId));
    ScopeStored(signer, s, scope, ShadowExecutionReceipts, Name(planId));
    if ReceiptAt(s, scope, planId).Some? {
      ScopeStored(signer, s, scope, ShadowOutcomes, Name(ReceiptAt(s, scope, planId).value.receiptId));
    }
  }

  lemma ScopeStored(signer: Option<Signer>, s: Store, scope: Scope, c: Collection, key: CKey)
    requires Governed(signer, s) && ChainLinked(c)
    ensures PayloadAt(s, scope, c, key).Some? ==> PayloadAt(s, scope, c, key).value.scope == scope
  {
    hide Governed, Fits;
    if PayloadAt(s, scope, c, key).Some? { StoredFits(signer, s, scope, c, key); }
  }

  lemma HashesOfRows(src: Sources)
    ensures forall tag :: tag in RecordHashes(src) <==> Source(src, tag).Some?
    ensures forall tag :: tag in RecordHashes(src) ==> RecordHashes(src)[tag] == PayloadHash(Source(src, tag).value)
  {
    forall tag ensures tag in LABELS { AllEntriesListed(tag, HavPolicy, CoreVersion, SubjectField); }
  }

  /** The manifest names the head of each of the six source chains, or none where nothing is stored. */
  lemma ReportHeads(signer: Option<Signer>, args: ReplayArgs, s: Store)
    requires WellTyped(SourcesAt(s, args.scope, args.planId))
    ensures
      var heads := ReportFor(signer, args, s).manifest.chainHeads;
      && heads.Keys == {DecisionEnvelopes, AuthorityDecisions, ExecutionRequests, GatewayDecisions, ShadowExecutionReceipts, ShadowOutcomes}
      && forall c :: c in heads ==>
           heads[c] == if Group(args.scope, c) in s.heads then s.heads[Group(args.scope, c)].hash else None
  {
    hide VerifiedHeads, ChainHeads;
    HeadsReported(signer, args, s);
    hide ReportFor;
    HeadsNamed(VerifiedHeads(s, args.scope, GRDI_CHAINS));
    forall c | c in GRDI_CHAINS { StoredHead(s, args.scope, c); }
  }

  lemma HeadsReported(signer: Option<Signer>, args: ReplayArgs, s: Store)
    requires WellTyped(SourcesAt(s, args.scope, args.planId))
    ensures ReportFor(signer, args, s).manifest.chainHeads == ChainHeads(VerifiedHeads(s, args.scope, GRDI_CHAINS))
  {
    hide SourcesAt, WellTyped, Validation, StateFrom, SnapshotOf, VerifiedHeads, ChainHeads;
  }

  lemma HeadsNamed(verified: map<Collection, ChainHash>)
    ensures ChainHeads(verified).Keys == GRDI_CHAINS
    ensures forall c :: c in ChainHeads(verified) ==> ChainHeads(verified)[c] == if c in verified then Some(verified[c]) else None
  {
  }

  lemma StoredHead(s: Store, scope: Scope, c: Collection)
    requires c in GRDI_CHAINS
    ensures
      var verified := VerifiedHeads(s, scope, GRDI_CHAINS);
      (if c in verified then Some(verified[c]) else None) == if Group(scope, c) in s.heads then s.heads[Group(scope, c)].hash else None
  {
    assert ChainLinked(c);
  }

  /** Two sets of rows have the same manifest, chain heads aside, exactly if they are the same rows. */
  lemma SameManifestExactly(src: Sources, src': Sources, scope: Scope)
    requires WellTyped(src) && WellTyped(src')
    ensures SnapshotOf(src, scope) == SnapshotOf(src', scope) <==> src == src'
  {
    hide RecordHashes;
    HashesOfRows(src);
    HashesOfRows(src');
    if SnapshotOf(src, scope) == SnapshotOf(src', scope) {
      forall tag ensures Source(src, tag) == Source(src', tag) {
        assert tag in RecordHashes(src) <==> tag in RecordHashes(src');
        if tag in RecordHashes(src) { assert RecordHashes(src)[tag].payload == RecordHashes(src')[tag].payload; }
      }
      assert Source(src, RequestLabel) == Source(src', RequestLabel) && Source(src, GatewayLabel) == Source(src', GatewayLabel);
      assert Source(src, EnvelopeLabel) == Source(src', EnvelopeLabel) && Source(src, AuthorityLabel) == Source(src', AuthorityLabel);
      assert Source(src, ReceiptLabel) == Source(src', ReceiptLabel) && Source(src, OutcomeLabel) == Source(src', OutcomeLabel);
    }
  }

  // ---------------------------------------------------------------- the answer of a replay

  lemma ReadyReplay(signer: Option<Signer>, args: ReplayArgs, seen: Store)
    requires Governed(signer, seen) && RequestAt(seen, args.scope, args.planId).Some?
    ensures WellTyped(SourcesAt(seen, args.scope, args.planId))
    ensures ReadyToReplay(signer, args, seen)
         == if signer.None? then Refused(ValueError)
            else Ready(ReplayTxn(signer, args, ReportFor(signer, args, seen).manifestHash))
  {
    hide Governed, After, BuildReport, RunTransaction, ReplaySnapshotLocks, ContextOf, RequestAt, SourcesAt, WellTyped, ReportFor, ReplayTxn;
    var t := SnapshotTxn(signer, args);
    var m := BuildAfter(signer, args, report => Return(ReplayRecord(report)), SessionOf(t), seen, 0);
    if signer.Some? { NothingLeft(ReplayRecord(SignedReport(signer.value, ReportFor(signer, args, seen))), SessionOf(t), seen); }
    SnapshotRefs(args.scope, args.planId);
    TransactionIsAfter(t, seen);
  }

  lemma ManifestOf(signer: Option<Signer>, args: ReplayArgs, s: Store)
    requires WellTyped(SourcesAt(s, args.scope, args.planId))
    ensures ReportFor(signer, args, s).manifestHash == ManifestHash(SnapshotOf(SourcesAt(s, args.scope, args.planId), args.scope))
    ensures ReportFor(signer, args, s).manifest.snapshot == SnapshotOf(SourcesAt(s, args.scope, args.planId), args.scope)
    ensures signer.Some? ==> ReportOk(signer, SignedReport(signer.value, ReportFor(signer, args, s)))
  {
    hide SourcesAt, WellTyped, Validation, StateFrom, VerifiedHeads, SnapshotOf;
  }

  /** A replay that finds other rows than its first transaction did ends with an error. */
  lemma ChangedReplay(signer: Option<Signer>, args: ReplayArgs, hash: ManifestHash, s: Store)
    requires Governed(signer, s) && RequestAt(s, args.scope, args.planId).Some? && signer.Some?
    requires WellTyped(SourcesAt(s, args.scope, args.planId)) && ReportFor(signer, args, s).manifestHash != hash
    ensures RunTransaction(ReplayTxn(signer, args, hash), s) == (Aborted(ValueError), s)
  {
    hide Governed, After, RunTransaction, ReplayLocks, ContextOf, RequestAt, SourcesAt, WellTyped, ReportFor, BuildReport;
    var t := ReplayTxn(signer, args, hash);
    FinalSession(signer, args, hash);
    TransactionIsAfter(t, s);
    var m := BuildAfter(signer, args, rebuilt => AfterRebuild(signer, hash, rebuilt), SessionOf(t), s, 2);
    RaisesEnd(SessionOf(t), s);
  }

  /** A replay that finds the same rows returns the report stored under their hash, or stores the one it built. */
  lemma StoringReplay(signer: Option<Signer>, args: ReplayArgs, hash: ManifestHash, s: Store) returns (s1: Store)
    requires Governed(signer, s) && RequestAt(s, args.scope, args.planId).Some? && signer.Some?
    requires WellTyped(SourcesAt(s, args.scope, args.planId)) && ReportFor(signer, args, s).manifestHash == hash
    ensures
      match ReportAt(s, args.scope, hash)
      case Some(p) => RunTransaction(ReplayTxn(signer, args, hash), s) == (Committed(ReplayRecord(p)), s)
      case None =>
        var p := SignedReport(signer.value, ReportFor(signer, args, s));
        && RunTransaction(ReplayTxn(signer, args, hash), s) == (Committed(ReplayRecord(p)), s1)
        && ReportAt(s1, args.scope, hash) == Some(p)
        && AddsOnly(s, s1, args.scope, {(ReplayReports, ManifestKey(hash))})
  {
    hide Governed, After, RunTransaction, ReplayLocks, ContextOf, RequestAt, SourcesAt, WellTyped, ReportFor, ReportAt, ReplayCommit,
         AfterExisting, WriteAllowed, ReportOk, AddsOnly;
    var t := ReplayTxn(signer, args, hash);
    FinalSession(signer, args, hash);
    ManifestOf(signer, args, s);
    TransactionIsAfter(t, s);
    var n := FinalReach(signer, args, hash, SessionOf(t), s);
    s1 := FinalStore(signer, args, hash, SignedReport(signer.value, ReportFor(signer, args, s)), SessionOf(t), s, n);
    if ReportAt(s, args.scope, hash).None? { ReplayAddsOnly(signer, args, hash, s); }
  }

  lemma ReplayAddsOnly(signer: Option<Signer>, args: ReplayArgs, hash: ManifestHash, s: Store)
    requires Governed(signer, s) && RequestAt(s, args.scope, args.planId).Some?
    ensures AddsOnly(s, RunTransaction(ReplayTxn(signer, args, hash), s).1, args.scope, {(ReplayReports, ManifestKey(hash))})
  {
    hide Governed, RunTransaction, Ends, Wrote, ReplayLocks, ContextOf, RequestAt, SourcesAt, WellTyped, ReportFor, ReplayCommit, ReportOk,
         AddsOnly;
    var t := ReplayTxn(signer, args, hash);
    FinalSession(signer, args, hash);
    ReplayEnds(signer, args, hash, s);
    TransactionIsAfter(t, s);
    EndsWithin(t, s);
    GovernedIsValid(signer, s);
    WroteNothing(s);
    var keys := {(ReplayReports, ManifestKey(hash))};
    WroteOnly(s, s, map[], args.scope, keys);
    if Ends(t, s).0.Return? && PayloadAt(s, args.scope, ReplayReports, ManifestKey(hash)).None? {
      WroteOnly(s, Ends(t, s).1, map[RowKey(args.scope, ReplayReports, ManifestKey(hash)) := Ends(t, s).0.value], args.scope, keys);
    }
  }

  /** A replay of a plan commits if and only if a signer is configured and no row of the plan was stored between its two
    * transactions. It then returns the report that is stored under the hash of these rows, or stores the one it built. */
  lemma ReplayAnswers(signer: Option<Signer>, args: ReplayArgs, seen: Store, s: Store)
    requires Governed(signer, seen) && Extends(seen, s) && Governed(signer, s)
    ensures
      var (out, s') := Perform(signer, ReplayPlan(args), seen, s);
      if RequestAt(seen, args.scope, args.planId).None? then out == Aborted(KeyError) && s' == s
      else if signer.None? || SourcesAt(seen, args.scope, args.planId) != SourcesAt(s, args.scope, args.planId) then
        out == Aborted(ValueError) && s' == s
      else
        && WellTyped(SourcesAt(s, args.scope, args.planId))
        && var hash := ManifestHash(SnapshotOf(SourcesAt(s, args.scope, args.planId), args.scope));
           match ReportAt(s, args.scope, hash)
           case Some(p) => out == Committed(ReplayRecord(p)) && s' == s
           case None =>
             && out == Committed(ReplayRecord(SignedReport(signer.value, ReportFor(signer, args, s))))
             && ReportAt(s', args.scope, hash) == Some(out.value.report)
             && AddsOnly(s, s', args.scope, {(ReplayReports, ManifestKey(hash))})
  {
    hide Governed, Extends, RunTransaction, RequestAt, SourcesAt, WellTyped, SnapshotOf, ReportAt, ReplayTxn, ReportFor, AddsOnly;
    if RequestAt(seen, args.scope, args.planId).None? {
      assert ReadyToReplay(signer, args, seen) == Refused(KeyError);
    } else {
      hide ReadyToReplay;
      RecordsStay(seen, s, args.scope);
      ReadyReplay(signer, args, seen);
      SourcesAreTyped(signer, s, args.scope, args.planId);
      ManifestOf(signer, args, seen);
      ManifestOf(signer, args, s);
      SameManifestExactly(SourcesAt(seen, args.scope, args.planId), SourcesAt(s, args.scope, args.planId), args.scope);
      if signer.Some? {
        var hash := ReportFor(signer, args, seen).manifestHash;
        if SourcesAt(seen, args.scope, args.planId) != SourcesAt(s, args.scope, args.planId) {
          ChangedReplay(signer, args, hash, s);
        } else {
          var s1 := StoringReplay(signer, args, hash, s);
        }
      }
    }
  }

  /** A stored report under the hash of a plan's present rows lists the checks of these rows. */
  lemma StoredChecks(signer: Option<Signer>, s: Store, scope: Scope, planId: Id)
    requires Governed(signer, s) && RequestAt(s, scope, planId).Some?
    ensures WellTyped(SourcesAt(s, scope, planId))
    ensures
      var src := SourcesAt(s, scope, planId);
      match ReportAt(s, scope, ManifestHash(SnapshotOf(src, scope)))
      case None => true
      case Some(p) =>
        && p.fields.planId == planId && p.fields.manifest.snapshot == SnapshotOf(src, scope)
        && p.fields.validation == Validation(signer, src, scope, true)
        && (p.fields.state.INVALID? <==> AnyInvalid(p.fields.validation))
        && (p.fields.state.INCOMPLETE? <==> !AnyInvalid(p.fields.validation) && AnyIncomplete(p.fields.validation))
  {
    hide Governed, SourcesAt, RequestAt, ReportAt, WellTyped, SnapshotOf, Validation, ReportOk, AnyInvalid, AnyIncomplete;
    SourcesAreTyped(signer, s, scope, planId);
    var src := SourcesAt(s, scope, planId);
    var hash := ManifestHash(SnapshotOf(src, scope));
    if ReportAt(s, scope, hash).Some? {
      var p := ReportAt(s, scope, hash).value;
      var stage := ReportHasStage(signer, s, scope, hash);
      var other := SourcesAt(s, scope, p.fields.planId);
      SourcesAreTyped(signer, s, scope, p.fields.planId);
      UpToIsTyped(other, stage);
      SameManifestExactly(src, UpTo(other, stage), scope);
      assert src.request == other.request;
    }
  }

  /** Whatever replay asks for the report on a plan without its outcome: if it commits, the report it returns is stored,
    * and INCOMPLETE exactly if the signer signed the envelope's receipt and the authority decided about the plan's
    * envelope, else INVALID; it names exactly the rows that are missing. */
  lemma EarlyReplayReturns(signer: Option<Signer>, args: ReplayArgs, seen: Store, s: Store)
    requires Governed(signer, seen) && Extends(seen, s) && Governed(signer, s) && ReceiptsDistinct(s)
    requires RequestAt(seen, args.scope, args.planId).Some? && signer.Some?
    requires SourcesAt(seen, args.scope, args.planId) == SourcesAt(s, args.scope, args.planId)
    requires ReceiptAt(s, args.scope, args.planId).Some? ==>
      OutcomeAt(s, args.scope, ReceiptAt(s, args.scope, args.planId).value.receiptId).None?
    ensures RequestAt(s, args.scope, args.planId).Some?
    ensures
      var q := RequestAt(s, args.scope, args.planId).value;
      var (out, s') := Perform(signer, ReplayPlan(args), seen, s);
      && EnvelopeAt(s, args.scope, q.envelopeId).Some? && AuthorityAt(s, args.scope, q.authorityDecisionId).Some?
      && out.Committed? && out.value.ReplayRecord?
      && var e, a := EnvelopeAt(s, args.scope, q.envelopeId).value, AuthorityAt(s, args.scope, q.authorityDecisionId).value;
         var p := out.value.report;
         && ReportAt(s', args.scope, p.fields.manifestHash) == Some(p) && p.fields.planId == args.planId
         && p.fields.state
            == (if e.havSignature == Sign(signer.value, e.havReceipt) && a.envelopeId == q.envelopeId then INCOMPLETE else INVALID)
         && (ReceiptAt(s, args.scope, args.planId).Some? ==> p.fields.state.INCOMPLETE?)
         && forall tags :: CheckIncomplete(tags) in p.fields.validation <==>
              tags == if ReceiptAt(s, args.scope, args.planId).None? then [ReceiptLabel, OutcomeLabel] else [OutcomeLabel]
  {
    hide Governed, Extends, RequestAt, ReceiptAt, OutcomeAt, EnvelopeAt, AuthorityAt, SourcesAt, WellTyped, SnapshotOf, ReportAt, ReportFor,
         AddsOnly, Perform, Validation, AnyInvalid, AnyIncomplete, ReceiptsDistinct;
    RecordsStay(seen, s, args.scope);
    ReplayAnswers(signer, args, seen, s);
    EarlyReportExactly(signer, args, s);
    StateByChecks(signer, args, s);
    ManifestOf(signer, args, s);
    ReportFields(signer, args, s);
    StoredChecks(signer, s, args.scope, args.planId);
    var hash := ManifestHash(SnapshotOf(SourcesAt(s, args.scope, args.planId), args.scope));
    if ReportAt(s, args.scope, hash).Some? { var stage := ReportHasStage(signer, s, args.scope, hash); }
  }

  // ---------------------------------------------------------------- the answer of a comparison

  /** The rows of a chain, once listed, stay where they are. */
  lemma ListingGrows(s: Store, s': Store, g: Group)
    requires Valid(s) && Valid(s') && Extends(s, s') && ChainLinked(g.coll)
    ensures Listing(GroupRows(s, g)) <= Listing(GroupRows(s', g))
  {
    hide Valid, SortedKeys;
    var m, m', ks, ks' := GroupRows(s, g), GroupRows(s', g), Order(s, g), Order(s', g);
    assert forall k :: k in m ==> k in m' && m'[k] == m[k];
    forall i | 0 <= i < |ks| ensures i < |ks'| && ks'[i] == ks[i] && m'[ks'[i]] == m[ks[i]] {
      KeyStays(m, m', ks, ks', i);
    }
    if |ks| > 0 { KeyStays(m, m', ks, ks', |ks| - 1); }
    ListingIsSorted(m, ks);
    ListingIsSorted(m', ks');
    assert Listing(m) == Listing(m')[..|ks|];
  }

  lemma KeyStays(m: map<Key, Row>, m': map<Key, Row>, ks: seq<Key>, ks': seq<Key>, i: nat)
    requires IsListing(m, ks) && IsListing(m', ks') && forall k :: k in m ==> k in m' && m'[k] == m[k]
    requires i < |ks|
    ensures i < |ks'| && ks'[i] == ks[i]
  {
    assert ks[i] in ks && ks[i] in m && ks[i] in m' && ks[i] in ks';
    var j :| 0 <= j < |ks'| && ks'[j] == ks[i];
    assert m'[ks'[j]].sequence == j + 1 && m[ks[i]].sequence == i + 1;
  }

  lemma {:induction false} FoundInMore(rows: seq<Row>, more: seq<Row>, replayId: Id)
    requires rows <= more && FindReport(rows, replayId).Some?
    ensures FindReport(more, replayId) == FindReport(rows, replayId)
  {
    assert rows != [] && rows[0] == more[0];
    if !(rows[0].payload.record.ReplayRecord? && rows[0].payload.record.report.fields.replayId == replayId) {
      FoundInMore(rows[1..], more[1..], replayId);
    }
  }

  /** A report that can be found stays the one that is found. */
  lemma FoundStays(signer: Option<Signer>, s: Store, s': Store, scope: Scope, replayId: Id)
    requires Governed(signer, s) && Governed(signer, s') && Extends(s, s') && FindReport(PriorRows(s, scope), replayId).Some?
    ensures FindReport(PriorRows(s', scope), replayId) == FindReport(PriorRows(s, scope), replayId)
  {
    hide Governed, Extends, FindReport, Listing;
    GovernedIsValid(signer, s);
    GovernedIsValid(signer, s');
    ListingGrows(s, s', Group(scope, ReplayReports));
    FoundInMore(PriorRows(s, scope), PriorRows(s', scope), replayId);
  }

  /** A report found for a comparison is stored, valid and of the scope. */
  lemma FoundReportIsOk(signer: Option<Signer>, s: Store, scope: Scope, replayId: Id)
    requires Governed(signer, s) && FindReport(PriorRows(s, scope), replayId).Some?
    ensures
      var p := FindReport(PriorRows(s, scope), replayId).value;
      signer.Some? && ReportOk(signer, p) && p.fields.scope == scope && p.fields.replayId == replayId
  {
    hide Governed, FindReport, PriorRows, ReportFitsStage;
    FoundReportStored(signer, s, scope, replayId);
    ReportIsFit(signer, s, scope, FindReport(PriorRows(s, scope), replayId).value.fields.manifestHash);
  }

  lemma ReadyComparison(signer: Option<Signer>, args: CompareArgs, seen: Store)
    ensures
      var b, c := FindReport(PriorRows(seen, args.scope), args.baselineId), FindReport(PriorRows(seen, args.scope), args.candidateId);
      ReadyToCompare(signer, args, seen)
      == if b.Some? && c.Some?
         then Ready(CompareTxn(signer, args, b.value.fields.manifestHash, c.value.fields.manifestHash)) else Refused(KeyError)
  {
    hide After, RunTransaction, ComparisonSnapshotLocks, ContextOf, FindReport, PriorRows, WithReport, CompareTxn;
    var t := LoadPairTxn(args);
    var ses := SessionOf(t);
    assert InScope(t.scope, t.locks) by { PairInScope(args); }
    TransactionIsAfter(t, seen);
    RaisesEnd(ses, seen);
    WithReportAfter(args.baselineId, b => LoadCandidate(args, b), ses, seen, 2);
    if FindReport(PriorRows(seen, args.scope), args.baselineId).Some? {
      var b := FindReport(PriorRows(seen, args.scope), args.baselineId).value;
      WithReportAfter(args.candidateId, c => Return(ReportPair(b, c)), ses, seen, 1);
      if FindReport(PriorRows(seen, args.scope), args.candidateId).Some? {
        NothingLeft(ReportPair(b, FindReport(PriorRows(seen, args.scope), args.candidateId).value), ses, seen);
      }
    }
  }

  lemma PairInScope(args: CompareArgs)
    ensures InScope(args.scope, ComparisonSnapshotLocks(args.scope))
  {
  }

  lemma CompareAllowed(signer: Option<Signer>, args: CompareArgs, baseline: ManifestHash, candidate: ManifestHash)
    ensures WriteAllowed(SessionOf(CompareTxn(signer, args, baseline, candidate)).locks, HistoricalComparisons,
                         PairKey(ComparisonHash(args.baselineId, args.candidateId)))
  {
    var refs := CompareTxn(signer, args, baseline, candidate).locks;
    var pair := ComparisonHash(args.baselineId, args.candidateId);
    assert refs == ComparisonLocks(args.scope, baseline, candidate, pair);
    assert refs[1] == ChainLock(args.scope, HistoricalComparisons);
    assert refs[5] == CanonicalLock(args.scope, HistoricalComparisons, PairKey(pair));
  }

  /** The comparison of two reports found for it, field by field. */
  function ComparisonOf(signer: Signer, args: CompareArgs, delta: Delta): HistoricalComparison {
    var body := ComparisonBody(args.comparisonId, args.baselineId, args.candidateId, args.scope, args.requestedBy, delta,
                               ComparisonHash(args.baselineId, args.candidateId), args.now);
    HistoricalComparison(body, body, Sign(signer, body))
  }

  lemma TypedComparison(signer: Option<Signer>, s: Store, scope: Scope, key: CKey)
    requires Governed(signer, s)
    ensures
      match RecordAt(s, scope, HistoricalComparisons, key)
      case None => true
      case Some(record) => record.ComparisonRecord? && ComparisonOk(signer, record.comparison)
  {
    hide Governed, Compares, ComparisonOk;
    if RecordAt(s, scope, HistoricalComparisons, key).Some? { StoredFits(signer, s, scope, HistoricalComparisons, key); }
  }

  /** The transaction of a comparison whose reports have been found. */
  lemma CompareRuns(signer: Option<Signer>, args: CompareArgs, b: ReplayReport, c: ReplayReport, s: Store)
    requires Governed(signer, s) && signer.Some?
    requires FindReport(PriorRows(s, args.scope), args.baselineId) == Some(b)
    requires FindReport(PriorRows(s, args.scope), args.candidateId) == Some(c)
    ensures
      var key := PairKey(ComparisonHash(args.baselineId, args.candidateId));
      var (out, s') := RunTransaction(CompareTxn(signer, args, b.fields.manifestHash, c.fields.manifestHash), s);
      match RecordAt(s, args.scope, HistoricalComparisons, key)
      case Some(record) => out == Committed(record) && s' == s
      case None =>
        && out == Committed(ComparisonRecord(ComparisonOf(signer.value, args, Compare(b.fields, c.fields))))
        && RecordAt(s', args.scope, HistoricalComparisons, key) == Some(out.value)
        && AddsOnly(s, s', args.scope, {(HistoricalComparisons, key)})
  {
    hide Governed, After, RunTransaction, ComparisonLocks, ContextOf, FindReport, PriorRows, WithReport, AfterPair, WriteAllowed, ReportOk,
         Compare, AddsOnly, Wrote;
    var key := PairKey(ComparisonHash(args.baselineId, args.candidateId));
    var baseline, candidate := b.fields.manifestHash, c.fields.manifestHash;
    var t := CompareTxn(signer, args, baseline, candidate);
    var ses := SessionOf(t);
    CompareLocked(signer, args, baseline, candidate);
    TransactionIsAfter(t, s);
    WithReportAfter(args.baselineId, x => WithReport(args.candidateId, y => AfterPair(signer, args, baseline, candidate, x, y)), ses, s, 4);
    WithReportAfter(args.candidateId, y => AfterPair(signer, args, baseline, candidate, b, y), ses, s, 3);
    FoundReportIsOk(signer, s, args.scope, args.baselineId);
    FoundReportIsOk(signer, s, args.scope, args.candidateId);
    CompareAllowed(signer, args, baseline, candidate);
    var s1 := PairRuns(signer, args, b, c, ses, s);
    if RecordAt(s, args.scope, HistoricalComparisons, key).None? {
      var h := ComparisonRecord(ComparisonOf(signer.value, args, Compare(b.fields, c.fields)));
      WrittenRecord(s, s1, map[RowKey(args.scope, HistoricalComparisons, key) := h], args.scope, HistoricalComparisons, key);
      WroteOnly(s, s1, map[RowKey(args.scope, HistoricalComparisons, key) := h], args.scope, {(HistoricalComparisons, key)});
    }
  }

  lemma PairRuns(signer: Option<Signer>, args: CompareArgs, b: ReplayReport, c: ReplayReport, ses: Session, s: Store) returns (s1: Store)
    requires Governed(signer, s) && signer.Some? && ses.scope == args.scope && ses.locks.Some?
    requires WriteAllowed(ses.locks, HistoricalComparisons, PairKey(ComparisonHash(args.baselineId, args.candidateId)))
    requires ReportOk(signer, b) && ReportOk(signer, c)
    requires b.fields.replayId == args.baselineId && c.fields.replayId == args.candidateId && b.fields.scope == args.scope
    ensures
      var key := PairKey(ComparisonHash(args.baselineId, args.candidateId));
      var run := After(AfterPair(signer, args, b.fields.manifestHash, c.fields.manifestHash, b, c), ses, s, 2);
      match RecordAt(s, args.scope, HistoricalComparisons, key)
      case Some(record) => run == (Return(record), s)
      case None =>
        var record := ComparisonRecord(ComparisonOf(signer.value, args, Compare(b.fields, c.fields)));
        run == (Return(record), s1) && Wrote(s, s1, map[RowKey(args.scope, HistoricalComparisons, key) := record])
  {
    hide Governed, After, Lookup, Put, WriteAllowed, ReportOk, Compare, Wrote, ExtractRecordId;
    s1 := s;
    var key := PairKey(ComparisonHash(args.baselineId, args.candidateId));
    var body := NewComparison(args, b, c);
    var record := ComparisonRecord(SignedComparison(signer.value, body));
    GovernedIsValid(signer, s);
    TypedComparison(signer, s, args.scope, key);
    LookupAfter(HistoricalComparisons, key, existing => AfterStoredComparison(signer, body, existing), ses, s, 2);
    if RecordAt(s, args.scope, HistoricalComparisons, key).Some? {
      NothingLeft(RecordAt(s, args.scope, HistoricalComparisons, key).value, ses, s);
    } else {
      ComparisonIdentified(record);
      s1 := PutExactly(HistoricalComparisons, key, record, stored => CheckedComparison(signer, stored), ses, s, 1);
      NothingLeft(record, ses, s1);
    }
  }

  lemma ComparisonIdentified(record: Record)
    requires record.ComparisonRecord?
    ensures ExtractRecordId(HistoricalComparisons, record).Some?
  {
  }

  /** A comparison commits if and only if both replay ids are found among the first 1000 reports of the scope. It returns
    * what is stored for the pair, or stores the comparison asked for, with the delta of the two reports found. */
  lemma CompareAnswers(signer: Option<Signer>, args: CompareArgs, seen: Store, s: Store)
    requires Governed(signer, seen) && Extends(seen, s) && Governed(signer, s)
    ensures
      var (out, s') := Perform(signer, CompareReplays(args), seen, s);
      var key := PairKey(ComparisonHash(args.baselineId, args.candidateId));
      match (FindReport(PriorRows(seen, args.scope), args.baselineId), FindReport(PriorRows(seen, args.scope), args.candidateId))
      case (Some(b), Some(c)) =>
        && signer.Some?
        && (match RecordAt(s, args.scope, HistoricalComparisons, key)
            case Some(record) => out == Committed(record) && s' == s
            case None =>
              && out == Committed(ComparisonRecord(ComparisonOf(signer.value, args, Compare(b.fields, c.fields))))
              && RecordAt(s', args.scope, HistoricalComparisons, key) == Some(out.value)
              && AddsOnly(s, s', args.scope, {(HistoricalComparisons, key)}))
      case _ => out == Aborted(KeyError) && s' == s
  {
    hide Governed, Extends, RunTransaction, FindReport, PriorRows, CompareTxn, ReadyToCompare, Compare, AddsOnly, RecordAt;
    ReadyComparison(signer, args, seen);
    var b, c := FindReport(PriorRows(seen, args.scope), args.baselineId), FindReport(PriorRows(seen, args.scope), args.candidateId);
    if b.Some? && c.Some? {
      FoundStays(signer, seen, s, args.scope, args.baselineId);
      FoundStays(signer, seen, s, args.scope, args.candidateId);
      FoundReportIsOk(signer, seen, args.scope, args.baselineId);
      CompareRuns(signer, args, b.value, c.value, s);
    }
  }

  // ---------------------------------------------------------------- ledgers and records that somebody altered

  /** A report or a comparison is valid exactly if it is the signer's copy of its own fields and these agree with
    * themselves: no unsigned field can differ, and the hash is that of the manifest, or of the two replay ids. */
  lemma ValidExactly(signer: Option<Signer>, p: ReplayReport, h: HistoricalComparison)
    ensures ReportOk(signer, p) <==>
      && signer.Some? && p == ReplayReport(p.fields, p.fields, Sign(signer.value, p.fields))
      && p.fields.manifestHash == ManifestHash(p.fields.manifest.snapshot)
      && !p.fields.anythingExecuted && p.fields.execution.NOT_EXECUTED?
    ensures ComparisonOk(signer, h) <==>
      && signer.Some? && h == HistoricalComparison(h.fields, h.fields, Sign(signer.value, h.fields))
      && h.fields.comparisonKey == ComparisonHash(h.fields.baselineReplayId, h.fields.candidateReplayId)
  {
    if signer.Some? {
      VerifiesExactlySigned(signer.value, p.signed, p.signature);
      VerifiesExactlySigned(signer.value, h.signed, h.signature);
    }
  }

  /** On a ledger whose chains do not verify, a report is built all the same: it is INVALID, says that the chain failed,
    * and names no chain head. */
  lemma BrokenChainIsReported(signer: Option<Signer>, args: ReplayArgs, src: Sources, finish: ReplayReport -> Prog, ses: Session,
                              s: Store, n: nat) returns (p: ReplayBody)
    requires WellTyped(src) && n > 0 && ses.scope == args.scope && !Intact(s, ScopeFilter(args.scope)) && signer.Some?
    ensures After(AfterSources(signer, args, src, finish), ses, s, n) == After(finish(SignedReport(signer.value, p)), ses, s, n - 1)
    ensures p.state.INVALID? && p.driftReasons == [] && CheckInvalid(LedgerChain) in p.validation
    ensures p.replayId == args.replayId && p.planId == args.planId && p.manifest.snapshot == SnapshotOf(src, args.scope)
    ensures forall c :: c in p.manifest.chainHeads ==> p.manifest.chainHeads[c] == None
  {
    hide WellTyped, Intact, SnapshotOf, HavChecks, RecordChecks, LinkChecks, Missing, ChainHeads, StateFrom;
    OverlayEmpty(s);
    HeadsNamed(map[]);
    var checks := Validation(signer, src, args.scope, false);
    assert checks[0] == CheckInvalid(LedgerChain);
    assert AnyInvalid(checks) by { assert checks[0] in checks; }
    p := ReportBody(args, src, ChainHeads(map[]), checks, INVALID, []);
  }

  /** A stored report that is not valid is not returned, whatever was rebuilt. */
  lemma AlteredReportRefused(signer: Option<Signer>, expected: ManifestHash, rebuilt: ReplayReport, stored: ReplayReport, ses: Session,
                             s: Store, n: nat)
    requires n > 0 && rebuilt.fields.manifestHash == expected
    requires ReportAt(s, ses.scope, expected) == Some(stored) && !ReportOk(signer, stored)
    ensures After(AfterRebuild(signer, expected, rebuilt), ses, s, n) == (Raise(ValueError), s)
  {
    hide After, Lookup, ReportOk;
    LookupAfter(ReplayReports, ManifestKey(expected), existing => AfterExisting(signer, expected, rebuilt, existing), ses, s, n);
    RaisesEnd(ses, s);
  }

  /** Two reports are not compared when one of them is not valid or changed its hash since it was loaded. */
  lemma AlteredReportsNotCompared(signer: Option<Signer>, args: CompareArgs, baseline: ManifestHash, candidate: ManifestHash,
                                  b: ReplayReport, c: ReplayReport, s: Store)
    requires FindReport(PriorRows(s, args.scope), args.baselineId) == Some(b)
    requires FindReport(PriorRows(s, args.scope), args.candidateId) == Some(c)
    requires b.fields.manifestHash != baseline || c.fields.manifestHash != candidate || !ReportOk(signer, b) || !ReportOk(signer, c)
    ensures RunTransaction(CompareTxn(signer, args, baseline, candidate), s) == (Aborted(ValueError), s)
  {
    hide After, RunTransaction, ComparisonLocks, ContextOf, FindReport, PriorRows, WithReport, ReportOk, Compare;
    var t := CompareTxn(signer, args, baseline, candidate);
    CompareLocked(signer, args, baseline, candidate);
    TransactionIsAfter(t, s);
    RaisesEnd(SessionOf(t), s);
    WithReportAfter(args.baselineId, x => WithReport(args.candidateId, y => AfterPair(signer, args, baseline, candidate, x, y)),
                    SessionOf(t), s, 4);
    WithReportAfter(args.candidateId, y => AfterPair(signer, args, baseline, candidate, b, y), SessionOf(t), s, 3);
  }
}
