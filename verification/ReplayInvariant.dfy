/** Building, storing and comparing replay reports on a governed store. */
module ReplayInvariant {
  import opened Signing
  import opened Models
  import opened ScopedStore
  import opened ScopedInvariant
  import opened Locks
  import opened Sessions
  import opened SessionRules
  import opened Authority
  import opened Gateway
  import opened Outcomes
  import opened Replay
  import opened Comparison
  import opened LedgerOps
  import opened ProtocolSteps
  import opened ProtocolLocks
  import opened ProtocolRecords
  import opened ProtocolInvariant
  import opened Unrolling

  // ---------------------------------------------------------------- listings

  lemma ListedRow(m: map<Key, Row>, row: Row) returns (k: Key)
    requires row in Page(Listing(m), MAX_LIST_LIMIT, 0)
    ensures k in m && m[k] == row
  {
    SortedKeysMembers(m);
    var i :| 0 <= i < |Listing(m)| && Listing(m)[i] == row;
    k := SortedKeys(m)[i];
  }

  /** A listed row of a governed chain-linked group is stored under its key and fits. */
  lemma ListedFits(signer: Option<Signer>, s: Store, g: Group, row: Row) returns (k: Key)
    requires Governed(signer, s) && ChainLinked(g.coll)
    requires row in Page(Listing(GroupRows(s, g)), MAX_LIST_LIMIT, 0)
    ensures k in s.rows && s.rows[k] == row && k.group == g
    ensures Fits(signer, s, g.scope, g.coll, k.ckey, row.payload.record)
  {
    hide Fits, Valid, Page, Listing;
    k := ListedRow(GroupRows(s, g), row);
  }

  // ---------------------------------------------------------------- loading the sources

  lemma {:induction false} FirstOutcomeOf(rows: seq<Row>, planId: Id)
    ensures FirstOutcome(rows, planId).Some? ==>
      exists row :: row in rows && row.payload.record.OutcomeRecord? && row.payload.record.outcome.fields.planId == planId
  {
    if rows != [] && !(rows[0].payload.record.OutcomeRecord? && rows[0].payload.record.outcome.fields.planId == planId) {
      FirstOutcomeOf(rows[1..], planId);
      assert forall row :: row in rows[1..] ==> row in rows;
    } else if rows != [] {
      assert rows[0] in rows;
    }
  }

  /** Without a receipt there is no outcome of the plan to find. */
  lemma NoOutcomeWithoutReceipt(signer: Option<Signer>, s: Store, scope: Scope, planId: Id)
    requires Governed(signer, s) && ReceiptAt(s, scope, planId).None?
    ensures FirstOutcome(Page(Listing(GroupRows(s, Group(scope, ShadowOutcomes))), MAX_LIST_LIMIT, 0), planId).None?
  {
    hide Governed, Page, Listing, FirstOutcome, ReceiptAt;
    var rows := Page(Listing(GroupRows(s, Group(scope, ShadowOutcomes))), MAX_LIST_LIMIT, 0);
    FirstOutcomeOf(rows, planId);
    if FirstOutcome(rows, planId).Some? {
      var row :| row in rows && row.payload.record.OutcomeRecord? && row.payload.record.outcome.fields.planId == planId;
      var k := ListedFits(signer, s, Group(scope, ShadowOutcomes), row);
    }
  }

  lemma LoadAfter(signer: Option<Signer>, planId: Id, next: Sources -> Prog, ses: Session, s: Store, n: nat)
    requires Governed(signer, s) && RequestAt(s, ses.scope, planId).Some?
    ensures After(LoadSources(planId, next), ses, s, n + 6) == After(next(SourcesAt(s, ses.scope, planId)), ses, s, n)
  {
    hide Governed, After, Lookup, Listing1000, FirstOutcome, Page, Listing;
    var scope, q := ses.scope, RequestAt(s, ses.scope, planId).value;
    SourcesAreTyped(signer, s, scope, planId);
    var src := NO_SOURCES.(request := PayloadAt(s, scope, ExecutionRequests, Name(planId)));
    LookupAfter(ExecutionRequests, Name(planId), p => AfterRequest(planId, NO_SOURCES.(request := p), next), ses, s, n + 6);
    LookupAfter(GatewayDecisions, Name(planId), p => AfterGateway(planId, q, src.(gateway := p), next), ses, s, n + 5);
    var src1 := src.(gateway := PayloadAt(s, scope, GatewayDecisions, Name(planId)));
    LookupAfter(DecisionEnvelopes, Name(q.envelopeId), p => AfterEnvelope(planId, q, src1.(envelope := p), next), ses, s, n + 4);
    var src2 := src1.(envelope := PayloadAt(s, scope, DecisionEnvelopes, Name(q.envelopeId)));
    LookupAfter(AuthorityDecisions, Name(q.authorityDecisionId), p => AfterAuthority(planId, src2.(authority := p), next), ses, s, n + 3);
    var src3 := src2.(authority := PayloadAt(s, scope, AuthorityDecisions, Name(q.authorityDecisionId)));
    LookupAfter(ShadowExecutionReceipts, Name(planId), p => AfterReceipt(planId, src3.(receipt := p), next), ses, s, n + 2);
    var src4 := src3.(receipt := PayloadAt(s, scope, ShadowExecutionReceipts, Name(planId)));
    if src4.receipt.None? {
      ListingAfter(ShadowOutcomes, rows => next(src4.(outcome := FirstOutcome(rows, planId))), ses, s, n + 1);
      NoOutcomeWithoutReceipt(signer, s, scope, planId);
    } else {
      LookupAfter(ShadowOutcomes, Name(src4.receipt.value.record.receipt.receiptId), p => next(src4.(outcome := p)), ses, s, n + 1);
    }
  }

  // ---------------------------------------------------------------- building a report

  function StageOf(src: Sources): Stage {
    if src.receipt.None? then Planned else if src.outcome.None? then Simulated else Observed
  }

  ghost function PriorRows(s: Store, scope: Scope): seq<Row> {
    Page(Listing(GroupRows(s, Group(scope, ReplayReports))), MAX_LIST_LIMIT, 0)
  }

  /** The report that build_report signs for a plan of a governed store. */
  ghost function ReportFor(signer: Option<Signer>, args: ReplayArgs, s: Store): ReplayBody
    requires WellTyped(SourcesAt(s, args.scope, args.planId))
  {
    var src := SourcesAt(s, args.scope, args.planId);
    var heads := ChainHeads(VerifiedHeads(s, args.scope, GRDI_CHAINS));
    var checks := Validation(signer, src, args.scope, true);
    if AnyInvalid(checks) then ReportBody(args, src, heads, checks, INVALID, [])
    else if AnyIncomplete(checks) then ReportBody(args, src, heads, checks, INCOMPLETE, [])
    else
      var (state, drift) := StateFrom(signer, SnapshotOf(src, args.scope), PriorReports(PriorRows(s, args.scope), args.planId));
      ReportBody(args, src, heads, checks, state, drift)
  }

  lemma VerifyAfter(signer: Option<Signer>, args: ReplayArgs, src: Sources, finish: ReplayReport -> Prog, ses: Session, s: Store, n: nat)
    requires Valid(s) && WellTyped(src) && n > 0 && ses.scope == args.scope
    ensures After(AfterSources(signer, args, src, finish), ses, s, n)
         == After(AfterVerify(signer, args, src, ChainHeads(VerifiedHeads(s, args.scope, GRDI_CHAINS)), true, finish), ses, s, n - 1)
  {
    hide AfterVerify, Valid, WellTyped, Intact, VerifiedHeads, ChainHeads;
    OverlayEmpty(s);
    ValidIsIntact(s, ScopeFilter(args.scope));
  }

  /** From the verified sources to the continuation. */
  lemma EmitAfter(signer: Option<Signer>, args: ReplayArgs, finish: ReplayReport -> Prog, ses: Session, s: Store, n: nat)
    returns (m: nat)
    requires WellTyped(SourcesAt(s, args.scope, args.planId)) && ses.scope == args.scope
    ensures n <= m <= n + 1
    ensures After(AfterVerify(signer, args, SourcesAt(s, args.scope, args.planId), ChainHeads(VerifiedHeads(s, args.scope, GRDI_CHAINS)),
                              true, finish), ses, s, n + 1)
         == if signer.None? then (Raise(ValueError), s)
            else After(finish(SignedReport(signer.value, ReportFor(signer, args, s))), ses, s, m)
  {
    hide After, Listing1000, Validation, WellTyped, StateFrom, ReportBody, SourcesAt, VerifiedHeads, ChainHeads, SnapshotOf;
    m := n;
    var src, heads := SourcesAt(s, args.scope, args.planId), ChainHeads(VerifiedHeads(s, args.scope, GRDI_CHAINS));
    RaisesEnd(ses, s);
    var checks := Validation(signer, src, args.scope, true);
    if AnyInvalid(checks) || AnyIncomplete(checks) {
      m := n + 1;
    } else {
      ListingAfter(ReplayReports, rows =>
        var (state, drift) := StateFrom(signer, SnapshotOf(src, args.scope), PriorReports(rows, args.planId));
        Emit(signer, args, src, heads, checks, state, drift, finish), ses, s, n + 1);
    }
  }

  /** Building ends in the continuation with the signed report, with at least n calls left. */
  lemma BuildAfter(signer: Option<Signer>, args: ReplayArgs, finish: ReplayReport -> Prog, ses: Session, s: Store, n: nat)
    returns (m: nat)
    requires Governed(signer, s) && RequestAt(s, ses.scope, args.planId).Some? && ses.scope == args.scope
    ensures n <= m <= n + 1 && WellTyped(SourcesAt(s, args.scope, args.planId))
    ensures After(BuildReport(signer, args, finish), ses, s, n + 8)
         == if signer.None? then (Raise(ValueError), s)
            else After(finish(SignedReport(signer.value, ReportFor(signer, args, s))), ses, s, m)
  {
    hide Governed, After, LoadSources, WellTyped, SourcesAt, VerifiedHeads, ChainHeads, AfterSources, AfterVerify, RequestAt, ReportFor;
    var src := SourcesAt(s, args.scope, args.planId);
    SourcesAreTyped(signer, s, args.scope, args.planId);
    GovernedIsValid(signer, s);
    LoadAfter(signer, args.planId, src => if WellTyped(src) then AfterSources(signer, args, src, finish) else Raise(KeyError),
              ses, s, n + 2);
    VerifyAfter(signer, args, src, finish, ses, s, n + 2);
    m := EmitAfter(signer, args, finish, ses, s, n);
  }

  // ---------------------------------------------------------------- the state of a report

  /** No two plans of a scope have receipts with the same identifier. */
  ghost predicate ReceiptsDistinct(s: Store) {
    forall scope, p, p' ::
      (&& ReceiptAt(s, scope, p).Some? && ReceiptAt(s, scope, p').Some?
       && ReceiptAt(s, scope, p).value.receiptId == ReceiptAt(s, scope, p').value.receiptId) ==> p == p'
  }

  lemma {:induction false} MissingExactly(src: Sources, tags: seq<Label>)
    ensures Missing(src, tags) == [] <==> forall tag :: tag in tags ==> Source(src, tag).Some?
  {
    if tags != [] {
      MissingExactly(src, tags[1..]);
      assert forall tag :: tag in tags <==> tag == tags[0] || tag in tags[1..];
    }
  }

  lemma ReceiptIsFit(signer: Option<Signer>, s: Store, scope: Scope, planId: Id)
    requires Governed(signer, s) && ReceiptAt(s, scope, planId).Some?
    ensures ReceiptFits(signer, s, scope, Name(planId), ReceiptAt(s, scope, planId).value)
    ensures ReceiptAt(s, scope, planId).value.planId == planId
  {
    hide Governed, ReceiptFits;
    StoredFits(signer, s, scope, ShadowExecutionReceipts, Name(planId));
    ReceiptKey(signer, s, scope, Name(planId), ReceiptAt(s, scope, planId).value);
  }

  lemma ReceiptKey(signer: Option<Signer>, s: Store, scope: Scope, key: CKey, r: ShadowReceipt)
    requires ReceiptFits(signer, s, scope, key, r)
    ensures key == Name(r.planId)
  {
  }

  lemma OutcomeIsFit(signer: Option<Signer>, s: Store, scope: Scope, receiptId: Id)
    requires Governed(signer, s) && OutcomeAt(s, scope, receiptId).Some?
    ensures OutcomeFits(signer, s, scope, Name(receiptId), OutcomeAt(s, scope, receiptId).value)
  {
    hide Governed, OutcomeFits;
    StoredFits(signer, s, scope, ShadowOutcomes, Name(receiptId));
  }

  /** A stored receipt means an eligible plan, whose envelope has a valid PASS receipt. */
  lemma ReceiptMeansEligible(signer: Option<Signer>, s: Store, scope: Scope, planId: Id)
    requires Governed(signer, s) && ReceiptAt(s, scope, planId).Some?
    ensures RequestAt(s, scope, planId).Some?
    ensures
      var q, r := RequestAt(s, scope, planId).value, ReceiptAt(s, scope, planId).value;
      && EnvelopeAt(s, scope, q.envelopeId).Some? && AuthorityAt(s, scope, q.authorityDecisionId).Some?
      && var e, a := EnvelopeAt(s, scope, q.envelopeId).value, AuthorityAt(s, scope, q.authorityDecisionId).value;
         && Eligible(e, a, q, scope) && HavPasses(signer, e) && MayAuthorize(e, a.authoritySubject, a.authorityRole, a.approvals)
         && ReceiptOk(signer, r, q)
  {
    hide Governed, Eligible, ReceiptOk, HavPasses, MayAuthorize, RequestAt, EnvelopeAt, AuthorityAt, ReceiptAt, GatewayAt, EventAt,
         Decide, Judge, Simulate;
    ReceiptIsFit(signer, s, scope, planId);
    var q, r := RequestAt(s, scope, planId).value, ReceiptAt(s, scope, planId).value;
    var e, a := EnvelopeAt(s, scope, q.envelopeId).value, AuthorityAt(s, scope, q.authorityDecisionId).value;
    SimulatedReceiptValidates(signer, e, a, q, scope, "", r.receiptId, r.simulatedAt);
    AuthorityIsFit(signer, s, scope, q.authorityDecisionId);
    EligibleLinks(e, a, q, scope);
    EnvelopeIsFit(signer, s, scope, q.envelopeId);
    DecisionIsFailClosed(signer, e, a.authoritySubject, a.authorityRole, a.approvals, a.authorityDecisionId, a.decidedAt);
  }

  lemma EligibleLinks(e: DecisionEnvelope, a: AuthorityDecision, q: ExecutionRequest, scope: Scope)
    requires Eligible(e, a, q, scope)
    ensures a.envelopeId == e.envelopeId == q.envelopeId && a.authorization.AUTHORIZED?
  {
  }

  /** The outcome stored under a plan's receipt is that plan's. */
  lemma OutcomeOfPlan(signer: Option<Signer>, s: Store, scope: Scope, planId: Id)
    requires Governed(signer, s) && ReceiptsDistinct(s) && ReceiptAt(s, scope, planId).Some?
    requires OutcomeAt(s, scope, ReceiptAt(s, scope, planId).value.receiptId).Some?
    ensures RequestAt(s, scope, planId).Some?
    ensures
      var o := OutcomeAt(s, scope, ReceiptAt(s, scope, planId).value.receiptId).value;
      && o.fields.planId == planId
      && OutcomeOk(signer, o, RequestAt(s, scope, planId).value, ReceiptAt(s, scope, planId).value)
  {
    hide Governed, RequestAt, ReceiptAt, OutcomeAt, OutcomeOk, AssessmentsOk;
    var r := ReceiptAt(s, scope, planId).value;
    OutcomeIsFit(signer, s, scope, r.receiptId);
    var o := OutcomeAt(s, scope, r.receiptId).value;
    OutcomeReceipt(signer, o, RequestAt(s, scope, o.fields.planId).value, ReceiptAt(s, scope, o.fields.planId).value);
  }

  lemma OutcomeReceipt(signer: Option<Signer>, o: ShadowOutcome, q: ExecutionRequest, r: ShadowReceipt)
    requires OutcomeOk(signer, o, q, r)
    ensures o.fields.shadowReceiptId == r.receiptId && o.fields.planId == q.planId
  {
  }

  lemma SoundHav(signer: Option<Signer>, envelope: Payload, scope: Scope)
    requires envelope.record.EnvelopeRecord? && HavPasses(signer, envelope.record.envelope)
    requires EnvelopeScope(envelope.record.envelope) == scope
    ensures HavChecks(signer, Some(envelope), scope) == []
  {
  }

  /** With all six rows stored, nothing is missing and every check passes. */
  lemma ObservedIsSound(signer: Option<Signer>, s: Store, scope: Scope, planId: Id)
    requires Governed(signer, s) && ReceiptsDistinct(s) && RequestAt(s, scope, planId).Some?
    requires WellTyped(SourcesAt(s, scope, planId)) && StageOf(SourcesAt(s, scope, planId)).Observed?
    ensures Validation(signer, SourcesAt(s, scope, planId), scope, true) == []
  {
    hide Governed, ReceiptsDistinct, RequestAt, ReceiptAt, OutcomeAt, EnvelopeAt, AuthorityAt, GatewayAt, SourcesAt, HavPasses,
         MayAuthorize, Eligible, OutcomeOk, ReceiptOk, RequestFits, HavChecks;
    var src := SourcesAt(s, scope, planId);
    SourcesAreTyped(signer, s, scope, planId);
    ReceiptMeansEligible(signer, s, scope, planId);
    OutcomeOfPlan(signer, s, scope, planId);
    var q, e, a := src.request.value.record.request, src.envelope.value.record.envelope, src.authority.value.record.authority;
    var o, r := src.outcome.value.record.outcome, src.receipt.value.record.receipt;
    EligibleLinks(e, a, q, scope);
    EnvelopeIsFit(signer, s, scope, q.envelopeId);
    SoundHav(signer, src.envelope.value, scope);
    OutcomeReceipt(signer, o, q, r);
    PlanIds(signer, s, scope, planId);
    MissingExactly(src, LOAD_ORDER);
    forall tag ensures Source(src, tag).Some? {}
  }

  lemma PlanIds(signer: Option<Signer>, s: Store, scope: Scope, planId: Id)
    requires Governed(signer, s) && RequestAt(s, scope, planId).Some?
    ensures
      var q := RequestAt(s, scope, planId).value;
      && Scope(q.tenant, q.project) == scope && q.planId == planId
      && GatewayAt(s, scope, planId).Some? && GatewayAt(s, scope, planId).value.planId == planId
      && AuthorityAt(s, scope, q.authorityDecisionId).Some?
      && AuthorityAt(s, scope, q.authorityDecisionId).value.authorityDecisionId == q.authorityDecisionId
  {
    hide Governed, Judge, Decide, RequestAt, GatewayAt, AuthorityAt, EnvelopeAt, EventAt;
    RequestIsFit(signer, s, scope, planId);
    var q, g := RequestAt(s, scope, planId).value, GatewayAt(s, scope, planId).value;
    JudgeFields(EnvelopeAt(s, scope, q.envelopeId).value, AuthorityAt(s, scope, q.authorityDecisionId).value, q, scope,
                g.gatewayDecisionId, g.decidedAt);
    AuthorityIsFit(signer, s, scope, q.authorityDecisionId);
  }

  /** A plan without its receipt or outcome gets an INVALID or INCOMPLETE report, and only such a plan. */
  lemma StateByStage(signer: Option<Signer>, args: ReplayArgs, s: Store)
    requires Governed(signer, s) && ReceiptsDistinct(s) && RequestAt(s, args.scope, args.planId).Some?
    requires WellTyped(SourcesAt(s, args.scope, args.planId))
    ensures Incomparable(ReportFor(signer, args, s).state) <==> !StageOf(SourcesAt(s, args.scope, args.planId)).Observed?
    ensures StageOf(SourcesAt(s, args.scope, args.planId)).Observed? ==>
      (ReportFor(signer, args, s).state, ReportFor(signer, args, s).driftReasons)
      == StateFrom(signer, SnapshotOf(SourcesAt(s, args.scope, args.planId), args.scope),
                   PriorReports(PriorRows(s, args.scope), args.planId))
  {
    hide Governed, ReceiptsDistinct, RequestAt, SourcesAt, WellTyped, HavChecks, RecordChecks, LinkChecks, StateFrom, VerifiedHeads;
    var src := SourcesAt(s, args.scope, args.planId);
    if StageOf(src).Observed? {
      ObservedIsSound(signer, s, args.scope, args.planId);
      StateIsComparable(signer, SnapshotOf(src, args.scope), PriorReports(PriorRows(s, args.scope), args.planId));
    } else {
      MissingExactly(src, LOAD_ORDER);
      assert LOAD_ORDER[4] == ReceiptLabel && LOAD_ORDER[5] == OutcomeLabel;
      assert ReceiptLabel in LOAD_ORDER && OutcomeLabel in LOAD_ORDER;
      assert Source(src, ReceiptLabel).None? || Source(src, OutcomeLabel).None?;
      IncompleteReported(signer, src, args.scope);
    }
  }

  /** A report lists the checks of its sources; it is INVALID exactly if one failed, and INCOMPLETE exactly if none did
    * and rows are missing. */
  lemma StateByChecks(signer: Option<Signer>, args: ReplayArgs, s: Store)
    requires WellTyped(SourcesAt(s, args.scope, args.planId))
    ensures
      var p := ReportFor(signer, args, s);
      && p.validation == Validation(signer, SourcesAt(s, args.scope, args.planId), args.scope, true)
      && (p.state.INVALID? <==> AnyInvalid(p.validation))
      && (p.state.INCOMPLETE? <==> !AnyInvalid(p.validation) && AnyIncomplete(p.validation))
  {
    hide SourcesAt, WellTyped, Validation, AnyInvalid, AnyIncomplete, StateFrom, VerifiedHeads, SnapshotOf;
    var src := SourcesAt(s, args.scope, args.planId);
    StateIsComparable(signer, SnapshotOf(src, args.scope), PriorReports(PriorRows(s, args.scope), args.planId));
  }

  lemma StateIsComparable(signer: Option<Signer>, m: Snapshot, prior: seq<ReplayReport>)
    ensures !Incomparable(StateFrom(signer, m, prior).0)
  {
    hide ValidReports, SkippedReports, Drift;
  }

  lemma IncompleteReported(signer: Option<Signer>, src: Sources, scope: Scope)
    requires WellTyped(src) && Missing(src, LOAD_ORDER) != []
    ensures AnyIncomplete(Validation(signer, src, scope, true))
  {
    hide HavChecks, RecordChecks, LinkChecks, WellTyped;
    var checks := Validation(signer, src, scope, true);
    assert checks[0] == CheckIncomplete(Missing(src, LOAD_ORDER));
    assert checks[0] in checks;
  }

  // ---------------------------------------------------------------- storing a report

  lemma UpToOwnStage(src: Sources)
    requires src.outcome.Some? ==> src.receipt.Some?
    ensures Reached(src, StageOf(src)) && UpTo(src, StageOf(src)) == src
  {
  }

  /** The report built for a plan fits in every later store. */
  lemma BuiltReportFits(signer: Option<Signer>, args: ReplayArgs, s: Store, s': Store)
    requires Governed(signer, s) && ReceiptsDistinct(s) && Extends(s, s') && signer.Some?
    requires RequestAt(s, args.scope, args.planId).Some? && WellTyped(SourcesAt(s, args.scope, args.planId))
    ensures
      var p := SignedReport(signer.value, ReportFor(signer, args, s));
      ReportFits(signer, s', args.scope, ManifestKey(p.fields.manifestHash), p)
  {
    hide Governed, ReceiptsDistinct, Extends, RequestAt, SourcesAt, Validation, StateFrom, VerifiedHeads, EnvelopeAt, AuthorityAt,
         GatewayAt, ReceiptAt, OutcomeAt, SnapshotOf, WellTyped;
    var p, src := SignedReport(signer.value, ReportFor(signer, args, s)), SourcesAt(s, args.scope, args.planId);
    SourcesAreTyped(signer, s, args.scope, args.planId);
    RecordsStay(s, s', args.scope);
    UpToOwnStage(src);
    StateByStage(signer, args, s);
    StagesStay(signer, s, s', args.scope, args.planId, StageOf(src));
    StateByChecks(signer, args, s);
    assert ReportFitsStage(signer, s', args.scope, p, StageOf(src));
  }

  /** A persisting replay that returns gives back the report stored under the manifest hash: the one
    * already there, or the one it has just built and stored. */
  ghost predicate Replays(signer: Option<Signer>, args: ReplayArgs, hash: ManifestHash, s: Store, s': Store, p: ReplayReport)
    requires WellTyped(SourcesAt(s, args.scope, args.planId))
  {
    && ReportOk(signer, p)
    && ReportFor(signer, args, s).manifestHash == hash
    && match PayloadAt(s, args.scope, ReplayReports, ManifestKey(hash))
       case Some(stored) => stored.record == ReplayRecord(p) && s' == s
       case None =>
         && signer.Some? && p == SignedReport(signer.value, ReportFor(signer, args, s))
         && Wrote(s, s', map[RowKey(args.scope, ReplayReports, ManifestKey(hash)) := ReplayRecord(p)])
  }

  lemma RebuildEnds(signer: Option<Signer>, args: ReplayArgs, hash: ManifestHash, ses: Session, s: Store, n: nat)
    requires Valid(s) && signer.Some? && WellTyped(SourcesAt(s, args.scope, args.planId)) && ses.scope == args.scope && n >= 2
    ensures
      var rebuilt := SignedReport(signer.value, ReportFor(signer, args, s));
      var (rest, s') := After(AfterRebuild(signer, hash, rebuilt), ses, s, n);
      rest.Return? ==> rest.value.ReplayRecord? && Replays(signer, args, hash, s, s', rest.value.report)
  {
    hide Wrote, Effect, After, Lookup, Put, Valid, ReportOk, ReportFor, SourcesAt, WellTyped;
    var rebuilt := SignedReport(signer.value, ReportFor(signer, args, s));
    RaisesEnd(ses, s);
    if rebuilt.fields.manifestHash == hash {
      LookupAfter(ReplayReports, ManifestKey(hash), existing => AfterExisting(signer, hash, rebuilt, existing), ses, s, n);
      var p := PayloadAt(s, args.scope, ReplayReports, ManifestKey(hash));
      if p.Some? {
        NothingLeft(p.value.record, ses, s);
      } else {
        WroteNothing(s);
        var s1 := PutAfter(ReplayReports, ManifestKey(hash), ReplayRecord(rebuilt), stored => CheckedReport(signer, stored),
                           ses, s, s, n - 1, map[]);
        NothingLeft(ReplayRecord(rebuilt), ses, s1);
        RaisesEnd(ses, s1);
      }
    }
  }

  lemma ReplayEnds(signer: Option<Signer>, args: ReplayArgs, hash: ManifestHash, s: Store)
    requires Governed(signer, s) && RequestAt(s, args.scope, args.planId).Some?
    ensures WellTyped(SourcesAt(s, args.scope, args.planId))
    ensures
      var (rest, s') := Ends(ReplayTxn(signer, args, hash), s);
      rest.Return? ==> signer.Some? && rest.value.ReplayRecord? && Replays(signer, args, hash, s, s', rest.value.report)
  {
    hide Governed, After, BuildReport, Replays, RequestAt, ReportFor, WellTyped, SourcesAt, ReplayLocks, ContextOf, AfterRebuild;
    var ses := SessionOf(ReplayTxn(signer, args, hash));
    GovernedIsValid(signer, s);
    var m := BuildAfter(signer, args, rebuilt => AfterRebuild(signer, hash, rebuilt), ses, s, 2);
    if signer.Some? { RebuildEnds(signer, args, hash, ses, s, m); }
  }

  lemma ReplayCommitKeeps(signer: Option<Signer>, args: ReplayArgs, hash: ManifestHash, s: Store)
    requires Governed(signer, s) && ReceiptsDistinct(s) && RequestAt(s, args.scope, args.planId).Some?
    ensures
      var t := ReplayTxn(signer, args, hash);
      Governed(signer, RunTransaction(t, s).1) && Extends(s, RunTransaction(t, s).1)
  {
    hide Governed, ReceiptsDistinct, RunTransaction, Extends, Ends, Wrote, RequestAt, WellTyped, SourcesAt, ReportFor, ReplayLocks,
         ReportOk, ReportFits;
    var t := ReplayTxn(signer, args, hash);
    GovernedIsValid(signer, s);
    ReplayRefs(args.scope, args.planId, hash);
    ReplayEnds(signer, args, hash, s);
    var s' := Ends(t, s).1;
    var w: map<Key, Record> := map[];
    WroteNothing(s);
    if Ends(t, s).0.Return? && PayloadAt(s, args.scope, ReplayReports, ManifestKey(hash)).None? {
      w := map[RowKey(args.scope, ReplayReports, ManifestKey(hash)) := Ends(t, s).0.value];
      WroteExtends(s, s', w);
      BuiltReportFits(signer, args, s, s');
    }
    CommitKeepsGoverned(signer, t, s, w);
  }

  // ---------------------------------------------------------------- comparing

  lemma {:induction false} FindReportListed(rows: seq<Row>, replayId: Id)
    ensures
      match FindReport(rows, replayId)
      case Some(p) => exists row :: row in rows && row.payload.record == ReplayRecord(p)
      case None => true
  {
    if rows != [] {
      FindReportListed(rows[1..], replayId);
      assert rows[0] in rows && forall row :: row in rows[1..] ==> row in rows;
    }
  }

  /** A report found in the listing is stored under its own manifest hash. */
  lemma FoundReportStored(signer: Option<Signer>, s: Store, scope: Scope, replayId: Id)
    requires Governed(signer, s)
    ensures
      match FindReport(PriorRows(s, scope), replayId)
      case Some(p) => ReportAt(s, scope, p.fields.manifestHash) == Some(p)
      case None => true
  {
    hide Governed, FindReport, ReportOk;
    FindReportListed(PriorRows(s, scope), replayId);
    if FindReport(PriorRows(s, scope), replayId).Some? {
      var p := FindReport(PriorRows(s, scope), replayId).value;
      var row :| row in PriorRows(s, scope) && row.payload.record == ReplayRecord(p);
      var k := ListedFits(signer, s, Group(scope, ReplayReports), row);
    }
  }

  lemma WithReportAfter(replayId: Id, next: ReplayReport -> Prog, ses: Session, s: Store, n: nat)
    requires n > 0
    ensures
      match FindReport(PriorRows(s, ses.scope), replayId)
      case Some(p) => After(WithReport(replayId, next), ses, s, n) == After(next(p), ses, s, n - 1)
      case None => After(WithReport(replayId, next), ses, s, n) == (Raise(KeyError), s)
  {
    hide Page, Listing, FindReport, Listing1000, After;
    RaisesEnd(ses, s);
    ListingAfter(ReplayReports, rows =>
      match FindReport(rows, replayId)
      case Some(report) => next(report)
      case None => Raise(KeyError), ses, s, n);
  }

  function NewComparison(args: CompareArgs, b: ReplayReport, c: ReplayReport): ComparisonBody {
    ComparisonBody(args.comparisonId, b.fields.replayId, c.fields.replayId, b.fields.scope, args.requestedBy,
                   Compare(b.fields, c.fields), ComparisonHash(b.fields.replayId, c.fields.replayId), args.now)
  }

  lemma PairEnds(signer: Option<Signer>, args: CompareArgs, baseline: ManifestHash, candidate: ManifestHash,
                 b: ReplayReport, c: ReplayReport, ses: Session, s: Store)
    requires Valid(s) && ses.scope == args.scope
    ensures
      var body := NewComparison(args, b, c);
      var (rest, s') := After(AfterPair(signer, args, baseline, candidate, b, c), ses, s, 2);
      rest.Return? ==>
        && rest.value.ComparisonRecord? && ComparisonOk(signer, rest.value.comparison)
        && if PayloadAt(s, args.scope, HistoricalComparisons, PairKey(body.comparisonKey)).Some? then s' == s
           else
             && signer.Some? && rest.value.comparison == SignedComparison(signer.value, body)
             && Wrote(s, s', map[RowKey(args.scope, HistoricalComparisons, PairKey(body.comparisonKey)) := rest.value])
  {
    hide Wrote, Effect, After, Lookup, Put, Valid, ReportOk, ComparisonOk, Compare;
    var body := NewComparison(args, b, c);
    var key := PairKey(body.comparisonKey);
    RaisesEnd(ses, s);
    LookupAfter(HistoricalComparisons, key, existing => AfterStoredComparison(signer, body, existing), ses, s, 2);
    var p := PayloadAt(s, args.scope, HistoricalComparisons, key);
    if p.Some? {
      NothingLeft(p.value.record, ses, s);
    } else if signer.Some? {
      WroteNothing(s);
      var record := ComparisonRecord(SignedComparison(signer.value, body));
      var s1 := PutAfter(HistoricalComparisons, key, record, stored => CheckedComparison(signer, stored), ses, s, s, 1, map[]);
      NothingLeft(record, ses, s1);
      RaisesEnd(ses, s1);
    }
  }

  lemma NewComparisonFits(signer: Option<Signer>, args: CompareArgs, b: ReplayReport, c: ReplayReport, s': Store)
    requires signer.Some?
    requires ReportAt(s', args.scope, b.fields.manifestHash) == Some(b) && ReportAt(s', args.scope, c.fields.manifestHash) == Some(c)
    ensures
      var h := SignedComparison(signer.value, NewComparison(args, b, c));
      ComparisonFits(signer, s', args.scope, PairKey(h.fields.comparisonKey), h)
  {
    hide ReportAt, Compare;
    var h := SignedComparison(signer.value, NewComparison(args, b, c));
    assert Compares(s', args.scope, h, b.fields.manifestHash, c.fields.manifestHash);
  }

  /** A comparison that returns has written at most its own record. */
  lemma CompareWrites(signer: Option<Signer>, args: CompareArgs, baseline: ManifestHash, candidate: ManifestHash, s: Store)
    returns (w: map<Key, Record>)
    requires Governed(signer, s)
    ensures forall k :: k in w ==> k.group.coll.HistoricalComparisons?
    ensures
      var (rest, s') := Ends(CompareTxn(signer, args, baseline, candidate), s);
      rest.Return? ==> Wrote(s, s', w) && forall k :: k in w ==> Fits(signer, s', k.group.scope, k.group.coll, k.ckey, w[k])
  {
    hide Governed, RunTransaction, Extends, After, Wrote, ComparisonLocks, ContextOf, FindReport, PriorRows, WithReport, AfterPair,
         ReportAt, ComparisonOk, ComparisonFits, NewComparison;
    var t := CompareTxn(signer, args, baseline, candidate);
    var ses := SessionOf(t);
    GovernedIsValid(signer, s);
    WithReportAfter(args.baselineId, b => WithReport(args.candidateId, c => AfterPair(signer, args, baseline, candidate, b, c)), ses, s, 4);
    FoundReportStored(signer, s, args.scope, args.baselineId);
    FoundReportStored(signer, s, args.scope, args.candidateId);
    w := map[];
    WroteNothing(s);
    var s' := Ends(t, s).1;
    if Ends(t, s).0.Return? {
      var b := FindReport(PriorRows(s, args.scope), args.baselineId).value;
      WithReportAfter(args.candidateId, c => AfterPair(signer, args, baseline, candidate, b, c), ses, s, 3);
      var c := FindReport(PriorRows(s, args.scope), args.candidateId).value;
      PairEnds(signer, args, baseline, candidate, b, c, ses, s);
      var body := NewComparison(args, b, c);
      if PayloadAt(s, args.scope, HistoricalComparisons, PairKey(body.comparisonKey)).None? {
        w := map[RowKey(args.scope, HistoricalComparisons, PairKey(body.comparisonKey)) := Ends(t, s).0.value];
        WroteExtends(s, s', w);
        RecordsStay(s, s', args.scope);
        NewComparisonFits(signer, args, b, c, s');
      }
    }
  }

  lemma CompareKeeps(signer: Option<Signer>, args: CompareArgs, baseline: ManifestHash, candidate: ManifestHash, s: Store)
    requires Governed(signer, s)
    ensures
      var t := CompareTxn(signer, args, baseline, candidate);
      Governed(signer, RunTransaction(t, s).1) && Extends(s, RunTransaction(t, s).1)
  {
    hide Governed, RunTransaction, Extends, Ends, Wrote, Fits, ComparisonLocks, CompareCommit;
    CompareLocked(signer, args, baseline, candidate);
    var w := CompareWrites(signer, args, baseline, candidate, s);
    CommitKeepsGoverned(signer, CompareTxn(signer, args, baseline, candidate), s, w);
  }
}
