/** Replay reports (grdi/replay.py): the sources of a plan, their manifest, the state of the replay and
  * the program that builds a report inside a transaction. */
module Replay {
  import opened Signing
  import opened Models
  import opened ScopedStore
  import opened Sessions
  import opened SessionRules
  import opened Authority
  import opened Gateway
  import opened Outcomes

  const HAV_POLICY_VERSION := "1.0.0"
  const GRDI_OUTCOME_POLICY_VERSION := "1.0.0"
  const PROTOCOL_VERSIONS := map[
    CoreVersion := "4.1.0-rc.8", GrdiVersion := "0.5.0", ProtocolVersion := "2.0.0",
    OutcomeLedgerVersion := "0.1.0", ReplayAuditVersion := "0.1.0"]

  const LABELS := [EnvelopeLabel, AuthorityLabel, RequestLabel, GatewayLabel, ReceiptLabel, OutcomeLabel]
  const LOAD_ORDER := [RequestLabel, GatewayLabel, EnvelopeLabel, AuthorityLabel, ReceiptLabel, OutcomeLabel]
  const POLICIES := [HavPolicy, AuthorityPolicy, GatewayPolicy, OutcomePolicy]
  const PROTOCOLS := [CoreVersion, GrdiVersion, ProtocolVersion, OutcomeLedgerVersion, ReplayAuditVersion]
  const IDENTITY_FIELDS := [SubjectField, DomainField, DecisionTypeField]
  const GRDI_CHAINS := {DecisionEnvelopes, AuthorityDecisions, ExecutionRequests, GatewayDecisions,
                        ShadowExecutionReceipts, ShadowOutcomes}

  // ---------------------------------------------------------------- sources and manifest

  datatype Sources = Sources(
    request: Option<Payload>, gateway: Option<Payload>, envelope: Option<Payload>,
    authority: Option<Payload>, receipt: Option<Payload>, outcome: Option<Payload>)

  const NO_SOURCES := Sources(None, None, None, None, None, None)

  function Source(src: Sources, tag: Label): Option<Payload> {
    match tag
    case EnvelopeLabel => src.envelope
    case AuthorityLabel => src.authority
    case RequestLabel => src.request
    case GatewayLabel => src.gateway
    case ReceiptLabel => src.receipt
    case OutcomeLabel => src.outcome
  }

  predicate WellTyped(src: Sources) {
    && (src.request.Some? ==> src.request.value.record.RequestRecord?)
    && (src.gateway.Some? ==> src.gateway.value.record.GatewayRecord?)
    && (src.envelope.Some? ==> src.envelope.value.record.EnvelopeRecord?)
    && (src.authority.Some? ==> src.authority.value.record.AuthorityRecord?)
    && (src.receipt.Some? ==> src.receipt.value.record.ReceiptRecord?)
    && (src.outcome.Some? ==> src.outcome.value.record.OutcomeRecord?)
  }

  function RecordHashes(src: Sources): map<Label, PayloadHash> {
    map tag | tag in LABELS && Source(src, tag).Some? :: PayloadHash(Source(src, tag).value)
  }

  function IdentityOf(envelope: Option<Payload>): map<IdentityField, string>
    requires envelope.Some? ==> envelope.value.record.EnvelopeRecord?
  {
    if envelope.None? then map[SubjectField := "", DomainField := "", DecisionTypeField := ""]
    else
      var e := envelope.value.record.envelope;
      map[SubjectField := e.subject, DomainField := e.domain, DecisionTypeField := e.decisionType]
  }

  /** _build_manifest without the chain heads: what manifest_hash covers. */
  function SnapshotOf(src: Sources, scope: Scope): Snapshot
    requires WellTyped(src)
  {
    Snapshot(
      if src.envelope.Some? then src.envelope.value.record.envelope.envelopeId
      else if src.request.Some? then src.request.value.record.request.envelopeId else "",
      if src.authority.Some? then src.authority.value.record.authority.authorityDecisionId
      else if src.request.Some? then src.request.value.record.request.authorityDecisionId else "",
      if src.request.Some? then src.request.value.record.request.planId else "",
      if src.gateway.Some? then src.gateway.value.record.gateway.gatewayDecisionId else "",
      if src.receipt.Some? then src.receipt.value.record.receipt.receiptId else "",
      if src.outcome.Some? then src.outcome.value.record.outcome.fields.outcomeId else "",
      scope,
      RecordHashes(src),
      map[HavPolicy := HAV_POLICY_VERSION,
          AuthorityPolicy := if src.authority.Some? then src.authority.value.record.authority.policyVersion else GRDI_POLICY_VERSION,
          GatewayPolicy := if src.gateway.Some? then src.gateway.value.record.gateway.policyVersion else GRDI_GATEWAY_POLICY_VERSION,
          OutcomePolicy := GRDI_OUTCOME_POLICY_VERSION],
      PROTOCOL_VERSIONS,
      IdentityOf(src.envelope),
      if src.outcome.Some? then Some(src.outcome.value.record.outcome.fields.outcomeState) else None)
  }

  function ChainHeads(heads: map<Collection, ChainHash>): map<Collection, Option<ChainHash>> {
    map c | c in GRDI_CHAINS :: if c in heads then Some(heads[c]) else None
  }

  // ---------------------------------------------------------------- validation

  function Missing(src: Sources, tags: seq<Label>): seq<Label> {
    if tags == [] then []
    else (if Source(src, tags[0]).None? then [tags[0]] else []) + Missing(src, tags[1..])
  }

  function Invalid(condition: bool, check: Check): seq<CheckStatus> {
    if condition then [CheckInvalid(check)] else []
  }

  function HavChecks(signer: Option<Signer>, envelope: Option<Payload>, scope: Scope): seq<CheckStatus>
    requires envelope.Some? ==> envelope.value.record.EnvelopeRecord?
  {
    if envelope.None? then []
    else
      var e := envelope.value.record.envelope;
      if signer.None? then [CheckInvalid(SignerNotConfigured)]
      else if !VerifySignature(signer.value, e.havReceipt, e.havSignature) then [CheckInvalid(HavSignatureInvalid)]
      else Invalid(Scope(e.tenant, e.project) != scope, EnvelopeScopeMismatch)
  }

  function RecordChecks(signer: Option<Signer>, src: Sources): seq<CheckStatus>
    requires WellTyped(src) && src.request.Some?
  {
    var q := src.request.value.record.request;
    Invalid(src.authority.Some? && src.authority.value.record.authority.envelopeId != q.envelopeId, AuthorityEnvelopeMismatch)
    + Invalid(src.gateway.Some? && src.gateway.value.record.gateway.planId != q.planId, GatewayPlanMismatch)
    + Invalid(src.receipt.Some? && !ReceiptOk(signer, src.receipt.value.record.receipt, q), ShadowReceiptInvalid)
    + Invalid(src.outcome.Some? && src.receipt.Some?
              && !OutcomeOk(signer, src.outcome.value.record.outcome, q, src.receipt.value.record.receipt), ShadowOutcomeInvalid)
  }

  function LinkChecks(src: Sources, scope: Scope): seq<CheckStatus>
    requires WellTyped(src) && src.request.Some?
  {
    var q := src.request.value.record.request;
    Invalid(src.envelope.Some? && src.envelope.value.record.envelope.envelopeId != q.envelopeId, PlanEnvelopeMismatch)
    + Invalid(src.authority.Some? && src.authority.value.record.authority.authorityDecisionId != q.authorityDecisionId,
              PlanAuthorityMismatch)
    + Invalid(src.outcome.Some? && src.receipt.Some?
              && src.outcome.value.record.outcome.fields.shadowReceiptId != src.receipt.value.record.receipt.receiptId,
              OutcomeReceiptMismatch)
    + Invalid(src.outcome.Some? && src.outcome.value.record.outcome.fields.planId != q.planId, OutcomePlanMismatch)
    + Invalid(q.tenant != scope.tenant, RequestTenantMismatch)
    + Invalid(q.project != scope.project, RequestProjectMismatch)
  }

  /** The validation results of build_report, in order. */
  function Validation(signer: Option<Signer>, src: Sources, scope: Scope, chainValid: bool): seq<CheckStatus>
    requires WellTyped(src)
  {
    var missing := Missing(src, LOAD_ORDER);
    Invalid(!chainValid, LedgerChain)
    + (if missing != [] then [CheckIncomplete(missing)] else [])
    + (if src.request.Some? then
         HavChecks(signer, src.envelope, scope) + RecordChecks(signer, src) + LinkChecks(src, scope)
       else [])
  }

  predicate AnyInvalid(checks: seq<CheckStatus>) {
    exists c :: c in checks && c.CheckInvalid?
  }

  predicate AnyIncomplete(checks: seq<CheckStatus>) {
    exists c :: c in checks && c.CheckIncomplete?
  }

  // ---------------------------------------------------------------- stored reports

  function SignedReport(signer: Signer, body: ReplayBody): ReplayReport {
    ReplayReport(body, body, Sign(signer, body))
  }

  /** _validate_report_historical. */
  predicate ReportOk(signer: Option<Signer>, p: ReplayReport) {
    && signer.Some?
    && VerifySignature(signer.value, p.signed, p.signature)
    && p.fields == p.signed
    && !p.fields.anythingExecuted
    && p.fields.execution.NOT_EXECUTED?
    && p.fields.manifestHash == ManifestHash(p.fields.manifest.snapshot)
  }

  /** _list_prior_reports. */
  function PriorReports(rows: seq<Row>, planId: Id): seq<ReplayReport> {
    if rows == [] then []
    else
      var record := rows[0].payload.record;
      (if record.ReplayRecord? && record.report.fields.planId == planId then [record.report] else [])
      + PriorReports(rows[1..], planId)
  }

  function ValidReports(signer: Option<Signer>, reports: seq<ReplayReport>): seq<ReplayReport> {
    if reports == [] then []
    else (if ReportOk(signer, reports[0]) then [reports[0]] else []) + ValidReports(signer, reports[1..])
  }

  function SkippedReports(signer: Option<Signer>, reports: seq<ReplayReport>): seq<DriftReason> {
    if reports == [] then []
    else
      (if ReportOk(signer, reports[0]) then [] else [PriorReplayInvalid(reports[0].fields.replayId)])
      + SkippedReports(signer, reports[1..])
  }

  // ---------------------------------------------------------------- drift

  predicate Differs<K, V(==)>(m: map<K, V>, reference: map<K, V>, k: K) {
    k in m && (k !in reference || reference[k] != m[k])
  }

  /** The listed keys of m whose value the reference lacks or has differently. */
  function Changed<K, V(==)>(keys: seq<K>, m: map<K, V>, reference: map<K, V>): seq<K> {
    if keys == [] then []
    else (if Differs(m, reference, keys[0]) then [keys[0]] else []) + Changed(keys[1..], m, reference)
  }

  lemma {:induction false} ChangedMembers<K, V>(keys: seq<K>, m: map<K, V>, reference: map<K, V>)
    ensures forall i :: 0 <= i < |Changed(keys, m, reference)| ==>
      Changed(keys, m, reference)[i] in keys && Differs(m, reference, Changed(keys, m, reference)[i])
    ensures forall i :: 0 <= i < |keys| && Differs(m, reference, keys[i]) ==> keys[i] in Changed(keys, m, reference)
  {
    hide Differs;
    if keys != [] { ChangedMembers(keys[1..], m, reference); }
  }

  function Map<A, B>(f: A -> B, xs: seq<A>): (r: seq<B>)
    ensures |r| == |xs| && forall i :: 0 <= i < |xs| ==> r[i] == f(xs[i])
  {
    if xs == [] then [] else [f(xs[0])] + Map(f, xs[1..])
  }

  /** How the new manifest differs from the reference, in the order the code reports it. */
  function Drift(m: Snapshot, reference: Snapshot): seq<DriftReason> {
    Map(tag => RecordHashChanged(tag), Changed(LABELS, m.recordHashes, reference.recordHashes))
    + Map(p => PolicyVersionChanged(p), Changed(POLICIES, m.policyVersions, reference.policyVersions))
    + Map(p => ProtocolVersionChanged(p), Changed(PROTOCOLS, m.protocolVersions, reference.protocolVersions))
    + Map(f => IdentityChanged(f), Changed(IDENTITY_FIELDS, m.identity, reference.identity))
    + (if m.outcome.Some? && m.outcome != reference.outcome then [OutcomeSnapshotChanged] else [])
  }

  /** Some entry of m is missing from the reference or different there. */
  ghost predicate DiffersFrom(m: Snapshot, reference: Snapshot) {
    || (exists tag :: Differs(m.recordHashes, reference.recordHashes, tag))
    || (exists p :: Differs(m.policyVersions, reference.policyVersions, p))
    || (exists p :: Differs(m.protocolVersions, reference.protocolVersions, p))
    || (exists f :: Differs(m.identity, reference.identity, f))
    || (m.outcome.Some? && m.outcome != reference.outcome)
  }

  /** The reason names an entry that the reference lacks or has differently. */
  predicate NamesDifference(r: DriftReason, m: Snapshot, reference: Snapshot) {
    match r
    case RecordHashChanged(tag) => Differs(m.recordHashes, reference.recordHashes, tag)
    case PolicyVersionChanged(p) => Differs(m.policyVersions, reference.policyVersions, p)
    case ProtocolVersionChanged(p) => Differs(m.protocolVersions, reference.protocolVersions, p)
    case IdentityChanged(f) => Differs(m.identity, reference.identity, f)
    case OutcomeSnapshotChanged => m.outcome.Some? && m.outcome != reference.outcome
    case PriorReplayInvalid(_) => false
  }

  lemma AllEntriesListed(tag: Label, policy: PolicyField, protocol: ProtocolField, field: IdentityField)
    ensures tag in LABELS && policy in POLICIES && protocol in PROTOCOLS && field in IDENTITY_FIELDS
  {
    assert LABELS[0] == EnvelopeLabel && LABELS[1] == AuthorityLabel && LABELS[2] == RequestLabel;
    assert LABELS[3] == GatewayLabel && LABELS[4] == ReceiptLabel && LABELS[5] == OutcomeLabel;
    assert POLICIES[0] == HavPolicy && POLICIES[1] == AuthorityPolicy && POLICIES[2] == GatewayPolicy && POLICIES[3] == OutcomePolicy;
    assert PROTOCOLS[0] == CoreVersion && PROTOCOLS[1] == GrdiVersion && PROTOCOLS[2] == ProtocolVersion;
    assert PROTOCOLS[3] == OutcomeLedgerVersion && PROTOCOLS[4] == ReplayAuditVersion;
    assert IDENTITY_FIELDS[0] == SubjectField && IDENTITY_FIELDS[1] == DomainField && IDENTITY_FIELDS[2] == DecisionTypeField;
  }

  lemma MappedMember<A, B>(f: A -> B, xs: seq<A>, y: B)
    ensures y in Map(f, xs) <==> exists i :: 0 <= i < |xs| && f(xs[i]) == y
  {
    var ys := Map(f, xs);
    if y in ys {
      var i :| 0 <= i < |ys| && ys[i] == y;
      assert f(xs[i]) == y;
    }
    if i :| 0 <= i < |xs| && f(xs[i]) == y {
      assert ys[i] == y;
    }
  }

  /** A reason is in the drift exactly when it names a difference. */
  lemma DriftMember(m: Snapshot, reference: Snapshot, r: DriftReason)
    ensures r in Drift(m, reference) <==> NamesDifference(r, m, reference)
  {
    hide Differs, Changed;
    ChangedMembers(LABELS, m.recordHashes, reference.recordHashes);
    ChangedMembers(POLICIES, m.policyVersions, reference.policyVersions);
    ChangedMembers(PROTOCOLS, m.protocolVersions, reference.protocolVersions);
    ChangedMembers(IDENTITY_FIELDS, m.identity, reference.identity);
    var tags, policies := Changed(LABELS, m.recordHashes, reference.recordHashes), Changed(POLICIES, m.policyVersions, reference.policyVersions);
    var protocols, fields := Changed(PROTOCOLS, m.protocolVersions, reference.protocolVersions), Changed(IDENTITY_FIELDS, m.identity, reference.identity);
    MappedMember(tag => RecordHashChanged(tag), tags, r);
    MappedMember(p => PolicyVersionChanged(p), policies, r);
    MappedMember(p => ProtocolVersionChanged(p), protocols, r);
    MappedMember(f => IdentityChanged(f), fields, r);
    match r
    case RecordHashChanged(tag) => AllEntriesListed(tag, HavPolicy, CoreVersion, SubjectField);
    case PolicyVersionChanged(p) => AllEntriesListed(EnvelopeLabel, p, CoreVersion, SubjectField);
    case ProtocolVersionChanged(p) => AllEntriesListed(EnvelopeLabel, HavPolicy, p, SubjectField);
    case IdentityChanged(f) => AllEntriesListed(EnvelopeLabel, HavPolicy, CoreVersion, f);
    case _ =>
  }

  /** There is drift exactly when some entry differs. */
  lemma DriftNamesDifferences(m: Snapshot, reference: Snapshot)
    ensures forall r :: r in Drift(m, reference) <==> NamesDifference(r, m, reference)
    ensures Drift(m, reference) == [] <==> !DiffersFrom(m, reference)
  {
    hide Drift, Differs;
    forall r ensures r in Drift(m, reference) <==> NamesDifference(r, m, reference) { DriftMember(m, reference, r); }
    if Drift(m, reference) != [] {
      var r := Drift(m, reference)[0];
      assert r in Drift(m, reference) && NamesDifference(r, m, reference);
    }
    if tag :| Differs(m.recordHashes, reference.recordHashes, tag) { assert NamesDifference(RecordHashChanged(tag), m, reference); }
    if p :| Differs(m.policyVersions, reference.policyVersions, p) { assert NamesDifference(PolicyVersionChanged(p), m, reference); }
    if p :| Differs(m.protocolVersions, reference.protocolVersions, p) { assert NamesDifference(ProtocolVersionChanged(p), m, reference); }
    if f :| Differs(m.identity, reference.identity, f) { assert NamesDifference(IdentityChanged(f), m, reference); }
    if m.outcome.Some? && m.outcome != reference.outcome { assert NamesDifference(OutcomeSnapshotChanged, m, reference); }
  }

  predicate HasHash(reports: seq<ReplayReport>, hash: ManifestHash) {
    exists p :: p in reports && p.fields.manifestHash == hash
  }

  /** _determine_replay_state once nothing is invalid or incomplete. */
  function StateFrom(signer: Option<Signer>, m: Snapshot, prior: seq<ReplayReport>): (ReplayState, seq<DriftReason>) {
    var valid := ValidReports(signer, prior);
    var skipped := SkippedReports(signer, prior);
    if HasHash(valid, ManifestHash(m)) || valid == [] then (REPRODUCED, skipped)
    else
      var drift := skipped + Drift(m, valid[|valid| - 1].fields.manifest.snapshot);
      (if drift != [] then DRIFTED else REPRODUCED, drift)
  }

  /** Report i is the last valid one. */
  ghost predicate LastValid(signer: Option<Signer>, prior: seq<ReplayReport>, i: int) {
    0 <= i < |prior| && ReportOk(signer, prior[i]) && forall j :: i < j < |prior| ==> !ReportOk(signer, prior[j])
  }

  ghost predicate HashKnown(signer: Option<Signer>, prior: seq<ReplayReport>, hash: ManifestHash) {
    exists p :: p in prior && ReportOk(signer, p) && p.fields.manifestHash == hash
  }

  ghost predicate SomeInvalid(signer: Option<Signer>, prior: seq<ReplayReport>) {
    exists p :: p in prior && !ReportOk(signer, p)
  }

  /** When a replay has drifted: there is a valid report before it, none of them has its hash, and some report
    * before it is invalid or some entry differs from the last valid one. */
  ghost predicate Drifts(signer: Option<Signer>, m: Snapshot, prior: seq<ReplayReport>) {
    && !HashKnown(signer, prior, ManifestHash(m))
    && exists i :: LastValid(signer, prior, i) && (SomeInvalid(signer, prior) || DiffersFrom(m, prior[i].fields.manifest.snapshot))
  }

  /** What the drift of a replay names: the invalid reports before it, and what differs from the last valid
    * one unless the hash is known. */
  ghost predicate Named(signer: Option<Signer>, m: Snapshot, prior: seq<ReplayReport>, r: DriftReason) {
    || (exists p :: p in prior && !ReportOk(signer, p) && r == PriorReplayInvalid(p.fields.replayId))
    || (!HashKnown(signer, prior, ManifestHash(m))
        && exists i :: LastValid(signer, prior, i) && NamesDifference(r, m, prior[i].fields.manifest.snapshot))
  }

  lemma {:induction false} SplitMembers(signer: Option<Signer>, prior: seq<ReplayReport>)
    ensures forall p :: p in ValidReports(signer, prior) <==> p in prior && ReportOk(signer, p)
    ensures forall r :: r in SkippedReports(signer, prior) <==>
      exists p :: p in prior && !ReportOk(signer, p) && r == PriorReplayInvalid(p.fields.replayId)
  {
    hide ReportOk;
    if prior != [] {
      SplitMembers(signer, prior[1..]);
      assert forall p :: p in prior <==> p == prior[0] || p in prior[1..];
    }
  }

  lemma NoneValid(signer: Option<Signer>, prior: seq<ReplayReport>)
    requires ValidReports(signer, prior) == []
    ensures forall j :: 0 <= j < |prior| ==> !ReportOk(signer, prior[j])
  {
    hide ReportOk, ValidReports;
    SplitMembers(signer, prior);
    assert forall j :: 0 <= j < |prior| ==> prior[j] in prior;
  }

  lemma LastValidShifts(signer: Option<Signer>, prior: seq<ReplayReport>, k: int)
    requires prior != [] && LastValid(signer, prior[1..], k)
    ensures LastValid(signer, prior, k + 1) && prior[k + 1] == prior[1..][k]
  {
    hide ReportOk;
    assert forall j :: 1 <= j < |prior| ==> prior[j] == prior[1..][j - 1];
  }

  /** The last of the valid reports is the report at the last valid position. */
  lemma {:induction false} LastOfValid(signer: Option<Signer>, prior: seq<ReplayReport>) returns (i: int)
    ensures ValidReports(signer, prior) != [] ==>
      0 <= i < |prior| && LastValid(signer, prior, i) && ValidReports(signer, prior)[|ValidReports(signer, prior)| - 1] == prior[i]
  {
    hide ReportOk;
    i := 0;
    if prior != [] {
      var rest := prior[1..];
      i := LastOfValid(signer, rest);
      if ValidReports(signer, rest) != [] {
        LastValidShifts(signer, prior, i);
        i := i + 1;
      } else {
        NoneValid(signer, rest);
        i := 0;
        assert forall j :: 1 <= j < |prior| ==> prior[j] == rest[j - 1];
      }
    }
  }

  lemma LastIsValid(signer: Option<Signer>, prior: seq<ReplayReport>, i: int)
    ensures LastValid(signer, prior, i) ==> 0 <= i < |prior| && ReportOk(signer, prior[i])
  {
  }

  lemma OneLastValid(signer: Option<Signer>, prior: seq<ReplayReport>, i: int, j: int)
    requires LastValid(signer, prior, i) && LastValid(signer, prior, j)
    ensures i == j
  {
  }

  lemma SkippedMeansInvalid(signer: Option<Signer>, prior: seq<ReplayReport>)
    ensures SkippedReports(signer, prior) != [] <==> SomeInvalid(signer, prior)
  {
    hide ReportOk, SkippedReports;
    SplitMembers(signer, prior);
    var skipped := SkippedReports(signer, prior);
    if skipped != [] { assert skipped[0] in skipped; }
    if p :| p in prior && !ReportOk(signer, p) { assert PriorReplayInvalid(p.fields.replayId) in skipped; }
  }

  /** DRIFTED means exactly Drifts, and the drift names exactly what is to be named. */
  lemma StateExactly(signer: Option<Signer>, m: Snapshot, prior: seq<ReplayReport>)
    ensures StateFrom(signer, m, prior).0 == if Drifts(signer, m, prior) then DRIFTED else REPRODUCED
    ensures forall r :: r in StateFrom(signer, m, prior).1 <==> Named(signer, m, prior, r)
  {
    hide ReportOk, Drift, DiffersFrom, NamesDifference, ValidReports, SkippedReports, LastValid;
    var valid, skipped := ValidReports(signer, prior), SkippedReports(signer, prior);
    SplitMembers(signer, prior);
    SkippedMeansInvalid(signer, prior);
    assert HasHash(valid, ManifestHash(m)) <==> HashKnown(signer, prior, ManifestHash(m));
    var i := LastOfValid(signer, prior);
    if valid == [] {
      NoneValid(signer, prior);
      forall j ensures !LastValid(signer, prior, j) { LastIsValid(signer, prior, j); }
    } else {
      forall j | LastValid(signer, prior, j) ensures j == i { OneLastValid(signer, prior, i, j); }
      DriftNamesDifferences(m, prior[i].fields.manifest.snapshot);
    }
  }

  // ---------------------------------------------------------------- the determination, as written

  lemma ChangedFrom<K, V>(keys: seq<K>, m: map<K, V>, reference: map<K, V>, i: nat)
    requires i < |keys|
    ensures Changed(keys[i..], m, reference) == (if Differs(m, reference, keys[i]) then [keys[i]] else []) + Changed(keys[i + 1..], m, reference)
  {
    assert keys[i..][1..] == keys[i + 1..];
  }

  lemma SplitFrom(signer: Option<Signer>, prior: seq<ReplayReport>, i: nat)
    requires i < |prior|
    ensures ValidReports(signer, prior[i..])
      == (if ReportOk(signer, prior[i]) then [prior[i]] else []) + ValidReports(signer, prior[i + 1..])
    ensures SkippedReports(signer, prior[i..])
      == (if ReportOk(signer, prior[i]) then [] else [PriorReplayInvalid(prior[i].fields.replayId)]) + SkippedReports(signer, prior[i + 1..])
  {
    hide ReportOk;
    assert prior[i..][1..] == prior[i + 1..];
  }

  lemma NothingToSplit(signer: Option<Signer>)
    ensures ValidReports(signer, []) == [] && SkippedReports(signer, []) == []
  {
  }

  method CollectChanged<K(==), V(==)>(keys: seq<K>, m: map<K, V>, reference: map<K, V>) returns (r: seq<K>)
    ensures r == Changed(keys, m, reference)
  {
    r := [];
    for i := 0 to |keys|
      invariant r + Changed(keys[i..], m, reference) == Changed(keys, m, reference)
    {
      hide Changed;
      ChangedFrom(keys, m, reference, i);
      var k := keys[i];
      if k in m {
        if k !in reference || reference[k] != m[k] { r := r + [k]; }
      }
    }
  }

  /** _validated_prior_reports. */
  method SplitPrior(signer: Option<Signer>, prior: seq<ReplayReport>) returns (valid: seq<ReplayReport>, skipped: seq<DriftReason>)
    ensures valid == ValidReports(signer, prior) && skipped == SkippedReports(signer, prior)
  {
    hide ReportOk, ValidReports, SkippedReports;
    valid, skipped := [], [];
    assert prior[0..] == prior && prior[|prior|..] == [];
    NothingToSplit(signer);
    for i := 0 to |prior|
      invariant valid + ValidReports(signer, prior[i..]) == ValidReports(signer, prior)
      invariant skipped + SkippedReports(signer, prior[i..]) == SkippedReports(signer, prior)
    {
      SplitFrom(signer, prior, i);
      if ReportOk(signer, prior[i]) {
        valid := valid + [prior[i]];
      } else {
        skipped := skipped + [PriorReplayInvalid(prior[i].fields.replayId)];
      }
    }
  }

  method FindHash(reports: seq<ReplayReport>, hash: ManifestHash) returns (found: bool)
    ensures found <==> HasHash(reports, hash)
  {
    for i := 0 to |reports|
      invariant forall j :: 0 <= j < i ==> reports[j].fields.manifestHash != hash
    {
      if reports[i].fields.manifestHash == hash { return true; }
    }
    found := false;
  }

  method CollectDrift(m: Snapshot, reference: Snapshot) returns (drift: seq<DriftReason>)
    ensures drift == Drift(m, reference)
    ensures forall r :: r in drift <==> NamesDifference(r, m, reference)
    ensures drift == [] <==> !DiffersFrom(m, reference)
  {
    hide Changed, NamesDifference, DiffersFrom;
    DriftNamesDifferences(m, reference);
    var hashes := CollectChanged(LABELS, m.recordHashes, reference.recordHashes);
    var policies := CollectChanged(POLICIES, m.policyVersions, reference.policyVersions);
    var protocols := CollectChanged(PROTOCOLS, m.protocolVersions, reference.protocolVersions);
    var identity := CollectChanged(IDENTITY_FIELDS, m.identity, reference.identity);
    drift := Map(tag => RecordHashChanged(tag), hashes) + Map(p => PolicyVersionChanged(p), policies)
      + Map(p => ProtocolVersionChanged(p), protocols) + Map(f => IdentityChanged(f), identity);
    if m.outcome.Some? && m.outcome != reference.outcome { drift := drift + [OutcomeSnapshotChanged]; }
  }

  /** _determine_replay_state as written, over the reports listed before. */
  method DetermineReplayState(signer: Option<Signer>, m: Snapshot, checks: seq<CheckStatus>, prior: seq<ReplayReport>)
    returns (state: ReplayState, drift: seq<DriftReason>)
    ensures state.INVALID? <==> AnyInvalid(checks)
    ensures state.INCOMPLETE? <==> !AnyInvalid(checks) && AnyIncomplete(checks)
    ensures state.INVALID? || state.INCOMPLETE? ==> drift == []
    ensures state.DRIFTED? <==> !AnyInvalid(checks) && !AnyIncomplete(checks) && Drifts(signer, m, prior)
    ensures !AnyInvalid(checks) && !AnyIncomplete(checks) ==>
      && (state, drift) == StateFrom(signer, m, prior)
      && forall r :: r in drift <==> Named(signer, m, prior, r)
  {
    hide Drift, ReportOk, ValidReports, SkippedReports, AnyInvalid, AnyIncomplete, Drifts, Named, DiffersFrom, NamesDifference;
    StateExactly(signer, m, prior);
    if AnyInvalid(checks) { return INVALID, []; }
    if AnyIncomplete(checks) { return INCOMPLETE, []; }
    var valid, skipped := SplitPrior(signer, prior);
    drift := skipped;
    var matching := FindHash(valid, ManifestHash(m));
    if matching { return REPRODUCED, drift; }
    if valid != [] {
      var changes := CollectDrift(m, valid[|valid| - 1].fields.manifest.snapshot);
      drift := drift + changes;
      if drift != [] { return DRIFTED, drift; }
    }
    state := REPRODUCED;
  }

  // ---------------------------------------------------------------- the program

  /** _load_chain_rows, row by row. */
  function LoadSources(planId: Id, next: Sources -> Prog): Prog {
    Lookup(ExecutionRequests, Name(planId), p => AfterRequest(planId, NO_SOURCES.(request := p), next))
  }

  function AfterRequest(planId: Id, src: Sources, next: Sources -> Prog): Prog {
    if src.request.None? then next(src)
    else if !src.request.value.record.RequestRecord? then Raise(KeyError)
    else
      var q := src.request.value.record.request;
      Lookup(GatewayDecisions, Name(planId), p => AfterGateway(planId, q, src.(gateway := p), next))
  }

  function AfterGateway(planId: Id, q: ExecutionRequest, src: Sources, next: Sources -> Prog): Prog {
    Lookup(DecisionEnvelopes, Name(q.envelopeId), p => AfterEnvelope(planId, q, src.(envelope := p), next))
  }

  function AfterEnvelope(planId: Id, q: ExecutionRequest, src: Sources, next: Sources -> Prog): Prog {
    Lookup(AuthorityDecisions, Name(q.authorityDecisionId), p => AfterAuthority(planId, src.(authority := p), next))
  }

  function AfterAuthority(planId: Id, src: Sources, next: Sources -> Prog): Prog {
    Lookup(ShadowExecutionReceipts, Name(planId), p => AfterReceipt(planId, src.(receipt := p), next))
  }

  function AfterReceipt(planId: Id, src: Sources, next: Sources -> Prog): Prog {
    if src.receipt.None? then
      Listing1000(ShadowOutcomes, rows => next(src.(outcome := FirstOutcome(rows, planId))))
    else if !src.receipt.value.record.ReceiptRecord? then Raise(KeyError)
    else
      Lookup(ShadowOutcomes, Name(src.receipt.value.record.receipt.receiptId), p => next(src.(outcome := p)))
  }

  function Listing1000(c: Collection, next: seq<Row> -> Prog): Prog {
    Call(List(c, MAX_LIST_LIMIT, 0), (res: Result) =>
      match res
      case Listed(rows) => next(rows)
      case Failure(e) => Raise(e)
      case _ => Raise(KeyError))
  }

  function FirstOutcome(rows: seq<Row>, planId: Id): Option<Payload> {
    if rows == [] then None
    else if rows[0].payload.record.OutcomeRecord? && rows[0].payload.record.outcome.fields.planId == planId then Some(rows[0].payload)
    else FirstOutcome(rows[1..], planId)
  }

  /** Who asked for a replay, with the identifier and time of the new report. */
  datatype ReplayArgs = ReplayArgs(scope: Scope, planId: Id, requestedBy: Id, replayId: Id, now: string)

  /** build_report: `finish` receives the signed report. */
  function BuildReport(signer: Option<Signer>, args: ReplayArgs, finish: ReplayReport -> Prog): Prog {
    LoadSources(args.planId, src => if WellTyped(src) then AfterSources(signer, args, src, finish) else Raise(KeyError))
  }

  function AfterSources(signer: Option<Signer>, args: ReplayArgs, src: Sources, finish: ReplayReport -> Prog): Prog
    requires WellTyped(src)
  {
    Call(VerifyScope(GRDI_CHAINS), (res: Result) =>
      match res
      case Heads(heads) => AfterVerify(signer, args, src, ChainHeads(heads), true, finish)
      case Failure(e) =>
        if e.LedgerIntegrityError? then AfterVerify(signer, args, src, ChainHeads(map[]), false, finish) else Raise(e)
      case _ => Raise(KeyError))
  }

  function AfterVerify(signer: Option<Signer>, args: ReplayArgs, src: Sources, heads: map<Collection, Option<ChainHash>>,
                       chainValid: bool, finish: ReplayReport -> Prog): Prog
    requires WellTyped(src)
  {
    var checks := Validation(signer, src, args.scope, chainValid);
    if AnyInvalid(checks) then Emit(signer, args, src, heads, checks, INVALID, [], finish)
    else if AnyIncomplete(checks) then Emit(signer, args, src, heads, checks, INCOMPLETE, [], finish)
    else
      Listing1000(ReplayReports, rows =>
        var (state, drift) := StateFrom(signer, SnapshotOf(src, args.scope), PriorReports(rows, args.planId));
        Emit(signer, args, src, heads, checks, state, drift, finish))
  }

  function ReportBody(args: ReplayArgs, src: Sources, heads: map<Collection, Option<ChainHash>>, checks: seq<CheckStatus>,
                      state: ReplayState, drift: seq<DriftReason>): ReplayBody
    requires WellTyped(src)
  {
    var snapshot := SnapshotOf(src, args.scope);
    ReplayBody(args.replayId, args.planId, snapshot.outcomeId, args.scope, args.requestedBy, Manifest(snapshot, heads),
               ManifestHash(snapshot), state, checks, drift, false, NOT_EXECUTED, args.now)
  }

  function Emit(signer: Option<Signer>, args: ReplayArgs, src: Sources, heads: map<Collection, Option<ChainHash>>,
                checks: seq<CheckStatus>, state: ReplayState, drift: seq<DriftReason>, finish: ReplayReport -> Prog): Prog
    requires WellTyped(src)
  {
    if signer.None? then Raise(ValueError)
    else finish(SignedReport(signer.value, ReportBody(args, src, heads, checks, state, drift)))
  }

  /** The snapshot transaction of create_replay_report: build and keep nothing. */
  function SnapshotBody(signer: Option<Signer>, args: ReplayArgs): Prog {
    BuildReport(signer, args, report => Return(ReplayRecord(report)))
  }

  /** The persisting transaction: rebuild, then return the stored report or store the rebuilt one. */
  function ReplayCommit(signer: Option<Signer>, args: ReplayArgs, expected: ManifestHash): Prog {
    BuildReport(signer, args, rebuilt => AfterRebuild(signer, expected, rebuilt))
  }

  function AfterRebuild(signer: Option<Signer>, expected: ManifestHash, rebuilt: ReplayReport): Prog {
    if rebuilt.fields.manifestHash != expected then Raise(ValueError)
    else Lookup(ReplayReports, ManifestKey(expected), existing => AfterExisting(signer, expected, rebuilt, existing))
  }

  function AfterExisting(signer: Option<Signer>, expected: ManifestHash, rebuilt: ReplayReport, existing: Option<Payload>): Prog {
    if existing.Some? then CheckedReport(signer, existing.value.record)
    else Put(ReplayReports, ManifestKey(expected), ReplayRecord(rebuilt), stored => CheckedReport(signer, stored))
  }

  function CheckedReport(signer: Option<Signer>, record: Record): Prog {
    if record.ReplayRecord? && ReportOk(signer, record.report) then Return(record) else Raise(ValueError)
  }
}
