/** Where the reports of a run come from: each stored report was built by a replay of its plan, on the state
  * before that replay, so the state of a plan's final report tells whether an earlier one had been stored. */
module ReplayHistory {
  import opened Signing
  import opened Models
  import opened ScopedStore
  import opened Sessions
  import opened SessionRules
  import opened LedgerOps
  import opened Replay
  import opened Comparison
  import opened ProtocolSteps
  import opened ProtocolLocks
  import opened ProtocolRecords
  import opened ProtocolInvariant
  import opened ReplayInvariant
  import opened ProtocolRuns
  import opened ReplayStability

  // ---------------------------------------------------------------- only replays add reports

  ghost predicate SameReports(s: Store, s': Store) {
    forall scope, hash :: ReportAt(s', scope, hash) == ReportAt(s, scope, hash)
  }

  /** The locks of t do not allow writing reports. */
  ghost predicate LocksNoReports(t: Txn) {
    forall key :: CanonicalLock(t.scope, ReplayReports, key) !in t.locks
  }

  lemma UnlockedReportsStay(t: Txn, s: Store)
    requires Valid(s) && LocksNoReports(t)
    ensures SameReports(s, RunTransaction(t, s).1)
  {
    hide RunTransaction, Valid;
    TransactionIsAtomicAndFramed(t, s);
    var s' := RunTransaction(t, s).1;
    forall scope, hash ensures ReportAt(s', scope, hash) == ReportAt(s, scope, hash) {
      var k := RowKey(scope, ReplayReports, ManifestKey(hash));
      assert k in s'.rows && (k !in s.rows || s'.rows[k] != s.rows[k]) ==> CanonicalLock(t.scope, ReplayReports, k.ckey) in t.locks;
    }
  }

  lemma LockSetsNameNoReports(scope: Scope, a: Id, b: Id, c: Id)
    ensures forall key ::
      && CanonicalLock(scope, ReplayReports, key) !in EnvelopeLocks(scope, a)
      && CanonicalLock(scope, ReplayReports, key) !in AuthorityLocks(scope, a, b)
      && CanonicalLock(scope, ReplayReports, key) !in PlanLocks(scope, a, b, c)
      && CanonicalLock(scope, ReplayReports, key) !in SimulationLocks(scope, a, b)
      && CanonicalLock(scope, ReplayReports, key) !in OutcomeLocks(scope, a, b)
  {
  }

  lemma ProtocolStepsLockNoReports(signer: Option<Signer>, call: Call, seen: Store)
    requires Prepare(signer, call, seen).Ready? && !call.ReplayPlan? && !call.CompareReplays?
    ensures LocksNoReports(Prepare(signer, call, seen).txn)
  {
    hide Gateway.Judge, Authority.Decide, Gateway.ReceiptOk, ProjectsSimulated, EnvelopeAt, AuthorityAt, RequestAt, GatewayAt, ReceiptAt, Listing,
         EnvelopeLocks, AuthorityLocks, PlanLocks, SimulationLocks, OutcomeLocks, CanonicalLock;
    var t := Prepare(signer, call, seen).txn;
    match call
    case Register(e) => LockSetsNameNoReports(t.scope, e.envelopeId, "", "");
    case Authorize(args) =>
      var e := EnvelopeAt(seen, args.scope, args.envelopeId).value;
      var a := Authority.Decide(signer, e, args.subject, args.role, args.approvals, args.authorityId, args.now);
      LockSetsNameNoReports(t.scope, args.envelopeId, a.authorityDecisionId, "");
    case CreatePlan(args) => LockSetsNameNoReports(t.scope, args.envelopeId, args.authorityId, args.planId);
    case SimulatePlan(args) =>
      LockSetsNameNoReports(t.scope, args.planId, RequestAt(seen, args.scope, args.planId).value.authorityDecisionId, "");
    case RecordOutcome(args) =>
      var q := RequestAt(seen, args.scope, args.planId).value;
      LockSetsNameNoReports(t.scope, args.planId, ReceiptAt(seen, args.scope, q.planId).value.receiptId, "");
    case ReplayPlan(_) =>
    case CompareReplays(_) =>
  }

  /** A run that wrote no report under this key leaves what is reported there. */
  lemma UnwrittenReport(s: Store, s': Store, w: map<Key, Record>, scope: Scope, hash: ManifestHash)
    requires Wrote(s, s', w) && RowKey(scope, ReplayReports, ManifestKey(hash)) !in w
    ensures ReportAt(s', scope, hash) == ReportAt(s, scope, hash)
  {
  }

  lemma ComparisonsAddNoReports(signer: Option<Signer>, args: CompareArgs, baseline: ManifestHash, candidate: ManifestHash, s: Store)
    requires Governed(signer, s)
    ensures SameReports(s, RunTransaction(CompareTxn(signer, args, baseline, candidate), s).1)
  {
    hide Governed, RunTransaction, Ends, Wrote, Fits, ComparisonLocks, CompareCommit, ReportAt;
    var t := CompareTxn(signer, args, baseline, candidate);
    CompareLocked(signer, args, baseline, candidate);
    var w := CompareWrites(signer, args, baseline, candidate, s);
    TransactionIsAfter(t, s);
    EndsIsAfter(t, s);
    if Ends(t, s).0.Return? {
      forall scope, hash ensures ReportAt(Ends(t, s).1, scope, hash) == ReportAt(s, scope, hash) {
        UnwrittenReport(s, Ends(t, s).1, w, scope, hash);
      }
    }
  }

  // ---------------------------------------------------------------- what a replay adds

  /** The report that this replay builds on s is the one stored under this hash in s'. */
  ghost predicate Built(signer: Option<Signer>, args: ReplayArgs, s: Store, s': Store, hash: ManifestHash) {
    && signer.Some? && RequestAt(s, args.scope, args.planId).Some? && WellTyped(SourcesAt(s, args.scope, args.planId))
    && ReportFor(signer, args, s).manifestHash == hash
    && ReportAt(s', args.scope, hash) == Some(SignedReport(signer.value, ReportFor(signer, args, s)))
  }

  lemma ReplayAdds(signer: Option<Signer>, args: ReplayArgs, expected: ManifestHash, s: Store, scope: Scope, hash: ManifestHash)
    requires Governed(signer, s) && RequestAt(s, args.scope, args.planId).Some?
    requires
      var s' := RunTransaction(ReplayTxn(signer, args, expected), s).1;
      ReportAt(s, scope, hash).None? && ReportAt(s', scope, hash).Some?
    ensures scope == args.scope && Built(signer, args, s, RunTransaction(ReplayTxn(signer, args, expected), s).1, hash)
  {
    hide Governed, RunTransaction, Ends, Wrote, ReplayLocks, ReplayCommit, ReportAt, ReportFor, SourcesAt, WellTyped, RequestAt, ReportOk;
    var t := ReplayTxn(signer, args, expected);
    ReplayRefs(args.scope, args.planId, expected);
    ReplayEnds(signer, args, expected, s);
    TransactionIsAfter(t, s);
    EndsIsAfter(t, s);
    var s' := Ends(t, s).1;
    if PayloadAt(s, args.scope, ReplayReports, ManifestKey(expected)).None? {
      var w := map[RowKey(args.scope, ReplayReports, ManifestKey(expected)) := Ends(t, s).0.value];
      if scope != args.scope || hash != expected { UnwrittenReport(s, s', w, scope, hash); }
      StoredReport(s, s', w, args.scope, expected);
    }
  }

  lemma StoredReport(s: Store, s': Store, w: map<Key, Record>, scope: Scope, hash: ManifestHash)
    requires Wrote(s, s', w)
    ensures
      var k := RowKey(scope, ReplayReports, ManifestKey(hash));
      k in w && w[k].ReplayRecord? ==> ReportAt(s', scope, hash) == Some(w[k].report)
  {
  }

  /** A step after which a report is newly stored is a replay, and the report is what it built. */
  lemma ReportIsBuilt(signer: Option<Signer>, call: Call, seen: Store, s: Store, scope: Scope, hash: ManifestHash)
    requires Governed(signer, seen) && Extends(seen, s) && Governed(signer, s)
    requires ReportAt(s, scope, hash).None? && ReportAt(Perform(signer, call, seen, s).1, scope, hash).Some?
    ensures call.ReplayPlan? && call.replay.scope == scope && Built(signer, call.replay, s, Perform(signer, call, seen, s).1, hash)
  {
    hide Governed, RunTransaction, ReadyToSimulate, ReadyToAuthorize, ReadyToPlan, ReadyToRecord, RegisterTxn, ReportAt,
         LocksNoReports, Extends, Built, RequestAt, ReplayTxn, CompareTxn, SnapshotTxn, LoadPairTxn;
    GovernedIsValid(signer, s);
    if call.ReplayPlan? {
      RecordsStay(seen, s, call.replay.scope);
      ReplayAdds(signer, call.replay, RunTransaction(SnapshotTxn(signer, call.replay), seen).0.value.report.fields.manifestHash,
                 s, scope, hash);
    } else if call.CompareReplays? {
      var pair := RunTransaction(LoadPairTxn(call.compare), seen).0.value;
      ComparisonsAddNoReports(signer, call.compare, pair.baseline.fields.manifestHash, pair.candidate.fields.manifestHash, s);
    } else {
      ProtocolStepsLockNoReports(signer, call, seen);
      UnlockedReportsStay(Prepare(signer, call, seen).txn, s);
    }
  }

  // ---------------------------------------------------------------- the final report in every run

  /** The step of the run that stored a report. */
  lemma {:induction false} StoringStep(signer: Option<Signer>, steps: seq<Step>, n: nat, scope: Scope, hash: ManifestHash) returns (i: nat)
    requires FreshIds(signer, steps) && n <= |steps| && ReportAt(States(signer, steps)[n], scope, hash).Some?
    ensures i < n && ReportAt(States(signer, steps)[i], scope, hash).None?
    ensures ReportAt(States(signer, steps)[i + 1], scope, hash) == ReportAt(States(signer, steps)[n], scope, hash)
  {
    hide Governed, ReceiptsDistinct, Extends, States, FreshIds, ReportAt;
    EveryStateIsGoverned(signer, steps);
    StartsEmpty(signer, steps, scope, hash);
    i := n - 1;
    if ReportAt(States(signer, steps)[n - 1], scope, hash).Some? {
      RecordsStay(States(signer, steps)[n - 1], States(signer, steps)[n], scope);
      i := StoringStep(signer, steps, n - 1, scope, hash);
    }
  }

  lemma StartsEmpty(signer: Option<Signer>, steps: seq<Step>, scope: Scope, hash: ManifestHash)
    ensures ReportAt(States(signer, steps)[0], scope, hash).None?
  {
    hide Perform;
    StatesOfPrefix(signer, steps, 0);
    assert steps[..0] == [];
  }

  function SeenIndex(steps: seq<Step>, i: nat): (seenAt: nat)
    requires i < |steps|
    ensures seenAt <= i
  {
    if steps[i].seenAt < i + 1 then steps[i].seenAt else i
  }

  lemma LastState(signer: Option<Signer>, steps: seq<Step>, i: nat)
    requires |steps| == i + 1
    ensures States(signer, steps)[i + 1]
         == Perform(signer, steps[i].call, States(signer, steps[..i])[SeenIndex(steps, i)], States(signer, steps[..i])[i]).1
  {
    hide Perform;
  }

  /** The next state of a run is what its next step leaves. */
  lemma NextState(signer: Option<Signer>, steps: seq<Step>, i: nat)
    requires i < |steps|
    ensures States(signer, steps)[i + 1]
         == Perform(signer, steps[i].call, States(signer, steps)[SeenIndex(steps, i)], States(signer, steps)[i]).1
  {
    hide Perform, States;
    var seenAt := SeenIndex(steps, i);
    StatesOfPrefix(signer, steps, i + 1);
    LastState(signer, steps[..i + 1], i);
    assert steps[..i + 1][..i] == steps[..i];
    StatesOfPrefix(signer, steps, i);
    StatesOfPrefix(signer, steps, seenAt);
    StatesOfPrefix(signer, steps[..i], seenAt);
    assert steps[..i][..seenAt] == steps[..seenAt];
  }

  /** A report under the final hash of a plan was built for that plan, when all its six rows were there. */
  lemma BuiltForPlan(signer: Option<Signer>, args: ReplayArgs, s: Store, late: Store, planId: Id)
    requires Governed(signer, s) && Governed(signer, late) && RequestAt(s, args.scope, args.planId).Some?
    requires WellTyped(SourcesAt(s, args.scope, args.planId))
    requires SixRows(late, args.scope, planId) && WellTyped(SourcesAt(late, args.scope, planId))
    requires ReportFor(signer, args, s).manifestHash == StageHash(late, args.scope, planId, Observed)
    ensures args.planId == planId && SixRows(s, args.scope, planId)
  {
    hide Governed, RequestAt, SourcesAt, WellTyped, RecordHashes, ReportFor;
    UpToIsTyped(SourcesAt(s, args.scope, args.planId), Observed);
    ReportForHash(signer, args, s);
    SourcesAreTyped(signer, s, args.scope, args.planId);
    SourcesAreTyped(signer, late, args.scope, planId);
    OutcomeInHashes(SourcesAt(s, args.scope, args.planId));
    OutcomeInHashes(SourcesAt(late, args.scope, planId));
  }

  /** In every run: the final report of a plan that is stored was built by a replay of the plan and, with at most
    * 1000 reports in its scope at that time, is DRIFTED if and only if an earlier report of the plan was stored
    * then, and REPRODUCED otherwise. */
  lemma FinalReportsTellHistory(signer: Option<Signer>, steps: seq<Step>, n: nat, scope: Scope, planId: Id) returns (i: nat)
    requires FreshIds(signer, steps) && n <= |steps|
    requires SixRows(States(signer, steps)[n], scope, planId) && WellTyped(SourcesAt(States(signer, steps)[n], scope, planId))
    requires ReportAt(States(signer, steps)[n], scope, StageHash(States(signer, steps)[n], scope, planId, Observed)).Some?
    ensures i < n && steps[i].call.ReplayPlan? && steps[i].call.replay.scope == scope && steps[i].call.replay.planId == planId
    ensures
      var states := States(signer, steps);
      var hash := StageHash(states[n], scope, planId, Observed);
      var p := ReportAt(states[n], scope, hash).value;
      && ReportAt(states[i], scope, hash).None? && ReportAt(states[i + 1], scope, hash) == Some(p)
      && (FewReports(states[i], scope) ==>
            && (p.fields.state.DRIFTED? <==> ReportHashes(states[i], scope, planId) != {})
            && (p.fields.state.REPRODUCED? <==> ReportHashes(states[i], scope, planId) == {}))
  {
    hide Governed, ReceiptsDistinct, Extends, Perform, SixRows, SourcesAt, WellTyped, ReportAt, States, FreshIds, SnapshotOf, ReportFor,
         ReportHashes, FewReports, RequestAt;
    EveryStateIsGoverned(signer, steps);
    var late := States(signer, steps)[n];
    var hash := StageHash(late, scope, planId, Observed);
    i := StoringStep(signer, steps, n, scope, hash);
    NextState(signer, steps, i);
    var s, seen := States(signer, steps)[i], States(signer, steps)[SeenIndex(steps, i)];
    ReportIsBuilt(signer, steps[i].call, seen, s, scope, hash);
    var args := steps[i].call.replay;
    BuiltForPlan(signer, args, s, late, planId);
    FinalHashStays(signer, s, late, scope, planId);
    if FewReports(s, scope) { FinalStateExactly(signer, args, s); }
  }
}
