/** Replay stability: a plan has at most three replay reports, and once its six source rows exist every
  * replay returns the same one. */
module ReplayStability {
  import opened Signing
  import opened Sets
  import opened Models
  import opened ScopedStore
  import opened Locks
  import opened Sessions
  import opened SessionRules
  import opened LedgerOps
  import opened Replay
  import opened ProtocolSteps
  import opened ProtocolLocks
  import opened ProtocolRecords
  import opened ProtocolInvariant
  import opened ReplayInvariant
  import opened ProtocolRuns
  import opened ProtocolSafety
  import opened Unrolling

  // ---------------------------------------------------------------- at most three reports

  function StageHash(s: Store, scope: Scope, planId: Id, stage: Stage): ManifestHash
    requires WellTyped(UpTo(SourcesAt(s, scope, planId), stage))
  {
    ManifestHash(SnapshotOf(UpTo(SourcesAt(s, scope, planId), stage), scope))
  }

  /** The manifest hashes of the reports stored for a plan. */
  ghost function ReportHashes(s: Store, scope: Scope, planId: Id): set<ManifestHash> {
    set k | k in s.rows && k.group == Group(scope, ReplayReports) && k.ckey.ManifestKey?
            && ReportAt(s, scope, k.ckey.manifest).Some? && ReportAt(s, scope, k.ckey.manifest).value.fields.planId == planId
      :: k.ckey.manifest
  }

  lemma ReportIsFit(signer: Option<Signer>, s: Store, scope: Scope, hash: ManifestHash)
    requires Governed(signer, s) && ReportAt(s, scope, hash).Some?
    ensures ReportFits(signer, s, scope, ManifestKey(hash), ReportAt(s, scope, hash).value)
  {
    hide Governed, ReportFits;
    StoredFits(signer, s, scope, ReplayReports, ManifestKey(hash));
  }

  lemma UpToIsTyped(src: Sources, stage: Stage)
    requires WellTyped(src)
    ensures WellTyped(UpTo(src, stage))
  {
  }

  /** A stored report's hash is the hash of one of the plan's stages, and its state says which kind. */
  lemma ReportHasStage(signer: Option<Signer>, s: Store, scope: Scope, hash: ManifestHash)
    returns (stage: Stage)
    requires Governed(signer, s) && ReportAt(s, scope, hash).Some?
    ensures
      var p := ReportAt(s, scope, hash).value;
      && ReportFitsStage(signer, s, scope, p, stage) && ReportOk(signer, p)
      && hash == p.fields.manifestHash == StageHash(s, scope, p.fields.planId, stage)
      && RequestAt(s, scope, p.fields.planId).Some?
  {
    hide Governed, SourcesAt, WellTyped, SnapshotOf, ReportAt, RequestAt;
    ReportIsFit(signer, s, scope, hash);
    var p := ReportAt(s, scope, hash).value;
    stage :| ReportFitsStage(signer, s, scope, p, stage);
  }

  /** In every governed store, and so throughout every run, a plan has at most three stored reports: one
    * each for its first four, five and six source rows. */
  lemma AtMostThreeReports(signer: Option<Signer>, s: Store, scope: Scope, planId: Id)
    requires Governed(signer, s) && RequestAt(s, scope, planId).Some?
    ensures WellTyped(SourcesAt(s, scope, planId))
    ensures |ReportHashes(s, scope, planId)| <= 3
    ensures forall hash :: hash in ReportHashes(s, scope, planId) ==>
      exists stage :: Reached(SourcesAt(s, scope, planId), stage) && WellTyped(UpTo(SourcesAt(s, scope, planId), stage))
                      && hash == StageHash(s, scope, planId, stage)
  {
    hide Governed, SourcesAt, WellTyped, StageHash, ReportOk, RequestAt;
    SourcesAreTyped(signer, s, scope, planId);
    var src := SourcesAt(s, scope, planId);
    UpToIsTyped(src, Planned);
    UpToIsTyped(src, Simulated);
    UpToIsTyped(src, Observed);
    var three := {StageHash(s, scope, planId, Planned), StageHash(s, scope, planId, Simulated), StageHash(s, scope, planId, Observed)};
    forall hash | hash in ReportHashes(s, scope, planId)
      ensures hash in three
      ensures exists stage :: Reached(src, stage) && WellTyped(UpTo(src, stage)) && hash == StageHash(s, scope, planId, stage)
    {
      var stage := ReportHasStage(signer, s, scope, hash);
      assert ReportFitsStage(signer, s, scope, ReportAt(s, scope, hash).value, stage);
      assert Reached(src, stage) && hash == StageHash(s, scope, planId, stage);
    }
    SubsetIsSmaller(ReportHashes(s, scope, planId), three);
  }

  // ---------------------------------------------------------------- every replay returns the same report

  /** All six source rows of the plan are stored. */
  predicate SixRows(s: Store, scope: Scope, planId: Id) {
    RequestAt(s, scope, planId).Some? && StageOf(SourcesAt(s, scope, planId)).Observed?
  }

  /** The hash under which the final report of a plan is stored, the same in every later store. */
  lemma FinalHashStays(signer: Option<Signer>, s: Store, s': Store, scope: Scope, planId: Id)
    requires Governed(signer, s) && Governed(signer, s') && Extends(s, s') && SixRows(s, scope, planId)
    ensures SixRows(s', scope, planId) && SourcesAt(s', scope, planId) == SourcesAt(s, scope, planId)
  {
    hide Governed, Extends, SourcesAt, RequestAt;
    StagesStay(signer, s, s', scope, planId, Observed);
    RecordsStay(s, s', scope);
  }

  lemma SnapshotHash(signer: Option<Signer>, args: ReplayArgs, seen: Store)
    requires Governed(signer, seen) && SixRows(seen, args.scope, args.planId) && signer.Some?
    ensures WellTyped(SourcesAt(seen, args.scope, args.planId))
    ensures ReadyToReplay(signer, args, seen)
         == Ready(ReplayTxn(signer, args, StageHash(seen, args.scope, args.planId, Observed)))
  {
    hide Governed, After, BuildReport, RunTransaction, ReplaySnapshotLocks, ContextOf, RequestAt, SourcesAt, WellTyped, Validation,
         StateFrom, VerifiedHeads, ReplayTxn;
    var t := SnapshotTxn(signer, args);
    SourcesAreTyped(signer, seen, args.scope, args.planId);
    UpToIsTyped(SourcesAt(seen, args.scope, args.planId), Observed);
    var m := BuildAfter(signer, args, report => Return(ReplayRecord(report)), SessionOf(t), seen, 0);
    var p := SignedReport(signer.value, ReportFor(signer, args, seen));
    NothingLeft(ReplayRecord(p), SessionOf(t), seen);
    SnapshotRefs(args.scope, args.planId);
    TransactionIsAfter(t, seen);
  }

  lemma FinalSession(signer: Option<Signer>, args: ReplayArgs, hash: ManifestHash)
    ensures
      var t := ReplayTxn(signer, args, hash);
      && InScope(t.scope, t.locks) && SessionOf(t).scope == args.scope && SessionOf(t).locks.Some?
      && WriteAllowed(SessionOf(t).locks, ReplayReports, ManifestKey(hash))
  {
    hide ReplayLocks, ContextOf;
    ReplayRefs(args.scope, args.planId, hash);
  }

  /** Up to looking for the stored report, the persisting transaction only reads. */
  lemma FinalReach(signer: Option<Signer>, args: ReplayArgs, hash: ManifestHash, ses: Session, s: Store) returns (n: nat)
    requires Governed(signer, s) && RequestAt(s, args.scope, args.planId).Some? && signer.Some? && ses.scope == args.scope
    ensures n > 0 && WellTyped(SourcesAt(s, args.scope, args.planId))
    ensures
      var p := SignedReport(signer.value, ReportFor(signer, args, s));
      p.fields.manifestHash == hash ==>
        After(ReplayCommit(signer, args, hash), ses, s, 10)
        == After(AfterExisting(signer, hash, p, PayloadAt(s, args.scope, ReplayReports, ManifestKey(hash))), ses, s, n)
  {
    hide Governed, After, BuildReport, RequestAt, SourcesAt, WellTyped, ReportFor, Lookup, AfterExisting;
    var m := BuildAfter(signer, args, rebuilt => AfterRebuild(signer, hash, rebuilt), ses, s, 2);
    var p := SignedReport(signer.value, ReportFor(signer, args, s));
    LookupAfter(ReplayReports, ManifestKey(hash), existing => AfterExisting(signer, hash, p, existing), ses, s, m);
    n := m - 1;
  }

  lemma ReportForHash(signer: Option<Signer>, args: ReplayArgs, s: Store)
    requires WellTyped(SourcesAt(s, args.scope, args.planId)) && WellTyped(UpTo(SourcesAt(s, args.scope, args.planId), Observed))
    ensures ReportFor(signer, args, s).manifestHash == StageHash(s, args.scope, args.planId, Observed)
    ensures signer.Some? ==> ReportOk(signer, SignedReport(signer.value, ReportFor(signer, args, s)))
  {
    hide SourcesAt, WellTyped, Validation, StateFrom, VerifiedHeads, SnapshotOf;
    assert UpTo(SourcesAt(s, args.scope, args.planId), Observed) == SourcesAt(s, args.scope, args.planId);
  }

  /** The transaction, run on a store with six rows, returns the report under the final hash. */
  lemma FinalReplay(signer: Option<Signer>, args: ReplayArgs, s: Store) returns (s1: Store)
    requires Governed(signer, s) && SixRows(s, args.scope, args.planId) && signer.Some?
    ensures WellTyped(SourcesAt(s, args.scope, args.planId))
    ensures
      var hash := StageHash(s, args.scope, args.planId, Observed);
      match ReportAt(s, args.scope, hash)
      case Some(p) => RunTransaction(ReplayTxn(signer, args, hash), s) == (Committed(ReplayRecord(p)), s)
      case None =>
        var p := SignedReport(signer.value, ReportFor(signer, args, s));
        && RunTransaction(ReplayTxn(signer, args, hash), s) == (Committed(ReplayRecord(p)), s1)
        && ReportAt(s1, args.scope, hash) == Some(p)
  {
    hide Governed, After, RunTransaction, ReplayLocks, ContextOf, RequestAt, SourcesAt, WellTyped, ReportFor, ReportAt, ReplayCommit,
         AfterExisting, WriteAllowed, ReportOk, StageOf, StageHash;
    SourcesAreTyped(signer, s, args.scope, args.planId);
    UpToIsTyped(SourcesAt(s, args.scope, args.planId), Observed);
    var hash := StageHash(s, args.scope, args.planId, Observed);
    var t := ReplayTxn(signer, args, hash);
    FinalSession(signer, args, hash);
    ReportForHash(signer, args, s);
    TransactionIsAfter(t, s);
    var n := FinalReach(signer, args, hash, SessionOf(t), s);
    s1 := FinalStore(signer, args, hash, SignedReport(signer.value, ReportFor(signer, args, s)), SessionOf(t), s, n);
  }

  lemma FinalStore(signer: Option<Signer>, args: ReplayArgs, hash: ManifestHash, p: ReplayReport, ses: Session, s: Store, n: nat)
    returns (s1: Store)
    requires Governed(signer, s) && ses.scope == args.scope && ses.locks.Some? && n > 0
    requires WriteAllowed(ses.locks, ReplayReports, ManifestKey(hash)) && ReportOk(signer, p)
    ensures
      var existing := PayloadAt(s, args.scope, ReplayReports, ManifestKey(hash));
      match ReportAt(s, args.scope, hash)
      case Some(stored) => After(AfterExisting(signer, hash, p, existing), ses, s, n) == (Return(ReplayRecord(stored)), s)
      case None =>
        && After(AfterExisting(signer, hash, p, existing), ses, s, n) == (Return(ReplayRecord(p)), s1)
        && ReportAt(s1, args.scope, hash) == Some(p)
  {
    hide Governed, After, ReportOk, Wrote, Put, WriteAllowed, ReportFitsStage, StageHash, SnapshotOf;
    s1 := s;
    GovernedIsValid(signer, s);
    if PayloadAt(s, args.scope, ReplayReports, ManifestKey(hash)).Some? {
      StoredFits(signer, s, args.scope, ReplayReports, ManifestKey(hash));
      ReportIsFit(signer, s, args.scope, hash);
      NothingLeft(ReplayRecord(ReportAt(s, args.scope, hash).value), ses, s);
    } else {
      s1 := PutFree(ReplayReports, ManifestKey(hash), ReplayRecord(p), stored => CheckedReport(signer, stored), ses, s, n);
      NothingLeft(ReplayRecord(p), ses, s1);
      WrittenRecord(s, s1, map[RowKey(args.scope, ReplayReports, ManifestKey(hash)) := ReplayRecord(p)],
                    args.scope, ReplayReports, ManifestKey(hash));
    }
  }

  /** Once six rows exist, a replay always commits; when the final report is stored it returns exactly that
    * report and changes nothing, and otherwise it stores one. */
  lemma ReplayReturnsTheFinalReport(signer: Option<Signer>, args: ReplayArgs, seen: Store, s: Store)
    requires signer.Some? && Governed(signer, seen) && Extends(seen, s) && Governed(signer, s) && ReceiptsDistinct(s)
    requires SixRows(seen, args.scope, args.planId)
    ensures WellTyped(SourcesAt(s, args.scope, args.planId))
    ensures
      var hash := StageHash(s, args.scope, args.planId, Observed);
      var (out, s') := Perform(signer, ReplayPlan(args), seen, s);
      && out.Committed? && out.value.ReplayRecord?
      && ReportAt(s', args.scope, hash) == Some(out.value.report)
      && (ReportAt(s, args.scope, hash).Some? ==> s' == s && out.value.report == ReportAt(s, args.scope, hash).value)
      && (ReportAt(s, args.scope, hash).None? ==> out.value.report == SignedReport(signer.value, ReportFor(signer, args, s)))
  {
    hide Governed, ReceiptsDistinct, Extends, RunTransaction, SixRows, SourcesAt, WellTyped, SnapshotOf, ReportAt, ReplayTxn, ReportFor,
         ReadyToReplay;
    FinalHashStays(signer, seen, s, args.scope, args.planId);
    SnapshotHash(signer, args, seen);
    var s1 := FinalReplay(signer, args, s);
  }

  /** Any two replays of a plan with six rows return the same report, whoever asks and whenever. */
  lemma ReplaysAgree(signer: Option<Signer>, args: ReplayArgs, args': ReplayArgs, seen: Store, s: Store, seen': Store, s': Store)
    requires signer.Some? && args'.scope == args.scope && args'.planId == args.planId
    requires Governed(signer, seen) && Extends(seen, s) && Governed(signer, s) && ReceiptsDistinct(s)
    requires SixRows(seen, args.scope, args.planId)
    requires Governed(signer, seen') && Extends(seen', s') && Governed(signer, s') && ReceiptsDistinct(s')
    requires SixRows(seen', args.scope, args.planId)
    requires Extends(Perform(signer, ReplayPlan(args), seen, s).1, s')
    ensures Perform(signer, ReplayPlan(args'), seen', s') == (Perform(signer, ReplayPlan(args), seen, s).0, s')
  {
    hide Governed, ReceiptsDistinct, Extends, Perform, SixRows, SourcesAt, WellTyped, ReportAt, ReportFor, SnapshotOf;
    ReplayReturnsTheFinalReport(signer, args, seen, s);
    var mid := Perform(signer, ReplayPlan(args), seen, s).1;
    StepKeepsGoverned(signer, ReplayPlan(args), seen, s);
    ExtendsIsTransitive(s, mid, s');
    FinalHashStays(signer, seen, s, args.scope, args.planId);
    FinalHashStays(signer, s, s', args.scope, args.planId);
    RecordsStay(mid, s', args.scope);
    ReplayReturnsTheFinalReport(signer, args', seen', s');
  }

  // ---------------------------------------------------------------- the state of the final report

  /** The replay reports of a scope fit into one listing. */
  ghost predicate FewReports(s: Store, scope: Scope) {
    |Listing(GroupRows(s, Group(scope, ReplayReports)))| <= MAX_LIST_LIMIT
  }

  lemma {:induction false} PriorMembers(rows: seq<Row>, planId: Id)
    ensures forall p :: p in PriorReports(rows, planId) <==>
      p.fields.planId == planId && exists row :: row in rows && row.payload.record == ReplayRecord(p)
  {
    if rows != [] {
      PriorMembers(rows[1..], planId);
      assert forall row :: row in rows <==> row == rows[0] || row in rows[1..];
    }
  }

  /** With few reports, the reports listed for a plan are exactly those stored for it. */
  lemma PriorAreStored(signer: Option<Signer>, s: Store, scope: Scope, planId: Id)
    requires Governed(signer, s)
    ensures forall p :: p in PriorReports(PriorRows(s, scope), planId) ==>
      p.fields.planId == planId && ReportAt(s, scope, p.fields.manifestHash) == Some(p) && ReportOk(signer, p)
    ensures FewReports(s, scope) ==> forall hash :: hash in ReportHashes(s, scope, planId) ==>
      ReportAt(s, scope, hash).value in PriorReports(PriorRows(s, scope), planId)
  {
    hide Governed, ReportOk, PriorReports, Listing;
    PriorMembers(PriorRows(s, scope), planId);
    forall p | p in PriorReports(PriorRows(s, scope), planId)
      ensures ReportAt(s, scope, p.fields.manifestHash) == Some(p) && ReportOk(signer, p)
    {
      var row :| row in PriorRows(s, scope) && row.payload.record == ReplayRecord(p);
      var k := ListedFits(signer, s, Group(scope, ReplayReports), row);
    }
    if FewReports(s, scope) {
      assert PriorRows(s, scope) == Listing(GroupRows(s, Group(scope, ReplayReports)));
      forall hash | hash in ReportHashes(s, scope, planId)
        ensures ReportAt(s, scope, hash).value in PriorReports(PriorRows(s, scope), planId)
      {
        StoredIsListed(GroupRows(s, Group(scope, ReplayReports)), RowKey(scope, ReplayReports, ManifestKey(hash)));
      }
    }
  }

  lemma StoredIsListed(m: map<Key, Row>, k: Key)
    requires k in m
    ensures m[k] in Listing(m)
  {
    SortedKeysMembers(m);
    var i :| 0 <= i < |SortedKeys(m)| && SortedKeys(m)[i] == k;
    assert Listing(m)[i] == m[k];
  }

  lemma {:induction false} AllValid(signer: Option<Signer>, reports: seq<ReplayReport>)
    requires forall p :: p in reports ==> ReportOk(signer, p)
    ensures ValidReports(signer, reports) == reports && SkippedReports(signer, reports) == []
  {
    hide ReportOk;
    if reports != [] {
      assert forall p :: p in reports[1..] ==> p in reports;
      AllValid(signer, reports[1..]);
      assert reports[0] in reports;
    }
  }

  lemma OutcomeHashChanged(m: Snapshot, reference: Snapshot)
    requires OutcomeLabel in m.recordHashes && OutcomeLabel !in reference.recordHashes
    ensures Drift(m, reference) != []
  {
    hide Drift;
    DriftMember(m, reference, RecordHashChanged(OutcomeLabel));
  }

  lemma OutcomeInHashes(src: Sources)
    ensures OutcomeLabel in RecordHashes(src) <==> src.outcome.Some?
  {
    assert LABELS[5] == OutcomeLabel;
    assert OutcomeLabel in LABELS;
  }

  /** An earlier report of a plan with six rows is from a stage without the outcome. */
  lemma EarlierReportLacksOutcome(signer: Option<Signer>, s: Store, scope: Scope, planId: Id, p: ReplayReport)
    requires Governed(signer, s) && SixRows(s, scope, planId) && WellTyped(SourcesAt(s, scope, planId))
    requires ReportAt(s, scope, StageHash(s, scope, planId, Observed)).None?
    requires p.fields.planId == planId && ReportAt(s, scope, p.fields.manifestHash) == Some(p)
    ensures OutcomeLabel !in p.fields.manifest.snapshot.recordHashes
  {
    hide Governed, SourcesAt, RequestAt, ReportAt, WellTyped, RecordHashes, ReportOk;
    var stage := ReportHasStage(signer, s, scope, p.fields.manifestHash);
    assert !stage.Observed?;
    OutcomeInHashes(UpTo(SourcesAt(s, scope, planId), stage));
  }

  /** Among at most MAX_LIST_LIMIT reports, the final report is DRIFTED exactly when an earlier report of
    * the plan is stored, and REPRODUCED otherwise. */
  lemma FinalStateExactly(signer: Option<Signer>, args: ReplayArgs, s: Store)
    requires Governed(signer, s) && ReceiptsDistinct(s) && SixRows(s, args.scope, args.planId) && FewReports(s, args.scope)
    requires WellTyped(SourcesAt(s, args.scope, args.planId))
    requires ReportAt(s, args.scope, StageHash(s, args.scope, args.planId, Observed)).None?
    ensures ReportFor(signer, args, s).state.DRIFTED? <==> ReportHashes(s, args.scope, args.planId) != {}
    ensures ReportFor(signer, args, s).state.REPRODUCED? <==> ReportHashes(s, args.scope, args.planId) == {}
  {
    hide Governed, ReceiptsDistinct, SourcesAt, RequestAt, WellTyped, RecordHashes, ReportOk, ReportFor, PriorRows, PriorReports,
         ValidReports, SkippedReports, Drift, ReportAt, FewReports;
    var scope, planId := args.scope, args.planId;
    var m, prior := SnapshotOf(SourcesAt(s, scope, planId), scope), PriorReports(PriorRows(s, scope), planId);
    StateByStage(signer, args, s);
    PriorAreStored(signer, s, scope, planId);
    AllValid(signer, prior);
    OutcomeInHashes(SourcesAt(s, scope, planId));
    assert UpTo(SourcesAt(s, scope, planId), Observed) == SourcesAt(s, scope, planId);
    assert !HasHash(prior, ManifestHash(m));
    if prior != [] {
      var last := prior[|prior| - 1];
      assert last in prior;
      EarlierReportLacksOutcome(signer, s, scope, planId, last);
      OutcomeHashChanged(m, last.fields.manifest.snapshot);
      ReportIsCounted(s, scope, planId, last);
    }
  }

  lemma ReportIsCounted(s: Store, scope: Scope, planId: Id, p: ReplayReport)
    requires p.fields.planId == planId && ReportAt(s, scope, p.fields.manifestHash) == Some(p)
    ensures p.fields.manifestHash in ReportHashes(s, scope, planId)
  {
    assert RowKey(scope, ReplayReports, ManifestKey(p.fields.manifestHash)) in s.rows;
  }

  // ---------------------------------------------------------------- in every run

  /** At no time in any run does a plan have more than three replay reports. */
  lemma NeverMoreThanThreeReports(signer: Option<Signer>, steps: seq<Step>, i: nat, scope: Scope, planId: Id)
    requires FreshIds(signer, steps) && i <= |steps| && RequestAt(States(signer, steps)[i], scope, planId).Some?
    ensures |ReportHashes(States(signer, steps)[i], scope, planId)| <= 3
  {
    hide Governed, ReceiptsDistinct, Extends, RequestAt, ReportHashes, States, FreshIds, SourcesAt, WellTyped, StageHash;
    EveryStateIsGoverned(signer, steps);
    AtMostThreeReports(signer, States(signer, steps)[i], scope, planId);
  }

  /** In every run: once a plan has six rows and its final report is stored, each later replay returns that
    * report and stores nothing. */
  lemma FinalReportIsForever(signer: Option<Signer>, steps: seq<Step>, i: nat, j: nat, k: nat, args: ReplayArgs)
    requires FreshIds(signer, steps) && i <= j <= k <= |steps| && signer.Some?
    requires SixRows(States(signer, steps)[i], args.scope, args.planId)
    requires WellTyped(SourcesAt(States(signer, steps)[i], args.scope, args.planId))
    requires ReportAt(States(signer, steps)[i], args.scope, StageHash(States(signer, steps)[i], args.scope, args.planId, Observed)).Some?
    ensures
      var states := States(signer, steps);
      var p := ReportAt(states[i], args.scope, StageHash(states[i], args.scope, args.planId, Observed)).value;
      Perform(signer, ReplayPlan(args), states[j], states[k]) == (Committed(ReplayRecord(p)), states[k])
  {
    hide Governed, ReceiptsDistinct, Extends, Perform, SixRows, SourcesAt, WellTyped, ReportAt, States, FreshIds, SnapshotOf, ReportFor;
    EveryStateIsGoverned(signer, steps);
    var s, seen, s' := States(signer, steps)[i], States(signer, steps)[j], States(signer, steps)[k];
    FinalHashStays(signer, s, seen, args.scope, args.planId);
    FinalHashStays(signer, s, s', args.scope, args.planId);
    RecordsStay(s, s', args.scope);
    ReplayReturnsTheFinalReport(signer, args, seen, s');
  }
}
