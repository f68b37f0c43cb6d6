/** Checking a report against its sources (validate_report_against_sources): on valid append-only chains
  * it finds no drift exactly when nothing was appended to the six source collections since the report. */
module SourceDrift {
  import opened Signing
  import opened Sets
  import opened Models
  import opened ScopedStore
  import opened ScopedInvariant
  import opened TamperEvidence
  import opened ChainVerifier
  import opened Replay
  import opened ProtocolSteps
  import opened ProtocolRecords
  import opened ProtocolInvariant
  import opened ReplayInvariant

  datatype Drifted =
    | SourceMissing(tag: Label) | SourceHashMismatch(tag: Label) | SourceChainInvalid
    | ChainHeadChanged(coll: Collection) | SourceIdentityMismatch | SourceOutcomeMismatch

  const CHAIN_ORDER := [DecisionEnvelopes, AuthorityDecisions, ExecutionRequests, GatewayDecisions,
                        ShadowExecutionReceipts, ShadowOutcomes]

  // ---------------------------------------------------------------- the drifts as a value

  function LabelDrifts(tags: seq<Label>, expected: map<Label, PayloadHash>, src: Sources): seq<Drifted> {
    if tags == [] then []
    else
      var rest := LabelDrifts(tags[1..], expected, src);
      match Source(src, tags[0])
      case None => if tags[0] in expected then [SourceMissing(tags[0])] + rest else rest
      case Some(p) =>
        if tags[0] in expected && expected[tags[0]] == PayloadHash(p) then rest else [SourceHashMismatch(tags[0])] + rest
  }

  function HeadDrifts(chains: seq<Collection>, expected: map<Collection, Option<ChainHash>>,
                      heads: map<Collection, ChainHash>): seq<Drifted>
  {
    if chains == [] then []
    else
      var c, rest := chains[0], HeadDrifts(chains[1..], expected, heads);
      if c in expected && expected[c] != (if c in heads then Some(heads[c]) else None) then [ChainHeadChanged(c)] + rest else rest
  }

  function ContentDrifts(m: Snapshot, src: Sources): seq<Drifted>
    requires WellTyped(src)
  {
    (if src.envelope.Some? && m.identity != map[] && IdentityOf(src.envelope) != m.identity then [SourceIdentityMismatch] else [])
    + (if src.outcome.Some? && m.outcome.Some? && m.outcome.value != src.outcome.value.record.outcome.fields.outcomeState
       then [SourceOutcomeMismatch] else [])
  }

  function Drifts(manifest: Manifest, src: Sources, verified: Option<map<Collection, ChainHash>>): seq<Drifted>
    requires WellTyped(src)
  {
    LabelDrifts(LABELS, manifest.snapshot.recordHashes, src)
    + match verified
      case None => [SourceChainInvalid]
      case Some(heads) => HeadDrifts(CHAIN_ORDER, manifest.chainHeads, heads) + ContentDrifts(manifest.snapshot, src)
  }

  lemma {:induction false} LabelDrift(tags: seq<Label>, expected: map<Label, PayloadHash>, src: Sources, d: Drifted)
    ensures d in LabelDrifts(tags, expected, src) <==>
      match d
      case SourceMissing(tag) => tag in tags && tag in expected && Source(src, tag).None?
      case SourceHashMismatch(tag) =>
        tag in tags && Source(src, tag).Some? && !(tag in expected && expected[tag] == PayloadHash(Source(src, tag).value))
      case _ => false
  {
    if tags != [] {
      LabelDrift(tags[1..], expected, src, d);
      assert forall tag :: tag in tags <==> tag == tags[0] || tag in tags[1..];
    }
  }

  lemma {:induction false} HeadDrift(chains: seq<Collection>, expected: map<Collection, Option<ChainHash>>,
                                     heads: map<Collection, ChainHash>, d: Drifted)
    ensures d in HeadDrifts(chains, expected, heads) <==>
      && d.ChainHeadChanged? && d.coll in chains && d.coll in expected
      && expected[d.coll] != if d.coll in heads then Some(heads[d.coll]) else None
  {
    if chains != [] {
      HeadDrift(chains[1..], expected, heads, d);
      assert forall c :: c in chains <==> c == chains[0] || c in chains[1..];
    }
  }

  /** Each drift is named exactly when it is there: a row that the manifest has is missing, a row that is there has another
    * hash or none in the manifest, the chains do not verify, or else a chain that the manifest has ends elsewhere, or the
    * envelope's identity or the outcome's state is another than the manifest's. */
  lemma DriftsExactly(manifest: Manifest, src: Sources, verified: Option<map<Collection, ChainHash>>, d: Drifted)
    requires WellTyped(src)
    ensures
      var m := manifest.snapshot;
      d in Drifts(manifest, src, verified) <==>
        match d
        case SourceMissing(tag) => tag in m.recordHashes && Source(src, tag).None?
        case SourceHashMismatch(tag) =>
          Source(src, tag).Some? && !(tag in m.recordHashes && m.recordHashes[tag] == PayloadHash(Source(src, tag).value))
        case SourceChainInvalid => verified.None?
        case ChainHeadChanged(c) =>
          && verified.Some? && c in manifest.chainHeads
          && c in {DecisionEnvelopes, AuthorityDecisions, ExecutionRequests, GatewayDecisions, ShadowExecutionReceipts, ShadowOutcomes}
          && manifest.chainHeads[c] != if c in verified.value then Some(verified.value[c]) else None
        case SourceIdentityMismatch =>
          && verified.Some? && src.envelope.Some? && m.identity != map[]
          && var e := src.envelope.value.record.envelope;
             m.identity != map[SubjectField := e.subject, DomainField := e.domain, DecisionTypeField := e.decisionType]
        case SourceOutcomeMismatch =>
          && verified.Some? && src.outcome.Some? && m.outcome.Some?
          && m.outcome.value != src.outcome.value.record.outcome.fields.outcomeState
  {
    hide LabelDrifts, HeadDrifts, Source;
    LabelDrift(LABELS, manifest.snapshot.recordHashes, src, d);
    if verified.Some? { HeadDrift(CHAIN_ORDER, manifest.chainHeads, verified.value, d); }
    match d
    case SourceMissing(tag) => AllEntriesListed(tag, HavPolicy, CoreVersion, SubjectField);
    case SourceHashMismatch(tag) => AllEntriesListed(tag, HavPolicy, CoreVersion, SubjectField);
    case _ =>
  }

  method CheckLabels(tags: seq<Label>, expected: map<Label, PayloadHash>, src: Sources) returns (drifts: seq<Drifted>)
    ensures drifts == LabelDrifts(tags, expected, src)
  {
    drifts := [];
    for i := 0 to |tags|
      invariant drifts + LabelDrifts(tags[i..], expected, src) == LabelDrifts(tags, expected, src)
    {
      assert tags[i..][0] == tags[i] && tags[i..][1..] == tags[i + 1..];
      var source := Source(src, tags[i]);
      if tags[i] in expected || source.Some? {
        if source.None? {
          drifts := drifts + [SourceMissing(tags[i])];
        } else if !(tags[i] in expected && expected[tags[i]] == PayloadHash(source.value)) {
          drifts := drifts + [SourceHashMismatch(tags[i])];
        }
      }
    }
  }

  method CheckHeads(chains: seq<Collection>, expected: map<Collection, Option<ChainHash>>, heads: map<Collection, ChainHash>)
    returns (drifts: seq<Drifted>)
    ensures drifts == HeadDrifts(chains, expected, heads)
  {
    drifts := [];
    for i := 0 to |chains|
      invariant drifts + HeadDrifts(chains[i..], expected, heads) == HeadDrifts(chains, expected, heads)
    {
      var c := chains[i];
      assert chains[i..][0] == c && chains[i..][1..] == chains[i + 1..];
      if c in expected && expected[c] != (if c in heads then Some(heads[c]) else None) {
        drifts := drifts + [ChainHeadChanged(c)];
      }
    }
  }

  /** validate_report_against_sources as written; `verified` is None when the chain verification raised. */
  method ValidateAgainstSources(manifest: Manifest, src: Sources, verified: Option<map<Collection, ChainHash>>)
    returns (drifts: seq<Drifted>)
    requires WellTyped(src)
    ensures drifts == Drifts(manifest, src, verified)
  {
    hide LabelDrifts, HeadDrifts, IdentityOf;
    drifts := CheckLabels(LABELS, manifest.snapshot.recordHashes, src);
    if verified.None? { return drifts + [SourceChainInvalid]; }
    var heads := CheckHeads(CHAIN_ORDER, manifest.chainHeads, verified.value);
    drifts := drifts + heads;
    if src.envelope.Some? && manifest.snapshot.identity != map[] {
      if IdentityOf(src.envelope) != manifest.snapshot.identity { drifts := drifts + [SourceIdentityMismatch]; }
    }
    if src.outcome.Some? && manifest.snapshot.outcome.Some? {
      if manifest.snapshot.outcome.value != src.outcome.value.record.outcome.fields.outcomeState {
        drifts := drifts + [SourceOutcomeMismatch];
      }
    }
  }

  // ---------------------------------------------------------------- heads and rows

  ghost predicate SameRows(s: Store, s': Store, g: Group) {
    GroupRows(s', g) == GroupRows(s, g)
  }

  /** The hash that verification reports for a chain, or None. */
  function HeadHash(s: Store, g: Group): Option<ChainHash> {
    if g in s.heads then s.heads[g].hash else None
  }

  lemma ChainEnd(s: Store, g: Group) returns (ks: seq<Key>)
    requires Valid(s) && ChainLinked(g.coll)
    ensures IsChain(g.coll, GroupRows(s, g), ks)
    ensures HeadHash(s, g) == HashBefore(GroupRows(s, g), ks, |ks|)
  {
    ks := Order(s, g);
  }

  /** On append-only chains equal head hashes mean equal rows, and equal rows mean equal head hashes. */
  lemma HeadsTellRows(s: Store, s': Store, g: Group)
    requires Valid(s) && Valid(s') && Extends(s, s') && ChainLinked(g.coll)
    ensures HeadHash(s, g) == HeadHash(s', g) <==> SameRows(s, s', g)
  {
    hide Valid, IsChain;
    var m, m' := GroupRows(s, g), GroupRows(s', g);
    var ks := ChainEnd(s, g);
    var ks' := ChainEnd(s', g);
    if HeadHash(s, g) == HeadHash(s', g) {
      SamePrefix(g.coll, m, ks, |ks|, g.coll, m', ks', |ks'|);
      ChainKeys(g.coll, m, ks);
      ChainKeys(g.coll, m', ks');
      forall k | k in m ensures k in m' && m'[k] == m[k] {}
      SubsetOfSameSize(m.Keys, m'.Keys);
    } else if SameRows(s, s', g) {
      SameListing(g.coll, m, ks, ks');
      assert false;
    }
  }

  lemma SameListing(c: Collection, m: map<Key, Row>, ks: seq<Key>, ks': seq<Key>)
    requires IsChain(c, m, ks) && IsChain(c, m, ks')
    ensures ks == ks'
  {
    ListingIsSorted(m, ks);
    ListingIsSorted(m, ks');
  }

  lemma ChainKeys(c: Collection, m: map<Key, Row>, ks: seq<Key>)
    requires IsChain(c, m, ks)
    ensures |m.Keys| == |ks|
  {
    ListingHasNoRepeats(m, ks, 1);
    KeysOfList(m.Keys, ks);
  }

  // ---------------------------------------------------------------- exactness

  lemma {:induction false} NoHeadDrifts(chains: seq<Collection>, expected: map<Collection, Option<ChainHash>>,
                                        heads: map<Collection, ChainHash>)
    ensures HeadDrifts(chains, expected, heads) == [] <==>
      forall c :: c in chains && c in expected ==> expected[c] == if c in heads then Some(heads[c]) else None
  {
    if chains != [] {
      NoHeadDrifts(chains[1..], expected, heads);
      assert forall c :: c in chains <==> c == chains[0] || c in chains[1..];
    }
  }

  lemma {:induction false} NoLabelDrifts(tags: seq<Label>, src: Sources)
    requires forall tag :: tag in tags ==> tag in LABELS
    ensures LabelDrifts(tags, RecordHashes(src), src) == []
  {
    if tags != [] {
      assert tags[0] in tags && forall tag :: tag in tags[1..] ==> tag in tags;
      NoLabelDrifts(tags[1..], src);
    }
  }

  /** Every source collection has the rows it had. */
  ghost predicate NothingAppended(s: Store, s': Store, scope: Scope) {
    forall c :: c in GRDI_CHAINS ==> SameRows(s, s', Group(scope, c))
  }

  lemma HeadsAgreeExactly(s: Store, s': Store, scope: Scope)
    requires Valid(s) && Valid(s') && Extends(s, s')
    ensures HeadDrifts(CHAIN_ORDER, ChainHeads(VerifiedHeads(s, scope, GRDI_CHAINS)), VerifiedHeads(s', scope, GRDI_CHAINS)) == []
      <==> NothingAppended(s, s', scope)
  {
    hide Valid, SameRows, Extends;
    var expected, heads := ChainHeads(VerifiedHeads(s, scope, GRDI_CHAINS)), VerifiedHeads(s', scope, GRDI_CHAINS);
    NoHeadDrifts(CHAIN_ORDER, expected, heads);
    InOrder();
    forall c | c in GRDI_CHAINS
      ensures expected[c] == (if c in heads then Some(heads[c]) else None) <==> SameRows(s, s', Group(scope, c))
    {
      HeadsTellRows(s, s', Group(scope, c));
    }
  }

  lemma InOrder()
    ensures forall c :: c in CHAIN_ORDER <==> c in GRDI_CHAINS
    ensures forall c :: c in GRDI_CHAINS ==> ChainLinked(c)
  {
    var l := CHAIN_ORDER;
    assert l[0] == DecisionEnvelopes && l[1] == AuthorityDecisions && l[2] == ExecutionRequests && l[3] == GatewayDecisions;
    assert l[4] == ShadowExecutionReceipts && l[5] == ShadowOutcomes;
  }

  /** What the report built on s, checked on s', compares. */
  ghost function DriftsOf(p: ReplayBody, s: Store): seq<Drifted>
    requires WellTyped(SourcesAt(s, p.scope, p.planId))
  {
    Drifts(p.manifest, SourcesAt(s, p.scope, p.planId),
           if Intact(s, ScopeFilter(p.scope)) then Some(VerifiedHeads(s, p.scope, GRDI_CHAINS)) else None)
  }

  lemma SameRowsSameSources(s: Store, s': Store, scope: Scope, planId: Id)
    requires NothingAppended(s, s', scope)
    ensures SourcesAt(s', scope, planId) == SourcesAt(s, scope, planId)
  {
    forall c, key | c in GRDI_CHAINS ensures RecordAt(s', scope, c, key) == RecordAt(s, scope, c, key)
      ensures PayloadAt(s', scope, c, key) == PayloadAt(s, scope, c, key)
    {
      SameRowsSameRecord(s, s', scope, c, key);
    }
    hide RecordAt, PayloadAt, NothingAppended;
  }

  lemma SameRowsSameRecord(s: Store, s': Store, scope: Scope, c: Collection, key: CKey)
    requires SameRows(s, s', Group(scope, c))
    ensures RecordAt(s', scope, c, key) == RecordAt(s, scope, c, key)
    ensures PayloadAt(s', scope, c, key) == PayloadAt(s, scope, c, key)
  {
    var k := RowKey(scope, c, key);
    assert k in GroupRows(s, k.group) <==> k in s.rows;
    assert k in GroupRows(s', k.group) <==> k in s'.rows;
    assert k in s.rows ==> GroupRows(s, k.group)[k] == s.rows[k];
    assert k in s'.rows ==> GroupRows(s', k.group)[k] == s'.rows[k];
  }

  lemma ReportManifest(signer: Option<Signer>, args: ReplayArgs, s: Store)
    requires WellTyped(SourcesAt(s, args.scope, args.planId))
    ensures
      var p := ReportFor(signer, args, s);
      && p.scope == args.scope && p.planId == args.planId
      && p.manifest == Manifest(SnapshotOf(SourcesAt(s, args.scope, args.planId), args.scope),
                                ChainHeads(VerifiedHeads(s, args.scope, GRDI_CHAINS)))
  {
    hide Validation, StateFrom, SourcesAt, WellTyped, SnapshotOf, VerifiedHeads, ChainHeads;
  }

  /** A report built on s and checked on a later store s' shows no drift exactly when no row was appended
    * to any of the six source collections of its scope in between. */
  lemma DriftExactly(signer: Option<Signer>, args: ReplayArgs, s: Store, s': Store)
    requires Governed(signer, s) && Governed(signer, s') && Extends(s, s')
    requires RequestAt(s, args.scope, args.planId).Some?
    ensures WellTyped(SourcesAt(s, args.scope, args.planId)) && WellTyped(SourcesAt(s', args.scope, args.planId))
    ensures ReportFor(signer, args, s).scope == args.scope && ReportFor(signer, args, s).planId == args.planId
    ensures DriftsOf(ReportFor(signer, args, s), s') == [] <==> NothingAppended(s, s', args.scope)
  {
    hide Governed, Extends, ReportFor, SourcesAt, RequestAt, WellTyped, NothingAppended, VerifiedHeads, ChainHeads, Intact,
         HeadDrifts, LabelDrifts, Valid;
    var scope, src, src' := args.scope, SourcesAt(s, args.scope, args.planId), SourcesAt(s', args.scope, args.planId);
    RecordsStay(s, s', scope);
    SourcesAreTyped(signer, s, scope, args.planId);
    SourcesAreTyped(signer, s', scope, args.planId);
    ReportManifest(signer, args, s);
    GovernedIsValid(signer, s);
    GovernedIsValid(signer, s');
    ValidIsIntact(s', ScopeFilter(scope));
    HeadsAgreeExactly(s, s', scope);
    if NothingAppended(s, s', scope) {
      SameRowsSameSources(s, s', scope, args.planId);
      NoLabelDrifts(LABELS, src);
    }
  }
}
