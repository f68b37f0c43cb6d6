/** Historical comparison of two replay reports (grdi/replay.py, _compare_pair) as an exact delta. */
module Comparison {
  import opened Signing
  import opened Models
  import opened ScopedStore
  import opened Sessions
  import opened SessionRules
  import opened Replay

  const SORTED_LABELS := [AuthorityLabel, EnvelopeLabel, RequestLabel, GatewayLabel, ReceiptLabel, OutcomeLabel]
  const SORTED_POLICIES := [AuthorityPolicy, GatewayPolicy, OutcomePolicy, HavPolicy]
  const STRUCTURAL_FIELDS := [EnvelopeIdField, AuthorityIdField, PlanIdField, GatewayIdField, ReceiptIdField, OutcomeIdField]

  // ---------------------------------------------------------------- differences of two maps

  function At<K, V>(m: map<K, V>, k: K): Option<V> {
    if k in m then Some(m[k]) else None
  }

  function EntryDiffs<K, V(==)>(keys: seq<K>, a: map<K, V>, b: map<K, V>): seq<EntryDiff<K, V>> {
    if keys == [] then []
    else
      var rest := EntryDiffs(keys[1..], a, b);
      if At(a, keys[0]) != At(b, keys[0]) then [EntryDiff(keys[0], At(a, keys[0]), At(b, keys[0]))] + rest else rest
  }

  /** Replaying a list of differences on a map. */
  function Patch<K, V>(m: map<K, V>, diffs: seq<EntryDiff<K, V>>): map<K, V>
    decreases |diffs|
  {
    if diffs == [] then m
    else
      var d := diffs[0];
      Patch(if d.candidate.Some? then m[d.key := d.candidate.value] else m - {d.key}, diffs[1..])
  }

  function MirrorEntries<K, V>(diffs: seq<EntryDiff<K, V>>): seq<EntryDiff<K, V>> {
    if diffs == [] then []
    else [EntryDiff(diffs[0].key, diffs[0].candidate, diffs[0].baseline)] + MirrorEntries(diffs[1..])
  }

  lemma {:induction false} EntriesSwap<K, V>(keys: seq<K>, a: map<K, V>, b: map<K, V>)
    ensures EntryDiffs(keys, b, a) == MirrorEntries(EntryDiffs(keys, a, b))
  {
    if keys != [] {
      EntriesSwap(keys[1..], a, b);
      if At(a, keys[0]) != At(b, keys[0]) {
        var d := EntryDiff(keys[0], At(a, keys[0]), At(b, keys[0]));
        assert ([d] + EntryDiffs(keys[1..], a, b))[1..] == EntryDiffs(keys[1..], a, b);
      }
    }
  }

  lemma {:induction false} PatchAt<K, V>(keys: seq<K>, a: map<K, V>, b: map<K, V>, m: map<K, V>, k: K)
    ensures At(Patch(m, EntryDiffs(keys, a, b)), k) == if k in keys && At(a, k) != At(b, k) then At(b, k) else At(m, k)
    decreases |keys|
  {
    if keys != [] {
      var j, rest := keys[0], EntryDiffs(keys[1..], a, b);
      if At(a, j) != At(b, j) {
        var m' := if At(b, j).Some? then m[j := At(b, j).value] else m - {j};
        assert ([EntryDiff(j, At(a, j), At(b, j))] + rest)[1..] == rest;
        assert Patch(m, EntryDiffs(keys, a, b)) == Patch(m', rest);
        PatchAt(keys[1..], a, b, m', k);
      } else {
        PatchAt(keys[1..], a, b, m, k);
      }
    }
  }

  /** The differences between two maps, replayed on the first, give the second. */
  lemma EntriesPatch<K(!new), V>(keys: seq<K>, a: map<K, V>, b: map<K, V>)
    requires forall k :: k in a || k in b ==> k in keys
    ensures Patch(a, EntryDiffs(keys, a, b)) == b
  {
    var c := Patch(a, EntryDiffs(keys, a, b));
    forall k ensures At(c, k) == At(b, k) {
      PatchAt(keys, a, b, a, k);
    }
    assert forall k :: (k in c <==> At(c, k).Some?) && (k in b <==> At(b, k).Some?);
    forall k | k in c ensures k in b && c[k] == b[k] {
      assert At(c, k) == At(b, k);
    }
    assert c == b;
  }

  // ---------------------------------------------------------------- the delta

  function FieldOf(m: Snapshot, field: StructuralField): Id {
    match field
    case EnvelopeIdField => m.envelopeId
    case AuthorityIdField => m.authorityDecisionId
    case PlanIdField => m.planId
    case GatewayIdField => m.gatewayDecisionId
    case ReceiptIdField => m.shadowReceiptId
    case OutcomeIdField => m.outcomeId
  }

  function FieldDiffs(fields: seq<StructuralField>, b: Snapshot, c: Snapshot): seq<StructuralDiff> {
    if fields == [] then []
    else
      var rest := FieldDiffs(fields[1..], b, c);
      var baseline, candidate := FieldOf(b, fields[0]), FieldOf(c, fields[0]);
      if baseline != candidate then [FieldDiff(fields[0], baseline, candidate)] + rest else rest
  }

  predicate Incomparable(state: ReplayState) {
    state.INVALID? || state.INCOMPLETE?
  }

  function IdentityText(m: Snapshot, field: IdentityField): string {
    if field in m.identity then m.identity[field] else ""
  }

  predicate SameIdentity(b: Snapshot, c: Snapshot) {
    forall field :: field in IDENTITY_FIELDS ==> IdentityText(b, field) == IdentityText(c, field)
  }

  function StateDiffs(b: ReplayState, c: ReplayState): seq<StructuralDiff> {
    if b != c then [StateDiff(b, c)] else []
  }

  function OutcomeDiffs(b: Snapshot, c: Snapshot): seq<OutcomeDiff> {
    if b.outcome != c.outcome then [OutcomeDiff(b.outcome, c.outcome)] else []
  }

  /** _compare_pair. */
  function Compare(b: ReplayBody, c: ReplayBody): Delta {
    var m, n := b.manifest.snapshot, c.manifest.snapshot;
    if Incomparable(b.state) || Incomparable(c.state) || b.scope != c.scope then Delta(COMPARISON_INVALID, [], [], [], [])
    else if !SameIdentity(m, n) then Delta(NOT_COMPARABLE, [], [], [], [])
    else if b.manifestHash == c.manifestHash then Delta(EQUIVALENT, [], [], [], [])
    else
      Delta(DIFFERENT,
            FieldDiffs(STRUCTURAL_FIELDS, m, n) + StateDiffs(b.state, c.state),
            EntryDiffs(SORTED_LABELS, m.recordHashes, n.recordHashes),
            EntryDiffs(SORTED_POLICIES, m.policyVersions, n.policyVersions),
            OutcomeDiffs(m, n))
  }

  // ---------------------------------------------------------------- symmetry

  function MirrorStructural(diffs: seq<StructuralDiff>): seq<StructuralDiff> {
    if diffs == [] then []
    else
      [match diffs[0]
       case FieldDiff(field, baseline, candidate) => FieldDiff(field, candidate, baseline)
       case StateDiff(baseline, candidate) => StateDiff(candidate, baseline)] + MirrorStructural(diffs[1..])
  }

  function Mirror(d: Delta): Delta {
    Delta(d.state, MirrorStructural(d.structural), MirrorEntries(d.hashes), MirrorEntries(d.policies),
          if d.outcomes == [] then [] else [OutcomeDiff(d.outcomes[0].candidate, d.outcomes[0].baseline)])
  }

  lemma {:induction false} MirrorAppends(a: seq<StructuralDiff>, b: seq<StructuralDiff>)
    ensures MirrorStructural(a + b) == MirrorStructural(a) + MirrorStructural(b)
  {
    if a == [] {
      assert a + b == b;
    } else {
      MirrorAppends(a[1..], b);
      assert (a + b)[1..] == a[1..] + b;
    }
  }

  lemma {:induction false} FieldsSwap(fields: seq<StructuralField>, b: Snapshot, c: Snapshot)
    ensures FieldDiffs(fields, c, b) == MirrorStructural(FieldDiffs(fields, b, c))
  {
    if fields != [] {
      FieldsSwap(fields[1..], b, c);
      var rest := FieldDiffs(fields[1..], b, c);
      assert ([FieldDiff(fields[0], FieldOf(b, fields[0]), FieldOf(c, fields[0]))] + rest)[1..] == rest;
    }
  }

  lemma StructuralSwap(b: ReplayBody, c: ReplayBody)
    ensures
      var m, n := b.manifest.snapshot, c.manifest.snapshot;
      FieldDiffs(STRUCTURAL_FIELDS, n, m) + StateDiffs(c.state, b.state)
      == MirrorStructural(FieldDiffs(STRUCTURAL_FIELDS, m, n) + StateDiffs(b.state, c.state))
  {
    var m, n := b.manifest.snapshot, c.manifest.snapshot;
    FieldsSwap(STRUCTURAL_FIELDS, m, n);
    MirrorAppends(FieldDiffs(STRUCTURAL_FIELDS, m, n), StateDiffs(b.state, c.state));
    hide FieldDiffs;
    assert StateDiffs(c.state, b.state) == MirrorStructural(StateDiffs(b.state, c.state));
  }

  /** Swapping the reports swaps baseline and candidate in every entry and changes nothing else. */
  lemma ComparisonIsSymmetric(b: ReplayBody, c: ReplayBody)
    ensures Compare(c, b) == Mirror(Compare(b, c))
  {
    hide FieldDiffs, EntryDiffs, StateDiffs, SameIdentity, MirrorStructural, MirrorEntries;
    NothingMirrored();
    var m, n := b.manifest.snapshot, c.manifest.snapshot;
    IdentitySwap(m, n);
    StructuralSwap(b, c);
    EntriesSwap(SORTED_LABELS, m.recordHashes, n.recordHashes);
    EntriesSwap(SORTED_POLICIES, m.policyVersions, n.policyVersions);
  }

  lemma NothingMirrored()
    ensures MirrorStructural([]) == []
    ensures MirrorEntries<Label, PayloadHash>([]) == [] && MirrorEntries<PolicyField, string>([]) == []
  {
  }

  lemma IdentitySwap(m: Snapshot, n: Snapshot)
    ensures SameIdentity(m, n) <==> SameIdentity(n, m)
  {
  }

  // ---------------------------------------------------------------- exactness

  lemma AllAreListed()
    ensures forall tag: Label :: tag in SORTED_LABELS
    ensures forall policy: PolicyField :: policy in SORTED_POLICIES
    ensures forall field: StructuralField :: field in STRUCTURAL_FIELDS
  {
    forall tag: Label ensures tag in SORTED_LABELS {
      match tag
      case AuthorityLabel => assert SORTED_LABELS[0] == AuthorityLabel;
      case EnvelopeLabel => assert SORTED_LABELS[1] == EnvelopeLabel;
      case RequestLabel => assert SORTED_LABELS[2] == RequestLabel;
      case GatewayLabel => assert SORTED_LABELS[3] == GatewayLabel;
      case ReceiptLabel => assert SORTED_LABELS[4] == ReceiptLabel;
      case OutcomeLabel => assert SORTED_LABELS[5] == OutcomeLabel;
    }
    forall policy: PolicyField ensures policy in SORTED_POLICIES {
      match policy
      case AuthorityPolicy => assert SORTED_POLICIES[0] == AuthorityPolicy;
      case GatewayPolicy => assert SORTED_POLICIES[1] == GatewayPolicy;
      case OutcomePolicy => assert SORTED_POLICIES[2] == OutcomePolicy;
      case HavPolicy => assert SORTED_POLICIES[3] == HavPolicy;
    }
    forall field: StructuralField ensures field in STRUCTURAL_FIELDS {
      match field
      case EnvelopeIdField => assert STRUCTURAL_FIELDS[0] == EnvelopeIdField;
      case AuthorityIdField => assert STRUCTURAL_FIELDS[1] == AuthorityIdField;
      case PlanIdField => assert STRUCTURAL_FIELDS[2] == PlanIdField;
      case GatewayIdField => assert STRUCTURAL_FIELDS[3] == GatewayIdField;
      case ReceiptIdField => assert STRUCTURAL_FIELDS[4] == ReceiptIdField;
      case OutcomeIdField => assert STRUCTURAL_FIELDS[5] == OutcomeIdField;
    }
  }

  predicate FieldListed(diffs: seq<StructuralDiff>, field: StructuralField, baseline: Id, candidate: Id) {
    FieldDiff(field, baseline, candidate) in diffs
  }

  lemma {:induction false} FieldsAreExact(fields: seq<StructuralField>, b: Snapshot, c: Snapshot)
    ensures forall d :: d in FieldDiffs(fields, b, c) <==>
      d.FieldDiff? && d.field in fields && d.baseline == FieldOf(b, d.field) != FieldOf(c, d.field) == d.candidate
  {
    if fields != [] {
      FieldsAreExact(fields[1..], b, c);
      assert forall f :: f in fields <==> f == fields[0] || f in fields[1..];
    }
  }

  /** The listed differences turn the baseline's hashes and policies into the candidate's, and name every
    * identifier, the outcome and the replay state that changed, with both values. */
  lemma DeltaIsExact(b: ReplayBody, c: ReplayBody)
    requires Compare(b, c).state.DIFFERENT?
    ensures
      var d, m, n := Compare(b, c), b.manifest.snapshot, c.manifest.snapshot;
      && Patch(m.recordHashes, d.hashes) == n.recordHashes
      && Patch(m.policyVersions, d.policies) == n.policyVersions
      && (forall field :: FieldOf(m, field) == FieldOf(n, field)
                          || FieldListed(d.structural, field, FieldOf(m, field), FieldOf(n, field)))
      && (forall e :: e in d.structural && e.FieldDiff? ==> e.baseline == FieldOf(m, e.field) != FieldOf(n, e.field) == e.candidate)
      && (b.state != c.state <==> StateDiff(b.state, c.state) in d.structural)
      && (m.outcome != n.outcome <==> d.outcomes == [OutcomeDiff(m.outcome, n.outcome)])
  {
    hide FieldDiffs, EntryDiffs, Patch;
    var m, n := b.manifest.snapshot, c.manifest.snapshot;
    AllAreListed();
    EntriesPatch(SORTED_LABELS, m.recordHashes, n.recordHashes);
    EntriesPatch(SORTED_POLICIES, m.policyVersions, n.policyVersions);
    FieldsAreExact(STRUCTURAL_FIELDS, m, n);
    var fields, states := FieldDiffs(STRUCTURAL_FIELDS, m, n), StateDiffs(b.state, c.state);
    assert forall e :: e in fields + states <==> e in fields || e in states;
  }

  /** Reports whose hash is the hash of their manifest, for the same scope and the same decision: they are
    * EQUIVALENT exactly when their manifests agree apart from the chain heads. */
  lemma EquivalentExactly(b: ReplayBody, c: ReplayBody)
    requires b.manifestHash == ManifestHash(b.manifest.snapshot) && c.manifestHash == ManifestHash(c.manifest.snapshot)
    ensures Compare(b, c).state.EQUIVALENT? <==>
      && !Incomparable(b.state) && !Incomparable(c.state) && b.scope == c.scope
      && b.manifest.snapshot == c.manifest.snapshot
  {
    assert b.manifest.snapshot == c.manifest.snapshot ==> SameIdentity(b.manifest.snapshot, c.manifest.snapshot);
    assert ManifestHash(b.manifest.snapshot).snapshot == b.manifest.snapshot;
    assert ManifestHash(c.manifest.snapshot).snapshot == c.manifest.snapshot;
  }

  // ---------------------------------------------------------------- which answer when

  /** The two manifests name different subjects, domains or decision types; an entry that is missing counts as empty. */
  predicate OtherDecision(m: Snapshot, n: Snapshot) {
    exists f: IdentityField ::
      (if f in m.identity then m.identity[f] else "") != (if f in n.identity then n.identity[f] else "")
  }

  /** Reports that are INVALID or INCOMPLETE, or of different scopes, cannot be compared; reports of different
    * decisions are not comparable; of the others those with the same manifest hash are EQUIVALENT and the rest
    * DIFFERENT, and only those list anything. */
  lemma StatesExactly(b: ReplayBody, c: ReplayBody)
    ensures
      var d, m, n := Compare(b, c), b.manifest.snapshot, c.manifest.snapshot;
      var unusable := b.state in {INVALID, INCOMPLETE} || c.state in {INVALID, INCOMPLETE} || b.scope != c.scope;
      && (d.state.COMPARISON_INVALID? <==> unusable)
      && (d.state.NOT_COMPARABLE? <==> !unusable && OtherDecision(m, n))
      && (d.state.EQUIVALENT? <==> !unusable && !OtherDecision(m, n) && b.manifestHash == c.manifestHash)
      && (d.state.DIFFERENT? <==> !unusable && !OtherDecision(m, n) && b.manifestHash != c.manifestHash)
      && (!d.state.DIFFERENT? ==> d.structural == [] && d.hashes == [] && d.policies == [] && d.outcomes == [])
  {
    hide FieldDiffs, EntryDiffs;
    var m, n := b.manifest.snapshot, c.manifest.snapshot;
    IdentityListed();
    assert SameIdentity(m, n) <==> !OtherDecision(m, n) by {
      if OtherDecision(m, n) {
        var f: IdentityField :| (if f in m.identity then m.identity[f] else "") != (if f in n.identity then n.identity[f] else "");
        assert f in IDENTITY_FIELDS && IdentityText(m, f) != IdentityText(n, f);
      }
    }
  }

  lemma IdentityListed()
    ensures forall f: IdentityField :: f in IDENTITY_FIELDS
  {
    forall f: IdentityField ensures f in IDENTITY_FIELDS {
      match f
      case SubjectField => assert IDENTITY_FIELDS[0] == SubjectField;
      case DomainField => assert IDENTITY_FIELDS[1] == DomainField;
      case DecisionTypeField => assert IDENTITY_FIELDS[2] == DecisionTypeField;
    }
  }

  lemma {:induction false} EntryListed<K, V>(keys: seq<K>, a: map<K, V>, b: map<K, V>, d: EntryDiff<K, V>)
    ensures d in EntryDiffs(keys, a, b) <==>
      d.key in keys && d.baseline == At(a, d.key) && d.candidate == At(b, d.key) && d.baseline != d.candidate
  {
    if keys != [] { EntryListed(keys[1..], a, b, d); }
  }

  /** DIFFERENT lists a record hash or a policy version if and only if it differs, with both its values. */
  lemma EntriesExactly(b: ReplayBody, c: ReplayBody)
    requires Compare(b, c).state.DIFFERENT?
    ensures
      var d, m, n := Compare(b, c), b.manifest.snapshot, c.manifest.snapshot;
      && (forall e :: e in d.hashes <==>
            && e.baseline == (if e.key in m.recordHashes then Some(m.recordHashes[e.key]) else None)
            && e.candidate == (if e.key in n.recordHashes then Some(n.recordHashes[e.key]) else None)
            && e.baseline != e.candidate)
      && (forall e :: e in d.policies <==>
            && e.baseline == (if e.key in m.policyVersions then Some(m.policyVersions[e.key]) else None)
            && e.candidate == (if e.key in n.policyVersions then Some(n.policyVersions[e.key]) else None)
            && e.baseline != e.candidate)
  {
    hide FieldDiffs, EntryDiffs;
    var d, m, n := Compare(b, c), b.manifest.snapshot, c.manifest.snapshot;
    AllAreListed();
    forall e: EntryDiff<Label, PayloadHash>
      ensures e in d.hashes <==> e.baseline == At(m.recordHashes, e.key) && e.candidate == At(n.recordHashes, e.key) && e.baseline != e.candidate
    {
      EntryListed(SORTED_LABELS, m.recordHashes, n.recordHashes, e);
      assert e.key in SORTED_LABELS;
    }
    forall e: EntryDiff<PolicyField, string>
      ensures e in d.policies <==>
        e.baseline == At(m.policyVersions, e.key) && e.candidate == At(n.policyVersions, e.key) && e.baseline != e.candidate
    {
      EntryListed(SORTED_POLICIES, m.policyVersions, n.policyVersions, e);
      assert e.key in SORTED_POLICIES;
    }
  }

  predicate NothingListed(d: Delta) {
    d.structural == [] && d.hashes == [] && d.policies == [] && d.outcomes == []
  }

  /** The fields of a manifest that _compare_pair lists. */
  function Compared(m: Snapshot): Snapshot {
    m.(scope := Scope("", ""), protocolVersions := map[], identity := map[])
  }

  /** DIFFERENT reports list nothing exactly when they differ only in what is not listed: the protocol
    * versions, or a manifest scope or identity entry that the report itself does not show. */
  lemma SilentExactly(b: ReplayBody, c: ReplayBody)
    requires Compare(b, c).state.DIFFERENT?
    ensures NothingListed(Compare(b, c)) <==>
      Compared(b.manifest.snapshot) == Compared(c.manifest.snapshot) && b.state == c.state
  {
    hide FieldDiffs, EntryDiffs, Patch, Compare;
    var d, m, n := Compare(b, c), b.manifest.snapshot, c.manifest.snapshot;
    DeltaIsExact(b, c);
    if NothingListed(d) {
      assert Patch(m.recordHashes, []) == m.recordHashes && Patch(m.policyVersions, []) == m.policyVersions by { PatchNothing(m); }
      forall field: StructuralField ensures FieldOf(m, field) == FieldOf(n, field) {}
      assert FieldOf(m, EnvelopeIdField) == FieldOf(n, EnvelopeIdField);
      assert FieldOf(m, AuthorityIdField) == FieldOf(n, AuthorityIdField);
      assert FieldOf(m, PlanIdField) == FieldOf(n, PlanIdField);
      assert FieldOf(m, GatewayIdField) == FieldOf(n, GatewayIdField);
      assert FieldOf(m, ReceiptIdField) == FieldOf(n, ReceiptIdField);
      assert FieldOf(m, OutcomeIdField) == FieldOf(n, OutcomeIdField);
    } else if Compared(m) == Compared(n) && b.state == c.state {
      EqualListsNothing(b, c);
    }
  }

  lemma PatchNothing(m: Snapshot)
    ensures Patch(m.recordHashes, []) == m.recordHashes && Patch(m.policyVersions, []) == m.policyVersions
  {
  }

  lemma {:induction false} NoEntries<K, V>(keys: seq<K>, a: map<K, V>)
    ensures EntryDiffs(keys, a, a) == []
  {
    if keys != [] { NoEntries(keys[1..], a); }
  }

  lemma {:induction false} NoFields(fields: seq<StructuralField>, b: Snapshot, c: Snapshot)
    requires forall field :: FieldOf(b, field) == FieldOf(c, field)
    ensures FieldDiffs(fields, b, c) == []
  {
    if fields != [] { NoFields(fields[1..], b, c); }
  }

  lemma EqualListsNothing(b: ReplayBody, c: ReplayBody)
    requires Compare(b, c).state.DIFFERENT?
    requires Compared(b.manifest.snapshot) == Compared(c.manifest.snapshot) && b.state == c.state
    ensures NothingListed(Compare(b, c))
  {
    hide FieldDiffs, EntryDiffs;
    var m, n := b.manifest.snapshot, c.manifest.snapshot;
    assert m.recordHashes == Compared(m).recordHashes == n.recordHashes;
    assert m.policyVersions == Compared(m).policyVersions == n.policyVersions;
    assert m.outcome == Compared(m).outcome == n.outcome;
    forall field ensures FieldOf(m, field) == FieldOf(n, field) {
      assert FieldOf(Compared(m), field) == FieldOf(Compared(n), field);
    }
    NoFields(STRUCTURAL_FIELDS, m, n);
    NoEntries(SORTED_LABELS, m.recordHashes);
    NoEntries(SORTED_POLICIES, m.policyVersions);
  }

  /** With equal protocol versions, and manifests that carry their report's scope and all three identity
    * entries, DIFFERENT always lists a difference. */
  lemma DifferentShowsWhy(b: ReplayBody, c: ReplayBody)
    requires b.manifestHash == ManifestHash(b.manifest.snapshot) && c.manifestHash == ManifestHash(c.manifest.snapshot)
    requires b.manifest.snapshot.scope == b.scope && c.manifest.snapshot.scope == c.scope
    requires b.manifest.snapshot.identity.Keys == c.manifest.snapshot.identity.Keys == set f | f in IDENTITY_FIELDS
    requires Compare(b, c).state.DIFFERENT?
    requires b.manifest.snapshot.protocolVersions == c.manifest.snapshot.protocolVersions
    ensures !NothingListed(Compare(b, c))
  {
    hide FieldDiffs, EntryDiffs;
    var m, n := b.manifest.snapshot, c.manifest.snapshot;
    SilentExactly(b, c);
    assert m.identity == n.identity by {
      forall f | f in m.identity ensures m.identity[f] == n.identity[f] {
        assert f in m.identity.Keys && f in n.identity.Keys;
        assert IdentityText(m, f) == IdentityText(n, f);
      }
    }
    assert m == Compared(m).(scope := m.scope, protocolVersions := m.protocolVersions, identity := m.identity);
    assert n == Compared(n).(scope := n.scope, protocolVersions := n.protocolVersions, identity := n.identity);
  }

  /** Two reports of one decision made under different protocol versions, alike in everything else. */
  function UnderProtocol(version: string): ReplayBody {
    var snapshot := Snapshot("e", "a", "p", "g", "r", "o", Scope("t", "p"), map[], map[], map[ProtocolVersion := version],
                             map[SubjectField := "", DomainField := "", DecisionTypeField := ""], Some(CONSISTENT));
    ReplayBody("rp", "p", "o", Scope("t", "p"), "who", Manifest(snapshot, map[]), ManifestHash(snapshot), REPRODUCED, [], [],
               false, NOT_EXECUTED, "now")
  }

  /** Without equal protocol versions a DIFFERENT result may list no difference at all. */
  lemma ProtocolChangeIsSilent()
    ensures Compare(UnderProtocol("1.0.0"), UnderProtocol("2.0.0")).state.DIFFERENT?
    ensures NothingListed(Compare(UnderProtocol("1.0.0"), UnderProtocol("2.0.0")))
  {
    var b, c := UnderProtocol("1.0.0"), UnderProtocol("2.0.0");
    var m, n := b.manifest.snapshot, c.manifest.snapshot;
    assert "1.0.0"[0] != "2.0.0"[0];
    assert m.protocolVersions[ProtocolVersion] != n.protocolVersions[ProtocolVersion];
    assert ManifestHash(m).snapshot == m && ManifestHash(n).snapshot == n;
    SilentExactly(b, c);
  }

  // ---------------------------------------------------------------- _compare_pair, as written

  method CollectEntries<K(==, !new), V(==)>(keys: seq<K>, a: map<K, V>, b: map<K, V>) returns (diffs: seq<EntryDiff<K, V>>)
    ensures diffs == EntryDiffs(keys, a, b)
  {
    diffs := [];
    for i := 0 to |keys|
      invariant diffs + EntryDiffs(keys[i..], a, b) == EntryDiffs(keys, a, b)
    {
      assert keys[i..][0] == keys[i] && keys[i..][1..] == keys[i + 1..];
      var baseline, candidate := At(a, keys[i]), At(b, keys[i]);
      if baseline != candidate { diffs := diffs + [EntryDiff(keys[i], baseline, candidate)]; }
    }
  }

  method CollectFields(fields: seq<StructuralField>, b: Snapshot, c: Snapshot) returns (diffs: seq<StructuralDiff>)
    ensures diffs == FieldDiffs(fields, b, c)
  {
    hide FieldOf;
    diffs := [];
    for i := 0 to |fields|
      invariant diffs + FieldDiffs(fields[i..], b, c) == FieldDiffs(fields, b, c)
    {
      assert fields[i..][0] == fields[i] && fields[i..][1..] == fields[i + 1..];
      var baseline, candidate := FieldOf(b, fields[i]), FieldOf(c, fields[i]);
      if baseline != candidate { diffs := diffs + [FieldDiff(fields[i], baseline, candidate)]; }
    }
  }

  method ComparePair(b: ReplayBody, c: ReplayBody) returns (d: Delta)
    ensures d == Compare(b, c)
  {
    hide EntryDiffs, FieldDiffs;
    var m, n := b.manifest.snapshot, c.manifest.snapshot;
    if Incomparable(b.state) || Incomparable(c.state) { return Delta(COMPARISON_INVALID, [], [], [], []); }
    if b.scope != c.scope { return Delta(COMPARISON_INVALID, [], [], [], []); }
    if !SameIdentity(m, n) { return Delta(NOT_COMPARABLE, [], [], [], []); }
    if b.manifestHash == c.manifestHash { return Delta(EQUIVALENT, [], [], [], []); }
    var hashes := CollectEntries(SORTED_LABELS, m.recordHashes, n.recordHashes);
    var policies := CollectEntries(SORTED_POLICIES, m.policyVersions, n.policyVersions);
    var structural := CollectFields(STRUCTURAL_FIELDS, m, n);
    var outcomes: seq<OutcomeDiff> := [];
    if m.outcome != n.outcome { outcomes := [OutcomeDiff(m.outcome, n.outcome)]; }
    if b.state != c.state { structural := structural + [StateDiff(b.state, c.state)]; }
    d := Delta(DIFFERENT, structural, hashes, policies, outcomes);
  }

  // ---------------------------------------------------------------- the program

  datatype CompareArgs = CompareArgs(scope: Scope, baselineId: Id, candidateId: Id, requestedBy: Id, comparisonId: Id, now: string)

  function SignedComparison(signer: Signer, body: ComparisonBody): HistoricalComparison {
    HistoricalComparison(body, body, Sign(signer, body))
  }

  /** validate_comparison. */
  predicate ComparisonOk(signer: Option<Signer>, h: HistoricalComparison) {
    && signer.Some?
    && VerifySignature(signer.value, h.signed, h.signature)
    && h.fields == h.signed
    && h.fields.comparisonKey == ComparisonHash(h.fields.baselineReplayId, h.fields.candidateReplayId)
  }

  function FindReport(rows: seq<Row>, replayId: Id): (r: Option<ReplayReport>)
    ensures r.Some? ==> r.value.fields.replayId == replayId
  {
    if rows == [] then None
    else if rows[0].payload.record.ReplayRecord? && rows[0].payload.record.report.fields.replayId == replayId then
      Some(rows[0].payload.record.report)
    else FindReport(rows[1..], replayId)
  }

  /** The report found for an id is the first one listed with it, and none is found only if none is listed. */
  lemma {:induction false} FoundFirst(rows: seq<Row>, replayId: Id)
    ensures
      match FindReport(rows, replayId)
      case None => forall row :: row in rows && row.payload.record.ReplayRecord? ==> row.payload.record.report.fields.replayId != replayId
      case Some(p) =>
        exists i :: 0 <= i < |rows| && rows[i].payload.record == ReplayRecord(p) && p.fields.replayId == replayId
          && forall j :: 0 <= j < i && rows[j].payload.record.ReplayRecord? ==> rows[j].payload.record.report.fields.replayId != replayId
  {
    if rows != [] && !(rows[0].payload.record.ReplayRecord? && rows[0].payload.record.report.fields.replayId == replayId) {
      FoundFirst(rows[1..], replayId);
      if FindReport(rows, replayId).Some? {
        var p := FindReport(rows, replayId).value;
        var i :| 0 <= i < |rows[1..]| && rows[1..][i].payload.record == ReplayRecord(p)
          && forall j :: 0 <= j < i && rows[1..][j].payload.record.ReplayRecord? ==> rows[1..][j].payload.record.report.fields.replayId != replayId;
        assert rows[i + 1] == rows[1..][i];
        assert forall j :: 1 <= j < i + 1 ==> rows[j] == rows[1..][j - 1];
      }
    }
  }

  /** _find_replay_row_in_session. */
  function WithReport(replayId: Id, next: ReplayReport -> Prog): Prog {
    Listing1000(ReplayReports, rows =>
      match FindReport(rows, replayId)
      case Some(report) => next(report)
      case None => Raise(KeyError))
  }

  /** The transaction that loads both reports; only their manifest hashes are used afterwards. */
  function LoadPair(args: CompareArgs): Prog {
    WithReport(args.baselineId, b => LoadCandidate(args, b))
  }

  function LoadCandidate(args: CompareArgs, b: ReplayReport): Prog {
    WithReport(args.candidateId, c => Return(ReportPair(b, c)))
  }

  function CompareCommit(signer: Option<Signer>, args: CompareArgs, baseline: ManifestHash, candidate: ManifestHash): Prog {
    WithReport(args.baselineId, b => WithReport(args.candidateId, c => AfterPair(signer, args, baseline, candidate, b, c)))
  }

  function AfterPair(signer: Option<Signer>, args: CompareArgs, baseline: ManifestHash, candidate: ManifestHash,
                     b: ReplayReport, c: ReplayReport): Prog
  {
    if b.fields.manifestHash != baseline || c.fields.manifestHash != candidate then Raise(ValueError)
    else if !ReportOk(signer, b) || !ReportOk(signer, c) then Raise(ValueError)
    else
      var body := ComparisonBody(args.comparisonId, b.fields.replayId, c.fields.replayId, b.fields.scope, args.requestedBy,
                                 Compare(b.fields, c.fields), ComparisonHash(b.fields.replayId, c.fields.replayId), args.now);
      Lookup(HistoricalComparisons, PairKey(body.comparisonKey), existing => AfterStoredComparison(signer, body, existing))
  }

  function AfterStoredComparison(signer: Option<Signer>, body: ComparisonBody, existing: Option<Payload>): Prog {
    if existing.Some? then CheckedComparison(signer, existing.value.record)
    else if signer.None? then Raise(ValueError)
    else
      Put(HistoricalComparisons, PairKey(body.comparisonKey), ComparisonRecord(SignedComparison(signer.value, body)),
          stored => CheckedComparison(signer, stored))
  }

  function CheckedComparison(signer: Option<Signer>, record: Record): Prog {
    if record.ComparisonRecord? && ComparisonOk(signer, record.comparison) then Return(record) else Raise(ValueError)
  }
}
