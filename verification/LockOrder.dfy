/** The global lock order on concrete identifiers and keys (core_v3/transactions.py): strings compared
  * character by character, tuples field by field. */
module LockOrder {
  import opened Signing
  import opened Models
  import opened Locks

  // ---------------------------------------------------------------- strings

  /** a comes before b in lexicographic order. */
  predicate StringBefore(a: string, b: string) {
    b != "" && (a == "" || a[0] < b[0] || (a[0] == b[0] && StringBefore(a[1..], b[1..])))
  }

  lemma {:induction false} NotBeforeItself(a: string)
    ensures !StringBefore(a, a)
  {
    if a != "" { NotBeforeItself(a[1..]); }
  }

  lemma {:induction false} OneIsBefore(a: string, b: string)
    ensures a == b || StringBefore(a, b) || StringBefore(b, a)
  {
    if a != "" && b != "" && a[0] == b[0] {
      OneIsBefore(a[1..], b[1..]);
      assert a == [a[0]] + a[1..] && b == [b[0]] + b[1..];
    }
  }

  lemma {:induction false} BeforeIsTransitive(a: string, b: string, c: string)
    requires StringBefore(a, b) && StringBefore(b, c)
    ensures StringBefore(a, c)
  {
    if a != "" && a[0] == b[0] == c[0] { BeforeIsTransitive(a[1..], b[1..], c[1..]); }
  }

  lemma StringOrderIsTotal()
    ensures StrictTotal(StringBefore)
  {
    forall a ensures !StringBefore(a, a) { NotBeforeItself(a); }
    forall a, b ensures a == b || StringBefore(a, b) || StringBefore(b, a) { OneIsBefore(a, b); }
    forall a, b, c | StringBefore(a, b) && StringBefore(b, c) ensures StringBefore(a, c) { BeforeIsTransitive(a, b, c); }
  }

  // ---------------------------------------------------------------- canonical keys

  function EventName(kind: EventType): string {
    match kind
    case GatewayDecisionCreated => "GATEWAY_DECISION_CREATED"
    case SimulationRecorded => "SIMULATION_RECORDED"
  }

  /** The text of a key; hex gives the text of a digest. */
  function KeyText(hex: CKey -> string, k: CKey): string {
    match k
    case Name(text) => text
    case EventKey(planId, kind) => planId + ":" + EventName(kind)
    case _ => hex(k)
  }

  /** The keys of one collection are all of one kind, so the kind never decides between two of them. */
  function Kind(k: CKey): nat {
    match k
    case Name(_) => 0
    case EventKey(_, _) => 1
    case ManifestKey(_) => 2
    case PairKey(_) => 3
  }

  predicate KeyBefore(hex: CKey -> string, a: CKey, b: CKey) {
    Kind(a) < Kind(b) || (Kind(a) == Kind(b) && StringBefore(KeyText(hex, a), KeyText(hex, b)))
  }

  /** Different digests have different texts. */
  ghost predicate Injective(hex: CKey -> string) {
    forall a, b :: Kind(a) == Kind(b) >= 2 && hex(a) == hex(b) ==> a == b
  }

  lemma EventTextIsUnique(p: Id, kind: EventType, p': Id, kind': EventType)
    requires p + ":" + EventName(kind) == p' + ":" + EventName(kind')
    ensures p == p' && kind == kind'
  {
    var s, s' := p + ":" + EventName(kind), p' + ":" + EventName(kind');
    assert s[|s| - 3] == EventName(kind)[|EventName(kind)| - 3];
    assert s'[|s'| - 3] == EventName(kind')[|EventName(kind')| - 3];
    assert s[..|p|] == p && s'[..|p'|] == p';
  }

  lemma TextIsUnique(hex: CKey -> string, a: CKey, b: CKey)
    requires Injective(hex) && Kind(a) == Kind(b) && KeyText(hex, a) == KeyText(hex, b)
    ensures a == b
  {
    if a.EventKey? { EventTextIsUnique(a.planId, a.kind, b.planId, b.kind); }
  }

  lemma KeyOrderIsTotal(hex: CKey -> string)
    requires Injective(hex)
    ensures StrictTotal((a: CKey, b: CKey) => KeyBefore(hex, a, b))
  {
    var less := (a: CKey, b: CKey) => KeyBefore(hex, a, b);
    StringOrderIsTotal();
    forall a ensures !less(a, a) { NotBeforeItself(KeyText(hex, a)); }
    forall a, b ensures a == b || less(a, b) || less(b, a) {
      OneIsBefore(KeyText(hex, a), KeyText(hex, b));
      if Kind(a) == Kind(b) && KeyText(hex, a) == KeyText(hex, b) { TextIsUnique(hex, a, b); }
    }
    forall a, b, c | less(a, b) && less(b, c) ensures less(a, c) {
      if Kind(a) == Kind(b) == Kind(c) { BeforeIsTransitive(KeyText(hex, a), KeyText(hex, b), KeyText(hex, c)); }
    }
  }

  // ---------------------------------------------------------------- collections

  function CollectionName(c: Collection): string {
    match c
    case DecisionEnvelopes => "decision_envelopes"
    case AuthorityDecisions => "authority_decisions"
    case ExecutionRequests => "execution_requests"
    case GatewayDecisions => "gateway_decisions"
    case GatewayDecisionEvents => "gateway_decision_events"
    case ShadowExecutionReceipts => "shadow_execution_receipts"
    case ShadowOutcomes => "shadow_outcomes"
    case ReplayReports => "replay_reports"
    case HistoricalComparisons => "historical_comparisons"
    case Claims => "claims"
    case Evidence => "evidence"
    case Verifications => "verifications"
    case Actions => "actions"
    case PolicyDecisions => "policy_decisions"
    case Outcomes => "outcomes"
  }

  lemma {:induction false} SamePrefixBefore(prefix: string, a: string, b: string)
    ensures StringBefore(prefix + a, prefix + b) <==> StringBefore(a, b)
  {
    if prefix == "" {
      assert prefix + a == a && prefix + b == b;
    } else {
      assert (prefix + a)[1..] == prefix[1..] + a && (prefix + b)[1..] == prefix[1..] + b;
      SamePrefixBefore(prefix[1..], a, b);
    }
  }

  function Initial(c: Collection): char {
    match c
    case Actions => 'a'
    case AuthorityDecisions => 'a'
    case Claims => 'c'
    case DecisionEnvelopes => 'd'
    case Evidence => 'e'
    case ExecutionRequests => 'e'
    case GatewayDecisionEvents => 'g'
    case GatewayDecisions => 'g'
    case HistoricalComparisons => 'h'
    case Outcomes => 'o'
    case PolicyDecisions => 'p'
    case ReplayReports => 'r'
    case ShadowExecutionReceipts => 's'
    case ShadowOutcomes => 's'
    case Verifications => 'v'
  }

  lemma StartsWithInitial(c: Collection)
    ensures CollectionName(c) != "" && CollectionName(c)[0] == Initial(c)
  {
  }

  lemma GatewayNames()
    ensures StringBefore(CollectionName(GatewayDecisionEvents), CollectionName(GatewayDecisions))
  {
    assert "gateway_decision_events" == "gateway_decision" + "_events" && "gateway_decisions" == "gateway_decision" + "s";
    SamePrefixBefore("gateway_decision", "_events", "s");
  }

  lemma ShadowNames()
    ensures StringBefore(CollectionName(ShadowExecutionReceipts), CollectionName(ShadowOutcomes))
  {
    assert "shadow_execution_receipts" == "shadow_" + "execution_receipts" && "shadow_outcomes" == "shadow_" + "outcomes";
    SamePrefixBefore("shadow_", "execution_receipts", "outcomes");
  }

  lemma ShortNames()
    ensures StringBefore(CollectionName(Actions), CollectionName(AuthorityDecisions))
    ensures StringBefore(CollectionName(Evidence), CollectionName(ExecutionRequests))
  {
    assert "actions" == "a" + "ctions" && "authority_decisions" == "a" + "uthority_decisions";
    SamePrefixBefore("a", "ctions", "uthority_decisions");
    assert "evidence" == "e" + "vidence" && "execution_requests" == "e" + "xecution_requests";
    SamePrefixBefore("e", "vidence", "xecution_requests");
  }

  lemma NextInRank(c: Collection, d: Collection)
    requires Rank(d) == Rank(c) + 1
    ensures StringBefore(CollectionName(c), CollectionName(d))
  {
    hide CollectionName;
    GatewayNames();
    ShadowNames();
    ShortNames();
    StartsWithInitial(c);
    StartsWithInitial(d);
    assert Initial(c) < Initial(d) || (c, d) in {(GatewayDecisionEvents, GatewayDecisions), (ShadowExecutionReceipts, ShadowOutcomes),
                                                 (Actions, AuthorityDecisions), (Evidence, ExecutionRequests)};
  }

  /** The collections are ordered by their names, character by character. */
  lemma {:induction false} RankIsByName(c: Collection, d: Collection)
    requires Rank(c) < Rank(d)
    ensures StringBefore(CollectionName(c), CollectionName(d))
    decreases Rank(d) - Rank(c)
  {
    hide CollectionName, StringBefore;
    if Rank(d) == Rank(c) + 1 {
      NextInRank(c, d);
    } else {
      var e: Collection :| Rank(e) == Rank(c) + 1;
      NextInRank(c, e);
      RankIsByName(e, d);
      BeforeIsTransitive(CollectionName(c), CollectionName(e), CollectionName(d));
    }
  }

  // ---------------------------------------------------------------- lock references

  /** The order in which every transaction acquires its locks. */
  function GlobalOrder(hex: CKey -> string): (LockRef, LockRef) -> bool {
    (a: LockRef, b: LockRef) => TupleBefore(StringBefore, (k: CKey, k': CKey) => KeyBefore(hex, k, k'), a, b)
  }

  /** It is a strict total order, as the theorems on concurrency ask. */
  lemma GlobalOrderIsTotal(hex: CKey -> string)
    requires Injective(hex)
    ensures StrictTotal(GlobalOrder(hex))
  {
    var lessKey := (k: CKey, k': CKey) => KeyBefore(hex, k, k');
    StringOrderIsTotal();
    KeyOrderIsTotal(hex);
    TupleOrderIsTotal(StringBefore, lessKey);
    var less := (a: LockRef, b: LockRef) => TupleBefore(StringBefore, lessKey, a, b);
    assert forall a, b :: GlobalOrder(hex)(a, b) == less(a, b);
  }
}
