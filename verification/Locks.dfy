/** Lock references, their global order and the locks a write needs (core_v3/transactions.py,
  * core_v3/postgres_advisory.py).
  *
  * A reference without a key is a CHAIN lock on a collection; with one it is a CANONICAL lock.
  */
module Locks {
  import opened Signing
  import opened Models
  import opened ScopedStore

  datatype LockRef = LockRef(scope: Scope, coll: Collection, key: Option<CKey>)

  // ---------------------------------------------------------------- the global order

  ghost predicate StrictTotal<T(!new)>(less: (T, T) -> bool) {
    && (forall a :: !less(a, a))
    && (forall a, b :: a == b || less(a, b) || less(b, a))
    && (forall a, b, c :: less(a, b) && less(b, c) ==> less(a, c))
  }

  /** The alphabetical position of the collection's name. */
  function Rank(c: Collection): nat {
    match c
    case Actions => 0
    case AuthorityDecisions => 1
    case Claims => 2
    case DecisionEnvelopes => 3
    case Evidence => 4
    case ExecutionRequests => 5
    case GatewayDecisionEvents => 6
    case GatewayDecisions => 7
    case HistoricalComparisons => 8
    case Outcomes => 9
    case PolicyDecisions => 10
    case ReplayReports => 11
    case ShadowExecutionReceipts => 12
    case ShadowOutcomes => 13
    case Verifications => 14
  }

  /** The sort key (tenant, project, collection, CHAIN before CANONICAL, key) of normalize_lock_refs. */
  predicate TupleBefore(lessId: (Id, Id) -> bool, lessKey: (CKey, CKey) -> bool, a: LockRef, b: LockRef) {
    lessId(a.scope.tenant, b.scope.tenant) || (a.scope.tenant == b.scope.tenant &&
    (lessId(a.scope.project, b.scope.project) || (a.scope.project == b.scope.project &&
    (Rank(a.coll) < Rank(b.coll) || (a.coll == b.coll &&
    ((a.key.None? && b.key.Some?) || (a.key.Some? && b.key.Some? && lessKey(a.key.value, b.key.value))))))))
  }

  lemma TupleOrderIsTotal(lessId: (Id, Id) -> bool, lessKey: (CKey, CKey) -> bool)
    requires StrictTotal(lessId) && StrictTotal(lessKey)
    ensures StrictTotal((a: LockRef, b: LockRef) => TupleBefore(lessId, lessKey, a, b))
  {
    var less := (a: LockRef, b: LockRef) => TupleBefore(lessId, lessKey, a, b);
    forall a, b ensures a == b || less(a, b) || less(b, a) {
      assert Rank(a.coll) == Rank(b.coll) ==> a.coll == b.coll;
    }
    forall a, b, c | less(a, b) && less(b, c) ensures less(a, c) {
    }
  }

  // ---------------------------------------------------------------- normalisation

  ghost predicate Ascending(before: (LockRef, LockRef) -> bool, refs: seq<LockRef>) {
    forall i, j :: 0 <= i < j < |refs| ==> before(refs[i], refs[j])
  }

  function Insert(before: (LockRef, LockRef) -> bool, ref: LockRef, sorted: seq<LockRef>): seq<LockRef> {
    if sorted == [] || before(ref, sorted[0]) then [ref] + sorted
    else if ref == sorted[0] then sorted
    else [sorted[0]] + Insert(before, ref, sorted[1..])
  }

  /** normalize_lock_refs: sort and drop duplicates. */
  function Normalize(before: (LockRef, LockRef) -> bool, refs: seq<LockRef>): seq<LockRef> {
    if refs == [] then [] else Insert(before, refs[0], Normalize(before, refs[1..]))
  }

  lemma {:induction false} InsertSorts(before: (LockRef, LockRef) -> bool, ref: LockRef, sorted: seq<LockRef>)
    requires StrictTotal(before) && Ascending(before, sorted)
    ensures Ascending(before, Insert(before, ref, sorted))
    ensures forall r :: r in Insert(before, ref, sorted) <==> r == ref || r in sorted
  {
    if sorted == [] || before(ref, sorted[0]) {
      assert forall r :: r in [ref] + sorted <==> r == ref || r in sorted;
    } else if ref != sorted[0] {
      var tail := Insert(before, ref, sorted[1..]);
      InsertSorts(before, ref, sorted[1..]);
      forall r ensures r in [sorted[0]] + tail <==> r == ref || r in sorted {
        assert r in sorted <==> r == sorted[0] || r in sorted[1..];
      }
      forall r | r in tail ensures before(sorted[0], r) {
        if r != ref {
          var i :| 0 <= i < |sorted[1..]| && sorted[1..][i] == r;
          assert sorted[i + 1] == r;
        }
      }
    }
  }

  /** Normalising keeps exactly the declared references, each once, in the global order. */
  lemma {:induction false} NormalizeSorts(before: (LockRef, LockRef) -> bool, refs: seq<LockRef>)
    requires StrictTotal(before)
    ensures Ascending(before, Normalize(before, refs))
    ensures forall r :: r in Normalize(before, refs) <==> r in refs
  {
    if refs != [] {
      NormalizeSorts(before, refs[1..]);
      InsertSorts(before, refs[0], Normalize(before, refs[1..]));
      assert forall r :: r in refs <==> r == refs[0] || r in refs[1..];
    }
  }

  lemma {:induction false} AscendingIsUnique(before: (LockRef, LockRef) -> bool, a: seq<LockRef>, b: seq<LockRef>)
    requires StrictTotal(before) && Ascending(before, a) && Ascending(before, b)
    requires forall r :: r in a <==> r in b
    ensures a == b
  {
    assert forall i :: 0 <= i < |a| ==> a[i] in b;
    assert forall i :: 0 <= i < |b| ==> b[i] in a;
    if a == [] || b == [] {
    } else {
      assert a[0] in b && b[0] in a;
      assert a[0] == b[0];
      forall r ensures r in a[1..] <==> r in b[1..] {
        assert r in a <==> r == a[0] || r in a[1..];
        assert r in b <==> r == b[0] || r in b[1..];
        assert a[0] !in a[1..] && b[0] !in b[1..];
      }
      AscendingIsUnique(before, a[1..], b[1..]);
    }
  }

  /** The acquisition order depends on the set of references only, not on how a caller lists them. */
  lemma NormalizeIsCanonical(before: (LockRef, LockRef) -> bool, refs: seq<LockRef>, refs': seq<LockRef>)
    requires StrictTotal(before)
    requires forall r :: r in refs <==> r in refs'
    ensures Normalize(before, refs) == Normalize(before, refs')
    ensures Normalize(before, Normalize(before, refs)) == Normalize(before, refs)
  {
    NormalizeSorts(before, refs);
    NormalizeSorts(before, refs');
    AscendingIsUnique(before, Normalize(before, refs), Normalize(before, refs'));
    NormalizeSorts(before, Normalize(before, refs));
    AscendingIsUnique(before, Normalize(before, Normalize(before, refs)), Normalize(before, refs));
  }

  // ---------------------------------------------------------------- contexts

  /** build_lock_context. */
  function ContextOf(refs: seq<LockRef>): LockContext {
    LockContext(
      set r | r in refs && r.key.None? :: r.coll,
      set r | r in refs && r.key.Some? :: (r.coll, r.key.value))
  }

  /** validate_lock_refs_scope. */
  predicate InScope(scope: Scope, refs: seq<LockRef>) {
    forall r :: r in refs ==> r.scope == scope
  }

  /** implicit_write_lock_refs: what a write outside a transaction locks. */
  function ImplicitLocks(scope: Scope, c: Collection, key: CKey): seq<LockRef> {
    if ChainLinked(c) then [LockRef(scope, c, None), LockRef(scope, c, Some(key))]
    else [LockRef(scope, c, Some(key))]
  }
}
