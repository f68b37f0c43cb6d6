/** The scoped ledger as a value: rows by key, a stored head per chain, and the effect of one session
  * operation (core_v3/scoped_ledger.py).  The engine classes are proved against these functions.
  *
  * An operation's effect is a result and a delta: the rows and heads it writes.  A transaction buffers
  * deltas and a commit overlays them on the committed store.
  */
module ScopedStore {
  import opened Signing
  import opened Models

  /** Rows of one group share a sequence counter; in a chain-linked collection they share a hash chain. */
  datatype Group = Group(scope: Scope, coll: Collection)
  datatype Key = Key(group: Group, ckey: CKey)

  /** The "_chain" field inside a stored payload; an absent entry is None. */
  datatype ChainMeta = ChainMeta(
    prev: Option<ChainHash>, hash: Option<ChainHash>, sequence: Option<int>, linked: Option<bool>)

  datatype Row = Row(
    recordId: RecordId, payload: Payload, meta: ChainMeta, payloadHash: Option<PayloadHash>,
    chainPrev: Option<ChainHash>, chainHash: ChainHash, sequence: int, version: int, linked: bool)

  datatype Head = Head(last: int, hash: Option<ChainHash>)

  datatype Store = Store(rows: map<Key, Row>, heads: map<Group, Head>)

  const EMPTY := Store(map[], map[])
  const MAX_LIST_LIMIT := 1000

  function Overlay(s: Store, delta: Store): Store {
    Store(s.rows + delta.rows, s.heads + delta.heads)
  }

  function GroupRows(s: Store, g: Group): map<Key, Row> {
    map k | k in s.rows && k.group == g :: s.rows[k]
  }

  function HeadOf(s: Store, g: Group): Option<Head> {
    if g in s.heads then Some(s.heads[g]) else None
  }

  // ---------------------------------------------------------------- integrity of one group

  predicate PayloadHashOk(row: Row) {
    row.payloadHash.Some? ==> row.payloadHash.value == PayloadHash(row.payload)
  }

  /** _validate_chain_metadata. */
  predicate MetaOk(c: Collection, row: Row) {
    && row.meta == ChainMeta(row.chainPrev, Some(row.chainHash), Some(row.sequence), Some(row.linked))
    && (ChainLinked(c) ==> row.linked)
    && PayloadHashOk(row)
  }

  /** _validate_standalone_row. */
  predicate StandaloneOk(c: Collection, row: Row) {
    && row.meta == ChainMeta(None, Some(row.chainHash), Some(row.sequence), Some(false))
    && row.chainPrev.None?
    && row.chainHash == ChainHash(None, c, row.payload)
    && PayloadHashOk(row)
  }

  /** The keys ks list the rows m, and the sequence numbers run 1, 2, ... along the list. */
  ghost predicate IsListing(m: map<Key, Row>, ks: seq<Key>) {
    && (forall k :: k in ks <==> k in m)
    && (forall i :: 0 <= i < |ks| ==> m[ks[i]].sequence == i + 1)
  }

  function HashBefore(m: map<Key, Row>, ks: seq<Key>, i: nat): Option<ChainHash>
    requires i <= |ks| && forall k :: k in ks ==> k in m
  {
    if i == 0 then None else Some(m[ks[i - 1]].chainHash)
  }

  /** Row i of the listing extends the chain of the rows before it. */
  predicate StepOk(c: Collection, m: map<Key, Row>, ks: seq<Key>, i: nat)
    requires i < |ks| && forall k :: k in ks ==> k in m
  {
    var row := m[ks[i]];
    && row.chainPrev == HashBefore(m, ks, i)
    && row.chainHash == ChainHash(row.chainPrev, c, row.payload)
  }

  predicate LinkOk(c: Collection, m: map<Key, Row>, ks: seq<Key>, i: nat)
    requires i < |ks| && forall k :: k in ks ==> k in m
  {
    MetaOk(c, m[ks[i]]) && StepOk(c, m, ks, i)
  }

  ghost predicate IsChain(c: Collection, m: map<Key, Row>, ks: seq<Key>) {
    && IsListing(m, ks)
    && (forall i :: 0 <= i < |ks| ==> LinkOk(c, m, ks, i))
  }

  /** The stored head is the end of the chain; a chain without rows may have an empty head or none. */
  ghost predicate HeadOk(head: Option<Head>, m: map<Key, Row>, ks: seq<Key>)
    requires forall k :: k in ks ==> k in m
  {
    if |ks| == 0 then head.None? || head.value == Head(0, None)
    else head == Some(Head(|ks|, HashBefore(m, ks, |ks|)))
  }

  ghost predicate ChainEndsIn(c: Collection, m: map<Key, Row>, head: Option<Head>) {
    exists ks :: IsChain(c, m, ks) && HeadOk(head, m, ks)
  }

  ghost predicate ListedStandalone(c: Collection, m: map<Key, Row>) {
    && (exists ks :: IsListing(m, ks))
    && (forall k :: k in m ==> StandaloneOk(c, m[k]))
  }

  ghost predicate GroupValid(s: Store, g: Group) {
    if ChainLinked(g.coll) then ChainEndsIn(g.coll, GroupRows(s, g), HeadOf(s, g))
    else ListedStandalone(g.coll, GroupRows(s, g))
  }

  predicate RowValid(k: Key, row: Row) {
    && row.payload.scope == k.group.scope
    && row.payloadHash == Some(PayloadHash(row.payload))
    && row.linked == ChainLinked(k.group.coll)
    && row.version >= 1
  }

  /** The invariant of every store that the operations below can reach. */
  ghost predicate Valid(s: Store) {
    && (forall g :: GroupValid(s, g))
    && (forall k :: k in s.rows ==> RowValid(k, s.rows[k]))
  }

  // ---------------------------------------------------------------- listing order

  ghost predicate IsLeast(m: map<Key, Row>, k: Key) {
    k in m && forall j :: j in m ==> m[k].sequence <= m[j].sequence
  }

  lemma {:induction false} LeastExists(m: map<Key, Row>)
    requires m != map[]
    ensures exists k :: IsLeast(m, k)
    decreases |m|
  {
    var x :| x in m;
    var rest := m - {x};
    if rest == map[] {
      assert forall j :: j in m && j != x ==> j in rest;
      assert IsLeast(m, x);
    } else {
      LeastExists(rest);
      var y :| IsLeast(rest, y);
      var z := if m[x].sequence <= m[y].sequence then x else y;
      forall j | j in m ensures m[z].sequence <= m[j].sequence {
        if j != x { assert j in rest; }
      }
      assert IsLeast(m, z);
    }
  }

  /** The rows in ascending sequence; the record id that breaks ties is never consulted in a valid store. */
  ghost function SortedKeys(m: map<Key, Row>): seq<Key>
    decreases |m|
  {
    if m == map[] then []
    else
      LeastExists(m);
      var k :| IsLeast(m, k);
      [k] + SortedKeys(m - {k})
  }

  ghost predicate ListsFrom(m: map<Key, Row>, ks: seq<Key>, start: int) {
    && (forall k :: k in ks <==> k in m)
    && (forall i :: 0 <= i < |ks| ==> m[ks[i]].sequence == start + i)
  }

  lemma {:induction false} SortedKeysFrom(m: map<Key, Row>, ks: seq<Key>, start: int)
    requires ListsFrom(m, ks, start)
    ensures SortedKeys(m) == ks
    decreases |ks|
  {
    if ks == [] {
      assert forall k :: k in m ==> k in ks;
    } else {
      assert ks[0] in m;
      LeastExists(m);
      forall k | IsLeast(m, k) ensures k == ks[0] {
        var i :| 0 <= i < |ks| && ks[i] == k;
        assert m[ks[0]].sequence == start + 0;
      }
      var rest := m - {ks[0]};
      forall k ensures k in ks[1..] <==> k in rest {
        if k in ks[1..] {
          var i :| 1 <= i < |ks| && ks[i] == k;
          assert m[ks[i]].sequence == start + i && m[ks[0]].sequence == start;
        }
      }
      forall i | 0 <= i < |ks[1..]| ensures rest[ks[1..][i]].sequence == start + 1 + i {
        assert ks[1..][i] == ks[i + 1];
      }
      SortedKeysFrom(rest, ks[1..], start + 1);
      assert [ks[0]] + ks[1..] == ks;
    }
  }

  /** A listing by sequence numbers is unique: it is what sorting the rows returns. */
  lemma ListingIsSorted(m: map<Key, Row>, ks: seq<Key>)
    requires IsListing(m, ks)
    ensures SortedKeys(m) == ks
  {
    SortedKeysFrom(m, ks, 1);
  }

  lemma {:induction false} SortedKeysMembers(m: map<Key, Row>)
    ensures forall k :: k in SortedKeys(m) <==> k in m
    decreases |m|
  {
    if m != map[] {
      LeastExists(m);
      var k := SortedKeys(m)[0];
      var rest := m - {k};
      assert SortedKeys(m) == [k] + SortedKeys(rest) && k in m;
      SortedKeysMembers(rest);
      forall j ensures j in SortedKeys(m) <==> j in m {
        assert j in SortedKeys(m) <==> j == k || j in SortedKeys(rest);
      }
    }
  }

  /** list_scoped: the rows of the group in insertion order. */
  ghost function Listing(m: map<Key, Row>): seq<Row> {
    SortedKeysMembers(m);
    var ks := SortedKeys(m);
    seq(|ks|, i requires 0 <= i < |ks| => m[ks[i]])
  }

  function Page<T>(rows: seq<T>, limit: nat, offset: nat): seq<T> {
    if offset >= |rows| then []
    else if offset + limit >= |rows| then rows[offset..]
    else rows[offset..offset + limit]
  }

  // ---------------------------------------------------------------- operations

  datatype Error =
    | ValueError | UndeclaredLockRef | DuplicateCanonicalKey | ScopedRecordNotFound | VersionConflict
    | TransactionUnavailable | LedgerIntegrityError | IntegrityError | KeyError | StepLimit

  datatype LockContext = LockContext(chains: set<Collection>, canonicals: set<(Collection, CKey)>)

  /** The scope of a session and, inside a transaction, the locks it declared. */
  datatype Session = Session(scope: Scope, locks: Option<LockContext>)

  datatype Op =
    | Get(coll: Collection, ckey: CKey)
    | List(coll: Collection, limit: int, offset: int)
    | Append(coll: Collection, ckey: CKey, record: Record)
    | CompareAndSet(coll: Collection, ckey: CKey, record: Record,
                    expectedVersion: Option<int>, expectedHash: Option<PayloadHash>)
    | VerifyScope(wanted: set<Collection>)

  datatype Result =
    | Found(row: Row)
    | Listed(rows: seq<Row>)
    | Stored(row: Row, created: bool)
    | Swapped(row: Row, previous: Row)
    | Heads(heads: map<Collection, ChainHash>)
    | Failure(error: Error)

  /** require_write_locks. */
  predicate WriteAllowed(locks: Option<LockContext>, c: Collection, key: CKey) {
    locks.Some? ==>
      && (ChainLinked(c) ==> c in locks.value.chains)
      && (c, key) in locks.value.canonicals
  }

  /** _build_row. */
  function BuildRow(c: Collection, payload: Payload, id: RecordId, prev: Option<ChainHash>, sequence: int): Row {
    var linked := ChainLinked(c);
    var chainPrev := if linked then prev else None;
    var hash := ChainHash(chainPrev, c, payload);
    Row(id, payload, ChainMeta(chainPrev, Some(hash), Some(sequence), Some(linked)),
        Some(PayloadHash(payload)), chainPrev, hash, sequence, 1, linked)
  }

  /** The sequence number after the last: the head's for a chain, the largest row's otherwise. */
  ghost function NextSequence(s: Store, g: Group): int {
    if ChainLinked(g.coll) then (if g in s.heads then s.heads[g].last else 0) + 1
    else
      var ks := SortedKeys(GroupRows(s, g));
      SortedKeysMembers(GroupRows(s, g));
      (if ks == [] then 0 else GroupRows(s, g)[ks[|ks| - 1]].sequence) + 1
  }

  function ChainPrev(s: Store, g: Group): Option<ChainHash> {
    if ChainLinked(g.coll) && g in s.heads then s.heads[g].hash else None
  }

  ghost function AppendEffect(ses: Session, c: Collection, key: CKey, record: Record, s: Store): (Result, Store) {
    var g := Group(ses.scope, c);
    var k := Key(g, key);
    var payload := Payload(record, ses.scope);
    if !WriteAllowed(ses.locks, c, key) then (Failure(UndeclaredLockRef), EMPTY)
    else if k in s.rows then
      if s.rows[k].payloadHash == Some(PayloadHash(payload)) then (Stored(s.rows[k], false), EMPTY)
      else (Failure(DuplicateCanonicalKey), EMPTY)
    else
      match ExtractRecordId(c, record)
      case None =>
        // The head row is inserted before the record id is looked up.
        (Failure(ValueError),
         Store(map[], if ChainLinked(c) && g !in s.heads then map[g := Head(0, None)] else map[]))
      case Some(id) =>
        var row := BuildRow(c, payload, id, ChainPrev(s, g), NextSequence(s, g));
        (Stored(row, true),
         Store(map[k := row], if ChainLinked(c) then map[g := Head(row.sequence, Some(row.chainHash))] else map[]))
  }

  function SwapRow(c: Collection, payload: Payload, old_: Row): Row {
    var hash := ChainHash(None, c, payload);
    old_.(payload := payload, payloadHash := Some(PayloadHash(payload)), chainHash := hash,
          meta := ChainMeta(None, Some(hash), Some(old_.sequence), Some(false)), version := old_.version + 1)
  }

  function CasEffect(ses: Session, op: Op, s: Store): (Result, Store)
    requires op.CompareAndSet?
  {
    var k := Key(Group(ses.scope, op.coll), op.ckey);
    if !CasAllowed(op.coll) || (op.expectedVersion.None? && op.expectedHash.None?) then (Failure(ValueError), EMPTY)
    else if !WriteAllowed(ses.locks, op.coll, op.ckey) then (Failure(UndeclaredLockRef), EMPTY)
    else if k !in s.rows then (Failure(ScopedRecordNotFound), EMPTY)
    else if s.rows[k].linked then (Failure(TransactionUnavailable), EMPTY)
    else if op.expectedVersion.Some? && s.rows[k].version != op.expectedVersion.value then
      (Failure(VersionConflict), EMPTY)
    else if op.expectedHash.Some? && s.rows[k].payloadHash != op.expectedHash then (Failure(VersionConflict), EMPTY)
    else
      var row := SwapRow(op.coll, Payload(op.record, ses.scope), s.rows[k]);
      (Swapped(row, s.rows[k]), Store(map[k := row], map[]))
  }

  /** What a verification looks at: everything, or one tenant, project or collection only. */
  datatype Filter = Filter(tenant: Option<Id>, project: Option<Id>, coll: Option<Collection>)

  predicate Selects(f: Filter, g: Group) {
    && (f.tenant.Some? ==> g.scope.tenant == f.tenant.value)
    && (f.project.Some? ==> g.scope.project == f.project.value)
    && (f.coll.Some? ==> g.coll == f.coll.value)
  }

  /** The selected chains, heads and standalone rows all check out. */
  ghost predicate Intact(s: Store, f: Filter) {
    && (forall g :: Selects(f, g) && ChainLinked(g.coll) ==> ChainEndsIn(g.coll, GroupRows(s, g), HeadOf(s, g)))
    && (forall k :: k in s.rows && Selects(f, k.group) && !s.rows[k].linked ==> StandaloneOk(k.group.coll, s.rows[k]))
  }

  function ScopeFilter(scope: Scope): Filter {
    Filter(Some(scope.tenant), Some(scope.project), None)
  }

  /** The "heads" of a verification result that the caller looks up: the head hash of each wanted chain
    * that has rows. */
  ghost function VerifiedHeads(s: Store, scope: Scope, wanted: set<Collection>): map<Collection, ChainHash> {
    map c | c in wanted && ChainLinked(c) && Group(scope, c) in s.heads && s.heads[Group(scope, c)].hash.Some?
      :: s.heads[Group(scope, c)].hash.value
  }

  /** What one session operation returns and writes on store s. */
  ghost function Effect(ses: Session, op: Op, s: Store): (Result, Store) {
    match op
    case Get(c, key) =>
      var k := Key(Group(ses.scope, c), key);
      (if k in s.rows then Found(s.rows[k]) else Failure(ScopedRecordNotFound), EMPTY)
    case List(c, limit, offset) =>
      (if offset < 0 || limit < 1 || limit > MAX_LIST_LIMIT then Failure(ValueError)
       else Listed(Page(Listing(GroupRows(s, Group(ses.scope, c))), limit, offset)), EMPTY)
    case Append(c, key, record) => AppendEffect(ses, c, key, record, s)
    case CompareAndSet(_, _, _, _, _) => CasEffect(ses, op, s)
    case VerifyScope(wanted) =>
      (if Intact(s, ScopeFilter(ses.scope)) then Heads(VerifiedHeads(s, ses.scope, wanted))
       else Failure(LedgerIntegrityError), EMPTY)
  }
}
