/** What a caller of the scoped store can rely on: when an append or a compare-and-set succeeds, what it then
  * stores, which error it gives otherwise, and what is read back (core_v3/scoped_ledger.py). */
module StoreAnswers {
  import opened Signing
  import opened Models
  import opened ScopedStore
  import opened ScopedInvariant
  import opened TamperEvidence
  import opened Locks
  import opened Sessions

  // ---------------------------------------------------------------- compare-and-set

  lemma MutableRow(s: Store, k: Key)
    requires Valid(s) && k in s.rows
    ensures s.rows[k].payloadHash == Some(PayloadHash(s.rows[k].payload)) && s.rows[k].linked == ChainLinked(k.group.coll)
    ensures s.rows[k].payload.scope == k.group.scope
  {
    assert RowValid(k, s.rows[k]);
  }

  /** A compare-and-set swaps exactly when the collection is mutable, something is expected, the locks allow the
    * write, and the row is there with everything expected of it true; else it changes nothing and says why. */
  lemma SwapsExactly(ses: Session, op: Op, s: Store)
    requires Valid(s) && op.CompareAndSet?
    ensures
      var k := Key(Group(ses.scope, op.coll), op.ckey);
      var (r, d) := Effect(ses, op, s);
      && (r.Swapped? <==>
            && op.coll in {Claims, Evidence, Verifications, Actions, PolicyDecisions, Outcomes}
            && (op.expectedVersion.Some? || op.expectedHash.Some?)
            && (ses.locks.Some? ==> (op.coll, op.ckey) in ses.locks.value.canonicals)
            && k in s.rows
            && (op.expectedVersion.Some? ==> s.rows[k].version == op.expectedVersion.value)
            && (op.expectedHash.Some? ==> op.expectedHash.value == PayloadHash(s.rows[k].payload)))
      && (!r.Swapped? ==> d == EMPTY && r == Failure(
            if op.coll !in {Claims, Evidence, Verifications, Actions, PolicyDecisions, Outcomes} then ValueError
            else if op.expectedVersion.None? && op.expectedHash.None? then ValueError
            else if ses.locks.Some? && (op.coll, op.ckey) !in ses.locks.value.canonicals then UndeclaredLockRef
            else if k !in s.rows then ScopedRecordNotFound
            else VersionConflict))
  {
    hide Valid;
    var k := Key(Group(ses.scope, op.coll), op.ckey);
    if k in s.rows { MutableRow(s, k); }
  }

  /** A swap replaces the one row: the new payload, its hashes and the next version; number and record id stay. */
  lemma SwapStores(ses: Session, op: Op, s: Store)
    requires Valid(s) && op.CompareAndSet? && Effect(ses, op, s).0.Swapped?
    ensures
      var k := Key(Group(ses.scope, op.coll), op.ckey);
      var (r, d) := Effect(ses, op, s);
      && k in s.rows && r.previous == s.rows[k]
      && Overlay(s, d).rows == s.rows[k := r.row] && Overlay(s, d).heads == s.heads
      && r.row.payload.record == op.record && r.row.payload.scope == ses.scope
      && r.row.version == r.previous.version + 1
      && r.row.sequence == r.previous.sequence && r.row.recordId == r.previous.recordId
      && r.row.payloadHash == Some(PayloadHash(r.row.payload)) && r.row.chainPrev.None? && !r.row.linked
      && r.row.chainHash == ChainHash(None, op.coll, r.row.payload)
  {
    hide Valid;
    var k := Key(Group(ses.scope, op.coll), op.ckey);
    MutableRow(s, k);
    CasKeepsValid(ses, op, s);
    var (r, d) := Effect(ses, op, s);
    assert GroupValid(s, k.group) && k in GroupRows(s, k.group) by { GroupIsValid(s, k.group); }
    assert StandaloneOk(op.coll, s.rows[k]);
  }

  /** Reading a row and swapping it under the hash or the version just read succeeds; the new record is read back
    * with the next version, and whoever still expects the earlier version, or the earlier hash of a record that
    * has changed, is refused. */
  lemma GuardedSwap(ses: Session, op: Op, late: Op, s: Store)
    requires Valid(s) && op.CompareAndSet? && late.CompareAndSet?
    requires late.coll == op.coll && late.ckey == op.ckey && CasAllowed(op.coll)
    requires ses.locks.Some? ==> (op.coll, op.ckey) in ses.locks.value.canonicals
    requires Effect(ses, Get(op.coll, op.ckey), s).0.Found?
    requires
      var row := Effect(ses, Get(op.coll, op.ckey), s).0.row;
      && (op.expectedVersion.Some? || op.expectedHash.Some?)
      && (op.expectedVersion.Some? ==> op.expectedVersion.value == row.version)
      && (op.expectedHash.Some? ==> op.expectedHash == row.payloadHash)
    ensures
      var row := Effect(ses, Get(op.coll, op.ckey), s).0.row;
      var (r, d) := Effect(ses, op, s);
      var s' := Overlay(s, d);
      && r.Swapped? && r.previous == row && r.row.payload.record == op.record && r.row.version == row.version + 1
      && Effect(ses, Get(op.coll, op.ckey), s').0 == Found(r.row)
      && (late.expectedVersion == Some(row.version) ==> Effect(ses, late, s').0 == Failure(VersionConflict))
      && (late.expectedHash == row.payloadHash && op.record != row.payload.record ==>
            Effect(ses, late, s').0 == Failure(VersionConflict))
  {
    hide Valid, CasEffect;
    var k := Key(Group(ses.scope, op.coll), op.ckey);
    assert k in s.rows && Effect(ses, Get(op.coll, op.ckey), s).0.row == s.rows[k];
    MutableRow(s, k);
    SwapsExactly(ses, op, s);
    SwapStores(ses, op, s);
    EffectKeepsValid(ses, op, s);
    SwapsExactly(ses, late, Overlay(s, Effect(ses, op, s).1));
  }

  // ---------------------------------------------------------------- append

  /** The last row of a group, if any, and how many there are. */
  ghost predicate IsLast(s: Store, g: Group, row: Row) {
    exists k :: k in s.rows && k.group == g && s.rows[k] == row && forall j :: j in s.rows && j.group == g ==> s.rows[j].sequence <= row.sequence
  }

  /** An append is refused without its locks; finds the record when the same one is stored under the key; is a
    * duplicate when another one is; fails without an identifier; and otherwise inserts a row. */
  lemma AppendsExactly(ses: Session, c: Collection, key: CKey, record: Record, s: Store)
    requires Valid(s)
    ensures
      var k := Key(Group(ses.scope, c), key);
      var (r, d) := Effect(ses, Append(c, key, record), s);
      var allowed := ses.locks.Some? ==> (c, key) in ses.locks.value.canonicals && (ChainLinked(c) ==> c in ses.locks.value.chains);
      && (r.Stored? && r.created <==> allowed && k !in s.rows && ExtractRecordId(c, record).Some?)
      && (r.Stored? && !r.created <==> allowed && k in s.rows && s.rows[k].payload.record == record)
      && (r.Stored? && !r.created ==> r.row == s.rows[k] && d == EMPTY)
      && (!r.Stored? ==> d.rows == map[] && r == Failure(
            if !allowed then UndeclaredLockRef else if k in s.rows then DuplicateCanonicalKey else ValueError))
  {
    hide Valid, NextSequence, ChainPrev, ExtractRecordId, BuildRow;
    var k := Key(Group(ses.scope, c), key);
    if k in s.rows { MutableRow(s, k); }
  }

  /** A created row: version 1, numbered and, in a chain, linked after the rows of its group, under its record's
    * identifier; nothing else changes, and it is what is read under the key from then on. */
  lemma CreatedRow(ses: Session, c: Collection, key: CKey, record: Record, s: Store)
    requires Valid(s) && Effect(ses, Append(c, key, record), s).0.Stored? && Effect(ses, Append(c, key, record), s).0.created
    ensures
      var g := Group(ses.scope, c);
      var (r, d) := Effect(ses, Append(c, key, record), s);
      var s' := Overlay(s, d);
      && s'.rows == s.rows[Key(g, key) := r.row]
      && (forall other :: other != g ==> HeadOf(s', other) == HeadOf(s, other))
      && (!ChainLinked(c) ==> s'.heads == s.heads)
      && r.row.payload.record == record && r.row.payload.scope == ses.scope
      && Some(r.row.recordId) == ExtractRecordId(c, record)
      && r.row.version == 1 && r.row.linked == ChainLinked(c)
      && r.row.sequence == |Records(GroupRows(s, g))| + 1
      && r.row.payloadHash == Some(PayloadHash(r.row.payload))
      && r.row.chainHash == ChainHash(r.row.chainPrev, c, r.row.payload)
      && (if ChainLinked(c) && r.row.sequence > 1
          then exists before :: IsLast(s, g, before) && r.row.chainPrev == Some(before.chainHash)
          else r.row.chainPrev.None?)
      && (ChainLinked(c) ==> g in s'.heads && s'.heads[g] == Head(r.row.sequence, Some(r.row.chainHash)))
      && Effect(ses, Get(c, key), s').0 == Found(r.row)
  {
    hide Valid, ExtractRecordId, NextSequence, Records, AppendEffect, ChainPrev, BuildRow, IsLast, GroupRows, HeadOf;
    var g := Group(ses.scope, c);
    var k, row := Key(g, key), Effect(ses, Append(c, key, record), s).0.row;
    CreatedIsBuilt(ses, c, key, record, s);
    BuiltFields(c, Payload(record, ses.scope), row.recordId, ChainPrev(s, g), NextSequence(s, g));
    NextLink(s, g);
    OneMoreRow(s, k, row, Effect(ses, Append(c, key, record), s).1.heads);
  }

  lemma CreatedIsBuilt(ses: Session, c: Collection, key: CKey, record: Record, s: Store)
    requires Effect(ses, Append(c, key, record), s).0.Stored? && Effect(ses, Append(c, key, record), s).0.created
    ensures
      var g := Group(ses.scope, c);
      var (r, d) := Effect(ses, Append(c, key, record), s);
      && Some(r.row.recordId) == ExtractRecordId(c, record)
      && r.row == BuildRow(c, Payload(record, ses.scope), r.row.recordId, ChainPrev(s, g), NextSequence(s, g))
      && d == Store(map[Key(g, key) := r.row],
                    if ChainLinked(c) then map[g := Head(r.row.sequence, Some(r.row.chainHash))] else map[])
  {
    hide ExtractRecordId, NextSequence, ChainPrev;
    assert Effect(ses, Append(c, key, record), s) == AppendEffect(ses, c, key, record, s);
  }

  lemma BuiltFields(c: Collection, payload: Payload, id: RecordId, prev: Option<ChainHash>, sequence: int)
    ensures
      var row := BuildRow(c, payload, id, prev, sequence);
      && row.payload == payload && row.recordId == id && row.version == 1 && row.linked == ChainLinked(c)
      && row.sequence == sequence && row.payloadHash == Some(PayloadHash(payload))
      && row.chainPrev == (if ChainLinked(c) then prev else None) && row.chainHash == ChainHash(row.chainPrev, c, payload)
  {
  }

  /** The next number and link of a valid group. */
  lemma NextLink(s: Store, g: Group)
    requires Valid(s)
    ensures NextSequence(s, g) == |Records(GroupRows(s, g))| + 1
    ensures ChainLinked(g.coll) ==>
      if NextSequence(s, g) > 1 then exists before :: IsLast(s, g, before) && ChainPrev(s, g) == Some(before.chainHash)
      else ChainPrev(s, g).None?
  {
    hide Valid, NextSequence, Records;
    var m, ks := GroupRows(s, g), Order(s, g);
    RecordsOfListing(m, ks);
    if ChainLinked(g.coll) && |ks| > 0 { LastOfChain(s, g, ks); }
  }

  lemma OneMoreRow(s: Store, k: Key, row: Row, heads: map<Group, Head>)
    requires forall g :: g in heads ==> g == k.group
    ensures
      var s' := Overlay(s, Store(map[k := row], heads));
      && s'.rows == s.rows[k := row]
      && (forall g :: g != k.group ==> HeadOf(s', g) == HeadOf(s, g))
      && (heads == map[] ==> s'.heads == s.heads)
      && (k.group in heads ==> k.group in s'.heads && s'.heads[k.group] == heads[k.group])
  {
  }

  lemma LastOfChain(s: Store, g: Group, ks: seq<Key>)
    requires ChainLinked(g.coll) && IsChain(g.coll, GroupRows(s, g), ks) && HeadOk(HeadOf(s, g), GroupRows(s, g), ks) && |ks| > 0
    ensures
      var m := GroupRows(s, g);
      ks[|ks| - 1] in m && IsLast(s, g, m[ks[|ks| - 1]]) && ChainPrev(s, g) == Some(m[ks[|ks| - 1]].chainHash)
  {
    var m, last := GroupRows(s, g), ks[|ks| - 1];
    assert last in m;
    forall j | j in s.rows && j.group == g ensures s.rows[j].sequence <= m[last].sequence {
      assert j in m && j in ks;
      var i :| 0 <= i < |ks| && ks[i] == j;
      assert m[ks[i]].sequence == i + 1 && m[ks[|ks| - 1]].sequence == |ks|;
    }
    assert last in s.rows && last.group == g && s.rows[last] == m[last];
  }

  /** The identifier under which each protocol record is stored in its own collection. */
  lemma OwnRecordIds(e: DecisionEnvelope, a: AuthorityDecision, q: ExecutionRequest, g: GatewayDecision, v: GatewayEvent,
                     r: ShadowReceipt, o: ShadowOutcome, p: ReplayReport, h: HistoricalComparison)
    ensures ExtractRecordId(DecisionEnvelopes, EnvelopeRecord(e)) == Some(PlainId(e.envelopeId))
    ensures ExtractRecordId(AuthorityDecisions, AuthorityRecord(a)) == Some(PlainId(a.authorityDecisionId))
    ensures ExtractRecordId(ExecutionRequests, RequestRecord(q)) == Some(PlainId(q.planId))
    ensures ExtractRecordId(GatewayDecisions, GatewayRecord(g)) == Some(PlainId(g.gatewayDecisionId))
    ensures ExtractRecordId(GatewayDecisionEvents, EventRecord(v)) == Some(EventUuid(v.planId, v.kind))
    ensures ExtractRecordId(ShadowExecutionReceipts, ReceiptRecord(r)) == Some(PlainId(r.receiptId))
    ensures ExtractRecordId(ShadowOutcomes, OutcomeRecord(o)) == Some(PlainId(o.fields.outcomeId))
    ensures ExtractRecordId(ReplayReports, ReplayRecord(p)) == Some(PlainId(p.fields.replayId))
    ensures ExtractRecordId(HistoricalComparisons, ComparisonRecord(h)) == Some(PlainId(h.fields.comparisonId))
  {
  }

  // ---------------------------------------------------------------- reads

  /** A read of a key finds its row or nothing, and writes nothing. */
  lemma GetsExactly(ses: Session, c: Collection, key: CKey, s: Store)
    ensures
      var k := Key(Group(ses.scope, c), key);
      Effect(ses, Get(c, key), s) == (if k in s.rows then Found(s.rows[k]) else Failure(ScopedRecordNotFound), Store(map[], map[]))
  {
  }

  /** A listing takes 1 to 1000 rows from a place in the group on: those numbered offset + 1, offset + 2, ..., in that order,
    * as many as there are; it writes nothing. */
  lemma ListsExactly(ses: Session, c: Collection, limit: int, offset: int, s: Store)
    requires Valid(s)
    ensures
      var g := Group(ses.scope, c);
      var (r, d) := Effect(ses, List(c, limit, offset), s);
      && d == Store(map[], map[])
      && (offset < 0 || limit < 1 || limit > 1000 ==> r == Failure(ValueError))
      && (offset >= 0 && 1 <= limit <= 1000 ==>
            && r.Listed?
            && |r.rows| == (var left := |Records(GroupRows(s, g))| - offset; if left < 0 then 0 else if left < limit then left else limit)
            && forall i :: 0 <= i < |r.rows| ==> r.rows[i].sequence == offset + i + 1 && IsRowOf(s, g, r.rows[i]))
  {
    hide Valid, SortedKeys, Records, IsRowOf;
    var g := Group(ses.scope, c);
    var ks, m := Order(s, g), GroupRows(s, g);
    RecordsOfListing(m, ks);
    forall i | 0 <= i < |ks| ensures IsRowOf(s, g, Listing(m)[i]) && Listing(m)[i].sequence == i + 1 {
      assert ks[i] in m;
      RowOfGroup(s, g, ks[i]);
    }
    assert |Listing(m)| == |ks|;
    hide Listing;
  }

  ghost predicate IsRowOf(s: Store, g: Group, row: Row) {
    exists k :: k in s.rows && k.group == g && s.rows[k] == row
  }

  lemma RowOfGroup(s: Store, g: Group, k: Key)
    requires k in GroupRows(s, g)
    ensures IsRowOf(s, g, GroupRows(s, g)[k])
  {
    assert k in s.rows && k.group == g && s.rows[k] == GroupRows(s, g)[k];
  }

  // ---------------------------------------------------------------- locks of a transaction

  /** Inside a transaction an append is refused for its locks exactly if the CANONICAL lock of its key or, for a chain, the
    * CHAIN lock of its collection was not declared. */
  lemma WritesNeedLocks(t: Txn, c: Collection, key: CKey, record: Record, s: Store)
    requires Valid(s)
    ensures Effect(SessionOf(t), Append(c, key, record), s).0 == Failure(UndeclaredLockRef) <==>
      || (forall ref :: ref in t.locks ==> !(ref.coll == c && ref.key == Some(key)))
      || (ChainLinked(c) && forall ref :: ref in t.locks ==> !(ref.coll == c && ref.key == None))
  {
    hide Valid, Effect, ContextOf;
    AppendsExactly(SessionOf(t), c, key, record, s);
    ContextExactly(t.locks, c, key);
  }

  lemma ContextExactly(refs: seq<LockRef>, c: Collection, key: CKey)
    ensures c in ContextOf(refs).chains <==> exists ref :: ref in refs && ref.coll == c && ref.key == None
    ensures (c, key) in ContextOf(refs).canonicals <==> exists ref :: ref in refs && ref.coll == c && ref.key == Some(key)
  {
  }

  /** A transaction that declares a lock of another scope is refused before its body runs. */
  lemma ForeignLocksRefused(t: Txn, s: Store, ref: LockRef)
    requires ref in t.locks && ref.scope != t.scope
    ensures RunTransaction(t, s) == (Aborted(ValueError), s)
  {
    hide Steps;
  }
}
