/** Migration of legacy rows into the scoped ledger (migrate_legacy_scoped_json). */
module LegacyMigration {
  import opened Signing
  import opened Models
  import opened ScopedStore
  import opened ScopedInvariant
  import opened TamperEvidence
  import opened StoreLaws
  import opened ScopedEngine

  /** A legacy row: its record and its "scope" entry as found, with anything besides the two ids as text. */
  datatype LegacyRow = LegacyRow(record: Record, tenant: Option<Id>, project: Option<Id>, extra: Json)

  const MIGRATABLE := [
    DecisionEnvelopes, AuthorityDecisions, ExecutionRequests, GatewayDecisions, ShadowExecutionReceipts,
    ShadowOutcomes, ReplayReports, HistoricalComparisons]

  function ScopeOf(row: LegacyRow): Scope {
    Scope(if row.tenant.Some? then row.tenant.value else "default", if row.project.Some? then row.project.value else "default")
  }

  /** The scope entry is exactly tenant and project, as the legacy writer stores it. */
  predicate Exact(row: LegacyRow) {
    row.tenant.Some? && row.project.Some? && row.extra == ""
  }

  /** LEGACY_CANONICAL_KEY_FIELDS: the record's canonical key, if the record has the field. */
  function LegacyKey(c: Collection, r: Record): Option<CKey> {
    var byId := (id: Option<RecordId>) => if id.Some? && id.value.PlainId? then Some(Name(id.value.id)) else None;
    match c
    case DecisionEnvelopes => byId(ExtractRecordId(DecisionEnvelopes, r))
    case AuthorityDecisions => byId(ExtractRecordId(AuthorityDecisions, r))
    case ExecutionRequests => byId(ExtractRecordId(ExecutionRequests, r))
    case GatewayDecisions => byId(ExtractRecordId(ExecutionRequests, r))
    case ShadowExecutionReceipts => byId(ExtractRecordId(ExecutionRequests, r))
    case ShadowOutcomes =>
      if r.OutcomeRecord? then Some(Name(r.outcome.fields.shadowReceiptId))
      else if r.EventRecord? then Some(Name(r.event.shadowReceiptId)) else None
    case ReplayReports => if r.ReplayRecord? then Some(ManifestKey(r.report.fields.manifestHash)) else None
    case HistoricalComparisons => if r.ComparisonRecord? then Some(PairKey(r.comparison.fields.comparisonKey)) else None
    case _ => None
  }

  function StoreKey(c: Collection, row: LegacyRow): Option<Key> {
    match LegacyKey(c, row.record)
    case Some(key) => Some(Key(Group(ScopeOf(row), c), key))
    case None => None
  }

  // ---------------------------------------------------------------- one collection as a value

  datatype Progress = Progress(store: Store, inserted: nat, skipped: nat, seen: map<Key, LegacyRow>)
  datatype Migrated = Moved(progress: Progress) | Refused(error: Error)

  /** The row's own hash, scope entry included, is that of the stored payload. */
  predicate Matches(row: LegacyRow, stored: Row) {
    Exact(row) && stored.payloadHash == Some(PayloadHash(Payload(row.record, ScopeOf(row))))
  }

  ghost function MoveRow(c: Collection, row: LegacyRow, p: Progress): Migrated {
    match StoreKey(c, row)
    case None => Refused(KeyError)
    case Some(k) =>
      if k in p.seen then
        if p.seen[k] != row then Refused(DuplicateCanonicalKey) else Moved(p.(skipped := p.skipped + 1))
      else if k in p.store.rows then
        if !Matches(row, p.store.rows[k]) then Refused(DuplicateCanonicalKey)
        else Moved(p.(skipped := p.skipped + 1, seen := p.seen[k := row]))
      else
        var (r, d) := AppendEffect(Session(k.group.scope, None), c, k.ckey, row.record, p.store);
        if r.Stored? then Moved(Progress(Overlay(p.store, d), p.inserted + 1, p.skipped, p.seen[k := row])) else Refused(ValueError)
  }

  /** The first n rows of a collection's list, moved one after another. */
  ghost function MoveRows(c: Collection, rows: seq<LegacyRow>, p: Progress, n: nat): Migrated
    requires n <= |rows|
  {
    if n == 0 then Moved(p)
    else
      match MoveRows(c, rows, p, n - 1)
      case Refused(e) => Refused(e)
      case Moved(q) => MoveRow(c, rows[n - 1], q)
  }

  function Started(s: Store): Progress {
    Progress(s, 0, 0, map[])
  }

  // ---------------------------------------------------------------- what a migration appends

  /** Row i is the first of its key. */
  predicate First(c: Collection, rows: seq<LegacyRow>, i: nat)
    requires i < |rows|
  {
    forall j :: 0 <= j < i ==> StoreKey(c, rows[j]) != StoreKey(c, rows[i])
  }

  /** The records of group g among the first n rows that are first of their key and not yet in s, in order. */
  function NewRecords(c: Collection, rows: seq<LegacyRow>, s: Store, g: Group, n: nat): seq<Payload>
    requires n <= |rows|
  {
    if n == 0 then []
    else
      var k := StoreKey(c, rows[n - 1]);
      NewRecords(c, rows, s, g, n - 1) +
      (if k.Some? && k.value.group == g && k.value !in s.rows && First(c, rows, n - 1)
       then [Payload(rows[n - 1].record, ScopeOf(rows[n - 1]))] else [])
  }

  /** The dictionary of keys seen holds the first row of each key. */
  ghost predicate SeenFirsts(c: Collection, rows: seq<LegacyRow>, seen: map<Key, LegacyRow>, n: nat)
    requires n <= |rows|
  {
    && (forall i :: 0 <= i < n ==> StoreKey(c, rows[i]).Some? && StoreKey(c, rows[i]).value in seen)
    && (forall i :: 0 <= i < n && First(c, rows, i) ==> seen[StoreKey(c, rows[i]).value] == rows[i])
    && (forall k :: k in seen ==> exists i :: 0 <= i < n && First(c, rows, i) && StoreKey(c, rows[i]) == Some(k))
  }

  /** The store keeps its rows and holds the record of every key seen, and nothing else. */
  ghost predicate HoldsSeen(s: Store, p: Progress) {
    && Valid(p.store)
    && (forall k :: k in s.rows ==> k in p.store.rows && p.store.rows[k] == s.rows[k])
    && (forall k :: k in p.store.rows ==> k in s.rows || k in p.seen)
    && (forall k :: k in p.seen ==> k in p.store.rows && p.store.rows[k].payload == Payload(p.seen[k].record, k.group.scope))
  }

  ghost predicate AppendsNew(c: Collection, rows: seq<LegacyRow>, s: Store, n: nat, p: Progress)
    requires n <= |rows|
  {
    forall g :: Records(GroupRows(p.store, g)) == Records(GroupRows(s, g)) + NewRecords(c, rows, s, g, n)
  }

  /** A row is not the first of its key exactly when its key was seen. */
  lemma SeenUnlessFirst(c: Collection, rows: seq<LegacyRow>, seen: map<Key, LegacyRow>, n: nat)
    requires n < |rows| && SeenFirsts(c, rows, seen, n) && StoreKey(c, rows[n]).Some?
    ensures StoreKey(c, rows[n]).value in seen <==> !First(c, rows, n)
  {
    hide StoreKey;
    var k := StoreKey(c, rows[n]).value;
    if k in seen {
      var i :| 0 <= i < n && First(c, rows, i) && StoreKey(c, rows[i]) == Some(k);
    }
  }

  lemma FirstSeen(c: Collection, rows: seq<LegacyRow>, seen: map<Key, LegacyRow>, n: nat)
    requires n < |rows| && SeenFirsts(c, rows, seen, n) && StoreKey(c, rows[n]).Some? && StoreKey(c, rows[n]).value !in seen
    ensures SeenFirsts(c, rows, seen[StoreKey(c, rows[n]).value := rows[n]], n + 1)
  {
    hide StoreKey, First;
    assert First(c, rows, n) by { SeenUnlessFirst(c, rows, seen, n); }
    var k := StoreKey(c, rows[n]).value;
    var seen' := seen[k := rows[n]];
    forall i | 0 <= i < n + 1 ensures StoreKey(c, rows[i]).Some? && StoreKey(c, rows[i]).value in seen' {}
    forall i | 0 <= i < n + 1 && First(c, rows, i) ensures seen'[StoreKey(c, rows[i]).value] == rows[i] {}
    forall j | j in seen' ensures exists i :: 0 <= i < n + 1 && First(c, rows, i) && StoreKey(c, rows[i]) == Some(j) {
      if j == k {
        assert First(c, rows, n) && StoreKey(c, rows[n]) == Some(j);
      } else {
        var i :| 0 <= i < n && First(c, rows, i) && StoreKey(c, rows[i]) == Some(j);
      }
    }
  }

  lemma RepeatSeen(c: Collection, rows: seq<LegacyRow>, seen: map<Key, LegacyRow>, n: nat)
    requires n < |rows| && SeenFirsts(c, rows, seen, n) && StoreKey(c, rows[n]).Some? && StoreKey(c, rows[n]).value in seen
    ensures SeenFirsts(c, rows, seen, n + 1)
  {
    hide StoreKey, First;
    assert !First(c, rows, n) by { SeenUnlessFirst(c, rows, seen, n); }
    forall i | 0 <= i < n + 1 ensures StoreKey(c, rows[i]).Some? && StoreKey(c, rows[i]).value in seen {}
    forall i | 0 <= i < n + 1 && First(c, rows, i) ensures seen[StoreKey(c, rows[i]).value] == rows[i] {}
    forall j | j in seen ensures exists i :: 0 <= i < n + 1 && First(c, rows, i) && StoreKey(c, rows[i]) == Some(j) {
      var i :| 0 <= i < n && First(c, rows, i) && StoreKey(c, rows[i]) == Some(j);
    }
  }

  lemma SeenStep(c: Collection, rows: seq<LegacyRow>, seen: map<Key, LegacyRow>, n: nat)
    requires n < |rows| && SeenFirsts(c, rows, seen, n) && StoreKey(c, rows[n]).Some?
    ensures StoreKey(c, rows[n]).value in seen <==> !First(c, rows, n)
    ensures SeenFirsts(c, rows, if StoreKey(c, rows[n]).value in seen then seen else seen[StoreKey(c, rows[n]).value := rows[n]], n + 1)
  {
    hide SeenFirsts, StoreKey, First;
    SeenUnlessFirst(c, rows, seen, n);
    if StoreKey(c, rows[n]).value in seen {
      RepeatSeen(c, rows, seen, n);
    } else {
      FirstSeen(c, rows, seen, n);
    }
  }

  lemma MatchedPayload(row: LegacyRow, s: Store, k: Key)
    requires Valid(s) && k in s.rows && Matches(row, s.rows[k])
    ensures s.rows[k].payload == Payload(row.record, ScopeOf(row)) && ScopeOf(row) == k.group.scope
  {
    assert RowValid(k, s.rows[k]);
  }

  lemma AppendedRow(ses: Session, c: Collection, key: CKey, record: Record, s: Store)
    requires Valid(s) && ChainLinked(c) && Key(Group(ses.scope, c), key) !in s.rows
    ensures
      var k := Key(Group(ses.scope, c), key);
      var (r, d) := AppendEffect(ses, c, key, record, s);
      r.Stored? ==> r.created && Overlay(s, d).rows == s.rows[k := r.row] && r.row.payload == Payload(record, ses.scope)
  {
    hide Valid, NextSequence, ChainPrev, ExtractRecordId;
  }

  /** Seeing a key whose row is stored, or was just added, keeps the bookkeeping right. */
  lemma HoldsMore(s: Store, p: Progress, q: Progress, k: Key, row: LegacyRow, stored: Row)
    requires HoldsSeen(s, p) && Valid(q.store) && q.seen == p.seen[k := row]
    requires q.store.rows == p.store.rows[k := stored] && (k in p.store.rows ==> p.store.rows[k] == stored)
    requires stored.payload == Payload(row.record, k.group.scope)
    ensures HoldsSeen(s, q)
  {
    hide Valid;
  }

  lemma HoldsStep(c: Collection, row: LegacyRow, s: Store, p: Progress)
    requires HoldsSeen(s, p) && ChainLinked(c) && MoveRow(c, row, p).Moved?
    ensures HoldsSeen(s, MoveRow(c, row, p).progress)
  {
    hide Valid, AppendEffect, LegacyKey, Overlay, Matches;
    var k, q := StoreKey(c, row).value, MoveRow(c, row, p).progress;
    if k !in p.seen && k in p.store.rows {
      MatchedPayload(row, p.store, k);
      assert q.store.rows == p.store.rows[k := p.store.rows[k]];
      HoldsMore(s, p, q, k, row, p.store.rows[k]);
    } else if k !in p.seen {
      var ses := Session(k.group.scope, None);
      AppendedRow(ses, c, k.ckey, row.record, p.store);
      AppendKeepsValid(ses, c, k.ckey, row.record, p.store);
      HoldsMore(s, p, q, k, row, AppendEffect(ses, c, k.ckey, row.record, p.store).0.row);
    }
  }

  /** A row that moves and has a new key is listed last in its group; any other row changes no listing. */
  lemma RecordsStep(c: Collection, row: LegacyRow, s: Store, p: Progress, g: Group)
    requires HoldsSeen(s, p) && ChainLinked(c) && MoveRow(c, row, p).Moved?
    ensures
      var k := StoreKey(c, row).value;
      Records(GroupRows(MoveRow(c, row, p).progress.store, g)) == Records(GroupRows(p.store, g)) +
        (if k.group == g && k !in s.rows && k !in p.seen then [Payload(row.record, ScopeOf(row))] else [])
  {
    hide Valid, AppendEffect, LegacyKey, Overlay, Records;
    var k := StoreKey(c, row).value;
    if k !in p.seen && k !in p.store.rows {
      AppendedRow(Session(k.group.scope, None), c, k.ckey, row.record, p.store);
      AppendIsListedLast(Session(k.group.scope, None), c, k.ckey, row.record, p.store, g);
    }
  }

  lemma AppendsStep(c: Collection, rows: seq<LegacyRow>, s: Store, q: Progress, n: nat)
    requires n < |rows| && ChainLinked(c) && HoldsSeen(s, q) && SeenFirsts(c, rows, q.seen, n) && AppendsNew(c, rows, s, n, q)
    requires MoveRow(c, rows[n], q).Moved?
    ensures AppendsNew(c, rows, s, n + 1, MoveRow(c, rows[n], q).progress)
  {
    hide HoldsSeen, SeenFirsts, AppendsNew, StoreKey, Records, MoveRow, First;
    MoveRowCounts(c, rows[n], q);
    ScopeOfKey(c, rows[n]);
    SeenUnlessFirst(c, rows, q.seen, n);
    var p := MoveRow(c, rows[n], q).progress;
    forall g ensures Records(GroupRows(p.store, g)) == Records(GroupRows(s, g)) + NewRecords(c, rows, s, g, n + 1) {
      RecordsStep(c, rows[n], s, q, g);
      AppendedSoFar(c, rows, s, q, n, g);
    }
    assert AppendsNew(c, rows, s, n + 1, p) by { FromGroups(c, rows, s, p, n + 1); }
  }

  lemma AppendedSoFar(c: Collection, rows: seq<LegacyRow>, s: Store, q: Progress, n: nat, g: Group)
    requires n <= |rows| && AppendsNew(c, rows, s, n, q)
    ensures Records(GroupRows(q.store, g)) == Records(GroupRows(s, g)) + NewRecords(c, rows, s, g, n)
  {
  }

  lemma FromGroups(c: Collection, rows: seq<LegacyRow>, s: Store, p: Progress, n: nat)
    requires n <= |rows| && forall g :: Records(GroupRows(p.store, g)) == Records(GroupRows(s, g)) + NewRecords(c, rows, s, g, n)
    ensures AppendsNew(c, rows, s, n, p)
  {
  }

  lemma NothingMoved(c: Collection, rows: seq<LegacyRow>, start: Progress)
    requires Valid(start.store) && start.seen == map[]
    ensures SeenFirsts(c, rows, start.seen, 0) && HoldsSeen(start.store, start) && AppendsNew(c, rows, start.store, 0, start)
  {
    hide Valid, Records;
  }

  lemma {:induction false} MoveRowsExactly(c: Collection, rows: seq<LegacyRow>, start: Progress, n: nat)
    requires ChainLinked(c) && Valid(start.store) && start.seen == map[] && n <= |rows|
    requires MoveRows(c, rows, start, n).Moved?
    ensures
      var p := MoveRows(c, rows, start, n).progress;
      && SeenFirsts(c, rows, p.seen, n) && HoldsSeen(start.store, p) && AppendsNew(c, rows, start.store, n, p)
      && p.inserted + p.skipped == start.inserted + start.skipped + n
  {
    hide Valid, StoreKey, MoveRow, SeenFirsts, HoldsSeen, AppendsNew;
    if n == 0 {
      NothingMoved(c, rows, start);
    } else {
      MoveRowsExactly(c, rows, start, n - 1);
      var q := MoveRows(c, rows, start, n - 1).progress;
      MoveRowCounts(c, rows[n - 1], q);
      SeenStep(c, rows, q.seen, n - 1);
      HoldsStep(c, rows[n - 1], start.store, q);
      AppendsStep(c, rows, start.store, q, n - 1);
    }
  }

  lemma MoveRowCounts(c: Collection, row: LegacyRow, p: Progress)
    requires MoveRow(c, row, p).Moved?
    ensures StoreKey(c, row).Some?
    ensures
      var q, k := MoveRow(c, row, p).progress, StoreKey(c, row).value;
      && q.inserted + q.skipped == p.inserted + p.skipped + 1
      && q.seen == (if k in p.seen then p.seen else p.seen[k := row])
      && (k in p.seen ==> p.seen[k] == row)
  {
    hide AppendEffect, LegacyKey, Overlay;
  }

  lemma ScopeOfKey(c: Collection, row: LegacyRow)
    requires StoreKey(c, row).Some?
    ensures StoreKey(c, row).value.group == Group(ScopeOf(row), c)
  {
  }

  // ---------------------------------------------------------------- migrating again

  /** A row that can be passed over: it repeats what is seen, or matches what is stored. */
  predicate Repeats(c: Collection, row: LegacyRow, seen: map<Key, LegacyRow>, s: Store) {
    && StoreKey(c, row).Some?
    && var k := StoreKey(c, row).value;
       if k in seen then seen[k] == row else k in s.rows && Matches(row, s.rows[k])
  }

  lemma RepeatMoves(c: Collection, row: LegacyRow, p: Progress)
    requires StoreKey(c, row).Some? && (StoreKey(c, row).value in p.seen || StoreKey(c, row).value in p.store.rows)
    ensures MoveRow(c, row, p).Moved? <==> Repeats(c, row, p.seen, p.store)
    ensures MoveRow(c, row, p).Moved? ==>
      && MoveRow(c, row, p).progress.store == p.store && MoveRow(c, row, p).progress.inserted == p.inserted
      && MoveRow(c, row, p).progress.skipped == p.skipped + 1
  {
    hide AppendEffect, LegacyKey, Overlay;
  }

  ghost predicate FirstsExact(c: Collection, rows: seq<LegacyRow>, n: nat)
    requires n <= |rows|
  {
    forall i :: 0 <= i < n && First(c, rows, i) ==> Exact(rows[i])
  }

  lemma StoredMatches(row: LegacyRow, s: Store, k: Key)
    requires Valid(s) && k in s.rows && s.rows[k].payload == Payload(row.record, k.group.scope) && k.group.scope == ScopeOf(row)
    ensures Matches(row, s.rows[k]) <==> Exact(row)
  {
    assert RowValid(k, s.rows[k]);
  }

  /** Running the rows again over the store they were moved into inserts nothing, as far as it gets, and
    * gets past the first n rows exactly if each first row of a key has an exact scope entry. */
  lemma {:induction false} AgainSoFar(c: Collection, rows: seq<LegacyRow>, done: Progress, again: Progress, n: nat)
    requires ChainLinked(c) && n <= |rows| && Valid(done.store)
    requires SeenFirsts(c, rows, done.seen, |rows|)
    requires forall k :: k in done.seen ==>
      k in done.store.rows && done.store.rows[k].payload == Payload(done.seen[k].record, k.group.scope)
    requires again.store == done.store && again.seen == map[]
    requires forall i :: 0 <= i < |rows| ==> RepeatsFirst(c, rows, done.seen, i)
    ensures MoveRows(c, rows, again, n).Moved? <==> FirstsExact(c, rows, n)
    ensures MoveRows(c, rows, again, n).Moved? ==>
      var p := MoveRows(c, rows, again, n).progress;
      && p.store == done.store && p.inserted == again.inserted && p.skipped == again.skipped + n && SeenFirsts(c, rows, p.seen, n)
  {
    hide Valid, StoreKey, MoveRow, First, Exact, FirstsExact, SeenFirsts, RepeatsFirst;
    FirstsExactStep(c, rows, n);
    if n == 0 {
      NoneSeen(c, rows);
    } else {
      AgainSoFar(c, rows, done, again, n - 1);
      if MoveRows(c, rows, again, n - 1).Moved? {
        AgainStep(c, rows, done, MoveRows(c, rows, again, n - 1).progress, n - 1);
      }
    }
  }

  lemma FirstsExactStep(c: Collection, rows: seq<LegacyRow>, n: nat)
    requires n <= |rows|
    ensures if n == 0 then FirstsExact(c, rows, n)
      else FirstsExact(c, rows, n) <==> FirstsExact(c, rows, n - 1) && (First(c, rows, n - 1) ==> Exact(rows[n - 1]))
  {
    hide First, Exact;
  }

  lemma NoneSeen(c: Collection, rows: seq<LegacyRow>)
    ensures SeenFirsts(c, rows, map[], 0)
  {
  }

  /** Row i is the first of its key or equals the first. */
  ghost predicate RepeatsFirst(c: Collection, rows: seq<LegacyRow>, firsts: map<Key, LegacyRow>, i: nat)
    requires i < |rows|
  {
    StoreKey(c, rows[i]).Some? && StoreKey(c, rows[i]).value in firsts && firsts[StoreKey(c, rows[i]).value] == rows[i]
  }

  lemma AgainStep(c: Collection, rows: seq<LegacyRow>, done: Progress, p: Progress, n: nat)
    requires ChainLinked(c) && n < |rows| && Valid(done.store) && p.store == done.store
    requires SeenFirsts(c, rows, done.seen, |rows|) && SeenFirsts(c, rows, p.seen, n)
    requires forall k :: k in done.seen ==>
      k in done.store.rows && done.store.rows[k].payload == Payload(done.seen[k].record, k.group.scope)
    requires RepeatsFirst(c, rows, done.seen, n)
    ensures MoveRow(c, rows[n], p).Moved? <==> (First(c, rows, n) ==> Exact(rows[n]))
    ensures MoveRow(c, rows[n], p).Moved? ==>
      var q := MoveRow(c, rows[n], p).progress;
      && q.store == done.store && q.inserted == p.inserted && q.skipped == p.skipped + 1 && SeenFirsts(c, rows, q.seen, n + 1)
  {
    hide Valid, MoveRow, LegacyKey, Exact;
    var k := StoreKey(c, rows[n]).value;
    SeenStep(c, rows, p.seen, n);
    RepeatMoves(c, rows[n], p);
    ScopeOfKey(c, rows[n]);
    if MoveRow(c, rows[n], p).Moved? { MoveRowCounts(c, rows[n], p); }
    if First(c, rows, n) {
      StoredMatches(rows[n], done.store, k);
    } else {
      SameFirst(c, rows, done.seen, p.seen, n);
    }
  }

  /** Both dictionaries hold the same first row of a key seen by both. */
  lemma SameFirst(c: Collection, rows: seq<LegacyRow>, all: map<Key, LegacyRow>, seen: map<Key, LegacyRow>, n: nat)
    requires n < |rows| && SeenFirsts(c, rows, all, |rows|) && SeenFirsts(c, rows, seen, n)
    requires StoreKey(c, rows[n]).Some? && StoreKey(c, rows[n]).value in seen
    ensures StoreKey(c, rows[n]).value in all && seen[StoreKey(c, rows[n]).value] == all[StoreKey(c, rows[n]).value]
  {
    hide StoreKey;
    var k := StoreKey(c, rows[n]).value;
    var i :| 0 <= i < n && First(c, rows, i) && StoreKey(c, rows[i]) == Some(k);
  }

  lemma {:induction false} AllRepeatFirsts(c: Collection, rows: seq<LegacyRow>, start: Progress, n: nat, i: nat)
    requires ChainLinked(c) && Valid(start.store) && start.seen == map[] && i < n <= |rows|
    requires MoveRows(c, rows, start, n).Moved?
    ensures RepeatsFirst(c, rows, MoveRows(c, rows, start, n).progress.seen, i)
  {
    hide Valid, StoreKey, MoveRow, First;
    var q := MoveRows(c, rows, start, n - 1).progress;
    MoveRowCounts(c, rows[n - 1], q);
    if i < n - 1 { AllRepeatFirsts(c, rows, start, n - 1, i); }
  }

  // ---------------------------------------------------------------- every collection

  type LegacyBook = map<Collection, seq<LegacyRow>>

  function RowsOf(book: LegacyBook, c: Collection): seq<LegacyRow> {
    if c in book then book[c] else []
  }

  /** The first n of the listed collections, each with a fresh dictionary of keys seen. */
  ghost function MoveCollections(order: seq<Collection>, book: LegacyBook, s: Store, n: nat): Migrated
    requires n <= |order|
  {
    if n == 0 then Moved(Started(s))
    else
      match MoveCollections(order, book, s, n - 1)
      case Refused(e) => Refused(e)
      case Moved(p) =>
        var rows := RowsOf(book, order[n - 1]);
        MoveRows(order[n - 1], rows, p.(seen := map[]), |rows|)
  }

  function RowCount(order: seq<Collection>, book: LegacyBook, n: nat): nat
    requires n <= |order|
  {
    if n == 0 then 0 else RowCount(order, book, n - 1) + |RowsOf(book, order[n - 1])|
  }

  ghost predicate NoRepeats(order: seq<Collection>) {
    forall i, j :: 0 <= i < j < |order| ==> order[i] != order[j]
  }

  /** What group g gains from the first n collections. */
  ghost predicate Gains(order: seq<Collection>, book: LegacyBook, s: Store, s': Store, n: nat, g: Group)
    requires n <= |order|
  {
    Records(GroupRows(s', g)) == Records(GroupRows(s, g)) +
      if g.coll in order[..n] then NewRecords(g.coll, RowsOf(book, g.coll), s, g, |RowsOf(book, g.coll)|) else []
  }

  lemma GainsStep(order: seq<Collection>, book: LegacyBook, s: Store, q: Progress, p: Progress, n: nat, g: Group)
    requires n < |order| && NoRepeats(order) && Gains(order, book, s, q.store, n, g)
    requires AppendsNew(order[n], RowsOf(book, order[n]), q.store, |RowsOf(book, order[n])|, p)
    requires forall k: Key :: k.group.coll == order[n] ==> (k in s.rows <==> k in q.store.rows)
    ensures Gains(order, book, s, p.store, n + 1, g)
  {
    hide Records, NewRecords, RowsOf;
    var c := order[n];
    assert forall d :: d in order[..n + 1] <==> d == c || d in order[..n];
    assert c !in order[..n];
    if g.coll == c {
      SameNewRecords(c, RowsOf(book, c), s, q.store, g, |RowsOf(book, c)|);
    } else {
      OtherNewRecords(c, RowsOf(book, c), q.store, g, |RowsOf(book, c)|);
    }
  }

  /** What a successful migration leaves: a valid store with every old row, in which each group has gained
    * exactly the first occurrences of its new keys in legacy order. */
  lemma {:induction false} MigrationExactly(order: seq<Collection>, book: LegacyBook, s: Store, n: nat)
    requires Valid(s) && n <= |order| && NoRepeats(order) && (forall c :: c in order ==> ChainLinked(c))
    requires MoveCollections(order, book, s, n).Moved?
    ensures
      var p := MoveCollections(order, book, s, n).progress;
      && Valid(p.store)
      && p.inserted + p.skipped == RowCount(order, book, n)
      && (forall k :: k in s.rows ==> k in p.store.rows && p.store.rows[k] == s.rows[k])
      && (forall k :: k in p.store.rows ==> k in s.rows || k.group.coll in order[..n])
      && (forall g :: Gains(order, book, s, p.store, n, g))
  {
    hide Valid, Records, MoveRows, NewRecords, RowsOf, AppendsNew, Gains, SeenFirsts;
    if n == 0 {
      forall g ensures Gains(order, book, s, s, 0, g) { NoGains(order, book, s, g); }
    } else {
      var c := order[n - 1];
      var rows := RowsOf(book, c);
      var q := MoveCollections(order, book, s, n - 1).progress;
      MigrationExactly(order, book, s, n - 1);
      MoveRowsExactly(c, rows, q.(seen := map[]), |rows|);
      var p := MoveCollections(order, book, s, n).progress;
      assert forall d :: d in order[..n] <==> d == c || d in order[..n - 1];
      assert c !in order[..n - 1];
      forall k | k in p.store.rows ensures k in s.rows || k.group.coll in order[..n] {
        if k !in q.store.rows { SeenCollection(c, rows, p.seen, k); }
      }
      forall g ensures Gains(order, book, s, p.store, n, g) {
        GainsStep(order, book, s, q.(seen := map[]), p, n - 1, g);
      }
    }
  }

  lemma NoGains(order: seq<Collection>, book: LegacyBook, s: Store, g: Group)
    ensures Gains(order, book, s, s, 0, g)
  {
    hide Records;
  }

  lemma SeenCollection(c: Collection, rows: seq<LegacyRow>, seen: map<Key, LegacyRow>, k: Key)
    requires SeenFirsts(c, rows, seen, |rows|) && k in seen
    ensures k.group.coll == c
  {
    var i :| 0 <= i < |rows| && First(c, rows, i) && StoreKey(c, rows[i]) == Some(k);
    ScopeOfKey(c, rows[i]);
  }

  lemma {:induction false} SameNewRecords(c: Collection, rows: seq<LegacyRow>, s: Store, s': Store, g: Group, n: nat)
    requires n <= |rows| && forall k: Key :: k.group == g ==> (k in s.rows <==> k in s'.rows)
    ensures NewRecords(c, rows, s', g, n) == NewRecords(c, rows, s, g, n)
  {
    hide StoreKey, First;
    if n > 0 { SameNewRecords(c, rows, s, s', g, n - 1); }
  }

  lemma {:induction false} OtherNewRecords(c: Collection, rows: seq<LegacyRow>, s: Store, g: Group, n: nat)
    requires n <= |rows| && g.coll != c
    ensures NewRecords(c, rows, s, g, n) == []
  {
    hide First;
    if n > 0 { OtherNewRecords(c, rows, s, g, n - 1); }
  }

  // ---------------------------------------------------------------- migrating everything again

  ghost predicate AllFirstsExact(order: seq<Collection>, book: LegacyBook, n: nat)
    requires n <= |order|
  {
    forall i :: 0 <= i < n ==> FirstsExact(order[i], RowsOf(book, order[i]), |RowsOf(book, order[i])|)
  }

  lemma {:induction false} MovedBefore(order: seq<Collection>, book: LegacyBook, s: Store, i: nat, n: nat)
    requires Valid(s) && i <= n <= |order| && NoRepeats(order) && (forall c :: c in order ==> ChainLinked(c))
    requires MoveCollections(order, book, s, n).Moved?
    ensures MoveCollections(order, book, s, i).Moved?
    ensures
      var early, late := MoveCollections(order, book, s, i).progress.store, MoveCollections(order, book, s, n).progress.store;
      Valid(early) && forall k :: k in early.rows ==> k in late.rows && late.rows[k] == early.rows[k]
  {
    hide Valid, MoveRows, AppendsNew, SeenFirsts, Gains;
    MigrationExactly(order, book, s, n);
    if i < n {
      MovedBefore(order, book, s, i, n - 1);
      var q := MoveCollections(order, book, s, n - 1).progress;
      MigrationExactly(order, book, s, n - 1);
      MoveRowsExactly(order[n - 1], RowsOf(book, order[n - 1]), q.(seen := map[]), |RowsOf(book, order[n - 1])|);
    }
  }

  /** One collection of the second migration, over the store s' that the whole first migration left. */
  lemma CollectionAgain(order: seq<Collection>, book: LegacyBook, s: Store, s': Store, i: nat, again: Progress)
    requires Valid(s) && i < |order| && NoRepeats(order) && (forall c :: c in order ==> ChainLinked(c))
    requires MoveCollections(order, book, s, |order|).Moved? && s' == MoveCollections(order, book, s, |order|).progress.store
    requires again.store == s' && again.seen == map[]
    ensures
      var rows := RowsOf(book, order[i]);
      var moved := MoveRows(order[i], rows, again, |rows|);
      && (moved.Moved? <==> FirstsExact(order[i], rows, |rows|))
      && (moved.Moved? ==> moved.progress.store == s' && moved.progress.inserted == again.inserted
                           && moved.progress.skipped == again.skipped + |rows|)
  {
    hide Valid, MoveRows, AppendsNew, SeenFirsts, Gains, FirstsExact, RepeatsFirst;
    var c, rows := order[i], RowsOf(book, order[i]);
    MovedBefore(order, book, s, i + 1, |order|);
    MigrationExactly(order, book, s, |order|);
    MovedBefore(order, book, s, i, i + 1);
    var q := MoveCollections(order, book, s, i).progress;
    MigrationExactly(order, book, s, i);
    MoveRowsExactly(c, rows, q.(seen := map[]), |rows|);
    var done := MoveCollections(order, book, s, i + 1).progress;
    forall j | 0 <= j < |rows| ensures RepeatsFirst(c, rows, done.seen, j) {
      AllRepeatFirsts(c, rows, q.(seen := map[]), |rows|, j);
    }
    AgainSoFar(c, rows, done.(store := s'), again, |rows|);
  }

  /** Migrating a second time succeeds exactly if every first row of a key has an exact scope entry, as the
    * legacy writer leaves it; then it inserts nothing, skips every row read and changes nothing. */
  lemma {:induction false} SecondMigrationExactly(order: seq<Collection>, book: LegacyBook, s: Store, s': Store, n: nat)
    requires Valid(s) && n <= |order| && NoRepeats(order) && (forall c :: c in order ==> ChainLinked(c))
    requires MoveCollections(order, book, s, |order|).Moved? && s' == MoveCollections(order, book, s, |order|).progress.store
    ensures
      var again := MoveCollections(order, book, s', n);
      && (again.Moved? <==> AllFirstsExact(order, book, n))
      && (again.Moved? ==> again.progress.store == s' && again.progress.inserted == 0
                           && again.progress.skipped == RowCount(order, book, n))
  {
    hide Valid, MoveRows, FirstsExact;
    if n > 0 {
      SecondMigrationExactly(order, book, s, s', n - 1);
      if MoveCollections(order, book, s', n - 1).Moved? {
        CollectionAgain(order, book, s, s', n - 1, MoveCollections(order, book, s', n - 1).progress.(seen := map[]));
      }
      assert AllFirstsExact(order, book, n) <==>
        AllFirstsExact(order, book, n - 1) && FirstsExact(order[n - 1], RowsOf(book, order[n - 1]), |RowsOf(book, order[n - 1])|);
    }
  }

  lemma Migratable(i: nat)
    requires i < |MIGRATABLE|
    ensures ChainLinked(MIGRATABLE[i])
  {
  }

  lemma MigratableCollections()
    ensures NoRepeats(MIGRATABLE) && forall c :: c in MIGRATABLE ==> ChainLinked(c)
  {
  }

  /** What migrating a whole book means: the store stays valid and keeps its rows, every row read is counted
    * once, each group gains its new first occurrences in legacy order, and migrating the same book again
    * succeeds if and only if every first row of a key has an exact scope entry, changing nothing. */
  lemma BookMigratesExactly(book: LegacyBook, s: Store)
    requires Valid(s) && MoveCollections(MIGRATABLE, book, s, |MIGRATABLE|).Moved?
    ensures
      var p := MoveCollections(MIGRATABLE, book, s, |MIGRATABLE|).progress;
      && Valid(p.store)
      && p.inserted + p.skipped == RowCount(MIGRATABLE, book, |MIGRATABLE|)
      && (forall k :: k in s.rows ==> k in p.store.rows && p.store.rows[k] == s.rows[k])
      && (forall k :: k in p.store.rows ==> k in s.rows || k.group.coll in MIGRATABLE)
      && (forall g :: Gains(MIGRATABLE, book, s, p.store, |MIGRATABLE|, g))
    ensures
      var s' := MoveCollections(MIGRATABLE, book, s, |MIGRATABLE|).progress.store;
      var again := MoveCollections(MIGRATABLE, book, s', |MIGRATABLE|);
      && (again.Moved? <==> AllFirstsExact(MIGRATABLE, book, |MIGRATABLE|))
      && (again.Moved? ==> again.progress.store == s' && again.progress.inserted == 0
                           && again.progress.skipped == RowCount(MIGRATABLE, book, |MIGRATABLE|))
  {
    hide Valid, MoveCollections, Gains, AllFirstsExact, RowCount;
    var n := |MIGRATABLE|;
    MigratableCollections();
    assert MIGRATABLE[..n] == MIGRATABLE;
    MigrationExactly(MIGRATABLE, book, s, n);
    SecondMigrationExactly(MIGRATABLE, book, s, MoveCollections(MIGRATABLE, book, s, n).progress.store, n);
  }

  /** Every row that a migration adds is stored under its record's own canonical key. */
  ghost predicate KeyedByRecord(s: Store, s': Store) {
    forall k :: k in s'.rows ==> k in s.rows || LegacyKey(k.group.coll, s'.rows[k].payload.record) == Some(k.ckey)
  }

  lemma SeenKeys(c: Collection, rows: seq<LegacyRow>, s: Store, p: Progress)
    requires SeenFirsts(c, rows, p.seen, |rows|) && HoldsSeen(s, p)
    ensures KeyedByRecord(s, p.store)
  {
    hide Valid, LegacyKey;
    forall k | k in p.store.rows && k !in s.rows ensures LegacyKey(k.group.coll, p.store.rows[k].payload.record) == Some(k.ckey) {
      var i :| 0 <= i < |rows| && First(c, rows, i) && StoreKey(c, rows[i]) == Some(k);
      ScopeOfKey(c, rows[i]);
      assert p.seen[k] == rows[i];
    }
  }

  lemma {:induction false} MigratedKeys(order: seq<Collection>, book: LegacyBook, s: Store, n: nat)
    requires Valid(s) && n <= |order| && NoRepeats(order) && (forall c :: c in order ==> ChainLinked(c))
    requires MoveCollections(order, book, s, n).Moved?
    ensures KeyedByRecord(s, MoveCollections(order, book, s, n).progress.store)
  {
    hide Valid, MoveRows, AppendsNew, SeenFirsts, LegacyKey, Gains, NoRepeats;
    if n > 0 {
      MigratedKeys(order, book, s, n - 1);
      var q, rows := MoveCollections(order, book, s, n - 1).progress.(seen := map[]), RowsOf(book, order[n - 1]);
      MigrationExactly(order, book, s, n - 1);
      MoveRowsExactly(order[n - 1], rows, q, |rows|);
      SeenKeys(order[n - 1], rows, q.store, MoveCollections(order, book, s, n).progress);
    }
  }

  // ---------------------------------------------------------------- a book that migrates only once

  /** A book with one envelope, whose row has this scope entry. */
  function OneEnvelope(e: DecisionEnvelope, tenant: Option<Id>, project: Option<Id>, extra: Json): LegacyBook {
    map[DecisionEnvelopes := [LegacyRow(EnvelopeRecord(e), tenant, project, extra)]]
  }

  lemma {:induction false} OnlyEnvelopes(e: DecisionEnvelope, tenant: Option<Id>, project: Option<Id>, extra: Json, s: Store, n: nat)
    requires 1 <= n <= |MIGRATABLE|
    ensures
      var book := OneEnvelope(e, tenant, project, extra);
      var moved := MoveCollections(MIGRATABLE, book, s, n);
      match MoveRow(DecisionEnvelopes, book[DecisionEnvelopes][0], Started(s))
      case Refused(error) => moved == Refused(error)
      case Moved(p) => moved.Moved? && moved.progress.store == p.store
  {
    hide MoveRow;
    var book := OneEnvelope(e, tenant, project, extra);
    var rows := RowsOf(book, DecisionEnvelopes);
    assert MoveRows(DecisionEnvelopes, rows, Started(s), 0) == Moved(Started(s));
    if n > 1 {
      OnlyEnvelopes(e, tenant, project, extra, s, n - 1);
      assert MIGRATABLE[n - 1] != DecisionEnvelopes;
      assert RowsOf(book, MIGRATABLE[n - 1]) == [];
    } else {
      assert MIGRATABLE[0] == DecisionEnvelopes && MoveCollections(MIGRATABLE, book, s, 0) == Moved(Started(s));
    }
  }

  /** Such a book migrates into an empty ledger, to the scope of its entry with "default" for what is missing there. If
    * the entry is not exactly tenant and project, migrating the book again is refused as a duplicate: the stored
    * payload carries another scope entry than the legacy row. */
  lemma InexactRowMigratesOnce(e: DecisionEnvelope, tenant: Option<Id>, project: Option<Id>, extra: Json)
    ensures
      var book := OneEnvelope(e, tenant, project, extra);
      var first := MoveCollections(MIGRATABLE, book, EMPTY, |MIGRATABLE|);
      var scope := Scope(if tenant.Some? then tenant.value else "default", if project.Some? then project.value else "default");
      var k := Key(Group(scope, DecisionEnvelopes), Name(e.envelopeId));
      && first.Moved?
      && k in first.progress.store.rows && first.progress.store.rows[k].payload == Payload(EnvelopeRecord(e), scope)
      && (tenant.None? || project.None? || extra != "" ==>
            MoveCollections(MIGRATABLE, book, first.progress.store, |MIGRATABLE|) == Refused(DuplicateCanonicalKey))
  {
    hide NextSequence, ChainPrev, MoveCollections;
    var row := OneEnvelope(e, tenant, project, extra)[DecisionEnvelopes][0];
    var k := Key(Group(ScopeOf(row), DecisionEnvelopes), Name(e.envelopeId));
    assert StoreKey(DecisionEnvelopes, row) == Some(k);
    var first := MoveRow(DecisionEnvelopes, row, Started(EMPTY));
    assert first.Moved? && k in first.progress.store.rows;
    assert !Exact(row) ==> MoveRow(DecisionEnvelopes, row, Started(first.progress.store)) == Refused(DuplicateCanonicalKey);
    OnlyEnvelopes(e, tenant, project, extra, EMPTY, |MIGRATABLE|);
    OnlyEnvelopes(e, tenant, project, extra, first.progress.store, |MIGRATABLE|);
  }

  // ---------------------------------------------------------------- migrate_legacy_scoped_json

  datatype Report = Report(inserted: nat, skipped: nat) | Failed(error: Error)

  lemma {:induction false} RefusedStays(c: Collection, rows: seq<LegacyRow>, p: Progress, i: nat, n: nat)
    requires i <= n <= |rows| && MoveRows(c, rows, p, i).Refused?
    ensures MoveRows(c, rows, p, n) == MoveRows(c, rows, p, i)
  {
    hide MoveRow;
    if i < n { RefusedStays(c, rows, p, i, n - 1); }
  }

  lemma {:induction false} RefusedCollectionsStay(order: seq<Collection>, book: LegacyBook, s: Store, i: nat, n: nat)
    requires i <= n <= |order| && MoveCollections(order, book, s, i).Refused?
    ensures MoveCollections(order, book, s, n) == MoveCollections(order, book, s, i)
  {
    hide MoveRows;
    if i < n { RefusedCollectionsStay(order, book, s, i, n - 1); }
  }

  /** One row of the inner loop: passed over, inserted with its link, or refused. */
  method MigrateRow(state: StoreState, c: Collection, row: LegacyRow, seen: map<Key, LegacyRow>, ghost p: Progress)
    returns (error: Option<Error>, inserted: bool, seen': map<Key, LegacyRow>)
    requires ChainLinked(c) && p.store == state.Value() && p.seen == seen
    modifies state
    ensures match MoveRow(c, row, p)
      case Refused(e) => error == Some(e)
      case Moved(q) =>
        && error.None? && q.store == state.Value() && q.seen == seen'
        && q.inserted == p.inserted + (if inserted then 1 else 0) && q.skipped == p.skipped + (if inserted then 0 else 1)
  {
    hide LegacyKey, AppendEffect, BuildRow, NextSequence, ChainPrev, Overlay;
    error, inserted, seen' := None, false, seen;
    var target := StoreKey(c, row);
    if target.None? { return Some(KeyError), false, seen; }
    var k := target.value;
    if k in seen {
      if seen[k] != row { error := Some(DuplicateCanonicalKey); }
      return;
    }
    seen' := seen[k := row];
    if k in state.rows {
      if !Matches(row, state.rows[k]) { error := Some(DuplicateCanonicalKey); }
      return;
    }
    var g := k.group;
    ScopeOfKey(c, row);
    var head := if g in state.heads then state.heads[g] else Head(0, None);
    NextOfHead(state.Value(), g, head);
    var id := ExtractRecordId(c, row.record);
    if id.None? {
      AppendNameless(g.scope, c, k.ckey, row.record, p.store);
      return Some(ValueError), false, seen;
    }
    AppendNew(g.scope, c, k.ckey, row.record, p.store, id.value);
    var stored := BuildRow(c, Payload(row.record, ScopeOf(row)), id.value, head.hash, head.last + 1);
    state.rows := state.rows[k := stored];
    state.heads := state.heads[g := Head(head.last + 1, Some(stored.chainHash))];
    inserted := true;
  }

  lemma NextOfHead(s: Store, g: Group, head: Head)
    requires ChainLinked(g.coll) && head == if g in s.heads then s.heads[g] else Head(0, None)
    ensures NextSequence(s, g) == head.last + 1 && ChainPrev(s, g) == head.hash
  {
  }

  /** The inner loop: all rows of one collection. */
  method MigrateCollection(state: StoreState, c: Collection, rows: seq<LegacyRow>, ghost start: Progress)
    returns (error: Option<Error>, inserted: nat, skipped: nat)
    requires ChainLinked(c) && start.store == state.Value() && start.seen == map[]
    modifies state
    ensures match MoveRows(c, rows, start, |rows|)
      case Refused(e) => error == Some(e)
      case Moved(p) =>
        && error.None? && p.store == state.Value()
        && p.inserted == start.inserted + inserted && p.skipped == start.skipped + skipped
  {
    hide MoveRow;
    var seen: map<Key, LegacyRow> := map[];
    error, inserted, skipped := None, 0, 0;
    for i := 0 to |rows|
      invariant error.None? && MoveRows(c, rows, start, i)
        == Moved(Progress(state.Value(), start.inserted + inserted, start.skipped + skipped, seen))
    {
      var isNew;
      error, isNew, seen := MigrateRow(state, c, rows[i], seen, MoveRows(c, rows, start, i).progress);
      if error.Some? {
        RefusedStays(c, rows, start, i + 1, |rows|);
        return;
      }
      if isNew { inserted := inserted + 1; } else { skipped := skipped + 1; }
    }
  }

  /** migrate_legacy_scoped_json: all collections in memory, then one write of the file; any error leaves the
    * file as it was. */
  method MigrateLegacyJson(engine: JsonEngine, book: LegacyBook) returns (report: Report)
    modifies engine
    ensures engine.active == old(engine.active) && engine.locks == old(engine.locks)
    ensures match MoveCollections(MIGRATABLE, book, old(engine.file), |MIGRATABLE|)
      case Refused(e) => report == Failed(e) && engine.file == old(engine.file)
      case Moved(p) => report == Report(p.inserted, p.skipped) && engine.file == p.store
    ensures Valid(old(engine.file)) ==> Valid(engine.file)
    ensures Valid(old(engine.file)) && report.Report? ==> report.inserted + report.skipped == RowCount(MIGRATABLE, book, |MIGRATABLE|)
  {
    hide MoveRows, Valid, Gains, AllFirstsExact, RowCount;
    var order := MIGRATABLE;
    ghost var before := engine.file;
    var state := new StoreState(engine.file);
    var inserted, skipped := 0, 0;
    for i := 0 to |order|
      invariant fresh(state) && engine.file == before && engine.active == old(engine.active) && engine.locks == old(engine.locks)
      invariant MoveCollections(order, book, before, i).Moved?
      invariant
        var p := MoveCollections(order, book, before, i).progress;
        p.store == state.Value() && p.inserted == inserted && p.skipped == skipped
    {
      ghost var p := MoveCollections(order, book, before, i).progress;
      Migratable(i);
      var error, more, passed := MigrateCollection(state, order[i], RowsOf(book, order[i]), p.(seen := map[]));
      if error.Some? {
        RefusedCollectionsStay(order, book, before, i + 1, |order|);
        return Failed(error.value);
      }
      inserted, skipped := inserted + more, skipped + passed;
    }
    if Valid(before) { BookMigratesExactly(book, before); }
    engine.file := state.Value();
    report := Report(inserted, skipped);
  }
}
