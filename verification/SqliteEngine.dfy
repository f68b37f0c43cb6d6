/** The SQLite engine (core_v3/scoped_ledger.py): statements on two tables with unique indexes, inside a
  * connection that commits or rolls back.  It answers like the JSON engine unless record ids clash. */
module SqliteEngine {
  import opened Signing
  import opened Models
  import opened ScopedStore
  import opened ScopedInvariant
  import opened Locks
  import opened Sessions
  import opened ScopedEngine

  /** A table row: the columns, without the flag that the JSON file stores. */
  datatype SqlRow = SqlRow(
    recordId: RecordId, payload: Payload, meta: ChainMeta, payloadHash: PayloadHash, chainPrev: Option<ChainHash>,
    chainHash: ChainHash, sequence: int, version: int)

  datatype Tables = Tables(ledger: map<Key, SqlRow>, heads: map<Group, Head>)

  function ToRow(c: Collection, r: SqlRow): Row {
    Row(r.recordId, r.payload, r.meta, Some(r.payloadHash), r.chainPrev, r.chainHash, r.sequence, r.version, ChainLinked(c))
  }

  /** The abstract store that the tables hold. */
  function ToStore(t: Tables): Store {
    Store(map k | k in t.ledger :: ToRow(k.group.coll, t.ledger[k]), t.heads)
  }

  /** UNIQUE (tenant, project, collection, record_id), and chain_sequence unique in linked collections. */
  predicate Clashes(s: Store, g: Group, id: RecordId, sequence: int) {
    exists k :: k in s.rows && k.group == g && (s.rows[k].recordId == id || (ChainLinked(g.coll) && s.rows[k].sequence == sequence))
  }

  /** The append would insert a new row that violates a unique index. */
  ghost predicate InsertClashes(scope: Scope, c: Collection, key: CKey, record: Record, s: Store) {
    && Key(Group(scope, c), key) !in s.rows
    && ExtractRecordId(c, record).Some?
    && Clashes(s, Group(scope, c), ExtractRecordId(c, record).value, NextSequence(s, Group(scope, c)))
  }

  /** The stored "_chain" field says that the row is linked; no row of a valid mutable group says so. */
  predicate ClaimsLinked(t: Tables, k: Key) {
    k in t.ledger && t.ledger[k].meta.linked == Some(true)
  }

  /** The call is an append that the locks allow and a unique index refuses. */
  ghost predicate CallClashes(ses: Session, op: Op, s: Store) {
    op.Append? && WriteAllowed(ses.locks, op.coll, op.ckey) && InsertClashes(ses.scope, op.coll, op.ckey, op.record, s)
  }

  /** What a transaction's call answers on SQLite: a clashing insert fails and changes nothing. */
  ghost function SqlAnswer(ses: Session, op: Op, base: Store, s: Store): (Result, Store) {
    if CallClashes(ses, op, s) then (Failure(IntegrityError), s) else FileAnswer(ses, op, base, s)
  }

  /** The program left and the own view after at most n calls. */
  ghost function SqlOnFile(p: Prog, ses: Session, base: Store, s: Store, n: nat): (Prog, Store)
    decreases n
  {
    if n == 0 || !p.Call? then (p, s)
    else
      var (r, s') := SqlAnswer(ses, p.op, base, s);
      SqlOnFile(p.next(r), ses, base, s', n - 1)
  }

  /** A transaction on SQLite: what the body left is committed if it returned. */
  ghost function SqlRunOnFile(t: Txn, base: Store): (Outcome, Store) {
    if !InScope(t.scope, t.locks) then (Aborted(ValueError), base)
    else
      var (rest, s) := SqlOnFile(t.body, SessionOf(t), base, base, t.bound);
      (Conclude(rest), if rest.Return? then s else base)
  }

  /** No call of the body clashes on its way. */
  ghost predicate Smooth(p: Prog, ses: Session, base: Store, s: Store, n: nat)
    decreases n
  {
    n > 0 && p.Call? ==>
      && !CallClashes(ses, p.op, s)
      && Smooth(p.next(FileAnswer(ses, p.op, base, s).0), ses, base, FileAnswer(ses, p.op, base, s).1, n - 1)
  }

  class SqliteEngine {
    /** What the connection sees, what BEGIN IMMEDIATE saved, and the locks of the open transaction. */
    var tables: Tables
    var saved: Option<Tables>
    var locks: Option<LockContext>

    ghost function View(): Store
      reads this
    {
      ToStore(tables)
    }

    constructor ()
      ensures View() == EMPTY && saved.None? && locks.None?
    {
      tables, saved, locks := Tables(map[], map[]), None, None;
    }

    method Begin()
      modifies this`saved
      ensures saved == Some(tables)
    {
      saved := Some(tables);
    }

    method Commit()
      modifies this`saved
      ensures saved.None?
    {
      saved := None;
    }

    method Rollback()
      requires saved.Some?
      modifies this`saved, this`tables
      ensures saved.None? && tables == old(saved.value)
    {
      tables, saved := saved.value, None;
    }

    /** SELECT MAX(chain_sequence), or 0. */
    method SelectMaxSequence(g: Group) returns (last: int)
      requires CasAllowed(g.coll)
      ensures last + 1 == NextSequence(View(), g)
    {
      var state := new StoreState(ToStore(tables));
      var next := state.NextMutableSequence(g);
      last := next - 1;
    }

    /** INSERT INTO phigraph_scoped_ledger: refused by a unique index, or done. */
    method InsertRow(k: Key, row: Row) returns (ok: bool)
      requires k !in tables.ledger && row.payloadHash.Some? && row.linked == ChainLinked(k.group.coll)
      modifies this`tables
      ensures ok <==> !Clashes(old(View()), k.group, row.recordId, row.sequence)
      ensures tables.heads == old(tables.heads)
      ensures if ok then View().rows == old(View()).rows[k := row] else tables == old(tables)
    {
      var others := tables.ledger.Keys;
      ok := true;
      while others != {}
        invariant others <= tables.ledger.Keys && tables == old(tables)
        invariant forall j :: j in tables.ledger && j !in others && j.group == k.group ==>
          && tables.ledger[j].recordId != row.recordId
          && !(ChainLinked(k.group.coll) && tables.ledger[j].sequence == row.sequence)
      {
        var j :| j in others;
        if j.group == k.group
          && (tables.ledger[j].recordId == row.recordId || (ChainLinked(k.group.coll) && tables.ledger[j].sequence == row.sequence))
        {
          assert j in View().rows && View().rows[j] == ToRow(j.group.coll, tables.ledger[j]);
          return false;
        }
        others := others - {j};
      }
      forall j | j in View().rows && j.group == k.group
        ensures !(View().rows[j].recordId == row.recordId || (ChainLinked(k.group.coll) && View().rows[j].sequence == row.sequence))
      {
        assert View().rows[j] == ToRow(j.group.coll, tables.ledger[j]);
      }
      var columns := SqlRow(row.recordId, row.payload, row.meta, row.payloadHash.value, row.chainPrev, row.chainHash,
                            row.sequence, row.version);
      tables := tables.(ledger := tables.ledger[k := columns]);
      assert View().rows == old(View()).rows[k := row];
    }

    /** The statements of _sqlite_append on an open connection. */
    method AppendStatements(scope: Scope, c: Collection, key: CKey, record: Record) returns (r: Result)
      modifies this`tables
      ensures if InsertClashes(scope, c, key, record, old(View()))
        then r == Failure(IntegrityError) && View() == WithHead(old(View()), Group(scope, c))
        else Appends(scope, None, c, key, record, old(View()), r, View())
    {
      hide NextSequence, BuildRow, ExtractRecordId, ChainPrev, Appends, Clashes, Overlay;
      ghost var before := View();
      var g := Group(scope, c);
      var k, payload := Key(g, key), Payload(record, scope);
      if k in tables.ledger {
        AppendExisting(scope, c, key, record, before);
        assert before.rows[k] == ToRow(c, tables.ledger[k]);
        if tables.ledger[k].payloadHash == PayloadHash(payload) { return Stored(ToRow(c, tables.ledger[k]), false); }
        return Failure(DuplicateCanonicalKey);
      }
      var sequence, prev := 0, None;
      if ChainLinked(c) {
        sequence, prev := NextLink(g);
      } else {
        var last := SelectMaxSequence(g);
        sequence := last + 1;
        MutableHasNoPrev(before, g);
      }
      var id := ExtractRecordId(c, record);
      if id.None? {
        AppendNameless(scope, c, key, record, before);
        return Failure(ValueError);
      }
      AppendNew(scope, c, key, record, before, id.value);
      var row := BuildRow(c, payload, id.value, prev, sequence);
      BuiltRow(c, payload, id.value, prev, sequence);
      SameClashes(before, View(), g, id.value, sequence);
      var ok := InsertRow(k, row);
      if !ok {
        OnlyHeadAdded(before, View(), g);
        return Failure(IntegrityError);
      }
      if ChainLinked(c) { tables := tables.(heads := tables.heads[g := Head(sequence, Some(row.chainHash))]); }
      InsertedStore(before, View(), k, row, ChainLinked(c), Head(sequence, Some(row.chainHash)));
      r := Stored(row, true);
    }

    /** SELECT the head, inserting an empty one when the chain has none. */
    method NextLink(g: Group) returns (sequence: int, prev: Option<ChainHash>)
      requires ChainLinked(g.coll)
      modifies this`tables
      ensures sequence == NextSequence(old(View()), g) && prev == ChainPrev(old(View()), g)
      ensures tables.ledger == old(tables.ledger)
      ensures tables.heads == if g in old(tables.heads) then old(tables.heads) else old(tables.heads)[g := Head(0, None)]
      ensures View().rows == old(View()).rows
    {
      if g in tables.heads {
        sequence, prev := tables.heads[g].last + 1, tables.heads[g].hash;
      } else {
        sequence, prev := 1, None;
        tables := tables.(heads := tables.heads[g := Head(0, None)]);
      }
    }

    /** _append_scoped and _sqlite_append: outside a transaction the operation has a connection of its own,
      * which it rolls back on any error. */
    method Append(scope: Scope, c: Collection, key: CKey, record: Record) returns (r: Result)
      modifies this
      ensures locks == old(locks) && saved == old(saved)
      ensures WriteAllowed(locks, c, key) && InsertClashes(scope, c, key, record, old(View())) ==>
        && r == Failure(IntegrityError) && (old(saved).None? ==> tables == old(tables))
        && (Valid(old(View())) ==> View() == old(View()))
      ensures !(WriteAllowed(locks, c, key) && InsertClashes(scope, c, key, record, old(View()))) ==>
        if old(saved).Some? then Appends(scope, locks, c, key, record, old(View()), r, View())
        else AppendsAlone(scope, locks, c, key, record, old(View()), r, View())
    {
      hide Appends, AppendsAlone, InsertClashes, ToStore, Valid, WithHead;
      ghost var before := View();
      if Valid(before) && InsertClashes(scope, c, key, record, before) { ClashAddsNothing(scope, c, key, record, before); }
      if !WriteAllowed(locks, c, key) {
        RefusedAppend(scope, locks, c, key, record, before);
        return Failure(UndeclaredLockRef);
      }
      var ownConnection := saved.None?;
      if ownConnection { Begin(); }
      r := AppendStatements(scope, c, key, record);
      if !InsertClashes(scope, c, key, record, before) { AllowedAppend(scope, locks, c, key, record, before, r, View()); }
      if ownConnection {
        UnchangedWhenFound(scope, c, key, record, before, r, View());
        if r.Failure? { Rollback(); } else { Commit(); }
      }
    }

    method Get(scope: Scope, c: Collection, key: CKey) returns (r: Result)
      ensures r == Effect(Session(scope, locks), ScopedStore.Get(c, key), View()).0
    {
      var k := Key(Group(scope, c), key);
      r := if k in tables.ledger then Found(ToRow(c, tables.ledger[k])) else Failure(ScopedRecordNotFound);
    }

    /** SELECT ... ORDER BY chain_sequence, record_id LIMIT ? OFFSET ?. */
    method List(scope: Scope, c: Collection, limit: int, offset: int) returns (r: Result)
      ensures offset < 0 || limit < 1 || limit > MAX_LIST_LIMIT ==> r == Failure(ValueError)
      ensures !(offset < 0 || limit < 1 || limit > MAX_LIST_LIMIT) ==>
        r.Listed? && SortedPage(GroupRows(View(), Group(scope, c)), limit, offset, r.rows)
      ensures Valid(View()) ==> r == Effect(Session(scope, locks), ScopedStore.List(c, limit, offset), View()).0
    {
      if offset < 0 { return Failure(ValueError); }
      if limit < 1 || limit > MAX_LIST_LIMIT { return Failure(ValueError); }
      var rows := ListGroup(ToStore(tables), Group(scope, c), limit, offset);
      r := Listed(rows);
    }

    /** What another connection sees: an open transaction's statements are not committed. */
    function Committed(): Tables
      reads this
    {
      if saved.Some? then saved.value else tables
    }

    /** verify_scoped_chain opens a connection of its own; the collection decides which rows are linked. */
    method Verify(scope: Scope, wanted: set<Collection>) returns (r: Result)
      ensures r == Effect(Session(scope, locks), VerifyScope(wanted), ToStore(Committed())).0
    {
      r := VerifyStore(ToStore(Committed()), scope, wanted);
    }

    /** _compare_and_set_scoped and _sqlite_cas; the collection decides whether CAS is allowed at all, and then
      * the stored "_chain" field whether the row is linked. */
    method CompareAndSet(scope: Scope, op: Op) returns (r: Result)
      requires op.CompareAndSet?
      modifies this
      ensures locks == old(locks) && saved == old(saved)
      ensures r.Failure? ==> tables == old(tables)
      ensures CasAllowed(op.coll) && ClaimsLinked(old(tables), Key(Group(scope, op.coll), op.ckey)) ==>
        r == Failure(if op.expectedVersion.None? && op.expectedHash.None? then ValueError
                     else if !WriteAllowed(locks, op.coll, op.ckey) then UndeclaredLockRef else TransactionUnavailable)
      ensures !(CasAllowed(op.coll) && ClaimsLinked(old(tables), Key(Group(scope, op.coll), op.ckey))) ==>
        && r == CasEffect(Session(scope, locks), op, old(View())).0
        && View() == Overlay(old(View()), CasEffect(Session(scope, locks), op, old(View())).1)
    {
      ghost var before := View();
      OverlayEmpty(before);
      if !CasAllowed(op.coll) { return Failure(ValueError); }
      if op.expectedVersion.None? && op.expectedHash.None? { return Failure(ValueError); }
      if !WriteAllowed(locks, op.coll, op.ckey) { return Failure(UndeclaredLockRef); }
      var k := Key(Group(scope, op.coll), op.ckey);
      if k !in tables.ledger { return Failure(ScopedRecordNotFound); }
      var current := tables.ledger[k];
      assert before.rows[k] == ToRow(op.coll, current);
      if current.meta.linked == Some(true) { return Failure(TransactionUnavailable); }
      if op.expectedVersion.Some? && current.version != op.expectedVersion.value { return Failure(VersionConflict); }
      if op.expectedHash.Some? && Some(current.payloadHash) != op.expectedHash { return Failure(VersionConflict); }
      var updated := UpdateRow(k, Payload(op.record, scope));
      r := Swapped(ToRow(op.coll, updated), ToRow(op.coll, current));
    }

    /** One session call inside a transaction. */
    method Perform(scope: Scope, op: Op) returns (r: Result)
      requires saved.Some?
      modifies this
      ensures locks == old(locks) && saved == old(saved)
      ensures Valid(old(View())) ==> (r, View()) == SqlAnswer(Session(scope, locks), op, ToStore(saved.value), old(View()))
    {
      hide Effect, AppendEffect, CasEffect, Valid, Overlay, InsertClashes, ClaimsLinked, ToStore;
      AnswerOf(Session(scope, locks), op, View());
      match op
      case Get(c, key) => r := Get(scope, c, key);
      case List(c, limit, offset) => r := List(scope, c, limit, offset);
      case Append(c, key, record) => r := Append(scope, c, key, record);
      case CompareAndSet(c, key, _, _, _) =>
        if CasAllowed(c) && Valid(View()) { ValidNeverClaimsLinked(tables, Key(Group(scope, c), key)); }
        r := CompareAndSet(scope, op);
      case VerifyScope(wanted) => r := Verify(scope, wanted);
    }

    /** run_scoped_transaction: BEGIN IMMEDIATE, the body, then COMMIT or ROLLBACK. */
    method RunScopedTransaction(t: Txn) returns (out: Outcome)
      requires saved.None? ==> locks.None?
      modifies this
      ensures locks == old(locks) && saved == old(saved)
      ensures out.Aborted? ==> tables == old(tables)
      ensures old(saved).Some? ==> out.Aborted?
      ensures old(saved).None? && Valid(old(View())) ==> (out, View()) == SqlRunOnFile(t, old(View()))
    {
      hide CallClashes, Effect, Valid, SqlOnFile, ToStore;
      ghost var before := View();
      if !InScope(t.scope, t.locks) { return Aborted(ValueError); }
      if saved.Some? { return Aborted(TransactionUnavailable); }
      Begin();
      locks := Some(ContextOf(t.locks));
      var p, n := t.body, t.bound;
      while p.Call? && n > 0
        invariant locks == Some(ContextOf(t.locks)) && saved == Some(old(tables)) && n >= 0
        invariant ValidStore(before) ==>
          && ValidStore(View())
          && SqlOnFile(t.body, SessionOf(t), before, before, t.bound) == SqlOnFile(p, SessionOf(t), before, View(), n)
        decreases n
      {
        OneSqlCall(p, SessionOf(t), before, View(), n);
        var r := Perform(t.scope, p.op);
        p, n := p.next(r), n - 1;
      }
      SqlStopped(p, SessionOf(t), before, View(), n);
      out := Conclude(p);
      if out.Committed? { Commit(); } else { Rollback(); }
      locks := None;
    }

    /** UPDATE phigraph_scoped_ledger for one key. */
    method UpdateRow(k: Key, payload: Payload) returns (updated: SqlRow)
      requires k in tables.ledger && CasAllowed(k.group.coll)
      modifies this`tables
      ensures ToRow(k.group.coll, updated) == SwapRow(k.group.coll, payload, ToRow(k.group.coll, old(tables.ledger[k])))
      ensures View() == Overlay(old(View()), Store(map[k := ToRow(k.group.coll, updated)], map[]))
    {
      hide ToStore;
      var current, hash := tables.ledger[k], ChainHash(None, k.group.coll, payload);
      var meta := ChainMeta(None, Some(hash), Some(current.sequence), Some(false));
      updated := current.(payload := payload, payloadHash := PayloadHash(payload), chainHash := hash, meta := meta,
                          version := current.version + 1);
      UpdatedStore(tables, k, updated);
      tables := tables.(ledger := tables.ledger[k := updated]);
    }
  }

  lemma OneSqlCall(p: Prog, ses: Session, base: Store, s: Store, n: nat)
    requires n > 0 && p.Call?
    ensures
      var (r, s') := SqlAnswer(ses, p.op, base, s);
      SqlOnFile(p, ses, base, s, n) == SqlOnFile(p.next(r), ses, base, s', n - 1) && (Valid(s) ==> Valid(s'))
  {
    hide FileAnswer, Valid, CallClashes;
    OneCall(p, ses, base, s, n);
  }

  lemma SqlStopped(p: Prog, ses: Session, base: Store, s: Store, n: nat)
    requires n == 0 || !p.Call?
    ensures SqlOnFile(p, ses, base, s, n) == (p, s)
  {
  }

  /** A body that never clashes runs as on the JSON engine. */
  lemma {:induction false} SmoothIsOnFile(p: Prog, ses: Session, base: Store, s: Store, n: nat)
    requires Smooth(p, ses, base, s, n)
    ensures SqlOnFile(p, ses, base, s, n) == OnFile(p, ses, base, s, n)
    decreases n
  {
    hide FileAnswer, CallClashes;
    if n > 0 && p.Call? {
      var (r, s') := FileAnswer(ses, p.op, base, s);
      SmoothIsOnFile(p.next(r), ses, base, s', n - 1);
    }
  }

  lemma SmoothIsTransaction(t: Txn, base: Store)
    requires InScope(t.scope, t.locks) ==> Smooth(t.body, SessionOf(t), base, base, t.bound)
    ensures SqlRunOnFile(t, base) == RunOnFile(t, base)
  {
    hide Smooth, SqlOnFile, OnFile;
    if InScope(t.scope, t.locks) { SmoothIsOnFile(t.body, SessionOf(t), base, base, t.bound); }
  }

  /** The store with an empty head for a linked group that had none. */
  function WithHead(s: Store, g: Group): Store {
    Store(s.rows, if ChainLinked(g.coll) && g !in s.heads then s.heads[g := Head(0, None)] else s.heads)
  }

  lemma OnlyHeadAdded(s: Store, s': Store, g: Group)
    requires s'.rows == s.rows
    requires s'.heads == if ChainLinked(g.coll) && g !in s.heads then s.heads[g := Head(0, None)] else s.heads
    ensures s' == WithHead(s, g)
  {
  }

  /** A clash needs a row of the group, and a valid chain with rows has its head. */
  lemma ClashAddsNothing(scope: Scope, c: Collection, key: CKey, record: Record, s: Store)
    requires Valid(s) && InsertClashes(scope, c, key, record, s)
    ensures WithHead(s, Group(scope, c)) == s
  {
    hide NextSequence, ExtractRecordId, Valid;
    var g := Group(scope, c);
    var k :| k in s.rows && k.group == g;
    assert k in GroupRows(s, g);
    var ks := Order(s, g);
    assert k in ks;
  }

  lemma UpdatedStore(t: Tables, k: Key, updated: SqlRow)
    ensures ToStore(t.(ledger := t.ledger[k := updated])) == Overlay(ToStore(t), Store(map[k := ToRow(k.group.coll, updated)], map[]))
  {
    var after := ToStore(t.(ledger := t.ledger[k := updated]));
    assert after.rows == ToStore(t).rows + map[k := ToRow(k.group.coll, updated)];
  }

  lemma BuiltRow(c: Collection, payload: Payload, id: RecordId, prev: Option<ChainHash>, sequence: int)
    ensures
      var row := BuildRow(c, payload, id, prev, sequence);
      row.recordId == id && row.sequence == sequence && row.payloadHash.Some? && row.linked == ChainLinked(c)
  {
  }

  lemma SameClashes(s: Store, s': Store, g: Group, id: RecordId, sequence: int)
    requires s'.rows == s.rows
    ensures Clashes(s', g, id, sequence) <==> Clashes(s, g, id, sequence)
  {
  }

  lemma InsertedStore(s: Store, s': Store, k: Key, row: Row, linked: bool, head: Head)
    requires s'.rows == s.rows[k := row]
    requires s'.heads == if linked then s.heads[k.group := head] else s.heads
    ensures s' == Store(s.rows[k := row], if linked then s.heads[k.group := head] else s.heads)
  {
  }

  /** An append that finds the record leaves the store alone. */
  lemma UnchangedWhenFound(scope: Scope, c: Collection, key: CKey, record: Record, s: Store, r: Result, s': Store)
    requires Appends(scope, None, c, key, record, s, r, s') || r == Failure(IntegrityError)
    ensures r.Stored? && !r.created ==> s' == s
    ensures r.Stored? || r.Failure?
  {
    OverlayEmpty(s);
    hide NextSequence, BuildRow, ExtractRecordId, ChainPrev;
  }

  /** No row of a valid mutable group claims to be linked, so on valid tables compare-and-set is never refused
    * for that reason. */
  lemma ValidNeverClaimsLinked(t: Tables, k: Key)
    requires Valid(ToStore(t)) && CasAllowed(k.group.coll)
    ensures !ClaimsLinked(t, k)
  {
    if k in t.ledger {
      assert GroupValid(ToStore(t), k.group);
      assert k in GroupRows(ToStore(t), k.group) && GroupRows(ToStore(t), k.group)[k] == ToRow(k.group.coll, t.ledger[k]);
      assert StandaloneOk(k.group.coll, ToRow(k.group.coll, t.ledger[k]));
    }
  }

  /** On a valid store the only clash an append can meet is of record ids. */
  lemma OnlyRecordIdsClash(s: Store, g: Group, id: RecordId)
    requires Valid(s)
    ensures Clashes(s, g, id, NextSequence(s, g)) <==> exists k :: k in s.rows && k.group == g && s.rows[k].recordId == id
  {
    var ks, m := Order(s, g), GroupRows(s, g);
    forall k | k in s.rows && k.group == g ensures s.rows[k].sequence < NextSequence(s, g) {
      assert k in m && k in ks;
      var i :| 0 <= i < |ks| && ks[i] == k;
      assert m[ks[i]].sequence == i + 1;
    }
  }
}
