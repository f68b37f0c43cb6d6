/** The JSON engine (core_v3/scoped_ledger.py): rows and heads updated in place in a loaded state, written
  * to the file as a whole after a standalone write or when a transaction commits. */
module ScopedEngine {
  import opened Signing
  import opened Models
  import opened ScopedStore
  import opened ScopedInvariant
  import opened Locks
  import opened Sessions
  import opened Concurrency
  import opened SessionRules
  import opened ChainVerifier

  // ---------------------------------------------------------------- sequence numbers

  lemma {:induction false} LastIsLargest(m: map<Key, Row>)
    requires m != map[]
    ensures SortedKeys(m) != [] && SortedKeys(m)[|SortedKeys(m)| - 1] in m
    ensures forall k :: k in m ==> m[k].sequence <= m[SortedKeys(m)[|SortedKeys(m)| - 1]].sequence
    decreases |m|
  {
    LeastExists(m);
    var first := SortedKeys(m)[0];
    var rest := m - {first};
    assert SortedKeys(m) == [first] + SortedKeys(rest) && IsLeast(m, first);
    if rest == map[] {
      assert forall k :: k in m && k != first ==> k in rest;
    } else {
      LastIsLargest(rest);
      assert SortedKeys(m)[|SortedKeys(m)| - 1] == SortedKeys(rest)[|SortedKeys(rest)| - 1];
      forall k | k in m ensures m[k].sequence <= m[SortedKeys(m)[|SortedKeys(m)| - 1]].sequence {
        if k != first { assert k in rest; }
      }
    }
  }

  lemma MutableHasNoPrev(s: Store, g: Group)
    requires !ChainLinked(g.coll)
    ensures ChainPrev(s, g) == None
  {
  }

  /** An append on store s answers r and leaves s'. */
  ghost predicate Appends(scope: Scope, locks: Option<LockContext>, c: Collection, key: CKey, record: Record, s: Store,
                          r: Result, s': Store)
  {
    var ses := Session(scope, locks);
    r == AppendEffect(ses, c, key, record, s).0 && s' == Overlay(s, AppendEffect(ses, c, key, record, s).1)
  }

  /** The same outside a transaction, where a failing append leaves the file alone. */
  ghost predicate AppendsAlone(scope: Scope, locks: Option<LockContext>, c: Collection, key: CKey, record: Record, s: Store,
                               r: Result, s': Store)
  {
    if r.Failure? then r == AppendEffect(Session(scope, locks), c, key, record, s).0 && s' == s
    else Appends(scope, locks, c, key, record, s, r, s')
  }

  /** Locks decide only whether an append is allowed at all. */
  lemma LocksOnlyRefuse(scope: Scope, locks: Option<LockContext>, c: Collection, key: CKey, record: Record, s: Store)
    ensures AppendEffect(Session(scope, locks), c, key, record, s)
         == if WriteAllowed(locks, c, key) then AppendEffect(Session(scope, None), c, key, record, s)
            else (Failure(UndeclaredLockRef), EMPTY)
  {
    hide NextSequence, BuildRow, ExtractRecordId, ChainPrev;
  }

  lemma RefusedAppend(scope: Scope, locks: Option<LockContext>, c: Collection, key: CKey, record: Record, s: Store)
    requires !WriteAllowed(locks, c, key)
    ensures Appends(scope, locks, c, key, record, s, Failure(UndeclaredLockRef), s)
    ensures AppendsAlone(scope, locks, c, key, record, s, Failure(UndeclaredLockRef), s)
  {
    hide NextSequence, BuildRow, ExtractRecordId, ChainPrev;
    OverlayEmpty(s);
  }

  lemma AllowedAppend(scope: Scope, locks: Option<LockContext>, c: Collection, key: CKey, record: Record, s: Store,
                      r: Result, s': Store)
    requires WriteAllowed(locks, c, key) && Appends(scope, None, c, key, record, s, r, s')
    ensures Appends(scope, locks, c, key, record, s, r, s')
    ensures AppendsAlone(scope, locks, c, key, record, s, r, if r.Stored? && r.created then s' else s)
  {
    LocksOnlyRefuse(scope, locks, c, key, record, s);
    hide NextSequence, BuildRow, ExtractRecordId, ChainPrev;
    OverlayEmpty(s);
  }

  lemma AppendExisting(scope: Scope, c: Collection, key: CKey, record: Record, s: Store)
    requires Key(Group(scope, c), key) in s.rows
    ensures
      var row := s.rows[Key(Group(scope, c), key)];
      Appends(scope, None, c, key, record, s,
              if row.payloadHash == Some(PayloadHash(Payload(record, scope))) then Stored(row, false)
              else Failure(DuplicateCanonicalKey), s)
  {
    hide NextSequence, BuildRow, ExtractRecordId, ChainPrev;
    OverlayEmpty(s);
  }

  lemma AppendNameless(scope: Scope, c: Collection, key: CKey, record: Record, s: Store)
    requires Key(Group(scope, c), key) !in s.rows && ExtractRecordId(c, record).None?
    ensures
      var g := Group(scope, c);
      Appends(scope, None, c, key, record, s, Failure(ValueError),
              Store(s.rows, if ChainLinked(c) && g !in s.heads then s.heads[g := Head(0, None)] else s.heads))
  {
    hide NextSequence, BuildRow, ExtractRecordId, ChainPrev;
  }

  lemma AppendNew(scope: Scope, c: Collection, key: CKey, record: Record, s: Store, id: RecordId)
    requires Key(Group(scope, c), key) !in s.rows && ExtractRecordId(c, record) == Some(id)
    ensures
      var g := Group(scope, c);
      var row := BuildRow(c, Payload(record, scope), id, ChainPrev(s, g), NextSequence(s, g));
      Appends(scope, None, c, key, record, s, Stored(row, true),
              Store(s.rows[Key(g, key) := row],
                    if ChainLinked(c) then s.heads[g := Head(NextSequence(s, g), Some(row.chainHash))] else s.heads))
  {
    hide NextSequence, ExtractRecordId, ChainPrev;
  }

  // ---------------------------------------------------------------- bodies

  ghost predicate ValidStore(s: Store) {
    Valid(s)
  }

  /** The result of a call and the store after it. */
  ghost function Answer(ses: Session, op: Op, s: Store): (Result, Store) {
    var (r, d) := Effect(ses, op, s);
    (r, Overlay(s, d))
  }

  lemma AnswerOf(ses: Session, op: Op, s: Store)
    ensures
      match op
      case Append(c, key, record) => Answer(ses, op, s) ==
        (AppendEffect(ses, c, key, record, s).0, Overlay(s, AppendEffect(ses, c, key, record, s).1))
      case CompareAndSet(_, _, _, _, _) => Answer(ses, op, s) == (CasEffect(ses, op, s).0, Overlay(s, CasEffect(ses, op, s).1))
      case _ => Answer(ses, op, s) == (Effect(ses, op, s).0, s)
  {
    OverlayEmpty(s);
  }

  /** Verification reads the file, so a body's verifications see its own writes only if it has none yet. */
  ghost predicate VerifiesEarly(p: Prog, ses: Session, base: Store, s: Store, n: nat)
    decreases n
  {
    n > 0 && p.Call? ==>
      && (p.op.VerifyScope? ==> s == base)
      && VerifiesEarly(p.next(Answer(ses, p.op, s).0), ses, base, Answer(ses, p.op, s).1, n - 1)
  }

  /** A body with enough locks verifies only before its first write. */
  lemma {:induction false} LockedVerifiesEarly(wrote: bool, p: Prog, ses: Session, base: Store, s: Store, n: nat)
    requires ses.locks.Some? && WellLocked(wrote, ses.locks.value, p, n) && (!wrote ==> s == base)
    ensures VerifiesEarly(p, ses, base, s, n)
    decreases n
  {
    hide Effect, Covered, WriteLocked;
    if p.Call? {
      var (r, s') := Answer(ses, p.op, s);
      ReadsKeepStore(ses, p.op, s);
      AllowedWritesAreNotRefused(ses, p.op, s);
      LockedVerifiesEarly(wrote || Writes(p.op), p.next(r), ses, base, s', n - 1);
    }
  }

  lemma ReadsKeepStore(ses: Session, op: Op, s: Store)
    ensures !Writes(op) ==> Answer(ses, op, s).1 == s
  {
    OverlayEmpty(s);
  }

  /** The engine's answer inside a transaction: verification reads the file, everything else the own view. */
  ghost function FileAnswer(ses: Session, op: Op, base: Store, s: Store): (Result, Store) {
    if op.VerifyScope? then (Effect(ses, op, base).0, s) else Answer(ses, op, s)
  }

  /** The program left and the own view after at most n calls on a copy of the file. */
  ghost function OnFile(p: Prog, ses: Session, base: Store, s: Store, n: nat): (Prog, Store)
    decreases n
  {
    if n == 0 || !p.Call? then (p, s)
    else
      var (r, s') := FileAnswer(ses, p.op, base, s);
      OnFile(p.next(r), ses, base, s', n - 1)
  }

  /** A transaction of the engine: what the body left replaces the file if it returned. */
  ghost function RunOnFile(t: Txn, base: Store): (Outcome, Store) {
    if !InScope(t.scope, t.locks) then (Aborted(ValueError), base)
    else
      var (rest, s) := OnFile(t.body, SessionOf(t), base, base, t.bound);
      (Conclude(rest), if rest.Return? then s else base)
  }

  lemma {:induction false} EarlyIsAfter(p: Prog, ses: Session, base: Store, s: Store, n: nat)
    requires VerifiesEarly(p, ses, base, s, n)
    ensures OnFile(p, ses, base, s, n) == After(p, ses, s, n)
    decreases n
  {
    hide Effect, Overlay;
    if n > 0 && p.Call? {
      var (r, s') := Answer(ses, p.op, s);
      ReadsKeepStore(ses, p.op, s);
      EarlyIsAfter(p.next(r), ses, base, s', n - 1);
    }
  }

  /** For a body that verifies only where the file and its own view agree, this is the abstract transaction. */
  lemma EarlyIsTransaction(t: Txn, base: Store)
    requires VerifiesEarly(t.body, SessionOf(t), base, base, t.bound)
    ensures RunOnFile(t, base) == RunTransaction(t, base)
  {
    hide After, OnFile, VerifiesEarly, RunTransaction;
    if InScope(t.scope, t.locks) {
      TransactionIsAfter(t, base);
      EarlyIsAfter(t.body, SessionOf(t), base, base, t.bound);
    } else {
      NotInScope(t, base);
    }
  }

  lemma OneCall(p: Prog, ses: Session, base: Store, s: Store, n: nat)
    requires n > 0 && p.Call?
    ensures
      var (r, s') := FileAnswer(ses, p.op, base, s);
      OnFile(p, ses, base, s, n) == OnFile(p.next(r), ses, base, s', n - 1) && (Valid(s) ==> Valid(s'))
  {
    hide Effect, Valid, Overlay;
    if Valid(s) { EffectKeepsValid(ses, p.op, s); }
  }

  lemma Stopped(p: Prog, ses: Session, base: Store, s: Store, n: nat)
    requires n == 0 || !p.Call?
    ensures OnFile(p, ses, base, s, n) == (p, s)
  {
  }

  lemma NotInScope(t: Txn, s: Store)
    requires !InScope(t.scope, t.locks)
    ensures RunTransaction(t, s) == (Aborted(ValueError), s)
  {
  }

  /** _ScopedStoreState: the dictionaries that operations update in place. */
  class StoreState {
    var rows: map<Key, Row>
    var heads: map<Group, Head>

    constructor (s: Store)
      ensures Value() == s
    {
      rows, heads := s.rows, s.heads;
    }

    function Value(): Store
      reads this
    {
      Store(rows, heads)
    }

    /** _next_mutable_sequence: one more than the largest sequence number of the group. */
    method NextMutableSequence(g: Group) returns (next: int)
      requires CasAllowed(g.coll)
      ensures next == NextSequence(Value(), g)
    {
      var m := GroupRows(Value(), g);
      if m == map[] { return 1; }
      var todo := m.Keys;
      var start :| start in todo;
      var largest := m[start].sequence;
      while todo != {}
        invariant todo <= m.Keys
        invariant exists k :: k in m && m[k].sequence == largest
        invariant forall k :: k in m && k !in todo ==> m[k].sequence <= largest
      {
        var k :| k in todo;
        if m[k].sequence > largest { largest := m[k].sequence; }
        todo := todo - {k};
      }
      LastIsLargest(m);
      next := largest + 1;
    }

    /** The head is inserted first when the chain has none; then the link to it is read off. */
    method NextLink(g: Group) returns (sequence: int, prev: Option<ChainHash>)
      requires ChainLinked(g.coll)
      modifies this`heads
      ensures sequence == NextSequence(old(Value()), g) && prev == ChainPrev(old(Value()), g)
      ensures heads == if g in old(heads) then old(heads) else old(heads)[g := Head(0, None)]
    {
      if g !in heads { heads := heads[g := Head(0, None)]; }
      sequence, prev := heads[g].last + 1, heads[g].hash;
    }

    /** _json_append on a loaded state. */
    method Append(scope: Scope, c: Collection, key: CKey, record: Record) returns (r: Result)
      modifies this
      ensures Appends(scope, None, c, key, record, old(Value()), r, Value())
    {
      hide NextSequence, BuildRow, ExtractRecordId, ChainPrev, Appends;
      ghost var before := Value();
      var g := Group(scope, c);
      var k, payload := Key(g, key), Payload(record, scope);
      if k in rows {
        AppendExisting(scope, c, key, record, before);
        if rows[k].payloadHash == Some(PayloadHash(payload)) { return Stored(rows[k], false); }
        return Failure(DuplicateCanonicalKey);
      }
      var sequence, prev := 0, None;
      if ChainLinked(c) {
        sequence, prev := NextLink(g);
      } else {
        sequence := NextMutableSequence(g);
        MutableHasNoPrev(before, g);
      }
      var id := ExtractRecordId(c, record);
      if id.None? {
        // Only a transaction that catches this error keeps the empty head.
        AppendNameless(scope, c, key, record, before);
        return Failure(ValueError);
      }
      AppendNew(scope, c, key, record, before, id.value);
      var row := BuildRow(c, payload, id.value, prev, sequence);
      rows := rows[k := row];
      if ChainLinked(c) {
        assert heads[g := Head(sequence, Some(row.chainHash))] == before.heads[g := Head(sequence, Some(row.chainHash))];
        heads := heads[g := Head(sequence, Some(row.chainHash))];
      }
      r := Stored(row, true);
    }
  }

  class JsonEngine {
    /** The contents of the file, and inside a transaction the state that it works on and its locks. */
    var file: Store
    var active: StoreState?
    var locks: Option<LockContext>

    ghost predicate Consistent()
      reads this
    {
      active == null ==> locks.None?
    }

    ghost function View(): Store
      reads this, active
    {
      if active == null then file else active.Value()
    }

    constructor ()
      ensures file == EMPTY && active == null && locks.None? && Consistent()
    {
      file, active, locks := EMPTY, null, None;
    }

    /** _active_state: the transaction's state, or a fresh copy of the file. */
    method ActiveState() returns (state: StoreState)
      ensures state.Value() == View()
      ensures if active == null then fresh(state) else state == active
    {
      if active != null { return active; }
      state := new StoreState(file);
    }

    /** _append_scoped: check the locks, append to the active state, write the file outside a transaction. */
    method Append(scope: Scope, c: Collection, key: CKey, record: Record) returns (r: Result)
      requires Consistent()
      modifies this, active
      ensures active == old(active) && locks == old(locks)
      ensures active != null ==> file == old(file) && Appends(scope, locks, c, key, record, old(View()), r, View())
      ensures active == null ==> AppendsAlone(scope, locks, c, key, record, old(file), r, file)
    {
      hide Appends, AppendsAlone;
      ghost var before := View();
      if !WriteAllowed(locks, c, key) {
        RefusedAppend(scope, locks, c, key, record, before);
        return Failure(UndeclaredLockRef);
      }
      var state := ActiveState();
      r := state.Append(scope, c, key, record);
      AllowedAppend(scope, locks, c, key, record, before, r, state.Value());
      if active == null && r.Stored? && r.created { file := state.Value(); }
    }

    /** _compare_and_set_scoped and _json_cas: the existing row is updated field by field. */
    method CompareAndSet(scope: Scope, op: Op) returns (r: Result)
      requires Consistent() && op.CompareAndSet?
      modifies this, active
      ensures active == old(active) && locks == old(locks)
      ensures r == CasEffect(Session(scope, locks), op, old(View())).0
      ensures active != null ==>
        file == old(file) && View() == Overlay(old(View()), CasEffect(Session(scope, locks), op, old(View())).1)
      ensures active == null ==> file == Overlay(old(file), CasEffect(Session(scope, locks), op, old(View())).1)
    {
      ghost var before := View();
      OverlayEmpty(before);
      if !CasAllowed(op.coll) { return Failure(ValueError); }
      if op.expectedVersion.None? && op.expectedHash.None? { return Failure(ValueError); }
      if !WriteAllowed(locks, op.coll, op.ckey) { return Failure(UndeclaredLockRef); }
      var state := ActiveState();
      var k := Key(Group(scope, op.coll), op.ckey);
      if k !in state.rows { return Failure(ScopedRecordNotFound); }
      var existing := state.rows[k];
      if existing.linked { return Failure(TransactionUnavailable); }
      if op.expectedVersion.Some? && existing.version != op.expectedVersion.value { return Failure(VersionConflict); }
      if op.expectedHash.Some? && existing.payloadHash != op.expectedHash { return Failure(VersionConflict); }
      var previous, payload := existing, Payload(op.record, scope);
      var hash := ChainHash(None, op.coll, payload);
      existing := existing.(payload := payload);
      existing := existing.(payloadHash := Some(PayloadHash(payload)));
      existing := existing.(meta := ChainMeta(None, Some(hash), Some(existing.sequence), Some(false)));
      existing := existing.(chainHash := hash);
      existing := existing.(version := existing.version + 1);
      state.rows := state.rows[k := existing];
      assert state.Value() == Overlay(before, CasEffect(Session(scope, locks), op, before).1);
      if active == null { file := state.Value(); }
      r := Swapped(existing, previous);
    }

    method Get(scope: Scope, c: Collection, key: CKey) returns (r: Result)
      ensures r == Effect(Session(scope, locks), ScopedStore.Get(c, key), View()).0
    {
      var state := ActiveState();
      var k := Key(Group(scope, c), key);
      r := if k in state.rows then Found(state.rows[k]) else Failure(ScopedRecordNotFound);
    }

    /** _list_scoped: filter, sort by sequence number, cut out the page. */
    method List(scope: Scope, c: Collection, limit: int, offset: int) returns (r: Result)
      ensures offset < 0 || limit < 1 || limit > MAX_LIST_LIMIT ==> r == Failure(ValueError)
      ensures !(offset < 0 || limit < 1 || limit > MAX_LIST_LIMIT) ==>
        r.Listed? && SortedPage(GroupRows(View(), Group(scope, c)), limit, offset, r.rows)
      ensures Valid(View()) ==> r == Effect(Session(scope, locks), ScopedStore.List(c, limit, offset), View()).0
    {
      if offset < 0 { return Failure(ValueError); }
      if limit < 1 || limit > MAX_LIST_LIMIT { return Failure(ValueError); }
      var state := ActiveState();
      var rows := ListGroup(state.Value(), Group(scope, c), limit, offset);
      r := Listed(rows);
    }

    /** verify_scoped_chain always reads the file, also inside a transaction. */
    method Verify(scope: Scope, wanted: set<Collection>) returns (r: Result)
      ensures r == Effect(Session(scope, locks), VerifyScope(wanted), file).0
    {
      r := VerifyStore(file, scope, wanted);
    }

    /** One session call inside a transaction. */
    method Perform(scope: Scope, op: Op) returns (r: Result)
      requires Consistent() && active != null
      modifies this, active
      ensures active == old(active) && locks == old(locks) && file == old(file)
      ensures ValidStore(old(View())) ==> (r, View()) == FileAnswer(Session(scope, locks), op, file, old(View()))
    {
      hide Effect, AppendEffect, CasEffect, Valid, Overlay;
      ghost var ses, before := Session(scope, locks), View();
      AnswerOf(ses, op, before);
      match op
      case Get(c, key) => r := Get(scope, c, key);
      case List(c, limit, offset) => r := List(scope, c, limit, offset);
      case Append(c, key, record) => r := Append(scope, c, key, record);
      case CompareAndSet(_, _, _, _, _) => r := CompareAndSet(scope, op);
      case VerifyScope(wanted) => r := Verify(scope, wanted);
    }

    /** The entry of run_scoped_transaction: the file is copied into the active state. */
    method Enter(refs: seq<LockRef>)
      requires Consistent() && active == null
      modifies this
      ensures Consistent() && file == old(file) && locks == Some(ContextOf(refs))
      ensures active != null && fresh(active) && active.Value() == file
    {
      active := new StoreState(file);
      locks := Some(ContextOf(refs));
    }

    /** Its exit: the file is written if the body returned, and the transaction state is dropped either way. */
    method Leave(commit: bool)
      requires Consistent() && active != null
      modifies this
      ensures Consistent() && active == null && locks.None?
      ensures file == if commit then old(active.Value()) else old(file)
    {
      if commit { file := active.Value(); }
      active, locks := null, None;
    }

    /** run_scoped_transaction: the body works on a copy of the file, which replaces the file only when the
      * body returns. */
    method RunScopedTransaction(t: Txn) returns (out: Outcome)
      requires Consistent()
      modifies this
      ensures Consistent() && active == old(active) && locks == old(locks)
      ensures out.Aborted? ==> file == old(file)
      ensures old(active) != null ==> out.Aborted? && file == old(file)
      ensures old(active) == null && Valid(old(file)) ==> (out, file) == RunOnFile(t, old(file))
      ensures old(active) == null && Valid(old(file)) && VerifiesEarly(t.body, SessionOf(t), old(file), old(file), t.bound) ==>
        (out, file) == RunTransaction(t, old(file))
    {
      hide RunTransaction, VerifiesEarly, Effect, Valid, OnFile;
      ghost var before := file;
      if !InScope(t.scope, t.locks) {
        NotInScope(t, before);
        return Aborted(ValueError);
      }
      if active != null { return Aborted(TransactionUnavailable); }
      if VerifiesEarly(t.body, SessionOf(t), before, before, t.bound) { EarlyIsTransaction(t, before); }
      Enter(t.locks);
      var state := active;
      var p, n := t.body, t.bound;
      while p.Call? && n > 0
        invariant active == state && locks == Some(ContextOf(t.locks)) && file == before && n >= 0
        invariant ValidStore(before) ==>
          && ValidStore(state.Value())
          && OnFile(t.body, SessionOf(t), before, before, t.bound) == OnFile(p, SessionOf(t), before, state.Value(), n)
        decreases n
      {
        OneCall(p, SessionOf(t), before, state.Value(), n);
        var r := Perform(t.scope, p.op);
        p, n := p.next(r), n - 1;
      }
      Stopped(p, SessionOf(t), before, state.Value(), n);
      out := Conclude(p);
      Leave(out.Committed?);
    }
  }

  // ---------------------------------------------------------------- reads that both engines share

  /** The rows are a page of the group, ordered by sequence number with every row once. */
  ghost predicate SortedPage(m: map<Key, Row>, limit: nat, offset: nat, rows: seq<Row>) {
    exists keys :: Lists(m, keys) && AscendingBySequence(m, keys) && rows == Page(RowsAt(m, keys), limit, offset)
  }

  function RowsAt(m: map<Key, Row>, keys: seq<Key>): seq<Row>
    requires forall k :: k in keys ==> k in m
  {
    seq(|keys|, i requires 0 <= i < |keys| => m[keys[i]])
  }

  /** Filter the group, sort by sequence number, cut out the page. */
  method ListGroup(s: Store, g: Group, limit: nat, offset: nat) returns (rows: seq<Row>)
    ensures SortedPage(GroupRows(s, g), limit, offset, rows)
    ensures Valid(s) ==> rows == Page(Listing(GroupRows(s, g)), limit, offset)
  {
    var m := GroupRows(s, g);
    var keys := KeysIn(m);
    var sorted := SortBySequence(m, keys);
    SortOrders(m, keys);
    rows := Page(RowsAt(m, sorted), limit, offset);
    if Valid(s) {
      SortIsListing(s, g, keys);
      assert RowsAt(m, sorted) == Listing(m);
    }
  }

  /** Verification of one scope of a store, with the heads the caller looks up. */
  method VerifyStore(s: Store, scope: Scope, wanted: set<Collection>) returns (r: Result)
    ensures r == if Intact(s, ScopeFilter(scope)) then Heads(VerifiedHeads(s, scope, wanted)) else Failure(LedgerIntegrityError)
  {
    var ok, heads := VerifyState(s, ScopeFilter(scope));
    if !ok { return Failure(LedgerIntegrityError); }
    r := Heads(map c | c in wanted && ChainLinked(c) && Group(scope, c) in heads && heads[Group(scope, c)].Some?
                 :: heads[Group(scope, c)].value);
    HeadsAgree(s, scope, wanted, heads);
  }

  method KeysIn(m: map<Key, Row>) returns (keys: seq<Key>)
    ensures Lists(m, keys)
  {
    keys := [];
    var todo := m.Keys;
    while todo != {}
      invariant todo <= m.Keys && NoRepeats(keys)
      invariant forall k :: k in keys <==> k in m.Keys - todo
    {
      var k :| k in todo;
      assert k !in keys && forall j :: 0 <= j < |keys| ==> keys[j] in keys;
      keys := keys + [k];
      todo := todo - {k};
    }
  }

  lemma SortIsListing(s: Store, g: Group, keys: seq<Key>)
    requires Valid(s) && Lists(GroupRows(s, g), keys)
    ensures SortBySequence(GroupRows(s, g), keys) == SortedKeys(GroupRows(s, g))
  {
    hide Valid, AscendingBySequence, IsChain, HeadOk, NextSequence, SortBySequence, ChainVerifier.NoRepeats, SortedKeys, GroupRows;
    var m, ks := GroupRows(s, g), Order(s, g);
    SortOrders(m, keys);
    SortFindsListing(m, ks, SortBySequence(m, keys), 1);
  }

  /** The heads a successful verification reports are the head hashes of the chains that have one. */
  lemma HeadsAgree(s: Store, scope: Scope, wanted: set<Collection>, heads: map<Group, Option<ChainHash>>)
    requires Intact(s, ScopeFilter(scope))
    requires forall g :: g in heads <==> ChainLinked(g.coll) && Selects(ScopeFilter(scope), g) && exists k :: k in s.rows && k.group == g
    requires forall g :: g in heads ==> g in s.heads && heads[g] == s.heads[g].hash
    ensures VerifiedHeads(s, scope, wanted)
      == map c | c in wanted && ChainLinked(c) && Group(scope, c) in heads && heads[Group(scope, c)].Some? :: heads[Group(scope, c)].value
  {
    forall c | c in wanted && ChainLinked(c) && Group(scope, c) in s.heads && s.heads[Group(scope, c)].hash.Some?
      ensures Group(scope, c) in heads
    {
      HeadNeedsRow(s, Group(scope, c));
    }
  }

  lemma HeadNeedsRow(s: Store, g: Group)
    requires ChainEndsIn(g.coll, GroupRows(s, g), HeadOf(s, g)) && g in s.heads && s.heads[g].hash.Some?
    ensures exists k :: k in s.rows && k.group == g
  {
    var ks :| IsChain(g.coll, GroupRows(s, g), ks) && HeadOk(HeadOf(s, g), GroupRows(s, g), ks);
    assert ks[0] in GroupRows(s, g);
  }
}
