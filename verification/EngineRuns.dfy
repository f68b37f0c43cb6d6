/** Whole runs of the two engines: they answer alike and hold the same store as one abstract store as long as no
  * append clashes on a record id; so always, when different keys of a group have different record ids. */
module EngineRuns {
  import opened Signing
  import opened Models
  import opened ScopedStore
  import opened ScopedInvariant
  import opened Locks
  import opened Sessions
  import opened ScopedEngine
  import opened SqliteEngine
  import opened VerifierGap

  /** One operation outside a transaction, or a transaction. */
  datatype Request = Operation(scope: Scope, op: Op) | InTransaction(txn: Txn)

  datatype Reply = Answered(result: Result) | Ended(outcome: Outcome)

  // ---------------------------------------------------------------- the abstract store

  /** An operation on its own: an error changes nothing. */
  ghost function Alone(scope: Scope, op: Op, s: Store): (Result, Store) {
    var (r, d) := Effect(Session(scope, None), op, s);
    (r, if r.Failure? then s else Overlay(s, d))
  }

  ghost function Serve(q: Request, s: Store): (Reply, Store) {
    match q
    case Operation(scope, op) => var (r, s') := Alone(scope, op, s); (Answered(r), s')
    case InTransaction(t) => var (out, s') := RunOnFile(t, s); (Ended(out), s')
  }

  /** The replies to a list of requests and the store they leave. */
  ghost function Run(requests: seq<Request>, s: Store): (seq<Reply>, Store) {
    if requests == [] then ([], s)
    else
      var (replies, before) := Run(requests[..|requests| - 1], s);
      var (r, after) := Serve(requests[|requests| - 1], before);
      (replies + [r], after)
  }

  lemma {:induction false} OnFileKeepsValid(p: Prog, ses: Session, base: Store, s: Store, n: nat)
    requires Valid(s)
    ensures Valid(OnFile(p, ses, base, s, n).1)
    decreases n
  {
    hide Valid, FileAnswer;
    if n > 0 && p.Call? {
      var (r, s') := FileAnswer(ses, p.op, base, s);
      OneCall(p, ses, base, s, n);
      OnFileKeepsValid(p.next(r), ses, base, s', n - 1);
    }
  }

  lemma ServeKeepsValid(q: Request, s: Store)
    requires Valid(s)
    ensures Valid(Serve(q, s).1)
  {
    hide Effect, Valid, Overlay, OnFile;
    match q
    case Operation(scope, op) => EffectKeepsValid(Session(scope, None), op, s);
    case InTransaction(t) => OnFileKeepsValid(t.body, SessionOf(t), s, s, t.bound);
  }

  lemma {:induction false} RunKeepsValid(requests: seq<Request>, s: Store)
    requires Valid(s)
    ensures Valid(Run(requests, s).1)
    decreases |requests|
  {
    hide Serve, Valid;
    if requests != [] {
      RunKeepsValid(requests[..|requests| - 1], s);
      ServeKeepsValid(requests[|requests| - 1], Run(requests[..|requests| - 1], s).1);
    }
  }

  // ---------------------------------------------------------------- what SQLite does instead

  /** The append inserts a row that a unique index of SQLite refuses. */
  ghost predicate OpClashes(scope: Scope, op: Op, s: Store) {
    op.Append? && InsertClashes(scope, op.coll, op.ckey, op.record, s)
  }

  ghost function SqliteAlone(scope: Scope, op: Op, s: Store): (Result, Store) {
    if OpClashes(scope, op, s) then (Failure(IntegrityError), s) else Alone(scope, op, s)
  }

  ghost function SqliteServe(q: Request, s: Store): (Reply, Store) {
    match q
    case Operation(scope, op) => var (r, s') := SqliteAlone(scope, op, s); (Answered(r), s')
    case InTransaction(t) => var (out, s') := SqlRunOnFile(t, s); (Ended(out), s')
  }

  ghost function SqliteRun(requests: seq<Request>, s: Store): (seq<Reply>, Store) {
    if requests == [] then ([], s)
    else
      var (replies, before) := SqliteRun(requests[..|requests| - 1], s);
      var (r, after) := SqliteServe(requests[|requests| - 1], before);
      (replies + [r], after)
  }

  /** A record id that is stored under another key of the group. */
  ghost predicate IdInUse(scope: Scope, op: Op, s: Store)
    requires op.Append?
  {
    var g := Group(scope, op.coll);
    && Key(g, op.ckey) !in s.rows
    && ExtractRecordId(op.coll, op.record).Some?
    && exists k :: k in s.rows && k.group == g && s.rows[k].recordId == ExtractRecordId(op.coll, op.record).value
  }

  /** On a valid store the engines answer an operation differently exactly when it appends a new key whose record
    * id is in use. */
  lemma AnswersDifferExactly(scope: Scope, op: Op, s: Store)
    requires Valid(s)
    ensures SqliteAlone(scope, op, s).0 != Alone(scope, op, s).0 <==> op.Append? && IdInUse(scope, op, s)
    ensures SqliteAlone(scope, op, s).1 != Alone(scope, op, s).1 ==> op.Append? && IdInUse(scope, op, s)
  {
    hide Valid, NextSequence, ChainPrev, ExtractRecordId, BuildRow, Intact, VerifiedHeads, Listing;
    if op.Append? && ExtractRecordId(op.coll, op.record).Some? {
      OnlyRecordIdsClash(s, Group(scope, op.coll), ExtractRecordId(op.coll, op.record).value);
    }
  }

  /** The operation clashes, or some call of the transaction does. */
  ghost predicate Clash(q: Request, s: Store) {
    match q
    case Operation(scope, op) => OpClashes(scope, op, s)
    case InTransaction(t) => InScope(t.scope, t.locks) && !Smooth(t.body, SessionOf(t), s, s, t.bound)
  }

  /** No request of the run clashes when its turn comes. */
  ghost predicate ClashFree(requests: seq<Request>, s: Store) {
    forall n :: 0 <= n < |requests| ==> !Clash(requests[n], Run(requests[..n], s).1)
  }

  lemma ClashFreePrefix(requests: seq<Request>, s: Store)
    requires requests != []
    ensures
      var shorter := requests[..|requests| - 1];
      ClashFree(requests, s) <==> ClashFree(shorter, s) && !Clash(requests[|requests| - 1], Run(shorter, s).1)
  {
    hide Clash, Run;
    var shorter := requests[..|requests| - 1];
    assert forall n :: 0 <= n < |shorter| ==> shorter[..n] == requests[..n] && shorter[n] == requests[n];
    if ClashFree(shorter, s) && !Clash(requests[|requests| - 1], Run(shorter, s).1) {
      forall n | 0 <= n < |requests| ensures !Clash(requests[n], Run(requests[..n], s).1) {
        if n < |shorter| { assert !Clash(shorter[n], Run(shorter[..n], s).1); }
      }
    }
    if ClashFree(requests, s) {
      forall n | 0 <= n < |shorter| ensures !Clash(shorter[n], Run(shorter[..n], s).1) {
        assert !Clash(requests[n], Run(requests[..n], s).1);
      }
    }
  }

  /** Without a clash the engines give the same replies to a whole run and end in the same store; and if the run
    * has no transactions, whose bodies may hide an error, they give the same replies only then. */
  lemma {:induction false} RunsAgreeExactly(requests: seq<Request>, s: Store)
    requires Valid(s)
    ensures ClashFree(requests, s) ==> SqliteRun(requests, s) == Run(requests, s)
    ensures (forall i :: 0 <= i < |requests| ==> requests[i].Operation?) ==>
      (SqliteRun(requests, s).0 == Run(requests, s).0 <==> ClashFree(requests, s))
    ensures |Run(requests, s).0| == |SqliteRun(requests, s).0| == |requests|
    decreases |requests|
  {
    hide Valid, Serve, SqliteServe, ClashFree, Clash;
    if requests == [] {
      assert ClashFree(requests, s) by { NoRequests(s); }
    } else {
      var shorter, last := requests[..|requests| - 1], requests[|requests| - 1];
      RunsAgreeExactly(shorter, s);
      ClashFreePrefix(requests, s);
      RunKeepsValid(shorter, s);
      ClashesShow(last, Run(shorter, s).1);
      var here, there := Run(requests, s).0, SqliteRun(requests, s).0;
      assert here[..|shorter|] == Run(shorter, s).0 && there[..|shorter|] == SqliteRun(shorter, s).0;
      if here == there { assert here[|shorter|] == there[|shorter|]; }
    }
  }

  lemma NoRequests(s: Store)
    ensures ClashFree([], s)
  {
  }

  lemma ClashesShow(q: Request, s: Store)
    ensures q.Operation? && Clash(q, s) ==> SqliteServe(q, s).0 != Serve(q, s).0
    ensures !Clash(q, s) ==> SqliteServe(q, s) == Serve(q, s)
  {
    hide Valid, NextSequence, ChainPrev, ExtractRecordId, BuildRow, Intact, VerifiedHeads, Listing, Smooth, RunOnFile, SqlRunOnFile;
    if q.InTransaction? && !Clash(q, s) { SmoothIsTransaction(q.txn, s); }
  }

  // ---------------------------------------------------------------- different record ids

  /** Which record ids a caller uses for which keys. */
  type Naming = (Key, RecordId) -> bool

  /** Different keys of one group never have the same identifier. */
  ghost predicate Apart(naming: Naming) {
    forall k: Key, k': Key, id :: k.group == k'.group && naming(k, id) && naming(k', id) ==> k == k'
  }

  predicate OpNamed(naming: Naming, scope: Scope, op: Op) {
    op.Append? && ExtractRecordId(op.coll, op.record).Some? ==>
      naming(Key(Group(scope, op.coll), op.ckey), ExtractRecordId(op.coll, op.record).value)
  }

  /** Every append that the body can make uses an identifier of its key. */
  ghost predicate BodyNamed(naming: Naming, scope: Scope, p: Prog, n: nat)
    decreases n
  {
    n > 0 && p.Call? ==> OpNamed(naming, scope, p.op) && forall res :: BodyNamed(naming, scope, p.next(res), n - 1)
  }

  ghost predicate RequestNamed(naming: Naming, q: Request) {
    match q
    case Operation(scope, op) => OpNamed(naming, scope, op)
    case InTransaction(t) => BodyNamed(naming, t.scope, t.body, t.bound)
  }

  /** All requests use the naming, which keeps the keys of a group apart. */
  ghost predicate DistinctIds(naming: Naming, requests: seq<Request>) {
    Apart(naming) && forall i :: 0 <= i < |requests| ==> RequestNamed(naming, requests[i])
  }

  /** Every row's record id is one of its key. */
  ghost predicate RowsNamed(naming: Naming, s: Store) {
    forall k :: k in s.rows ==> naming(k, s.rows[k].recordId)
  }

  lemma NewRowIsNamed(naming: Naming, ses: Session, op: Op, s: Store)
    requires OpNamed(naming, ses.scope, op) && RowsNamed(naming, s)
    ensures RowsNamed(naming, Overlay(s, Effect(ses, op, s).1))
  {
    hide NextSequence, ChainPrev, ExtractRecordId, Intact, VerifiedHeads, Listing;
    var s' := Overlay(s, Effect(ses, op, s).1);
    forall k | k in s'.rows ensures naming(k, s'.rows[k].recordId) {
      match op
      case Append(c, key, record) =>
        assert Effect(ses, op, s) == AppendEffect(ses, c, key, record, s);
        assert k in s.rows ==> naming(k, s.rows[k].recordId);
      case CompareAndSet(_, _, _, _, _) =>
        assert Effect(ses, op, s) == CasEffect(ses, op, s);
        assert k in s.rows && s'.rows[k].recordId == s.rows[k].recordId;
      case _ => assert k in s.rows && s'.rows[k] == s.rows[k];
    }
  }

  /** An append under the naming finds its identifier in use under its own key only. */
  lemma NamedNeverClashes(naming: Naming, scope: Scope, op: Op, s: Store)
    requires Apart(naming) && OpNamed(naming, scope, op) && RowsNamed(naming, s) && Valid(s)
    ensures !OpClashes(scope, op, s)
  {
    hide Valid, NextSequence, ExtractRecordId;
    if op.Append? && ExtractRecordId(op.coll, op.record).Some? && Key(Group(scope, op.coll), op.ckey) !in s.rows {
      var g, id := Group(scope, op.coll), ExtractRecordId(op.coll, op.record).value;
      OnlyRecordIdsClash(s, g, id);
      forall k | k in s.rows && k.group == g ensures s.rows[k].recordId != id {
        assert naming(k, s.rows[k].recordId);
      }
    }
  }

  lemma NamedCall(naming: Naming, ses: Session, op: Op, base: Store, s: Store)
    requires Apart(naming) && OpNamed(naming, ses.scope, op) && RowsNamed(naming, s) && Valid(s)
    ensures !CallClashes(ses, op, s)
    ensures Valid(FileAnswer(ses, op, base, s).1) && RowsNamed(naming, FileAnswer(ses, op, base, s).1)
  {
    hide Valid, Effect, InsertClashes, Apart, OpNamed, Overlay, RowsNamed;
    NamedNeverClashes(naming, ses.scope, op, s);
    NewRowIsNamed(naming, ses, op, s);
    EffectKeepsValid(ses, op, s);
  }

  lemma {:induction false} NamedBodyIsSmooth(naming: Naming, p: Prog, ses: Session, base: Store, s: Store, n: nat)
    requires Apart(naming) && BodyNamed(naming, ses.scope, p, n) && RowsNamed(naming, s) && Valid(s)
    ensures Smooth(p, ses, base, s, n) && RowsNamed(naming, OnFile(p, ses, base, s, n).1)
    decreases n
  {
    hide Valid, FileAnswer, CallClashes, Apart, OpNamed, RowsNamed;
    if n > 0 && p.Call? {
      var (r, s') := FileAnswer(ses, p.op, base, s);
      NamedCall(naming, ses, p.op, base, s);
      NamedBodyIsSmooth(naming, p.next(r), ses, base, s', n - 1);
    }
  }

  lemma NamedRequest(naming: Naming, q: Request, s: Store)
    requires Apart(naming) && RequestNamed(naming, q) && RowsNamed(naming, s) && Valid(s)
    ensures !Clash(q, s) && RowsNamed(naming, Serve(q, s).1)
  {
    hide Valid, Effect, InsertClashes, Apart, OpNamed, BodyNamed, Overlay, Smooth, OnFile, RowsNamed;
    match q
    case Operation(scope, op) =>
      NamedNeverClashes(naming, scope, op, s);
      NewRowIsNamed(naming, Session(scope, None), op, s);
    case InTransaction(t) => NamedBodyIsSmooth(naming, t.body, SessionOf(t), s, s, t.bound);
  }

  lemma {:induction false} RunIsNamed(naming: Naming, requests: seq<Request>, s: Store)
    requires DistinctIds(naming, requests) && RowsNamed(naming, s) && Valid(s)
    ensures RowsNamed(naming, Run(requests, s).1)
    decreases |requests|
  {
    hide Serve, RequestNamed, Apart, RowsNamed, Valid;
    if requests != [] {
      var shorter := requests[..|requests| - 1];
      RunIsNamed(naming, shorter, s);
      RunKeepsValid(shorter, s);
      NamedRequest(naming, requests[|requests| - 1], Run(shorter, s).1);
    }
  }

  /** With different record ids nothing ever clashes. */
  lemma DistinctIdsNeverClash(naming: Naming, requests: seq<Request>, s: Store)
    requires DistinctIds(naming, requests) && RowsNamed(naming, s) && Valid(s)
    ensures ClashFree(requests, s)
  {
    hide Run, Valid, RequestNamed, Apart, RowsNamed, Clash;
    forall n | 0 <= n < |requests| ensures !Clash(requests[n], Run(requests[..n], s).1) {
      RunKeepsValid(requests[..n], s);
      RunIsNamed(naming, requests[..n], s);
      NamedRequest(naming, requests[n], Run(requests[..n], s).1);
    }
  }

  // ---------------------------------------------------------------- the engines

  lemma AloneCases(scope: Scope, op: Op, s: Store)
    ensures
      var ses := Session(scope, None);
      match op
      case Append(c, key, record) =>
        var (r, d) := AppendEffect(ses, c, key, record, s);
        Alone(scope, op, s) == (r, if r.Failure? then s else Overlay(s, d)) && (r.Stored? || r.Failure?)
      case CompareAndSet(_, _, _, _, _) => Alone(scope, op, s) == (CasEffect(ses, op, s).0, Overlay(s, CasEffect(ses, op, s).1))
      case _ => Alone(scope, op, s) == (Effect(ses, op, s).0, s)
  {
    hide NextSequence, ChainPrev, ExtractRecordId, BuildRow, Intact, VerifiedHeads, Listing;
    OverlayEmpty(s);
  }

  method JsonAnswer(engine: JsonEngine, scope: Scope, op: Op) returns (r: Result)
    requires engine.Consistent() && engine.active == null && Valid(engine.file)
    modifies engine
    ensures engine.Consistent() && engine.active == null
    ensures (r, engine.file) == Alone(scope, op, old(engine.file))
  {
    hide Valid, Effect, AppendEffect, CasEffect, Overlay;
    AloneCases(scope, op, engine.file);
    match op
    case Get(c, key) => r := engine.Get(scope, c, key);
    case List(c, limit, offset) => r := engine.List(scope, c, limit, offset);
    case Append(c, key, record) => r := engine.Append(scope, c, key, record);
    case CompareAndSet(_, _, _, _, _) => r := engine.CompareAndSet(scope, op);
    case VerifyScope(wanted) => r := engine.Verify(scope, wanted);
  }

  method JsonServe(engine: JsonEngine, q: Request) returns (r: Reply)
    requires engine.Consistent() && engine.active == null && Valid(engine.file)
    modifies engine
    ensures engine.Consistent() && engine.active == null && Valid(engine.file)
    ensures (r, engine.file) == Serve(q, old(engine.file))
  {
    hide Valid, Alone, RunOnFile;
    ServeKeepsValid(q, engine.file);
    match q
    case Operation(scope, op) =>
      var answer := JsonAnswer(engine, scope, op);
      r := Answered(answer);
    case InTransaction(t) =>
      var out := engine.RunScopedTransaction(t);
      r := Ended(out);
  }

  method SqliteAnswer(engine: SqliteEngine, scope: Scope, op: Op) returns (r: Result)
    requires engine.saved.None? && engine.locks.None? && Valid(engine.View())
    modifies engine
    ensures engine.saved.None? && engine.locks.None?
    ensures (r, engine.View()) == SqliteAlone(scope, op, old(engine.View()))
  {
    hide Valid, Effect, AppendEffect, CasEffect, Overlay, InsertClashes, ClaimsLinked, ToStore;
    AloneCases(scope, op, engine.View());
    match op
    case Get(c, key) => r := engine.Get(scope, c, key);
    case List(c, limit, offset) => r := engine.List(scope, c, limit, offset);
    case Append(c, key, record) => r := engine.Append(scope, c, key, record);
    case CompareAndSet(c, key, _, _, _) =>
      if CasAllowed(c) { ValidNeverClaimsLinked(engine.tables, Key(Group(scope, c), key)); }
      r := engine.CompareAndSet(scope, op);
    case VerifyScope(wanted) => r := engine.Verify(scope, wanted);
  }

  lemma {:induction false} SqlOnFileKeepsValid(p: Prog, ses: Session, base: Store, s: Store, n: nat)
    requires Valid(s)
    ensures Valid(SqlOnFile(p, ses, base, s, n).1)
    decreases n
  {
    hide Valid, SqlAnswer;
    if n > 0 && p.Call? {
      var (r, s') := SqlAnswer(ses, p.op, base, s);
      OneSqlCall(p, ses, base, s, n);
      SqlOnFileKeepsValid(p.next(r), ses, base, s', n - 1);
    }
  }

  lemma SqliteServeKeepsValid(q: Request, s: Store)
    requires Valid(s)
    ensures Valid(SqliteServe(q, s).1)
  {
    hide Effect, Valid, Overlay, SqlOnFile, OpClashes;
    match q
    case Operation(scope, op) => EffectKeepsValid(Session(scope, None), op, s);
    case InTransaction(t) => SqlOnFileKeepsValid(t.body, SessionOf(t), s, s, t.bound);
  }

  method SqliteReply(engine: SqliteEngine, q: Request) returns (r: Reply)
    requires engine.saved.None? && engine.locks.None? && Valid(engine.View())
    modifies engine
    ensures engine.saved.None? && engine.locks.None? && Valid(engine.View())
    ensures (r, engine.View()) == SqliteServe(q, old(engine.View()))
  {
    hide Valid, SqliteAlone, SqlRunOnFile;
    SqliteServeKeepsValid(q, engine.View());
    match q
    case Operation(scope, op) =>
      var answer := SqliteAnswer(engine, scope, op);
      r := Answered(answer);
    case InTransaction(t) =>
      var out := engine.RunScopedTransaction(t);
      r := Ended(out);
  }

  /** Both engines, new, given the same requests: the JSON engine follows the abstract store, and when different
    * keys of a group have different record ids the SQLite engine gives the same replies and holds the same rows
    * and heads. */
  method RunBoth(requests: seq<Request>, ghost naming: Naming)
    returns (json: JsonEngine, sqlite: SqliteEngine, here: seq<Reply>, there: seq<Reply>)
    ensures (here, json.file) == Run(requests, EMPTY)
    ensures (there, sqlite.View()) == SqliteRun(requests, EMPTY)
    ensures ClashFree(requests, EMPTY) ==> here == there && json.file == sqlite.View()
    ensures (forall i :: 0 <= i < |requests| ==> requests[i].Operation?) ==> (here == there <==> ClashFree(requests, EMPTY))
    ensures DistinctIds(naming, requests) ==> here == there && json.file == sqlite.View() == AsSqlite(json.file)
  {
    hide Valid, Serve, SqliteServe, ClashFree, DistinctIds, AsSqlite;
    EmptyIsValid();
    json := new JsonEngine();
    sqlite := new SqliteEngine();
    here, there := [], [];
    for i := 0 to |requests|
      invariant fresh(json) && fresh(sqlite) && json.Consistent() && json.active == null
      invariant sqlite.saved.None? && sqlite.locks.None?
      invariant Valid(json.file) && Valid(sqlite.View())
      invariant (here, json.file) == Run(requests[..i], EMPTY)
      invariant (there, sqlite.View()) == SqliteRun(requests[..i], EMPTY)
    {
      assert requests[..i + 1][..i] == requests[..i];
      var r := JsonServe(json, requests[i]);
      here := here + [r];
      r := SqliteReply(sqlite, requests[i]);
      there := there + [r];
    }
    assert requests[..|requests|] == requests;
    RunsAgreeExactly(requests, EMPTY);
    ValidStoresAgree(json.file, Filter(None, None, None));
    if DistinctIds(naming, requests) { DistinctIdsNeverClash(naming, requests, EMPTY); }
  }

  // ---------------------------------------------------------------- the clash is real

  function SharedClaim(key: Id): Request {
    Operation(Scope("t", "p"), Append(Claims, Name(key), OtherRecord(map[Claims := "id"], "")))
  }

  function ClaimKey(key: Id): Key {
    Key(Group(Scope("t", "p"), Claims), Name(key))
  }

  lemma StoresClaim(key: Id, s: Store)
    requires ClaimKey(key) !in s.rows
    ensures
      var (reply, s') := Serve(SharedClaim(key), s);
      && reply.Answered? && reply.result.Stored? && reply.result.created
      && s'.rows == s.rows[ClaimKey(key) := reply.result.row] && reply.result.row.recordId == PlainId("id")
  {
    hide NextSequence, ChainPrev;
    AloneCases(Scope("t", "p"), SharedClaim(key).op, s);
  }

  lemma OneMoreRequest(requests: seq<Request>, q: Request, s: Store)
    ensures
      var (replies, s1) := Run(requests, s);
      Run(requests + [q], s) == (replies + [Serve(q, s1).0], Serve(q, s1).1)
    ensures
      var (replies, s1) := SqliteRun(requests, s);
      SqliteRun(requests + [q], s) == (replies + [SqliteServe(q, s1).0], SqliteServe(q, s1).1)
  {
    hide Serve, SqliteServe;
    assert (requests + [q])[..|requests|] == requests;
  }

  lemma RunOfTwo(a: Request, b: Request, s: Store)
    ensures
      var (r1, s1) := Serve(a, s);
      Run([a, b], s).0 == [r1, Serve(b, s1).0] && Run([a, b], s).1 == Serve(b, s1).1
    ensures
      var (r1, s1) := SqliteServe(a, s);
      SqliteRun([a, b], s).0 == [r1, SqliteServe(b, s1).0] && SqliteRun([a, b], s).1 == SqliteServe(b, s1).1
  {
    hide Serve, SqliteServe, Run, SqliteRun;
    OneRequest(a, s);
    OneMoreRequest([a], b, s);
    assert [a] + [b] == [a, b];
  }

  lemma OneRequest(q: Request, s: Store)
    ensures Run([q], s).0 == [Serve(q, s).0] && Run([q], s).1 == Serve(q, s).1
    ensures SqliteRun([q], s).0 == [SqliteServe(q, s).0] && SqliteRun([q], s).1 == SqliteServe(q, s).1
  {
    hide Serve, SqliteServe;
    OneMoreRequest([], q, s);
    assert [] + [q] == [q];
  }

  lemma ClashIsRefused(key: Id, s: Store)
    ensures Clash(SharedClaim(key), s) ==> SqliteServe(SharedClaim(key), s) == (Answered(Failure(IntegrityError)), s)
    ensures !Clash(SharedClaim(key), s) ==> SqliteServe(SharedClaim(key), s) == Serve(SharedClaim(key), s)
  {
    hide InsertClashes, Effect;
  }

  /** Two claims under different keys with one identifier: JSON stores both, SQLite refuses the second. */
  lemma SharedIdSplitsEngines()
    ensures
      var (here, s) := Run([SharedClaim("a"), SharedClaim("b")], EMPTY);
      var (there, t) := SqliteRun([SharedClaim("a"), SharedClaim("b")], EMPTY);
      && |here| == |there| == 2 && here[0] == there[0]
      && here[1].Answered? && here[1].result.Stored? && here[1].result.created && there[1] == Answered(Failure(IntegrityError))
      && ClaimKey("b") in s.rows && ClaimKey("b") !in t.rows
  {
    hide Serve, SqliteServe, NextSequence, Run, SqliteRun;
    assert "a"[0] != "b"[0];
    var s1 := Serve(SharedClaim("a"), EMPTY).1;
    StoresClaim("a", EMPTY);
    StoresClaim("b", s1);
    assert ExtractRecordId(Claims, OtherRecord(map[Claims := "id"], "")) == Some(PlainId("id"));
    assert !Clash(SharedClaim("a"), EMPTY);
    assert ClaimKey("a") in s1.rows && Clash(SharedClaim("b"), s1);
    ClashIsRefused("a", EMPTY);
    ClashIsRefused("b", s1);
    RunOfTwo(SharedClaim("a"), SharedClaim("b"), EMPTY);
  }
}
