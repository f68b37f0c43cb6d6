/** Which transactions and writes on mutable collections are serial on PostgreSQL.
  *
  * A mutable row's sequence number is the largest in its collection plus one, read under a lock on the row's
  * own key only, so two transactions that share no lock can both take the same number.  That is the only way
  * in which transactions and standalone writes go wrong: any mix of them is serial under every schedule if and
  * only if no two of its jobs race.
  */
module MutableRace {
  import opened Signing
  import opened Models
  import opened ScopedStore
  import opened ScopedInvariant
  import opened Locks
  import opened Sessions
  import opened SessionRules
  import opened Concurrency
  import opened Serializability
  import opened ProtocolLocks

  /** A scoped transaction with the rows it inserts into mutable collections, or a write outside a transaction
    * under its implicit locks. */
  datatype Job =
    | Transaction(txn: Txn, inserts: Inserts)
    | Write(scope: Scope, coll: Collection, key: CKey, record: Record)
    | Swap(scope: Scope, coll: Collection, key: CKey, record: Record, version: Option<int>, hash: Option<PayloadHash>)

  /** A compare-and-set that answers with the record now stored. */
  function SwapBody(c: Collection, key: CKey, record: Record, version: Option<int>, hash: Option<PayloadHash>): Prog {
    Call(CompareAndSet(c, key, record, version, hash), (res: Result) =>
      match res
      case Swapped(row, _) => Return(row.payload.record)
      case Failure(e) => Raise(e)
      case _ => Raise(KeyError))
  }

  function TxnOf(job: Job): Txn {
    match job
    case Transaction(t, _) => t
    case Write(scope, c, key, record) => WriteTxn(scope, c, key, record)
    case Swap(scope, c, key, record, version, hash) =>
      Txn(scope, ImplicitLocks(scope, c, key), SwapBody(c, key, record, version, hash), 1)
  }

  function TxnsOf(jobs: seq<Job>): seq<Txn> {
    seq(|jobs|, i requires 0 <= i < |jobs| => TxnOf(jobs[i]))
  }

  /** The rows that the job may insert into mutable collections; a record without an identifier is never stored. */
  function InsertsOf(job: Job): Inserts {
    match job
    case Transaction(_, inserts) => inserts
    case Write(_, c, key, record) => if CasAllowed(c) && ExtractRecordId(c, record).Some? then {(c, key)} else {}
    case Swap(_, _, _, _, _, _) => {}
  }

  /** Both jobs insert a new row, under different keys, into one mutable collection of one scope, and share no lock. */
  ghost predicate Races(a: Job, b: Job, s: Store) {
    exists x, y :: x in InsertsOf(a) && y in InsertsOf(b) && Contend(TxnOf(a), x, TxnOf(b), y, s)
  }

  ghost predicate Contended(jobs: seq<Job>, s: Store) {
    exists i, j :: 0 <= i < j < |jobs| && Races(jobs[i], jobs[j], s)
  }

  /** The key is new to a mutable collection. */
  predicate NewKey(t: Txn, x: (Collection, CKey), s: Store) {
    CasAllowed(x.0) && Key(Group(t.scope, x.0), x.1) !in s.rows
  }

  /** Run alone on s, the transaction commits and inserts this row. */
  ghost predicate InsertsAlone(t: Txn, x: (Collection, CKey), s: Store) {
    RunTransaction(t, s).0.Committed? && Key(Group(t.scope, x.0), x.1) in RunTransaction(t, s).1.rows
  }

  /** The transaction has the locks it needs, inserts nothing into mutable collections beyond the declared rows,
    * and does insert the new ones among these when it runs alone. */
  ghost predicate Declares(t: Txn, inserts: Inserts, s: Store) {
    && Disciplined(ContextOf(t.locks), inserts, t.body, t.bound)
    && forall x :: x in inserts && NewKey(t, x, s) ==> InsertsAlone(t, x, s)
  }

  ghost predicate AllDeclared(jobs: seq<Job>, s: Store) {
    forall i :: 0 <= i < |jobs| && jobs[i].Transaction? ==> Declares(jobs[i].txn, jobs[i].inserts, s)
  }

  /** A transaction with enough locks that reads mutable rows or swaps them, but inserts none, declares nothing. */
  lemma LockedStepDeclares(t: Txn, s: Store)
    requires StepLocked(t)
    ensures Declares(t, {}, s)
  {
    WellLockedIsDisciplined(false, ContextOf(t.locks), t.body, t.bound);
  }

  // ---------------------------------------------------------------- without a race

  lemma JobIsDisciplined(job: Job, s: Store)
    requires job.Transaction? ==> Declares(job.txn, job.inserts, s)
    ensures Disciplined(ContextOf(TxnOf(job).locks), InsertsOf(job), TxnOf(job).body, TxnOf(job).bound)
  {
    hide ExtractRecordId, ContextOf;
    var t := TxnOf(job);
    if !job.Transaction? {
      forall res ensures Covered(ContextOf(t.locks), InsertsOf(job), t.body.op, res) {}
    }
  }

  lemma NoRaceEitherWay(jobs: seq<Job>, s: Store, i: nat, j: nat)
    requires !Contended(jobs, s) && i < |jobs| && j < |jobs| && i != j
    ensures !Races(jobs[i], jobs[j], s)
  {
    RacesIsSymmetric(jobs[i], jobs[j], s);
    assert i < j ==> !Races(jobs[i], jobs[j], s);
    assert j < i ==> !Races(jobs[j], jobs[i], s);
  }

  lemma RacesIsSymmetric(a: Job, b: Job, s: Store)
    ensures Races(a, b, s) <==> Races(b, a, s)
  {
    if x, y :| x in InsertsOf(a) && y in InsertsOf(b) && Contend(TxnOf(a), x, TxnOf(b), y, s) {
      assert Contend(TxnOf(b), y, TxnOf(a), x, s);
    }
    if y, x :| y in InsertsOf(b) && x in InsertsOf(a) && Contend(TxnOf(b), y, TxnOf(a), x, s) {
      assert Contend(TxnOf(a), x, TxnOf(b), y, s);
    }
  }

  lemma JobsAreDisciplined(jobs: seq<Job>, s: Store)
    requires AllDeclared(jobs, s) && !Contended(jobs, s)
    ensures AllDisciplined(TxnsOf(jobs), seq(|jobs|, i requires 0 <= i < |jobs| => InsertsOf(jobs[i])), s)
  {
    hide Disciplined, Declares, InsertsOf, TxnOf, Contend, Contended, ContextOf;
    var txns, inserts := TxnsOf(jobs), seq(|jobs|, i requires 0 <= i < |jobs| => InsertsOf(jobs[i]));
    forall i | 0 <= i < |txns| ensures Disciplined(ContextOf(txns[i].locks), inserts[i], txns[i].body, txns[i].bound) {
      JobIsDisciplined(jobs[i], s);
    }
    forall i, j, a, b | 0 <= i < |txns| && 0 <= j < |txns| && i != j && a in inserts[i] && b in inserts[j]
      ensures !Contend(txns[i], a, txns[j], b, s)
    {
      NoRaceEitherWay(jobs, s, i, j);
    }
  }

  /** Without a race every schedule is serial. */
  lemma UncontendedIsSerial(before: Before, jobs: seq<Job>, s0: Store, schedule: seq<Choice>)
    requires StrictTotal(before) && Valid(s0) && AllDeclared(jobs, s0) && !Contended(jobs, s0)
    ensures
      var sys := Execute(before, TxnsOf(jobs), s0, schedule);
      Valid(sys.committed) && OrderOk(TxnsOf(jobs), s0, sys)
  {
    hide Valid, Execute, AllDisciplined, OrderOk, Serial;
    JobsAreDisciplined(jobs, s0);
    Serializable(before, TxnsOf(jobs), seq(|jobs|, i requires 0 <= i < |jobs| => InsertsOf(jobs[i])), s0, schedule);
  }

  // ---------------------------------------------------------------- running one thread to its end

  lemma OneMore(before: Before, txns: seq<Txn>, s0: Store, schedule: seq<Choice>, choice: Choice)
    ensures Execute(before, txns, s0, schedule + [choice]) == Next(before, txns, Execute(before, txns, s0, schedule), choice)
  {
    assert (schedule + [choice])[..|schedule|] == schedule;
  }

  /** Thread tid alone moved, nothing was committed, and only its own locks were taken. */
  ghost predicate OnlyThread(sys: System, sys': System, tid: nat, t: Txn) {
    && tid < |sys.phases| == |sys'.phases| && sys'.committed == sys.committed
    && (forall u :: 0 <= u < |sys.phases| && u != tid ==> sys'.phases[u] == sys.phases[u])
    && (forall ref :: ref in sys'.owners ==>
          || (ref in t.locks && sys'.owners[ref] == tid)
          || (ref in sys.owners && sys'.owners[ref] == sys.owners[ref]))
  }

  /** Every lock of t is free or its own. */
  ghost predicate Free(sys: System, tid: nat, t: Txn) {
    forall ref :: ref in t.locks && ref in sys.owners ==> sys.owners[ref] == tid
  }

  /** What the run of the body alone has reached after n calls. */
  ghost predicate ReachedAlone(t: Txn, phase: Phase, s: Store) {
    && phase.Running? && phase.calls <= t.bound
    && Steps(t.body, SessionOf(t), s, phase.calls) == (phase.rest, phase.delta)
  }

  lemma AcquireMove(before: Before, txns: seq<Txn>, sys: System, tid: nat)
    requires StrictTotal(before) && |sys.phases| == |txns| && tid < |txns| && InScope(txns[tid].scope, txns[tid].locks)
    requires sys.phases[tid].Acquiring? && sys.phases[tid].held < |Normalize(before, txns[tid].locks)|
    requires Free(sys, tid, txns[tid])
    ensures
      var sys' := Next(before, txns, sys, Move(tid));
      && sys'.phases[tid] == Acquiring(sys.phases[tid].held + 1)
      && OnlyThread(sys, sys', tid, txns[tid]) && Free(sys', tid, txns[tid])
  {
    hide Effect, Normalize;
    var locks := Normalize(before, txns[tid].locks);
    NormalizeSorts(before, txns[tid].locks);
    assert locks[sys.phases[tid].held] in locks;
  }

  lemma StartMove(before: Before, txns: seq<Txn>, sys: System, tid: nat)
    requires |sys.phases| == |txns| && tid < |txns| && InScope(txns[tid].scope, txns[tid].locks)
    requires sys.phases[tid] == Acquiring(|Normalize(before, txns[tid].locks)|)
    ensures
      var sys' := Next(before, txns, sys, Move(tid));
      && sys'.phases[tid] == Running(0, txns[tid].body, EMPTY) && OnlyThread(sys, sys', tid, txns[tid])
  {
    hide Effect, Normalize;
  }

  lemma CallMove(before: Before, txns: seq<Txn>, sys: System, tid: nat)
    requires |sys.phases| == |txns| && tid < |txns| && ReachedAlone(txns[tid], sys.phases[tid], sys.committed)
    requires sys.phases[tid].rest.Call? && sys.phases[tid].calls < txns[tid].bound
    ensures
      var sys' := Next(before, txns, sys, Move(tid));
      && ReachedAlone(txns[tid], sys'.phases[tid], sys.committed) && sys'.phases[tid].calls == sys.phases[tid].calls + 1
      && OnlyThread(sys, sys', tid, txns[tid])
  {
    hide Effect, Steps;
    StepsSnoc(txns[tid].body, SessionOf(txns[tid]), sys.committed, sys.phases[tid].calls);
  }

  lemma OnlyThreadTwice(sys: System, sys1: System, sys2: System, tid: nat, t: Txn)
    requires OnlyThread(sys, sys1, tid, t) && OnlyThread(sys1, sys2, tid, t)
    ensures OnlyThread(sys, sys2, tid, t)
  {
  }

  /** A thread whose locks are free can take them all and start. */
  lemma {:induction false} AcquireAll(before: Before, txns: seq<Txn>, s0: Store, schedule: seq<Choice>, tid: nat) returns (longer: seq<Choice>)
    requires StrictTotal(before) && tid < |txns| && InScope(txns[tid].scope, txns[tid].locks)
    requires
      var sys := Execute(before, txns, s0, schedule);
      && Free(sys, tid, txns[tid]) && sys.phases[tid].Acquiring?
      && sys.phases[tid].held <= |Normalize(before, txns[tid].locks)|
    ensures
      var sys, sys' := Execute(before, txns, s0, schedule), Execute(before, txns, s0, longer);
      && sys'.phases[tid] == Running(0, txns[tid].body, EMPTY) && OnlyThread(sys, sys', tid, txns[tid])
    decreases |Normalize(before, txns[tid].locks)| - Execute(before, txns, s0, schedule).phases[tid].held
  {
    hide Execute, Next, Normalize, Free, OnlyThread, InScope;
    var sys := Execute(before, txns, s0, schedule);
    OneMore(before, txns, s0, schedule, Move(tid));
    longer := schedule + [Move(tid)];
    var sys1 := Execute(before, txns, s0, longer);
    if sys.phases[tid].held < |Normalize(before, txns[tid].locks)| {
      AcquireMove(before, txns, sys, tid);
      longer := AcquireAll(before, txns, s0, longer, tid);
      OnlyThreadTwice(sys, sys1, Execute(before, txns, s0, longer), tid, txns[tid]);
    } else {
      StartMove(before, txns, sys, tid);
    }
  }

  /** A started thread can make all its calls while s is committed. */
  lemma {:induction false} CallAll(before: Before, txns: seq<Txn>, s0: Store, schedule: seq<Choice>, tid: nat, s: Store)
    returns (longer: seq<Choice>)
    requires tid < |txns|
    requires
      var sys := Execute(before, txns, s0, schedule);
      sys.committed == s && ReachedAlone(txns[tid], sys.phases[tid], s) && OnlyThread(sys, sys, tid, txns[tid])
    ensures
      var sys, sys' := Execute(before, txns, s0, schedule), Execute(before, txns, s0, longer);
      && OnlyThread(sys, sys', tid, txns[tid]) && ReachedAlone(txns[tid], sys'.phases[tid], s)
      && !(sys'.phases[tid].rest.Call? && sys'.phases[tid].calls < txns[tid].bound)
    decreases txns[tid].bound - Execute(before, txns, s0, schedule).phases[tid].calls
  {
    hide Execute, Next, Steps;
    var sys := Execute(before, txns, s0, schedule);
    longer := schedule;
    if sys.phases[tid].rest.Call? && sys.phases[tid].calls < txns[tid].bound {
      OneMore(before, txns, s0, schedule, Move(tid));
      CallMove(before, txns, sys, tid);
      longer := schedule + [Move(tid)];
      var sys1 := Execute(before, txns, s0, longer);
      longer := CallAll(before, txns, s0, longer, tid, s);
      OnlyThreadTwice(sys, sys1, Execute(before, txns, s0, longer), tid, txns[tid]);
    }
  }

  /** Thread tid is about to commit the writes that its transaction makes alone on s. */
  ghost predicate AboutToCommit(sys: System, tid: nat, t: Txn, s: Store) {
    && tid < |sys.phases| && sys.phases[tid].Running? && sys.phases[tid].rest.Return?
    && sys.phases[tid].delta == Steps(t.body, SessionOf(t), s, t.bound).1
  }

  /** A transaction that commits alone can run up to its commit while nothing is committed. */
  lemma RunUp(before: Before, txns: seq<Txn>, s0: Store, schedule: seq<Choice>, tid: nat) returns (longer: seq<Choice>)
    requires StrictTotal(before) && tid < |txns| && RunTransaction(txns[tid], s0).0.Committed?
    requires
      var sys := Execute(before, txns, s0, schedule);
      sys.committed == s0 && sys.phases[tid] == Acquiring(0) && Free(sys, tid, txns[tid])
    ensures
      var sys, sys' := Execute(before, txns, s0, schedule), Execute(before, txns, s0, longer);
      AboutToCommit(sys', tid, txns[tid], s0) && OnlyThread(sys, sys', tid, txns[tid])
  {
    hide Execute, Next, Normalize, Effect, Free;
    var t, sys := txns[tid], Execute(before, txns, s0, schedule);
    longer := AcquireAll(before, txns, s0, schedule, tid);
    var sys1 := Execute(before, txns, s0, longer);
    assert Steps(t.body, SessionOf(t), s0, 0) == (t.body, EMPTY);
    longer := CallAll(before, txns, s0, longer, tid, s0);
    OnlyThreadTwice(sys, sys1, Execute(before, txns, s0, longer), tid, t);
    var phase := Execute(before, txns, s0, longer).phases[tid];
    if !phase.rest.Call? { StepsStopped(t.body, SessionOf(t), s0, phase.calls, t.bound); }
  }

  lemma CommitMove(before: Before, txns: seq<Txn>, sys: System, tid: nat, t: Txn, s: Store)
    requires |sys.phases| == |txns| && tid < |txns| && AboutToCommit(sys, tid, t, s)
    ensures
      var sys' := Next(before, txns, sys, Move(tid));
      && sys'.committed == Overlay(sys.committed, Steps(t.body, SessionOf(t), s, t.bound).1)
      && |sys'.phases| == |sys.phases| && forall u :: 0 <= u < |txns| && u != tid ==> sys'.phases[u] == sys.phases[u]
  {
    hide Effect, Steps;
  }

  // ---------------------------------------------------------------- the same number twice

  /** In a valid store no two rows of a group share a sequence number. */
  lemma SequencesDiffer(s: Store, k: Key, k': Key)
    requires Valid(s) && k in s.rows && k' in s.rows && k.group == k'.group && k != k'
    ensures s.rows[k].sequence != s.rows[k'].sequence
  {
    hide Valid;
    var m, ks := GroupRows(s, k.group), Order(s, k.group);
    assert k in ks && k' in ks;
    var i :| 0 <= i < |ks| && ks[i] == k;
    var j :| 0 <= j < |ks| && ks[j] == k';
    assert m[ks[i]].sequence == i + 1 && m[ks[j]].sequence == j + 1;
  }

  lemma NumberBelow(s: Store, k: Key)
    requires Valid(s) && k in s.rows
    ensures 1 <= s.rows[k].sequence < NextSequence(s, k.group)
  {
    hide Valid, NextSequence;
    var m, ks := GroupRows(s, k.group), Order(s, k.group);
    assert k in m && k in ks;
    var i :| 0 <= i < |ks| && ks[i] == k;
    assert m[ks[i]].sequence == i + 1;
  }

  lemma NumberTaken(s: Store, g: Group, n: int) returns (k: Key)
    requires Valid(s) && 1 <= n < NextSequence(s, g)
    ensures k in s.rows && k.group == g && s.rows[k].sequence == n
  {
    hide Valid, NextSequence;
    var m, ks := GroupRows(s, g), Order(s, g);
    k := ks[n - 1];
    assert k in m && m[ks[n - 1]].sequence == n;
  }

  /** Writes that add a row to a mutable group give one new row the number after the last. */
  lemma NextIsGiven(s: Store, d: Store, x: Key) returns (k: Key)
    requires Valid(s) && Valid(Overlay(s, d)) && AppendOnly(s, d) && CasAllowed(x.group.coll)
    requires x in d.rows && x !in s.rows
    ensures k in d.rows && k !in s.rows && k.group == x.group && d.rows[k].sequence == NextSequence(s, x.group)
  {
    hide Valid, NextSequence;
    var s', n := Overlay(s, d), NextSequence(s, x.group);
    var number := s'.rows[x].sequence;
    NumberBelow(s', x);
    NextIsPositive(s, x.group);
    if number < n {
      var y := NumberTaken(s, x.group, number);
      assert y in s'.rows && s'.rows[y].sequence == number;
      SequencesDiffer(s', x, y);
    }
    k := NumberTaken(s', x.group, n);
    if k in s.rows { NumberBelow(s, k); }
  }

  lemma NextIsPositive(s: Store, g: Group)
    requires Valid(s)
    ensures NextSequence(s, g) >= 1
  {
    hide Valid, NextSequence;
    var ks := Order(s, g);
  }

  /** What a transaction that commits alone writes. */
  lemma WritesAlone(t: Txn, s: Store, x: (Collection, CKey))
    requires Valid(s) && RunTransaction(t, s).0.Committed? && NewKey(t, x, s) && InsertsAlone(t, x, s)
    ensures
      var d := Steps(t.body, SessionOf(t), s, t.bound).1;
      && InScope(t.scope, t.locks) && Valid(Overlay(s, d)) && Framed(SessionOf(t), d) && AppendOnly(s, d)
      && Key(Group(t.scope, x.0), x.1) in d.rows
  {
    hide Valid, Steps, Effect;
    StepsKeepValid(t.body, SessionOf(t), s, t.bound);
    StepsAreFramed(t.body, SessionOf(t), s, t.bound);
  }

  /** Two sets of writes under different locks that each give a new row of one group the next number do not go
    * together. */
  lemma SameNumberTwice(t: Txn, u: Txn, s: Store, d: Store, e: Store, x: Key, y: Key)
    requires Valid(s) && Valid(Overlay(s, d)) && Valid(Overlay(s, e)) && AppendOnly(s, d) && AppendOnly(s, e)
    requires Framed(SessionOf(t), d) && Framed(SessionOf(u), e) && forall ref :: ref in t.locks ==> ref !in u.locks
    requires InScope(t.scope, t.locks) && InScope(u.scope, u.locks)
    requires x.group == y.group && CasAllowed(x.group.coll) && x in d.rows && x !in s.rows && y in e.rows && y !in s.rows
    ensures !Valid(Overlay(Overlay(s, d), e))
  {
    hide Valid, NextSequence, AppendOnly;
    var k := NextIsGiven(s, d, x);
    var l := NextIsGiven(s, e, y);
    var last := Overlay(Overlay(s, d), e);
    assert LockRef(t.scope, k.group.coll, Some(k.ckey)) in t.locks;
    assert k !in e.rows;
    if Valid(last) { SequencesDiffer(last, k, l); }
  }

  // ---------------------------------------------------------------- with a race

  /** What transactions leave when run one after another is always valid. */
  lemma {:induction false} SerialIsValid(txns: seq<Txn>, s0: Store, order: seq<nat>)
    requires Valid(s0) && forall i :: 0 <= i < |order| ==> order[i] < |txns|
    ensures Valid(Serial(txns, s0, order))
    decreases |order|
  {
    hide Valid, RunTransaction;
    if order != [] {
      SerialIsValid(txns, s0, order[..|order| - 1]);
      TransactionIsAtomicAndFramed(txns[order[|order| - 1]], Serial(txns, s0, order[..|order| - 1]));
    }
  }

  /** Both threads run up to their commits before either commits. */
  lemma BothRunUp(before: Before, txns: seq<Txn>, s0: Store, i: nat, j: nat) returns (schedule: seq<Choice>)
    requires StrictTotal(before) && i < |txns| && j < |txns| && i != j
    requires RunTransaction(txns[i], s0).0.Committed? && RunTransaction(txns[j], s0).0.Committed?
    requires forall ref :: ref in txns[i].locks ==> ref !in txns[j].locks
    ensures
      var sys := Execute(before, txns, s0, schedule);
      sys.committed == s0 && AboutToCommit(sys, i, txns[i], s0) && AboutToCommit(sys, j, txns[j], s0)
  {
    hide Next, RunTransaction, Steps;
    var start := Execute(before, txns, s0, []);
    schedule := RunUp(before, txns, s0, [], i);
    schedule := RunUp(before, txns, s0, schedule, j);
  }

  /** Two transactions that share no lock, each of which alone on s0 commits and inserts a new row into the same
    * mutable group, can interleave so that both give a row the same number, whatever else runs: the committed
    * store is then not valid, and no serial order of the transactions produces it. */
  lemma RaceHappens(before: Before, txns: seq<Txn>, s0: Store, i: nat, j: nat, x: (Collection, CKey), y: (Collection, CKey))
    returns (schedule: seq<Choice>)
    requires StrictTotal(before) && Valid(s0) && i < |txns| && j < |txns| && i != j
    requires Contend(txns[i], x, txns[j], y, s0) && InsertsAlone(txns[i], x, s0) && InsertsAlone(txns[j], y, s0)
    ensures !Valid(Execute(before, txns, s0, schedule).committed)
    ensures forall order: seq<nat> :: (forall n :: 0 <= n < |order| ==> order[n] < |txns|) ==>
      Serial(txns, s0, order) != Execute(before, txns, s0, schedule).committed
  {
    hide Next, Execute, Valid, Overlay, Steps, RunTransaction, Framed, AppendOnly;
    var t, u := txns[i], txns[j];
    schedule := BothRunUp(before, txns, s0, i, j);
    CommitMove(before, txns, Execute(before, txns, s0, schedule), i, t, s0);
    OneMore(before, txns, s0, schedule, Move(i));
    schedule := schedule + [Move(i)];
    CommitMove(before, txns, Execute(before, txns, s0, schedule), j, u, s0);
    OneMore(before, txns, s0, schedule, Move(j));
    schedule := schedule + [Move(j)];
    WritesAlone(t, s0, x);
    WritesAlone(u, s0, y);
    SameNumberTwice(t, u, s0, Steps(t.body, SessionOf(t), s0, t.bound).1, Steps(u.body, SessionOf(u), s0, u.bound).1,
                    Key(Group(t.scope, x.0), x.1), Key(Group(u.scope, y.0), y.1));
    forall order: seq<nat> | forall n :: 0 <= n < |order| ==> order[n] < |txns|
      ensures Serial(txns, s0, order) != Execute(before, txns, s0, schedule).committed
    {
      SerialIsValid(txns, s0, order);
    }
  }

  /** A standalone append of a new key with an identifier commits and inserts its row. */
  lemma WriteInserts(job: Job, s: Store, x: (Collection, CKey))
    requires job.Write? && x in InsertsOf(job) && NewKey(TxnOf(job), x, s)
    ensures InsertsAlone(TxnOf(job), x, s)
  {
    hide NextSequence, ExtractRecordId, BuildRow;
    var t := TxnOf(job);
    assert t.locks == [LockRef(job.scope, job.coll, Some(job.key))];
    assert t.locks[0] in t.locks;
    assert WriteAllowed(SessionOf(t).locks, job.coll, job.key);
    var (res, d) := Effect(SessionOf(t), t.body.op, s);
    assert res.Stored? && d.rows == map[Key(Group(job.scope, job.coll), job.key) := res.row];
    assert Steps(t.body.next(res), SessionOf(t), Overlay(s, d), 0) == (t.body.next(res), EMPTY);
  }

  lemma JobInserts(job: Job, s: Store, x: (Collection, CKey))
    requires job.Transaction? ==> Declares(job.txn, job.inserts, s)
    requires x in InsertsOf(job) && NewKey(TxnOf(job), x, s)
    ensures InsertsAlone(TxnOf(job), x, s)
  {
    hide Disciplined, InsertsAlone, ExtractRecordId;
    if job.Write? { WriteInserts(job, s, x); }
  }

  // ---------------------------------------------------------------- exactly

  /** Every schedule leaves a valid store. */
  ghost predicate AlwaysValid(before: Before, txns: seq<Txn>, s0: Store) {
    forall schedule :: Valid(Execute(before, txns, s0, schedule).committed)
  }

  /** Every schedule leaves the serial result of the committed transactions, each with its serial outcome. */
  ghost predicate AlwaysSerial(before: Before, txns: seq<Txn>, s0: Store) {
    forall schedule :: OrderOk(txns, s0, Execute(before, txns, s0, schedule))
  }

  /** Transactions, appends and compare-and-sets running together on any valid store keep it valid under every
    * schedule, and are serial under every schedule, if and only if no two of them race. */
  lemma SerialUnlessContended(before: Before, jobs: seq<Job>, s0: Store)
    requires StrictTotal(before) && Valid(s0) && AllDeclared(jobs, s0)
    ensures AlwaysValid(before, TxnsOf(jobs), s0) <==> !Contended(jobs, s0)
    ensures AlwaysSerial(before, TxnsOf(jobs), s0) <==> !Contended(jobs, s0)
  {
    hide Valid, Execute, Declares, InsertsAlone, InsertsOf, TxnOf, Serial;
    var txns := TxnsOf(jobs);
    if Contended(jobs, s0) {
      var i, j :| 0 <= i < j < |jobs| && Races(jobs[i], jobs[j], s0);
      var x, y :| x in InsertsOf(jobs[i]) && y in InsertsOf(jobs[j]) && Contend(TxnOf(jobs[i]), x, TxnOf(jobs[j]), y, s0);
      JobInserts(jobs[i], s0, x);
      JobInserts(jobs[j], s0, y);
      var schedule := RaceHappens(before, txns, s0, i, j, x, y);
      assert !OrderOk(txns, s0, Execute(before, txns, s0, schedule));
    } else {
      forall schedule ensures Valid(Execute(before, txns, s0, schedule).committed) && OrderOk(txns, s0, Execute(before, txns, s0, schedule)) {
        UncontendedIsSerial(before, jobs, s0, schedule);
      }
    }
  }

  /** For standalone appends the race can be read off the calls: new keys with record ids in one mutable
    * collection of one scope, under different keys. */
  lemma WritesRaceExactly(a: Job, b: Job, s: Store)
    requires a.Write? && b.Write?
    ensures Races(a, b, s) <==>
      && a.scope == b.scope && a.coll == b.coll && CasAllowed(a.coll) && a.key != b.key
      && Key(Group(a.scope, a.coll), a.key) !in s.rows && Key(Group(b.scope, b.coll), b.key) !in s.rows
      && ExtractRecordId(a.coll, a.record).Some? && ExtractRecordId(b.coll, b.record).Some?
  {
    hide ExtractRecordId;
    if CasAllowed(a.coll) && CasAllowed(b.coll) {
      assert TxnOf(a).locks == [LockRef(a.scope, a.coll, Some(a.key))] && TxnOf(b).locks == [LockRef(b.scope, b.coll, Some(b.key))];
      assert Contend(TxnOf(a), (a.coll, a.key), TxnOf(b), (b.coll, b.key), s) <==>
        && a.scope == b.scope && a.coll == b.coll && a.key != b.key
        && Key(Group(a.scope, a.coll), a.key) !in s.rows && Key(Group(b.scope, b.coll), b.key) !in s.rows;
    }
  }

  /** The failure is real: two claims of one project, written at the same time to an empty ledger. */
  lemma ClaimsCanRace(before: Before)
    requires StrictTotal(before)
    ensures
      var claim := (id: Id) => Write(Scope("t", "p"), Claims, Name(id), OtherRecord(map[Claims := id], ""));
      && Contended([claim("a"), claim("b")], EMPTY)
      && !AlwaysValid(before, TxnsOf([claim("a"), claim("b")]), EMPTY)
      && !AlwaysSerial(before, TxnsOf([claim("a"), claim("b")]), EMPTY)
  {
    hide AlwaysValid, AlwaysSerial, Races;
    var claim := (id: Id) => Write(Scope("t", "p"), Claims, Name(id), OtherRecord(map[Claims := id], ""));
    var jobs := [claim("a"), claim("b")];
    assert "a"[0] != "b"[0];
    WritesRaceExactly(jobs[0], jobs[1], EMPTY);
    assert Races(jobs[0], jobs[1], EMPTY);
    EmptyIsValid();
    SerialUnlessContended(before, jobs, EMPTY);
  }
}
