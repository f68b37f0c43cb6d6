/** Reasoning rules for transaction bodies: which lock sets are enough, and what a run of appends leaves. */
module SessionRules {
  import opened Signing
  import opened Models
  import opened ScopedStore
  import opened ScopedInvariant
  import opened Locks
  import opened Sessions
  import opened Concurrency

  // ---------------------------------------------------------------- programs

  /** A read whose missing record is a value and whose other failures propagate. */
  function Lookup(c: Collection, key: CKey, next: Option<Payload> -> Prog): Prog {
    Call(Get(c, key), (res: Result) =>
      match res
      case Found(row) => next(Some(row.payload))
      case Failure(e) => if e.ScopedRecordNotFound? then next(None) else Raise(e)
      case _ => Raise(KeyError))
  }

  /** A read whose missing record raises. */
  function Fetch(c: Collection, key: CKey, next: Record -> Prog): Prog {
    Call(Get(c, key), (res: Result) =>
      match res
      case Found(row) => next(row.payload.record)
      case Failure(e) => Raise(e)
      case _ => Raise(KeyError))
  }

  /** An append that continues with the record now stored under the key. */
  function Put(c: Collection, key: CKey, record: Record, next: Record -> Prog): Prog {
    Call(Append(c, key, record), (res: Result) =>
      match res
      case Stored(row, _) => next(row.payload.record)
      case Failure(e) => Raise(e)
      case _ => Raise(KeyError))
  }

  // ---------------------------------------------------------------- enough locks

  predicate WriteLocked(locks: LockContext, op: Op) {
    match op
    case Append(c, key, _) => WriteAllowed(Some(locks), c, key)
    case CompareAndSet(c, key, _, _, _) => WriteAllowed(Some(locks), c, key)
    case _ => true
  }

  predicate Writes(op: Op) {
    op.Append? || op.CompareAndSet?
  }

  /** The body makes at most n calls, has every lock its writes need, verifies only before its first write,
    * and reads nothing that another transaction could change under it, unless it then gives up at once. */
  ghost predicate WellLocked(wrote: bool, locks: LockContext, p: Prog, n: nat)
    decreases n
  {
    match p
    case Return(_) => true
    case Raise(e) => !e.UndeclaredLockRef? && !e.StepLimit?
    case Call(op, next) =>
      && n > 0
      && WriteLocked(locks, op)
      && (op.VerifyScope? ==> !wrote)
      && forall res ::
           if res == Failure(UndeclaredLockRef) || res == Failure(StepLimit) then next(res).Raise?
           else if Covered(locks, {}, op, res) then WellLocked(wrote || Writes(op), locks, next(res), n - 1)
           else next(res).Raise? && WellLocked(wrote || Writes(op), locks, next(res), n - 1)
  }

  lemma {:induction false} WellLockedIsDisciplined(wrote: bool, locks: LockContext, p: Prog, n: nat)
    requires WellLocked(wrote, locks, p, n)
    ensures Disciplined(locks, {}, p, n)
    decreases n
  {
    hide Covered;
    if p.Call? {
      forall res ensures if Covered(locks, {}, p.op, res) then Disciplined(locks, {}, p.next(res), n - 1) else p.next(res).Raise? {
        if res != Failure(UndeclaredLockRef) && res != Failure(StepLimit) && Covered(locks, {}, p.op, res) {
          WellLockedIsDisciplined(wrote || Writes(p.op), locks, p.next(res), n - 1);
        }
      }
    }
  }

  /** A body that may start after a write may also start before one. */
  lemma {:induction false} BeforeAnyWrite(locks: LockContext, p: Prog, n: nat)
    requires WellLocked(true, locks, p, n)
    ensures WellLocked(false, locks, p, n)
    decreases n
  {
    hide Covered, WriteLocked;
    if p.Call? && !Writes(p.op) {
      forall res ensures
        if res == Failure(UndeclaredLockRef) || res == Failure(StepLimit) then p.next(res).Raise?
        else if Covered(locks, {}, p.op, res) then WellLocked(false, locks, p.next(res), n - 1)
        else p.next(res).Raise? && WellLocked(false, locks, p.next(res), n - 1)
      {
        if !(res == Failure(UndeclaredLockRef) || res == Failure(StepLimit)) {
          BeforeAnyWrite(locks, p.next(res), n - 1);
        }
      }
    }
  }

  lemma AllowedWritesAreNotRefused(ses: Session, op: Op, s: Store)
    requires ses.locks.Some? && WriteLocked(ses.locks.value, op)
    ensures Effect(ses, op, s).0 != Failure(UndeclaredLockRef) && Effect(ses, op, s).0 != Failure(StepLimit)
  {
    match op
    case Append(c, key, record) => assert Effect(ses, op, s) == AppendEffect(ses, c, key, record, s);
    case CompareAndSet(_, _, _, _, _) => assert Effect(ses, op, s) == CasEffect(ses, op, s);
    case _ =>
  }

  /** A well-locked body runs to its end on every store and never meets an undeclared lock. */
  lemma {:induction false} WellLockedRuns(wrote: bool, p: Prog, ses: Session, s: Store, n: nat)
    requires ses.locks.Some? && WellLocked(wrote, ses.locks.value, p, n)
    ensures
      var out := Conclude(Steps(p, ses, s, n).0);
      out != Aborted(UndeclaredLockRef) && out != Aborted(StepLimit)
    decreases n
  {
    hide Effect, Covered, WriteLocked;
    if p.Call? {
      var (res, d) := Effect(ses, p.op, s);
      AllowedWritesAreNotRefused(ses, p.op, s);
      WellLockedRuns(wrote || Writes(p.op), p.next(res), ses, Overlay(s, d), n - 1);
    }
  }

  // ---------------------------------------------------------------- what a run leaves

  /** The program left and the store seen after at most n calls. */
  ghost function After(p: Prog, ses: Session, s: Store, n: nat): (Prog, Store)
    decreases n
  {
    if n == 0 || !p.Call? then (p, s)
    else
      var (res, d) := Effect(ses, p.op, s);
      After(p.next(res), ses, Overlay(s, d), n - 1)
  }

  lemma {:induction false} AfterIsSteps(p: Prog, ses: Session, s: Store, n: nat)
    ensures
      var (rest, d) := Steps(p, ses, s, n);
      After(p, ses, s, n) == (rest, Overlay(s, d))
    decreases n
  {
    hide Effect;
    OverlayEmpty(s);
    if n > 0 && p.Call? {
      var (res, d) := Effect(ses, p.op, s);
      AfterIsSteps(p.next(res), ses, Overlay(s, d), n - 1);
      OverlayAssociative(s, d, Steps(p.next(res), ses, Overlay(s, d), n - 1).1);
    }
  }

  /** A transaction in its own scope is its body run to the end, kept or dropped. */
  lemma TransactionIsAfter(t: Txn, s: Store)
    requires InScope(t.scope, t.locks)
    ensures
      var (rest, s') := After(t.body, SessionOf(t), s, t.bound);
      RunTransaction(t, s) == (Conclude(rest), if rest.Return? then s' else s)
  {
    hide Effect, Steps, After;
    AfterIsSteps(t.body, SessionOf(t), s, t.bound);
  }

  /** s' keeps every immutable row of s and adds exactly the immutable rows w, of which some may already
    * have been there. */
  ghost predicate Wrote(s: Store, s': Store, w: map<Key, Record>) {
    && Valid(s')
    && (forall k :: k in s.rows && ChainLinked(k.group.coll) ==> k in s'.rows && s'.rows[k] == s.rows[k])
    && (forall k :: k in s'.rows && ChainLinked(k.group.coll) ==> k in s.rows || k in w)
    && (forall k :: k in w ==> k in s'.rows && s'.rows[k].payload == Payload(w[k], k.group.scope))
  }

  lemma WroteNothing(s: Store)
    requires Valid(s)
    ensures Wrote(s, s, map[])
  {
  }

  lemma PutEffect(ses: Session, c: Collection, key: CKey, record: Record, s0: Store, s: Store, w: map<Key, Record>)
    requires Wrote(s0, s, w) && ChainLinked(c)
    ensures
      var (res, d) := Effect(ses, Append(c, key, record), s);
      var k := Key(Group(ses.scope, c), key);
      match res
      case Stored(row, _) =>
        && row.payload == Payload(record, ses.scope)
        && ((k !in w || w[k] == record) ==> Wrote(s0, Overlay(s, d), w[k := record]))
      case Failure(_) => true
      case _ => false
  {
    hide Valid, Effect, Overlay;
    var op := Append(c, key, record);
    EffectKeepsValid(ses, op, s);
    AppendRows(ses, c, key, record, s);
    StoreUnchanged(s, Effect(ses, op, s).1);
  }

  lemma StoreUnchanged(s: Store, d: Store)
    ensures d.rows == map[] ==> Overlay(s, d).rows == s.rows
  {
  }

  /** The rows after an append: unchanged, or with the record under its key. */
  lemma AppendRows(ses: Session, c: Collection, key: CKey, record: Record, s: Store)
    requires Valid(s)
    ensures
      var k := Key(Group(ses.scope, c), key);
      var (res, d) := Effect(ses, Append(c, key, record), s);
      match res
      case Stored(row, _) => row.payload == Payload(record, ses.scope) && Overlay(s, d).rows == s.rows[k := row]
                             && (k in s.rows ==> s.rows[k] == row)
      case Failure(_) => Overlay(s, d).rows == s.rows
      case _ => false
  {
    hide Valid, NextSequence, ChainPrev, ExtractRecordId;
    var k := Key(Group(ses.scope, c), key);
    assert Effect(ses, Append(c, key, record), s) == AppendEffect(ses, c, key, record, s);
    var (res, d) := AppendEffect(ses, c, key, record, s);
    if res.Stored? && !res.created { StoredPayload(s, k, Payload(record, ses.scope)); }
  }

  lemma StoredPayload(s: Store, k: Key, payload: Payload)
    requires Valid(s) && k in s.rows && s.rows[k].payloadHash == Some(PayloadHash(payload))
    ensures s.rows[k].payload == payload
  {
    assert RowValid(k, s.rows[k]);
  }
}
