/** Transaction bodies and scoped transactions (run_scoped_transaction).
  *
  * A body is a program over its session: it makes one call, looks at the result and goes on.  A run is
  * cut off after `bound` calls; every theorem holds for every bound.
  */
module Sessions {
  import opened Signing
  import opened Models
  import opened ScopedStore
  import opened ScopedInvariant
  import opened Locks

  datatype Prog =
    | Return(value: Record)
    | Raise(error: Error)
    | Call(op: Op, next: Result -> Prog)

  datatype Outcome = Committed(value: Record) | Aborted(error: Error)

  datatype Txn = Txn(scope: Scope, locks: seq<LockRef>, body: Prog, bound: nat)

  function SessionOf(t: Txn): Session {
    Session(t.scope, Some(ContextOf(t.locks)))
  }

  // ---------------------------------------------------------------- running a body

  /** The program left after at most n calls from store s, and the delta those calls buffered. */
  ghost function Steps(p: Prog, ses: Session, s: Store, n: nat): (Prog, Store)
    decreases n
  {
    if n == 0 || !p.Call? then (p, EMPTY)
    else
      var (res, d) := Effect(ses, p.op, s);
      var (rest, d') := Steps(p.next(res), ses, Overlay(s, d), n - 1);
      (rest, Overlay(d, d'))
  }

  function Conclude(rest: Prog): Outcome {
    match rest
    case Return(v) => Committed(v)
    case Raise(e) => Aborted(e)
    case Call(_, _) => Aborted(StepLimit)
  }

  /** run_scoped_transaction: all of the body's writes, or none of them. */
  ghost function RunTransaction(t: Txn, s: Store): (Outcome, Store) {
    if !InScope(t.scope, t.locks) then (Aborted(ValueError), s)
    else
      var (rest, delta) := Steps(t.body, SessionOf(t), s, t.bound);
      var out := Conclude(rest);
      (out, if out.Committed? then Overlay(s, delta) else s)
  }

  lemma OverlayAssociative(s: Store, d: Store, d': Store)
    ensures Overlay(Overlay(s, d), d') == Overlay(s, Overlay(d, d'))
  {
    assert (s.rows + d.rows) + d'.rows == s.rows + (d.rows + d'.rows);
    assert (s.heads + d.heads) + d'.heads == s.heads + (d.heads + d'.heads);
  }

  /** One more call at the end of a run. */
  lemma {:induction false} StepsSnoc(p: Prog, ses: Session, s: Store, n: nat)
    ensures
      var (rest, d) := Steps(p, ses, s, n);
      Steps(p, ses, s, n + 1) ==
        if rest.Call? then
          var (res, d') := Effect(ses, rest.op, Overlay(s, d));
          (rest.next(res), Overlay(d, d'))
        else (rest, d)
    decreases n
  {
    hide Effect;
    if p.Call? {
      var (res, d) := Effect(ses, p.op, s);
      OverlayEmpty(s);
      if n > 0 {
        StepsSnoc(p.next(res), ses, Overlay(s, d), n - 1);
        var (rest, d1) := Steps(p.next(res), ses, Overlay(s, d), n - 1);
        OverlayAssociative(s, d, d1);
        if rest.Call? {
          var (res', d2) := Effect(ses, rest.op, Overlay(Overlay(s, d), d1));
          OverlayAssociative(d, d1, d2);
        }
      } else {
        assert Steps(p.next(res), ses, Overlay(s, d), 0) == (p.next(res), EMPTY);
        assert Overlay(d, EMPTY) == d && Overlay(EMPTY, d) == d;
      }
    }
  }

  // ---------------------------------------------------------------- validity and frame

  lemma {:induction false} StepsKeepValid(p: Prog, ses: Session, s: Store, n: nat)
    requires Valid(s)
    ensures Valid(Overlay(s, Steps(p, ses, s, n).1))
    decreases n
  {
    hide Effect, Valid;
    if n == 0 || !p.Call? {
      OverlayEmpty(s);
    } else {
      var (res, d) := Effect(ses, p.op, s);
      EffectKeepsValid(ses, p.op, s);
      StepsKeepValid(p.next(res), ses, Overlay(s, d), n - 1);
      OverlayAssociative(s, d, Steps(p.next(res), ses, Overlay(s, d), n - 1).1);
    }
  }

  /** The delta stays within the session's scope and its declared CANONICAL and CHAIN locks. */
  ghost predicate Framed(ses: Session, delta: Store) {
    && (forall k :: k in delta.rows ==>
          && k.group.scope == ses.scope
          && (ses.locks.Some? ==> (k.group.coll, k.ckey) in ses.locks.value.canonicals)
          && (ses.locks.Some? && ChainLinked(k.group.coll) ==> k.group.coll in ses.locks.value.chains))
    && (forall g :: g in delta.heads ==>
          && g.scope == ses.scope
          && (ses.locks.Some? ==> g.coll in ses.locks.value.chains))
  }

  /** Rows of a chain-linked collection are never rewritten, and a rewritten row keeps its number. */
  ghost predicate AppendOnly(s: Store, delta: Store) {
    forall k :: k in delta.rows && k in s.rows ==>
      CasAllowed(k.group.coll) && delta.rows[k].sequence == s.rows[k].sequence
  }

  lemma EffectIsFramed(ses: Session, op: Op, s: Store)
    ensures Framed(ses, Effect(ses, op, s).1) && AppendOnly(s, Effect(ses, op, s).1)
  {
    match op
    case Append(c, key, record) =>
      assert Effect(ses, op, s) == AppendEffect(ses, c, key, record, s);
    case CompareAndSet(_, _, _, _, _) =>
      assert Effect(ses, op, s) == CasEffect(ses, op, s);
    case _ =>
  }

  lemma FramedOverlay(ses: Session, s: Store, d: Store, d': Store)
    requires Framed(ses, d) && AppendOnly(s, d) && Framed(ses, d') && AppendOnly(Overlay(s, d), d')
    ensures Framed(ses, Overlay(d, d')) && AppendOnly(s, Overlay(d, d'))
  {
  }

  lemma {:induction false} StepsAreFramed(p: Prog, ses: Session, s: Store, n: nat)
    ensures Framed(ses, Steps(p, ses, s, n).1) && AppendOnly(s, Steps(p, ses, s, n).1)
    decreases n
  {
    hide Effect, Overlay;
    if n > 0 && p.Call? {
      var (res, d) := Effect(ses, p.op, s);
      EffectIsFramed(ses, p.op, s);
      StepsAreFramed(p.next(res), ses, Overlay(s, d), n - 1);
      FramedOverlay(ses, s, d, Steps(p.next(res), ses, Overlay(s, d), n - 1).1);
    }
  }

  /** A failed transaction changes nothing; a committed one keeps the store valid and changes only rows
    * whose CANONICAL lock and heads whose CHAIN lock it declared, in its own tenant and project. */
  lemma TransactionIsAtomicAndFramed(t: Txn, s: Store)
    requires Valid(s)
    ensures
      var (out, s') := RunTransaction(t, s);
      && Valid(s')
      && (out.Aborted? ==> s' == s)
      && (forall k :: k in s.rows ==> k in s'.rows)
      && (forall k :: k in s.rows && ChainLinked(k.group.coll) ==> s'.rows[k] == s.rows[k])
      && (forall k :: k in s'.rows && (k !in s.rows || s'.rows[k] != s.rows[k]) ==>
            && LockRef(t.scope, k.group.coll, Some(k.ckey)) in t.locks && k.group.scope == t.scope
            && (ChainLinked(k.group.coll) ==> LockRef(t.scope, k.group.coll, None) in t.locks))
      && (forall g :: g in s'.heads && (g !in s.heads || s'.heads[g] != s.heads[g]) ==>
            LockRef(t.scope, g.coll, None) in t.locks && g.scope == t.scope)
  {
    hide Effect, Valid, Steps;
    StepsKeepValid(t.body, SessionOf(t), s, t.bound);
    StepsAreFramed(t.body, SessionOf(t), s, t.bound);
  }
}
