/** Concurrent scoped transactions under advisory locks (core_v3/postgres_scoped.py).
  *
  * Each thread acquires its normalised locks one by one, runs its body call by call against the
  * committed store overlaid with its own writes, and commits or rolls back, releasing its locks.  A
  * schedule picks the thread that moves next, or kills one; a blocked thread's move changes nothing.
  */
module Concurrency {
  import opened Models
  import opened ScopedStore
  import opened ScopedInvariant
  import opened Locks
  import opened Sessions

  datatype Phase =
    | Acquiring(held: nat)
    | Running(calls: nat, rest: Prog, delta: Store)
    | Done(outcome: Outcome)

  datatype System = System(committed: Store, owners: map<LockRef, nat>, phases: seq<Phase>, order: seq<nat>)

  datatype Choice = Move(tid: nat) | Kill(tid: nat)

  type Before = (LockRef, LockRef) -> bool

  // ---------------------------------------------------------------- the step relation

  function Start(s0: Store, threads: nat): System {
    System(s0, map[], seq(threads, _ => Acquiring(0)), [])
  }

  function Release(owners: map<LockRef, nat>, tid: nat): map<LockRef, nat> {
    map r | r in owners && owners[r] != tid :: owners[r]
  }

  function Finish(sys: System, tid: nat, out: Outcome, delta: Store): System
    requires tid < |sys.phases|
  {
    System(
      if out.Committed? then Overlay(sys.committed, delta) else sys.committed,
      Release(sys.owners, tid),
      sys.phases[tid := Done(out)],
      if out.Committed? then sys.order + [tid] else sys.order)
  }

  predicate Blocked(before: Before, t: Txn, sys: System, tid: nat)
    requires tid < |sys.phases|
  {
    var locks := Normalize(before, t.locks);
    && sys.phases[tid].Acquiring?
    && InScope(t.scope, t.locks)
    && sys.phases[tid].held < |locks|
    && locks[sys.phases[tid].held] in sys.owners
    && sys.owners[locks[sys.phases[tid].held]] != tid
  }

  ghost function MoveThread(before: Before, t: Txn, sys: System, tid: nat): System
    requires tid < |sys.phases|
  {
    var locks := Normalize(before, t.locks);
    match sys.phases[tid]
    case Acquiring(i) =>
      if !InScope(t.scope, t.locks) then Finish(sys, tid, Aborted(ValueError), EMPTY)
      else if Blocked(before, t, sys, tid) then sys
      else if i < |locks| then
        sys.(owners := sys.owners[locks[i] := tid], phases := sys.phases[tid := Acquiring(i + 1)])
      else sys.(phases := sys.phases[tid := Running(0, t.body, EMPTY)])
    case Running(n, rest, delta) =>
      if rest.Call? && n < t.bound then
        var (res, d) := Effect(SessionOf(t), rest.op, Overlay(sys.committed, delta));
        sys.(phases := sys.phases[tid := Running(n + 1, rest.next(res), Overlay(delta, d))])
      else Finish(sys, tid, Conclude(rest), delta)
    case Done(_) => sys
  }

  ghost function Next(before: Before, txns: seq<Txn>, sys: System, choice: Choice): System
    requires |sys.phases| == |txns|
    ensures |Next(before, txns, sys, choice).phases| == |txns|
  {
    if choice.tid >= |txns| then sys
    else
      match choice
      case Move(tid) => MoveThread(before, txns[tid], sys, tid)
      case Kill(tid) =>
        if sys.phases[tid].Done? then sys else Finish(sys, tid, Aborted(TransactionUnavailable), EMPTY)
  }

  ghost function Execute(before: Before, txns: seq<Txn>, s0: Store, schedule: seq<Choice>): (sys: System)
    ensures |sys.phases| == |txns|
  {
    if schedule == [] then Start(s0, |txns|)
    else Next(before, txns, Execute(before, txns, s0, schedule[..|schedule| - 1]), schedule[|schedule| - 1])
  }

  // ---------------------------------------------------------------- which bodies may run concurrently

  /** Rows that a body may insert into mutable collections. */
  type Inserts = set<(Collection, CKey)>

  /** A call whose result other transactions cannot change while these locks are held, given that nobody else
    * inserts into the mutable collections that this body inserts into. */
  predicate Covered(locks: LockContext, inserts: Inserts, op: Op, res: Result) {
    match op
    case Get(c, key) => (c, key) in locks.canonicals || (ChainLinked(c) && (res.Found? || c in locks.chains))
    case List(c, _, _) => ChainLinked(c) && c in locks.chains
    case Append(c, key, record) =>
      ChainLinked(c) || !res.Stored? || !res.created || ExtractRecordId(c, record).None? || (c, key) in inserts
    case CompareAndSet(_, _, _, _, _) => true
    case VerifyScope(wanted) => forall c :: c in wanted ==> ChainLinked(c) && c in locks.chains
  }

  /** Every call is covered, except that a body may give up at once after an uncovered result. */
  ghost predicate Disciplined(locks: LockContext, inserts: Inserts, p: Prog, n: nat)
    decreases n
  {
    n > 0 && p.Call? ==>
      forall res ::
        if Covered(locks, inserts, p.op, res) then Disciplined(locks, inserts, p.next(res), n - 1) else p.next(res).Raise?
  }

  lemma {:induction false} DisciplinedPrefix(locks: LockContext, inserts: Inserts, p: Prog, n: nat, m: nat)
    requires Disciplined(locks, inserts, p, n) && m <= n
    ensures Disciplined(locks, inserts, p, m)
    decreases m
  {
    hide Covered;
    if m > 0 && p.Call? {
      forall res ensures
        if Covered(locks, inserts, p.op, res) then Disciplined(locks, inserts, p.next(res), m - 1) else p.next(res).Raise?
      {
        if Covered(locks, inserts, p.op, res) { DisciplinedPrefix(locks, inserts, p.next(res), n - 1, m - 1); }
      }
    }
  }

  // ---------------------------------------------------------------- what a body inserts

  /** Every row that the delta adds to a mutable collection of s is one of these. */
  ghost predicate InsertsOnly(inserts: Inserts, s: Store, delta: Store) {
    forall k :: k in delta.rows && k !in s.rows && CasAllowed(k.group.coll) ==> (k.group.coll, k.ckey) in inserts
  }

  lemma CoveredInserts(ses: Session, inserts: Inserts, op: Op, s: Store)
    requires ses.locks.Some? && Covered(ses.locks.value, inserts, op, Effect(ses, op, s).0)
    ensures InsertsOnly(inserts, s, Effect(ses, op, s).1)
  {
    hide Intact, VerifiedHeads, Listing, NextSequence, ChainPrev, ExtractRecordId, BuildRow;
    match op
    case Append(c, key, record) => assert Effect(ses, op, s) == AppendEffect(ses, c, key, record, s);
    case CompareAndSet(_, _, _, _, _) => assert Effect(ses, op, s) == CasEffect(ses, op, s);
    case _ =>
  }

  lemma InsertsOverlay(inserts: Inserts, s: Store, d: Store, d': Store)
    requires InsertsOnly(inserts, s, d) && InsertsOnly(inserts, Overlay(s, d), d')
    ensures InsertsOnly(inserts, s, Overlay(d, d'))
  {
  }

  /** A disciplined run that has not given up inserts only what it may. */
  lemma {:induction false} StepsInsertOnly(p: Prog, ses: Session, inserts: Inserts, s: Store, n: nat)
    requires ses.locks.Some? && Disciplined(ses.locks.value, inserts, p, n)
    requires !Steps(p, ses, s, n).0.Raise?
    ensures InsertsOnly(inserts, s, Steps(p, ses, s, n).1)
    decreases n
  {
    hide Effect, InsertsOnly;
    if n > 0 && p.Call? {
      var (res, d) := Effect(ses, p.op, s);
      assert Steps(p, ses, s, n).0 == Steps(p.next(res), ses, Overlay(s, d), n - 1).0;
      assert Covered(ses.locks.value, inserts, p.op, res);
      CoveredInserts(ses, inserts, p.op, s);
      StepsInsertOnly(p.next(res), ses, inserts, Overlay(s, d), n - 1);
      InsertsOverlay(inserts, s, d, Steps(p.next(res), ses, Overlay(s, d), n - 1).1);
    } else {
      assert InsertsOnly(inserts, s, EMPTY) by { NothingInserted(inserts, s); }
    }
  }

  lemma NothingInserted(inserts: Inserts, s: Store)
    ensures InsertsOnly(inserts, s, EMPTY)
  {
  }

  // ---------------------------------------------------------------- stability of a locked run

  /** The group has the same keys with the same numbers in both stores. */
  ghost predicate SameNumbers(s: Store, s': Store, g: Group) {
    forall k: Key :: k.group == g ==>
      (k in s.rows <==> k in s'.rows) && (k in s.rows ==> s'.rows[k].sequence == s.rows[k].sequence)
  }

  /** s' has every row of s, and the same rows of chain-linked collections under those keys. */
  ghost predicate Grows(s: Store, s': Store) {
    forall k :: k in s.rows ==> k in s'.rows && (ChainLinked(k.group.coll) ==> s'.rows[k] == s.rows[k])
  }

  /** s' extends s, and both agree on everything the locks protect and on the numbering of every mutable
    * group into which a row may still be inserted. */
  ghost predicate Agree(ses: Session, inserts: Inserts, s: Store, s': Store)
    requires ses.locks.Some?
  {
    && Grows(s, s')
    && (forall c :: c in ses.locks.value.chains && ChainLinked(c) ==>
          && GroupRows(s', Group(ses.scope, c)) == GroupRows(s, Group(ses.scope, c))
          && HeadOf(s', Group(ses.scope, c)) == HeadOf(s, Group(ses.scope, c)))
    && (forall c, key :: (c, key) in ses.locks.value.canonicals ==> SameAt(s, s', Key(Group(ses.scope, c), key)))
    && (forall c, key ::
          (c, key) in inserts && (c, key) in ses.locks.value.canonicals && CasAllowed(c) && Key(Group(ses.scope, c), key) !in s.rows
          ==> SameNumbers(s, s', Group(ses.scope, c)))
  }

  /** Both stores have the same row under the key, or none. */
  ghost predicate SameAt(s: Store, s': Store, k: Key) {
    if k in s.rows then k in s'.rows && s'.rows[k] == s.rows[k] else k !in s'.rows
  }

  lemma GroupRowsMember(s: Store, k: Key)
    ensures k in s.rows <==> k in GroupRows(s, k.group)
  {
  }

  /** The next number depends on the keys and numbers of the group only. */
  lemma NextNumber(s: Store, s': Store, g: Group)
    requires Valid(s) && Valid(s') && CasAllowed(g.coll) && SameNumbers(s, s', g)
    ensures NextSequence(s', g) == NextSequence(s, g)
  {
    hide Valid, NextSequence;
    var ks, ks', m, m' := Order(s, g), Order(s', g), GroupRows(s, g), GroupRows(s', g);
    forall k ensures k in m <==> k in m' {
      assert k in m ==> k.group == g;
      assert k in m' ==> k.group == g;
    }
    forall i | 0 <= i < |ks| ensures m'[ks[i]].sequence == i + 1 {
      assert ks[i] in m && ks[i].group == g;
    }
    ListingIsSorted(m', ks);
  }

  lemma LinkedAppendStable(ses: Session, inserts: Inserts, c: Collection, key: CKey, record: Record, s: Store, s': Store)
    requires ses.locks.Some? && Agree(ses, inserts, s, s') && ChainLinked(c)
    ensures AppendEffect(ses, c, key, record, s') == AppendEffect(ses, c, key, record, s)
  {
    hide BuildRow, ExtractRecordId;
    if WriteAllowed(ses.locks, c, key) {
      assert HeadOf(s', Group(ses.scope, c)) == HeadOf(s, Group(ses.scope, c));
      assert SameAt(s, s', Key(Group(ses.scope, c), key));
    }
  }

  lemma MutableAppendStable(ses: Session, inserts: Inserts, c: Collection, key: CKey, record: Record, s: Store, s': Store)
    requires ses.locks.Some? && Agree(ses, inserts, s, s') && Valid(s) && Valid(s') && CasAllowed(c)
    requires Covered(ses.locks.value, inserts, Append(c, key, record), AppendEffect(ses, c, key, record, s).0)
    ensures AppendEffect(ses, c, key, record, s') == AppendEffect(ses, c, key, record, s)
  {
    hide BuildRow, ExtractRecordId, Valid, NextSequence;
    if WriteAllowed(ses.locks, c, key) {
      assert SameAt(s, s', Key(Group(ses.scope, c), key));
      if Key(Group(ses.scope, c), key) !in s.rows && ExtractRecordId(c, record).Some? {
        NextNumber(s, s', Group(ses.scope, c));
      }
    }
  }

  lemma VerifyStable(ses: Session, inserts: Inserts, wanted: set<Collection>, s: Store, s': Store)
    requires ses.locks.Some? && Agree(ses, inserts, s, s') && Valid(s) && Valid(s')
    requires forall c :: c in wanted ==> ChainLinked(c) && c in ses.locks.value.chains
    ensures Effect(ses, VerifyScope(wanted), s') == Effect(ses, VerifyScope(wanted), s)
  {
    hide Valid, Intact;
    ValidIsIntact(s, ScopeFilter(ses.scope));
    ValidIsIntact(s', ScopeFilter(ses.scope));
    forall c | c in wanted ensures HeadOf(s', Group(ses.scope, c)) == HeadOf(s, Group(ses.scope, c)) {}
    assert VerifiedHeads(s', ses.scope, wanted) == VerifiedHeads(s, ses.scope, wanted);
  }

  lemma EffectStable(ses: Session, inserts: Inserts, op: Op, s: Store, s': Store)
    requires ses.locks.Some? && Agree(ses, inserts, s, s') && Valid(s) && Valid(s')
    requires Covered(ses.locks.value, inserts, op, Effect(ses, op, s).0)
    ensures Effect(ses, op, s') == Effect(ses, op, s)
  {
    hide Valid, Intact, AppendEffect, VerifiedHeads;
    match op
    case Get(c, key) =>
      var k := Key(Group(ses.scope, c), key);
      if (c, key) in ses.locks.value.canonicals { assert SameAt(s, s', k); }
      GroupRowsMember(s, k);
      GroupRowsMember(s', k);
    case List(c, _, _) =>
    case Append(c, key, record) =>
      if ChainLinked(c) {
        LinkedAppendStable(ses, inserts, c, key, record, s, s');
      } else {
        MutableAppendStable(ses, inserts, c, key, record, s, s');
      }
    case CompareAndSet(c, key, _, _, _) =>
      if WriteAllowed(ses.locks, c, key) { assert SameAt(s, s', Key(Group(ses.scope, c), key)); }
    case VerifyScope(wanted) => VerifyStable(ses, inserts, wanted, s, s');
  }

  lemma OverlayGroup(s: Store, d: Store, g: Group)
    ensures GroupRows(Overlay(s, d), g) == GroupRows(s, g) + GroupRows(d, g)
    ensures HeadOf(Overlay(s, d), g) == if g in d.heads then HeadOf(d, g) else HeadOf(s, g)
  {
  }

  /** Writing the same delta to two stores keeps what they agree on. */
  lemma GroupAfterWrite(s: Store, s': Store, d: Store, g: Group)
    requires GroupRows(s', g) == GroupRows(s, g) && HeadOf(s', g) == HeadOf(s, g)
    ensures GroupRows(Overlay(s', d), g) == GroupRows(Overlay(s, d), g) && HeadOf(Overlay(s', d), g) == HeadOf(Overlay(s, d), g)
  {
    OverlayGroup(s, d, g);
    OverlayGroup(s', d, g);
  }

  lemma GrowsAfterWrite(s: Store, s': Store, d: Store)
    requires Grows(s, s')
    ensures Grows(Overlay(s, d), Overlay(s', d))
  {
  }

  lemma RowsAfterWrite(s: Store, s': Store, d: Store, k: Key)
    ensures SameAt(s, s', k) ==> SameAt(Overlay(s, d), Overlay(s', d), k)
    ensures SameNumbers(s, s', k.group) ==> SameNumbers(Overlay(s, d), Overlay(s', d), k.group)
    ensures k in s.rows ==> k in Overlay(s, d).rows
  {
  }

  lemma AgreeAfterWrite(ses: Session, inserts: Inserts, s: Store, s': Store, d: Store)
    requires ses.locks.Some? && Agree(ses, inserts, s, s')
    ensures Agree(ses, inserts, Overlay(s, d), Overlay(s', d))
  {
    hide Overlay, GroupRows, HeadOf, SameAt, SameNumbers, Grows;
    forall c | c in ses.locks.value.chains && ChainLinked(c)
      ensures GroupRows(Overlay(s', d), Group(ses.scope, c)) == GroupRows(Overlay(s, d), Group(ses.scope, c))
      ensures HeadOf(Overlay(s', d), Group(ses.scope, c)) == HeadOf(Overlay(s, d), Group(ses.scope, c))
    {
      GroupAfterWrite(s, s', d, Group(ses.scope, c));
    }
    forall k: Key ensures
      && (SameAt(s, s', k) ==> SameAt(Overlay(s, d), Overlay(s', d), k))
      && (SameNumbers(s, s', k.group) ==> SameNumbers(Overlay(s, d), Overlay(s', d), k.group))
      && (k in s.rows ==> k in Overlay(s, d).rows)
    {
      RowsAfterWrite(s, s', d, k);
    }
    GrowsAfterWrite(s, s', d);
  }

  /** A run that has not given up makes the same calls, with the same results and writes, on any store
    * that extends the first and agrees with it on the locked part. */
  lemma {:induction false} StepsStable(p: Prog, ses: Session, inserts: Inserts, s: Store, s': Store, n: nat)
    requires ses.locks.Some? && Agree(ses, inserts, s, s') && Valid(s) && Valid(s')
    requires Disciplined(ses.locks.value, inserts, p, n)
    requires !Steps(p, ses, s, n).0.Raise?
    ensures Steps(p, ses, s', n) == Steps(p, ses, s, n)
    decreases n
  {
    hide Effect, Valid, Agree;
    if n > 0 && p.Call? {
      var (res, d) := Effect(ses, p.op, s);
      assert Steps(p, ses, s, n).0 == Steps(p.next(res), ses, Overlay(s, d), n - 1).0;
      assert Covered(ses.locks.value, inserts, p.op, res);
      EffectStable(ses, inserts, p.op, s, s');
      EffectKeepsValid(ses, p.op, s);
      EffectKeepsValid(ses, p.op, s');
      AgreeAfterWrite(ses, inserts, s, s', d);
      StepsStable(p.next(res), ses, inserts, Overlay(s, d), Overlay(s', d), n - 1);
    }
  }
}
