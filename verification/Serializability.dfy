/** Under every schedule the committed store is the one that running the committed transactions alone,
  * one after another in commit order, would have produced. */
module Serializability {
  import opened Signing
  import opened Models
  import opened ScopedStore
  import opened Locks
  import opened Sessions
  import opened Concurrency

  /** The store after running the listed transactions alone, in this order. */
  ghost function Serial(txns: seq<Txn>, s0: Store, order: seq<nat>): Store
    requires forall i :: 0 <= i < |order| ==> order[i] < |txns|
  {
    if order == [] then s0
    else RunTransaction(txns[order[|order| - 1]], Serial(txns, s0, order[..|order| - 1])).1
  }

  /** Thread tid holds the lock: it acquired it and has not finished. */
  predicate Holds(before: Before, t: Txn, phase: Phase, ref: LockRef) {
    match phase
    case Acquiring(i) => i <= |Normalize(before, t.locks)| && ref in Normalize(before, t.locks)[..i]
    case Running(_, _, _) => ref in t.locks
    case Done(_) => false
  }

  ghost predicate HeldBy(before: Before, txns: seq<Txn>, sys: System, i: nat, ref: LockRef) {
    i < |txns| && i < |sys.phases| && Holds(before, txns[i], sys.phases[i], ref)
  }

  predicate Owns(sys: System, i: nat, ref: LockRef) {
    ref in sys.owners && sys.owners[ref] == i
  }

  ghost predicate LocksOk(before: Before, txns: seq<Txn>, sys: System) {
    && |sys.phases| == |txns|
    && (forall i: nat, r :: HeldBy(before, txns, sys, i, r) <==> Owns(sys, i, r))
    && (forall i :: 0 <= i < |txns| && sys.phases[i].Acquiring? ==>
          sys.phases[i].held <= |Normalize(before, txns[i].locks)|)
  }

  /** A running thread that has not given up has done what its body does alone on the committed store. */
  ghost predicate RunsAlone(t: Txn, phase: Phase, committed: Store) {
    phase.Running? ==>
      && InScope(t.scope, t.locks)
      && phase.calls <= t.bound
      && (phase.rest.Raise? || Steps(t.body, SessionOf(t), committed, phase.calls) == (phase.rest, phase.delta))
  }

  /** A committed thread returned what it returns when run alone at its place in the commit order. */
  ghost predicate OutcomesOk(txns: seq<Txn>, s0: Store, order: seq<nat>, phases: seq<Phase>)
    requires |phases| == |txns| && forall i :: 0 <= i < |order| ==> order[i] < |txns|
  {
    forall i :: 0 <= i < |order| ==> phases[order[i]] == Done(RunTransaction(txns[order[i]], Serial(txns, s0, order[..i])).0)
  }

  /** The commit order holds each committed thread once, with its serial outcome, and gives the committed store. */
  ghost predicate OrderOk(txns: seq<Txn>, s0: Store, sys: System)
    requires |sys.phases| == |txns|
  {
    && (forall i :: 0 <= i < |sys.order| ==> sys.order[i] < |txns|)
    && (forall i, j :: 0 <= i < j < |sys.order| ==> sys.order[i] != sys.order[j])
    && (forall t: nat :: t in sys.order <==> t < |txns| && sys.phases[t].Done? && sys.phases[t].outcome.Committed?)
    && OutcomesOk(txns, s0, sys.order, sys.phases)
    && sys.committed == Serial(txns, s0, sys.order)
  }

  ghost predicate Keeps(s: Store, s': Store) {
    forall k :: k in s.rows ==> k in s'.rows
  }

  ghost predicate Inv(before: Before, txns: seq<Txn>, s0: Store, sys: System) {
    && LocksOk(before, txns, sys)
    && Valid(sys.committed)
    && Keeps(s0, sys.committed)
    && (forall i :: 0 <= i < |txns| ==> RunsAlone(txns[i], sys.phases[i], sys.committed))
    && OrderOk(txns, s0, sys)
  }

  /** The transactions share no lock, and may insert these different new rows into one mutable group. */
  predicate Contend(t: Txn, a: (Collection, CKey), u: Txn, b: (Collection, CKey), s0: Store) {
    && t.scope == u.scope && a.0 == b.0 && CasAllowed(a.0) && a.1 != b.1
    && Key(Group(t.scope, a.0), a.1) !in s0.rows && Key(Group(t.scope, a.0), b.1) !in s0.rows
    && forall ref :: ref in t.locks ==> ref !in u.locks
  }

  /** What the theorem asks of a set of transactions: each is disciplined, and no two contend. */
  ghost predicate AllDisciplined(txns: seq<Txn>, inserts: seq<Inserts>, s0: Store) {
    && |inserts| == |txns|
    && (forall i :: 0 <= i < |txns| ==> Disciplined(ContextOf(txns[i].locks), inserts[i], txns[i].body, txns[i].bound))
    && (forall i, j, a, b :: 0 <= i < |txns| && 0 <= j < |txns| && i != j && a in inserts[i] && b in inserts[j] ==>
          !Contend(txns[i], a, txns[j], b, s0))
  }

  // ---------------------------------------------------------------- locks

  lemma ReleaseKeepsLocks(before: Before, txns: seq<Txn>, sys: System, tid: nat, out: Outcome, delta: Store)
    requires LocksOk(before, txns, sys) && tid < |txns|
    ensures LocksOk(before, txns, Finish(sys, tid, out, delta))
  {
    hide Overlay, Normalize;
    var sys' := Finish(sys, tid, out, delta);
    forall i: nat, r ensures HeldBy(before, txns, sys', i, r) <==> Owns(sys', i, r) {
      assert HeldBy(before, txns, sys, i, r) <==> Owns(sys, i, r);
    }
  }

  /** Moving one thread to a phase with the matching locks keeps the lock table right. */
  lemma PhaseChangeKeepsLocks(before: Before, txns: seq<Txn>, sys: System, sys': System, tid: nat)
    requires LocksOk(before, txns, sys) && tid < |txns|
    requires |sys'.phases| == |txns| && sys'.phases == sys.phases[tid := sys'.phases[tid]]
    requires sys'.phases[tid].Acquiring? ==> sys'.phases[tid].held <= |Normalize(before, txns[tid].locks)|
    requires forall r :: HeldBy(before, txns, sys', tid, r) <==> Owns(sys', tid, r)
    requires forall i: nat, r :: i != tid ==> (Owns(sys', i, r) <==> Owns(sys, i, r))
    ensures LocksOk(before, txns, sys')
  {
    forall i: nat, r ensures HeldBy(before, txns, sys', i, r) <==> Owns(sys', i, r) {
      assert HeldBy(before, txns, sys, i, r) <==> Owns(sys, i, r);
    }
  }

  lemma AcquireKeepsLocks(before: Before, txns: seq<Txn>, sys: System, tid: nat)
    requires StrictTotal(before) && LocksOk(before, txns, sys) && tid < |txns|
    requires sys.phases[tid].Acquiring? && InScope(txns[tid].scope, txns[tid].locks)
    requires sys.phases[tid].held < |Normalize(before, txns[tid].locks)|
    ensures LocksOk(before, txns, MoveThread(before, txns[tid], sys, tid))
  {
    hide Effect, Normalize;
    var t, locks, i := txns[tid], Normalize(before, txns[tid].locks), sys.phases[tid].held;
    if !Blocked(before, t, sys, tid) {
      var sys' := MoveThread(before, t, sys, tid);
      assert locks[..i + 1] == locks[..i] + [locks[i]];
      forall r ensures HeldBy(before, txns, sys', tid, r) <==> Owns(sys', tid, r) {
        assert HeldBy(before, txns, sys, tid, r) <==> Owns(sys, tid, r);
      }
      PhaseChangeKeepsLocks(before, txns, sys, sys', tid);
    }
  }

  lemma MoveKeepsLocks(before: Before, txns: seq<Txn>, sys: System, tid: nat)
    requires StrictTotal(before) && LocksOk(before, txns, sys) && tid < |txns|
    ensures LocksOk(before, txns, MoveThread(before, txns[tid], sys, tid))
  {
    hide Effect;
    var t, locks := txns[tid], Normalize(before, txns[tid].locks);
    var sys' := MoveThread(before, t, sys, tid);
    if sys'.phases[tid].Done? && !sys.phases[tid].Done? {
      ReleaseKeepsLocks(before, txns, sys, tid, sys'.phases[tid].outcome,
                        if sys.phases[tid].Running? then sys.phases[tid].delta else EMPTY);
    } else if sys.phases[tid].Acquiring? && sys.phases[tid].held < |locks| {
      AcquireKeepsLocks(before, txns, sys, tid);
    } else {
      NormalizeSorts(before, t.locks);
      assert locks[..|locks|] == locks;
      forall r ensures HeldBy(before, txns, sys', tid, r) <==> Owns(sys', tid, r) {
        assert HeldBy(before, txns, sys, tid, r) <==> Owns(sys, tid, r);
      }
      PhaseChangeKeepsLocks(before, txns, sys, sys', tid);
    }
  }

  // ---------------------------------------------------------------- another thread commits

  lemma HeldByOne(before: Before, txns: seq<Txn>, sys: System, i: nat, j: nat, r: LockRef)
    requires LocksOk(before, txns, sys) && HeldBy(before, txns, sys, i, r) && HeldBy(before, txns, sys, j, r)
    ensures i == j
  {
  }

  lemma LocksDisjoint(before: Before, txns: seq<Txn>, sys: System, tid: nat, u: nat)
    requires LocksOk(before, txns, sys) && tid < |txns| && u < |txns| && u != tid
    requires sys.phases[tid].Running? && sys.phases[u].Running?
    ensures forall ref :: ref in txns[tid].locks ==> ref !in txns[u].locks
  {
    forall ref | ref in txns[tid].locks ensures ref !in txns[u].locks {
      if ref in txns[u].locks { HeldByOne(before, txns, sys, tid, u, ref); }
    }
  }

  /** A commit inserts nothing into a mutable group in which another running thread may still insert. */
  lemma NumbersStay(txns: seq<Txn>, inserts: seq<Inserts>, s0: Store, s: Store, d: Store, tid: nat, u: nat, c: Collection, key: CKey)
    requires AllDisciplined(txns, inserts, s0) && Keeps(s0, s) && tid < |txns| && u < |txns| && u != tid
    requires forall ref :: ref in txns[tid].locks ==> ref !in txns[u].locks
    requires InScope(txns[tid].scope, txns[tid].locks)
    requires Framed(SessionOf(txns[tid]), d) && AppendOnly(s, d) && InsertsOnly(inserts[tid], s, d)
    requires (c, key) in inserts[u] && (c, key) in ContextOf(txns[u].locks).canonicals && CasAllowed(c)
    requires InScope(txns[u].scope, txns[u].locks) && Key(Group(txns[u].scope, c), key) !in s.rows
    ensures SameNumbers(s, Overlay(s, d), Group(txns[u].scope, c))
  {
    var t, v := txns[tid], txns[u];
    forall k: Key | k.group == Group(v.scope, c) && k in d.rows ensures k in s.rows {
      assert LockRef(v.scope, c, Some(key)) in v.locks && LockRef(t.scope, c, Some(k.ckey)) in t.locks;
      assert k !in s.rows ==> (c, k.ckey) in inserts[tid] && !Contend(t, (c, k.ckey), v, (c, key), s0);
    }
  }

  /** Writes under other locks miss every chain that these locks protect. */
  lemma ChainsStay(t: Txn, v: Txn, s: Store, d: Store, c: Collection)
    requires (forall ref :: ref in t.locks ==> ref !in v.locks) && InScope(t.scope, t.locks) && InScope(v.scope, v.locks)
    requires Framed(SessionOf(t), d) && c in ContextOf(v.locks).chains && ChainLinked(c)
    ensures GroupRows(Overlay(s, d), Group(v.scope, c)) == GroupRows(s, Group(v.scope, c))
    ensures HeadOf(Overlay(s, d), Group(v.scope, c)) == HeadOf(s, Group(v.scope, c))
  {
    assert LockRef(v.scope, c, None) in v.locks;
    assert GroupRows(d, Group(v.scope, c)) == map[] && Group(v.scope, c) !in d.heads;
    OverlayGroup(s, d, Group(v.scope, c));
  }

  /** And every row. */
  lemma RowStays(t: Txn, v: Txn, s: Store, d: Store, c: Collection, key: CKey)
    requires (forall ref :: ref in t.locks ==> ref !in v.locks) && InScope(t.scope, t.locks) && InScope(v.scope, v.locks)
    requires Framed(SessionOf(t), d) && (c, key) in ContextOf(v.locks).canonicals
    ensures SameAt(s, Overlay(s, d), Key(Group(v.scope, c), key))
  {
    assert LockRef(v.scope, c, Some(key)) in v.locks;
  }

  /** Two running threads never hold the same lock, so one's writes miss all the other's locks protect. */
  lemma CommitIsInvisible(before: Before, txns: seq<Txn>, inserts: seq<Inserts>, s0: Store, sys: System, tid: nat, u: nat)
    requires LocksOk(before, txns, sys) && tid < |txns| && u < |txns| && u != tid && |sys.phases| == |txns|
    requires AllDisciplined(txns, inserts, s0) && |inserts| == |txns| && Keeps(s0, sys.committed)
    requires sys.phases[tid].Running? && sys.phases[u].Running?
    requires InScope(txns[tid].scope, txns[tid].locks) && InScope(txns[u].scope, txns[u].locks)
    requires Framed(SessionOf(txns[tid]), sys.phases[tid].delta)
    requires AppendOnly(sys.committed, sys.phases[tid].delta)
    requires InsertsOnly(inserts[tid], sys.committed, sys.phases[tid].delta)
    ensures Agree(SessionOf(txns[u]), inserts[u], sys.committed, Overlay(sys.committed, sys.phases[tid].delta))
  {
    hide LocksOk, AllDisciplined, SameNumbers, SameAt, ContextOf, InScope, Framed, InsertsOnly, GroupRows, HeadOf;
    var t, v, s, d := txns[tid], txns[u], sys.committed, sys.phases[tid].delta;
    LocksDisjoint(before, txns, sys, tid, u);
    forall c | c in ContextOf(v.locks).chains && ChainLinked(c)
      ensures GroupRows(Overlay(s, d), Group(v.scope, c)) == GroupRows(s, Group(v.scope, c))
      ensures HeadOf(Overlay(s, d), Group(v.scope, c)) == HeadOf(s, Group(v.scope, c))
    {
      ChainsStay(t, v, s, d, c);
    }
    forall c, key | (c, key) in ContextOf(v.locks).canonicals ensures SameAt(s, Overlay(s, d), Key(Group(v.scope, c), key)) {
      RowStays(t, v, s, d, c, key);
    }
    forall c, key |
      (c, key) in inserts[u] && (c, key) in ContextOf(v.locks).canonicals && CasAllowed(c) && Key(Group(v.scope, c), key) !in s.rows
      ensures SameNumbers(s, Overlay(s, d), Group(v.scope, c))
    {
      NumbersStay(txns, inserts, s0, s, d, tid, u, c, key);
    }
  }

  lemma RunSurvivesCommit(before: Before, txns: seq<Txn>, inserts: seq<Inserts>, s0: Store, sys: System, tid: nat, u: nat)
    requires Inv(before, txns, s0, sys) && AllDisciplined(txns, inserts, s0)
    requires tid < |txns| && u < |txns| && u != tid
    requires sys.phases[tid].Running? && sys.phases[tid].rest.Return?
    ensures RunsAlone(txns[u], sys.phases[u], Overlay(sys.committed, sys.phases[tid].delta))
  {
    hide Effect, Valid, OrderOk, Steps, Agree, Disciplined, InsertsOnly, Framed, AppendOnly;
    var c, c' := sys.committed, Overlay(sys.committed, sys.phases[tid].delta);
    var t, v := txns[tid], txns[u];
    assert RunsAlone(t, sys.phases[tid], c) && RunsAlone(v, sys.phases[u], c);
    if sys.phases[u].Running? && !sys.phases[u].rest.Raise? {
      var m, n := sys.phases[tid].calls, sys.phases[u].calls;
      StepsAreFramed(t.body, SessionOf(t), c, m);
      StepsKeepValid(t.body, SessionOf(t), c, m);
      DisciplinedPrefix(ContextOf(t.locks), inserts[tid], t.body, t.bound, m);
      StepsInsertOnly(t.body, SessionOf(t), inserts[tid], c, m);
      CommitIsInvisible(before, txns, inserts, s0, sys, tid, u);
      DisciplinedPrefix(ContextOf(v.locks), inserts[u], v.body, v.bound, n);
      StepsStable(v.body, SessionOf(v), inserts[u], c, c', n);
    }
  }

  // ---------------------------------------------------------------- one move

  /** A run that stopped before its bound has the same outcome at its bound. */
  lemma {:induction false} StepsStopped(p: Prog, ses: Session, s: Store, n: nat, m: nat)
    requires n <= m && !Steps(p, ses, s, n).0.Call?
    ensures Steps(p, ses, s, m) == Steps(p, ses, s, n)
    decreases m
  {
    hide Effect;
    if n > 0 && p.Call? {
      var (res, d) := Effect(ses, p.op, s);
      StepsStopped(p.next(res), ses, Overlay(s, d), n - 1, m - 1);
    }
  }

  lemma AbortKeepsOrder(txns: seq<Txn>, s0: Store, sys: System, tid: nat, e: Error, delta: Store)
    requires |sys.phases| == |txns| && tid < |txns| && OrderOk(txns, s0, sys) && !sys.phases[tid].Done?
    ensures OrderOk(txns, s0, Finish(sys, tid, Aborted(e), delta))
  {
    hide RunTransaction, Serial, Overlay;
    forall i | 0 <= i < |sys.order| ensures sys.order[i] != tid {
      assert sys.order[i] in sys.order;
    }
  }

  lemma CommitExtendsSerial(txns: seq<Txn>, s0: Store, order: seq<nat>, tid: nat)
    requires tid < |txns| && forall i :: 0 <= i < |order| ==> order[i] < |txns|
    ensures Serial(txns, s0, order + [tid]) == RunTransaction(txns[tid], Serial(txns, s0, order)).1
    ensures forall i :: 0 <= i <= |order| ==> (order + [tid])[..i] == order[..i]
  {
    assert (order + [tid])[..|order|] == order;
  }

  /** The commit order gains the thread, and still holds each committed thread once. */
  lemma CommitJoinsOrder(txns: seq<Txn>, s0: Store, sys: System, tid: nat, out: Outcome, delta: Store)
    requires |sys.phases| == |txns| && tid < |txns| && OrderOk(txns, s0, sys) && !sys.phases[tid].Done? && out.Committed?
    ensures
      var sys' := Finish(sys, tid, out, delta);
      && tid !in sys.order
      && (forall i, j :: 0 <= i < j < |sys'.order| ==> sys'.order[i] != sys'.order[j])
      && (forall t: nat :: t in sys'.order <==> t < |txns| && sys'.phases[t].Done? && sys'.phases[t].outcome.Committed?)
  {
    hide RunTransaction, Serial, Overlay, Valid, OutcomesOk;
    var sys' := Finish(sys, tid, out, delta);
    assert tid !in sys.order;
    assert forall i :: 0 <= i < |sys.order| ==> sys.order[i] in sys.order;
    forall t: nat ensures t in sys'.order <==> t in sys.order || t == tid {}
  }

  /** Every thread committed before keeps its outcome, and the new one has its own. */
  lemma OutcomesGrow(txns: seq<Txn>, s0: Store, order: seq<nat>, phases: seq<Phase>, tid: nat, out: Outcome)
    requires |phases| == |txns| && tid < |txns| && tid !in order && forall i :: 0 <= i < |order| ==> order[i] < |txns|
    requires OutcomesOk(txns, s0, order, phases) && out == RunTransaction(txns[tid], Serial(txns, s0, order)).0
    ensures OutcomesOk(txns, s0, order + [tid], phases[tid := Done(out)])
  {
    hide RunTransaction, Serial;
    var order', phases' := order + [tid], phases[tid := Done(out)];
    forall i | 0 <= i < |order'|
      ensures phases'[order'[i]] == Done(RunTransaction(txns[order'[i]], Serial(txns, s0, order'[..i])).0)
    {
      assert order'[..i] == order[..i];
      if i < |order| { assert order[i] in order; } else { assert order[..i] == order; }
    }
  }

  lemma CommitKeepsOrder(txns: seq<Txn>, s0: Store, sys: System, tid: nat, v: Record, delta: Store)
    requires |sys.phases| == |txns| && tid < |txns| && OrderOk(txns, s0, sys) && !sys.phases[tid].Done?
    requires RunTransaction(txns[tid], sys.committed) == (Committed(v), Overlay(sys.committed, delta))
    ensures OrderOk(txns, s0, Finish(sys, tid, Committed(v), delta))
  {
    hide RunTransaction, Serial, Overlay, Valid, OutcomesOk;
    CommitExtendsSerial(txns, s0, sys.order, tid);
    CommitJoinsOrder(txns, s0, sys, tid, Committed(v), delta);
    OutcomesGrow(txns, s0, sys.order, sys.phases, tid, Committed(v));
  }

  lemma CommitKeepsInv(before: Before, txns: seq<Txn>, inserts: seq<Inserts>, s0: Store, sys: System, tid: nat)
    requires StrictTotal(before) && AllDisciplined(txns, inserts, s0) && Inv(before, txns, s0, sys) && tid < |txns|
    requires sys.phases[tid].Running? && sys.phases[tid].rest.Return?
    ensures Inv(before, txns, s0, MoveThread(before, txns[tid], sys, tid))
  {
    hide Effect, Valid, Steps, Serial;
    var t, c, d, n := txns[tid], sys.committed, sys.phases[tid].delta, sys.phases[tid].calls;
    var out := Committed(sys.phases[tid].rest.value);
    assert RunsAlone(t, sys.phases[tid], c);
    StepsStopped(t.body, SessionOf(t), c, n, t.bound);
    StepsKeepValid(t.body, SessionOf(t), c, n);
    assert RunTransaction(t, c) == (out, Overlay(c, d));
    CommitKeepsOrder(txns, s0, sys, tid, out.value, d);
    ReleaseKeepsLocks(before, txns, sys, tid, out, d);
    forall u | 0 <= u < |txns| && u != tid ensures RunsAlone(txns[u], sys.phases[u], Overlay(c, d)) {
      RunSurvivesCommit(before, txns, inserts, s0, sys, tid, u);
    }
  }

  lemma AbortKeepsInv(before: Before, txns: seq<Txn>, s0: Store, sys: System, tid: nat, e: Error, delta: Store)
    requires Inv(before, txns, s0, sys) && tid < |txns| && !sys.phases[tid].Done?
    ensures Inv(before, txns, s0, Finish(sys, tid, Aborted(e), delta))
  {
    hide RunTransaction, Serial, Overlay, Steps, Valid;
    AbortKeepsOrder(txns, s0, sys, tid, e, delta);
    ReleaseKeepsLocks(before, txns, sys, tid, Aborted(e), delta);
  }

  lemma PhaseChangeKeepsInv(before: Before, txns: seq<Txn>, s0: Store, sys: System, sys': System, tid: nat)
    requires Inv(before, txns, s0, sys) && tid < |txns| && !sys.phases[tid].Done?
    requires LocksOk(before, txns, sys') && !sys'.phases[tid].Done?
    requires sys'.committed == sys.committed && sys'.order == sys.order
    requires sys'.phases == sys.phases[tid := sys'.phases[tid]]
    requires RunsAlone(txns[tid], sys'.phases[tid], sys.committed)
    ensures Inv(before, txns, s0, sys')
  {
    hide Effect, Valid, Steps, RunTransaction, Serial;
    forall i | 0 <= i < |sys.order| ensures sys.order[i] != tid {
      assert sys.order[i] in sys.order;
    }
  }

  lemma CallRunsAlone(t: Txn, committed: Store, n: nat, rest: Prog, delta: Store)
    requires RunsAlone(t, Running(n, rest, delta), committed) && rest.Call? && n < t.bound
    ensures
      var (res, d) := Effect(SessionOf(t), rest.op, Overlay(committed, delta));
      RunsAlone(t, Running(n + 1, rest.next(res), Overlay(delta, d)), committed)
  {
    hide Effect, Overlay;
    StepsSnoc(t.body, SessionOf(t), committed, n);
  }

  lemma CallKeepsInv(before: Before, txns: seq<Txn>, s0: Store, sys: System, tid: nat, rest': Prog, delta': Store)
    requires Inv(before, txns, s0, sys) && tid < |txns|
    requires sys.phases[tid].Running?
    requires RunsAlone(txns[tid], Running(sys.phases[tid].calls + 1, rest', delta'), sys.committed)
    ensures Inv(before, txns, s0, sys.(phases := sys.phases[tid := Running(sys.phases[tid].calls + 1, rest', delta')]))
  {
    var sys' := sys.(phases := sys.phases[tid := Running(sys.phases[tid].calls + 1, rest', delta')]);
    forall r ensures HeldBy(before, txns, sys', tid, r) <==> Owns(sys', tid, r) {
      assert HeldBy(before, txns, sys, tid, r) <==> Owns(sys, tid, r);
    }
    PhaseChangeKeepsLocks(before, txns, sys, sys', tid);
    PhaseChangeKeepsInv(before, txns, s0, sys, sys', tid);
  }

  lemma AcquireKeepsInv(before: Before, txns: seq<Txn>, s0: Store, sys: System, tid: nat)
    requires StrictTotal(before) && Inv(before, txns, s0, sys) && tid < |txns|
    requires sys.phases[tid].Acquiring? && InScope(txns[tid].scope, txns[tid].locks)
    ensures Inv(before, txns, s0, MoveThread(before, txns[tid], sys, tid))
  {
    MoveKeepsLocks(before, txns, sys, tid);
    assert Steps(txns[tid].body, SessionOf(txns[tid]), sys.committed, 0) == (txns[tid].body, EMPTY);
    if !Blocked(before, txns[tid], sys, tid) {
      PhaseChangeKeepsInv(before, txns, s0, sys, MoveThread(before, txns[tid], sys, tid), tid);
    }
  }

  lemma NextKeepsInv(before: Before, txns: seq<Txn>, inserts: seq<Inserts>, s0: Store, sys: System, choice: Choice)
    requires StrictTotal(before) && AllDisciplined(txns, inserts, s0) && Inv(before, txns, s0, sys)
    ensures Inv(before, txns, s0, Next(before, txns, sys, choice))
  {
    hide Effect, Valid, Steps, RunTransaction, Serial, RunsAlone, OrderOk, Normalize;
    var tid := choice.tid;
    if tid < |txns| && !sys.phases[tid].Done? {
      var phase := sys.phases[tid];
      if choice.Kill? {
        AbortKeepsInv(before, txns, s0, sys, tid, TransactionUnavailable, EMPTY);
      } else if phase.Acquiring? {
        if InScope(txns[tid].scope, txns[tid].locks) {
          AcquireKeepsInv(before, txns, s0, sys, tid);
        } else {
          AbortKeepsInv(before, txns, s0, sys, tid, ValueError, EMPTY);
        }
      } else if phase.rest.Call? && phase.calls < txns[tid].bound {
        var (res, d) := Effect(SessionOf(txns[tid]), phase.rest.op, Overlay(sys.committed, phase.delta));
        CallRunsAlone(txns[tid], sys.committed, phase.calls, phase.rest, phase.delta);
        CallKeepsInv(before, txns, s0, sys, tid, phase.rest.next(res), Overlay(phase.delta, d));
      } else if phase.rest.Return? {
        CommitKeepsInv(before, txns, inserts, s0, sys, tid);
      } else {
        AbortKeepsInv(before, txns, s0, sys, tid, Conclude(phase.rest).error, phase.delta);
      }
    }
  }

  lemma {:induction false} ExecuteKeepsInv(before: Before, txns: seq<Txn>, inserts: seq<Inserts>, s0: Store, schedule: seq<Choice>)
    requires StrictTotal(before) && AllDisciplined(txns, inserts, s0) && Valid(s0)
    ensures Inv(before, txns, s0, Execute(before, txns, s0, schedule))
    decreases |schedule|
  {
    hide Effect, Next;
    if schedule != [] {
      ExecuteKeepsInv(before, txns, inserts, s0, schedule[..|schedule| - 1]);
      NextKeepsInv(before, txns, inserts, s0, Execute(before, txns, s0, schedule[..|schedule| - 1]), schedule[|schedule| - 1]);
    }
  }

  // ---------------------------------------------------------------- the theorem

  /** Whatever the schedule: the committed store is valid and is the serial result of exactly the
    * committed transactions in commit order, and each of them returned what it returns in that order. */
  lemma Serializable(before: Before, txns: seq<Txn>, inserts: seq<Inserts>, s0: Store, schedule: seq<Choice>)
    requires StrictTotal(before) && AllDisciplined(txns, inserts, s0) && Valid(s0)
    ensures
      var sys := Execute(before, txns, s0, schedule);
      && OrderOk(txns, s0, sys)
      && (forall i :: 0 <= i < |sys.order| ==> sys.order[i] < |txns|)
      && (forall t: nat :: t in sys.order <==> t < |txns| && sys.phases[t].Done? && sys.phases[t].outcome.Committed?)
      && (forall i, j :: 0 <= i < j < |sys.order| ==> sys.order[i] != sys.order[j])
      && sys.committed == Serial(txns, s0, sys.order)
      && Valid(sys.committed)
      && (forall i :: 0 <= i < |sys.order| ==>
            sys.phases[sys.order[i]].outcome == RunTransaction(txns[sys.order[i]], Serial(txns, s0, sys.order[..i])).0)
  {
    hide Effect, Valid, Steps;
    ExecuteKeepsInv(before, txns, inserts, s0, schedule);
  }
}
