/** Every call of the service keeps the protocol's records consistent, so every run from an empty ledger
  * reaches governed stores only. */
module ProtocolInvariant {
  import opened Signing
  import opened Models
  import opened ScopedStore
  import opened Locks
  import opened Sessions
  import opened SessionRules
  import opened Authority
  import opened Gateway
  import opened Outcomes
  import opened ProtocolSteps
  import opened LedgerOps
  import opened ProtocolLocks
  import opened ProtocolRecords
  import opened Unrolling

  function RowKey(scope: Scope, c: Collection, key: CKey): Key {
    Key(Group(scope, c), key)
  }

  ghost function Ends(t: Txn, s: Store): (Prog, Store) {
    After(t.body, SessionOf(t), s, t.bound)
  }

  /** A transaction whose body, when it returns, has written fitting records keeps the store governed. */
  lemma CommitKeepsGoverned(signer: Option<Signer>, t: Txn, s: Store, w: map<Key, Record>)
    requires Governed(signer, s) && InScope(t.scope, t.locks)
    requires Ends(t, s).0.Return? ==>
      && Wrote(s, Ends(t, s).1, w)
      && forall k :: k in w ==> Fits(signer, Ends(t, s).1, k.group.scope, k.group.coll, k.ckey, w[k])
    ensures Governed(signer, RunTransaction(t, s).1) && Extends(s, RunTransaction(t, s).1)
  {
    hide Governed, Wrote, Fits, After, RunTransaction;
    TransactionIsAfter(t, s);
    if Ends(t, s).0.Return? { WritesKeepGoverned(signer, s, Ends(t, s).1, w); }
  }

  // ---------------------------------------------------------------- register and authorize

  lemma RegisterKeeps(signer: Option<Signer>, e: DecisionEnvelope, s: Store)
    requires Governed(signer, s)
    ensures Governed(signer, RunTransaction(RegisterTxn(e), s).1) && Extends(s, RunTransaction(RegisterTxn(e), s).1)
  {
    hide Governed, Wrote, RunTransaction, Extends;
    var t, ses := RegisterTxn(e), SessionOf(RegisterTxn(e));
    var w: map<Key, Record> := map[RowKey(t.scope, DecisionEnvelopes, Name(e.envelopeId)) := EnvelopeRecord(e)];
    GovernedIsValid(signer, s);
    WroteNothing(s);
    var s1 := PutAfter(DecisionEnvelopes, Name(e.envelopeId), EnvelopeRecord(e), (_: Record) => Return(EnvelopeRecord(e)),
                       ses, s, s, 1, map[]);
    CommitKeepsGoverned(signer, t, s, w);
  }

  lemma GovernedIsValid(signer: Option<Signer>, s: Store)
    requires Governed(signer, s)
    ensures Valid(s)
  {
  }

  lemma EnvelopeIsFit(signer: Option<Signer>, s: Store, scope: Scope, id: Id)
    requires Governed(signer, s) && EnvelopeAt(s, scope, id).Some?
    ensures EnvelopeFits(scope, Name(id), EnvelopeAt(s, scope, id).value)
  {
    hide Governed, Valid;
    StoredFits(signer, s, scope, DecisionEnvelopes, Name(id));
  }

  lemma AuthorityIsFit(signer: Option<Signer>, s: Store, scope: Scope, id: Id)
    requires Governed(signer, s) && AuthorityAt(s, scope, id).Some?
    ensures AuthorityFits(signer, s, scope, Name(id), AuthorityAt(s, scope, id).value)
  {
    hide Governed, AuthorityFits;
    StoredFits(signer, s, scope, AuthorityDecisions, Name(id));
  }

  lemma AuthorizeEnds(args: AuthorizeArgs, a: AuthorityDecision, s: Store)
    requires Valid(s)
    ensures Ends(AuthorizeTxn(args, a), s).0.Return? ==>
      Wrote(s, Ends(AuthorizeTxn(args, a), s).1,
            map[RowKey(args.scope, AuthorityDecisions, Name(a.authorityDecisionId)) := AuthorityRecord(a)])
  {
    hide Wrote, Effect, ContextOf, Valid, Fetch, Put;
    var ses := SessionOf(AuthorizeTxn(args, a));
    WroteNothing(s);
    FetchAfter(DecisionEnvelopes, Name(args.envelopeId), (_: Record) => PutAuthority(a), ses, s, 2);
    var s1 := PutAfter(AuthorityDecisions, Name(a.authorityDecisionId), AuthorityRecord(a),
                       (_: Record) => Return(AuthorityRecord(a)), ses, s, s, 1, map[]);
  }

  lemma AuthorizeKeeps(signer: Option<Signer>, args: AuthorizeArgs, seen: Store, s: Store)
    requires Governed(signer, seen) && Extends(seen, s) && Governed(signer, s)
    requires ReadyToAuthorize(signer, args, seen).Ready?
    ensures
      var t := ReadyToAuthorize(signer, args, seen).txn;
      Governed(signer, RunTransaction(t, s).1) && Extends(s, RunTransaction(t, s).1)
  {
    hide Governed, Wrote, RunTransaction, Extends, Ends, Decide;
    var e := EnvelopeAt(seen, args.scope, args.envelopeId).value;
    var a := Decide(signer, e, args.subject, args.role, args.approvals, args.authorityId, args.now);
    var t := AuthorizeTxn(args, a);
    GovernedIsValid(signer, s);
    AuthorizeEnds(args, a, s);
    AuthorizeLocked(args, a);
    EnvelopeIsFit(signer, seen, args.scope, args.envelopeId);
    DecisionFields(signer, e, args.subject, args.role, args.approvals, args.authorityId, args.now);
    if Ends(t, s).0.Return? {
      WroteExtends(s, Ends(t, s).1, map[RowKey(args.scope, AuthorityDecisions, Name(a.authorityDecisionId)) := AuthorityRecord(a)]);
      ExtendsIsTransitive(seen, s, Ends(t, s).1);
      RecordsStay(seen, Ends(t, s).1, args.scope);
    }
    CommitKeepsGoverned(signer, t, s, map[RowKey(args.scope, AuthorityDecisions, Name(a.authorityDecisionId)) := AuthorityRecord(a)]);
  }

  lemma DecisionFields(signer: Option<Signer>, e: DecisionEnvelope, subject: Id, role: Id, approvals: seq<Approval>, id: Id, now: string)
    ensures
      var a := Decide(signer, e, subject, role, approvals, id, now);
      && a.authorityDecisionId == id && a.envelopeId == e.envelopeId && a.authoritySubject == subject
      && a.authorityRole == role && a.approvals == approvals && a.decidedAt == now
  {
  }

  lemma WroteExtends(s: Store, s': Store, w: map<Key, Record>)
    requires Wrote(s, s', w)
    ensures Extends(s, s') && Valid(s')
  {
  }

  lemma WrittenRecord(s: Store, s': Store, w: map<Key, Record>, scope: Scope, c: Collection, key: CKey)
    requires Wrote(s, s', w) && RowKey(scope, c, key) in w
    ensures RecordAt(s', scope, c, key) == Some(w[RowKey(scope, c, key)])
  {
  }

  // ---------------------------------------------------------------- create_execution_plan

  function PlanWrites(scope: Scope, q: ExecutionRequest, g: GatewayDecision): map<Key, Record> {
    map[RowKey(scope, ExecutionRequests, Name(q.planId)) := RequestRecord(q),
        RowKey(scope, GatewayDecisions, Name(q.planId)) := GatewayRecord(g),
        RowKey(scope, GatewayDecisionEvents, EventKey(q.planId, GatewayDecisionCreated)) := EventRecord(CreatedEvent(scope, q, g))]
  }

  lemma PlanEnds(scope: Scope, q: ExecutionRequest, g: GatewayDecision, s: Store)
    requires Valid(s)
    ensures Ends(PlanTxn(scope, q, g), s).0.Return? ==> Wrote(s, Ends(PlanTxn(scope, q, g), s).1, PlanWrites(scope, q, g))
  {
    hide Wrote, Effect, ContextOf, Valid, After, Fetch, Put;
    var ses := SessionOf(PlanTxn(scope, q, g));
    WroteNothing(s);
    FetchAfter(DecisionEnvelopes, Name(q.envelopeId), (_: Record) => PlanAfterEnvelope(scope, q, g), ses, s, 5);
    FetchAfter(AuthorityDecisions, Name(q.authorityDecisionId), (_: Record) => PutRequest(scope, q, g), ses, s, 4);
    var w1: map<Key, Record> := map[RowKey(scope, ExecutionRequests, Name(q.planId)) := RequestRecord(q)];
    var s1 := PutAfter(ExecutionRequests, Name(q.planId), RequestRecord(q), (_: Record) => PutGateway(scope, q, g), ses, s, s, 3, map[]);
    if Ends(PlanTxn(scope, q, g), s).0.Return? {
      var w2 := w1[RowKey(scope, GatewayDecisions, Name(q.planId)) := GatewayRecord(g)];
      var s2 := PutAfter(GatewayDecisions, Name(q.planId), GatewayRecord(g), (_: Record) => PutCreated(scope, q, g), ses, s, s1, 2, w1);
      var s3 := PutAfter(GatewayDecisionEvents, EventKey(q.planId, GatewayDecisionCreated), EventRecord(CreatedEvent(scope, q, g)),
                         (_: Record) => Return(GatewayRecord(g)), ses, s, s2, 1, w2);
      NothingLeft(GatewayRecord(g), ses, s3);
    }
  }

  lemma NothingLeft(record: Record, ses: Session, s: Store)
    ensures forall n: nat :: After(Return(record), ses, s, n) == (Return(record), s)
  {
  }

  lemma PlanFits(signer: Option<Signer>, scope: Scope, q: ExecutionRequest, g: GatewayDecision, s: Store, s': Store)
    requires Wrote(s, s', PlanWrites(scope, q, g))
    requires g.planId == q.planId && Scope(q.tenant, q.project) == scope && q.actionHash == ActionHash(q.requestedAction)
    requires EnvelopeAt(s', scope, q.envelopeId).Some? && AuthorityAt(s', scope, q.authorityDecisionId).Some?
    requires g == Judge(EnvelopeAt(s', scope, q.envelopeId).value, AuthorityAt(s', scope, q.authorityDecisionId).value, q,
                        scope, g.gatewayDecisionId, g.decidedAt)
    ensures forall k :: k in PlanWrites(scope, q, g) ==>
      Fits(signer, s', k.group.scope, k.group.coll, k.ckey, PlanWrites(scope, q, g)[k])
  {
    hide Wrote, Judge, EnvelopeAt, AuthorityAt;
    var w := PlanWrites(scope, q, g);
    WrittenRecord(s, s', w, scope, ExecutionRequests, Name(q.planId));
    WrittenRecord(s, s', w, scope, GatewayDecisions, Name(q.planId));
    WrittenRecord(s, s', w, scope, GatewayDecisionEvents, EventKey(q.planId, GatewayDecisionCreated));
  }

  lemma JudgeFields(e: DecisionEnvelope, a: AuthorityDecision, q: ExecutionRequest, scope: Scope, id: Id, now: string)
    ensures
      var g := Judge(e, a, q, scope, id, now);
      g.planId == q.planId && g.gatewayDecisionId == id && g.decidedAt == now
      && g.simulation.NOT_SIMULATED? && g.execution.NOT_EXECUTED?
  {
  }

  lemma PlanKeeps(signer: Option<Signer>, args: PlanArgs, seen: Store, s: Store)
    requires Governed(signer, seen) && Extends(seen, s) && Governed(signer, s)
    requires ReadyToPlan(args, seen).Ready?
    ensures
      var t := ReadyToPlan(args, seen).txn;
      Governed(signer, RunTransaction(t, s).1) && Extends(s, RunTransaction(t, s).1)
  {
    hide Governed, Wrote, RunTransaction, Extends, Ends, Judge, Fits, PlanWrites, PlanLocks;
    var e, a := EnvelopeAt(seen, args.scope, args.envelopeId).value, AuthorityAt(seen, args.scope, args.authorityId).value;
    var q := RequestOf(args);
    var g := Judge(e, a, q, args.scope, args.gatewayId, args.decidedAt);
    var t := PlanTxn(args.scope, q, g);
    GovernedIsValid(signer, s);
    PlanEnds(args.scope, q, g, s);
    PlanRefs(args.scope, q);
    JudgeFields(e, a, q, args.scope, args.gatewayId, args.decidedAt);
    var s' := Ends(t, s).1;
    if Ends(t, s).0.Return? {
      WroteExtends(s, s', PlanWrites(args.scope, q, g));
      ExtendsIsTransitive(seen, s, s');
      RecordsStay(seen, s', args.scope);
      PlanFits(signer, args.scope, q, g, s, s');
    }
    CommitKeepsGoverned(signer, t, s, PlanWrites(args.scope, q, g));
  }

  // ---------------------------------------------------------------- simulate_execution_plan

  function SimulateWrites(scope: Scope, planId: Id, g: GatewayDecision, r: ShadowReceipt, isNew: bool): map<Key, Record> {
    var event := RowKey(scope, GatewayDecisionEvents, EventKey(planId, SimulationRecorded));
    if isNew then
      map[RowKey(scope, ShadowExecutionReceipts, Name(planId)) := ReceiptRecord(r),
          event := EventRecord(SimulationEvent(scope, planId, g, r))]
    else map[event := EventRecord(SimulationEvent(scope, planId, g, r))]
  }

  lemma CheckReceiptEnds(signer: Option<Signer>, args: SimulateArgs, q: ExecutionRequest, g: GatewayDecision, r: ShadowReceipt,
                         ses: Session, s0: Store, s: Store, n: nat, w: map<Key, Record>)
    requires n > 0 && ses.scope == args.scope && Wrote(s0, s, w)
    requires RowKey(args.scope, GatewayDecisionEvents, EventKey(args.planId, SimulationRecorded)) !in w
    ensures
      var (rest, s') := After(CheckReceipt(signer, args, q, g, ReceiptRecord(r)), ses, s, n);
      rest.Return? ==>
        && rest.value == ReceiptRecord(r) && ReceiptOk(signer, r, q)
        && Wrote(s0, s', w[RowKey(args.scope, GatewayDecisionEvents, EventKey(args.planId, SimulationRecorded))
                           := EventRecord(SimulationEvent(args.scope, args.planId, g, r))])
  {
    hide Wrote, ReceiptOk, Effect;
    if ReceiptOk(signer, r, q) {
      var s1 := PutAfter(GatewayDecisionEvents, EventKey(args.planId, SimulationRecorded),
                         EventRecord(SimulationEvent(args.scope, args.planId, g, r)),
                         (_: Record) => Return(ReceiptRecord(r)), ses, s0, s, n, w);
      NothingLeft(ReceiptRecord(r), ses, s1);
    }
  }

  /** The simulation path for a plan without a receipt: authority, envelope, gateway again, receipt, event. */
  lemma FreshEnds(signer: Option<Signer>, args: SimulateArgs, q: ExecutionRequest, g: GatewayDecision, ses: Session, s: Store)
    returns (r: Option<ShadowReceipt>)
    requires Valid(s) && ses.scope == args.scope
    ensures
      var (rest, s') := After(SimulateFresh(signer, args, q, g), ses, s, 4);
      rest.Return? ==>
        && r.Some? && rest.value == ReceiptRecord(r.value)
        && AuthorityAt(s, args.scope, q.authorityDecisionId).Some? && EnvelopeAt(s, args.scope, q.envelopeId).Some?
        && var e, a := EnvelopeAt(s, args.scope, q.envelopeId).value, AuthorityAt(s, args.scope, q.authorityDecisionId).value;
           && Simulate(signer, e, a, q, Judge(e, a, q, args.scope, "", args.now), args.receiptId, args.now) == r
           && Wrote(s, s', SimulateWrites(args.scope, args.planId, g, r.value, true))
  {
    r := None;
    hide Wrote, ReceiptOk, Effect, After, Fetch, Put, Simulate, CheckReceipt, Valid;
    FetchAfter(AuthorityDecisions, Name(q.authorityDecisionId), (x: Record) =>
      if x.AuthorityRecord? then SimulateAfterAuthority(signer, args, q, g, x.authority) else Raise(KeyError), ses, s, 4);
    RaisesEnd(ses, s);
    if AuthorityAt(s, args.scope, q.authorityDecisionId).Some? {
      var a := AuthorityAt(s, args.scope, q.authorityDecisionId).value;
      FetchAfter(DecisionEnvelopes, Name(q.envelopeId), (x: Record) =>
        if x.EnvelopeRecord? then PutReceipt(signer, args, q, g, a, x.envelope) else Raise(KeyError), ses, s, 3);
      if EnvelopeAt(s, args.scope, q.envelopeId).Some? {
        var e := EnvelopeAt(s, args.scope, q.envelopeId).value;
        r := Simulate(signer, e, a, q, Judge(e, a, q, args.scope, "", args.now), args.receiptId, args.now);
        if r.Some? {
          WroteNothing(s);
          var s1 := PutAfter(ShadowExecutionReceipts, Name(args.planId), ReceiptRecord(r.value), (x: Record) =>
            CheckReceipt(signer, args, q, g, x), ses, s, s, 2, map[]);
          if After(SimulateFresh(signer, args, q, g), ses, s, 4).0.Return? {
            CheckReceiptEnds(signer, args, q, g, r.value, ses, s, s1, 1,
                             map[RowKey(args.scope, ShadowExecutionReceipts, Name(args.planId)) := ReceiptRecord(r.value)]);
          }
        }
      }
    }
  }

  lemma RaisesEnd(ses: Session, s: Store)
    ensures forall e: Error, n: nat :: After(Raise(e), ses, s, n) == (Raise(e), s)
  {
  }

  /** What a simulation that returns has read and written. */
  ghost predicate Simulates(signer: Option<Signer>, args: SimulateArgs, s: Store, s': Store, q: ExecutionRequest,
                            g: GatewayDecision, r: ShadowReceipt)
  {
    && RequestAt(s, args.scope, args.planId) == Some(q) && GatewayAt(s, args.scope, args.planId) == Some(g)
    && match PayloadAt(s, args.scope, ShadowExecutionReceipts, Name(args.planId))
       case Some(p) =>
         p.record == ReceiptRecord(r) && Wrote(s, s', SimulateWrites(args.scope, args.planId, g, r, false))
       case None =>
         && AuthorityAt(s, args.scope, q.authorityDecisionId).Some? && EnvelopeAt(s, args.scope, q.envelopeId).Some?
         && Wrote(s, s', SimulateWrites(args.scope, args.planId, g, r, true))
         && var e, a := EnvelopeAt(s, args.scope, q.envelopeId).value, AuthorityAt(s, args.scope, q.authorityDecisionId).value;
            Simulate(signer, e, a, q, Judge(e, a, q, args.scope, "", args.now), args.receiptId, args.now) == Some(r)
  }

  lemma GatewayEnds(signer: Option<Signer>, args: SimulateArgs, q: ExecutionRequest, g: GatewayDecision, ses: Session, s: Store)
    returns (r: Option<ShadowReceipt>)
    requires Valid(s) && ses.scope == args.scope
    requires RequestAt(s, args.scope, args.planId) == Some(q) && GatewayAt(s, args.scope, args.planId) == Some(g)
    ensures
      var (rest, s') := After(SimulateAfterGateway(signer, args, q, g), ses, s, 5);
      rest.Return? ==> r.Some? && rest.value == ReceiptRecord(r.value) && Simulates(signer, args, s, s', q, g, r.value)
  {
    hide Wrote, ReceiptOk, Effect, After, Lookup, Simulate, SimulateFresh, Valid, RequestAt, GatewayAt, CheckReceipt;
    r := None;
    var p := PayloadAt(s, args.scope, ShadowExecutionReceipts, Name(args.planId));
    LookupAfter(ShadowExecutionReceipts, Name(args.planId), (p: Option<Payload>) =>
      match p
      case Some(payload) => CheckReceipt(signer, args, q, g, payload.record)
      case None => SimulateFresh(signer, args, q, g), ses, s, 5);
    if p.None? {
      r := FreshEnds(signer, args, q, g, ses, s);
    } else if p.value.record.ReceiptRecord? {
      r := Some(p.value.record.receipt);
      WroteNothing(s);
      CheckReceiptEnds(signer, args, q, g, p.value.record.receipt, ses, s, s, 4, map[]);
    } else {
      RaisesEnd(ses, s);
      WrongReceipt(signer, args, q, g, p.value.record);
    }
  }

  lemma WrongReceipt(signer: Option<Signer>, args: SimulateArgs, q: ExecutionRequest, g: GatewayDecision, record: Record)
    requires !record.ReceiptRecord?
    ensures CheckReceipt(signer, args, q, g, record) == Raise(ValueError)
  {
  }

  lemma SimulateEnds(signer: Option<Signer>, args: SimulateArgs, q0: ExecutionRequest, s: Store)
    returns (r: Option<ShadowReceipt>)
    requires Valid(s)
    ensures
      var (rest, s') := Ends(SimulateTxn(signer, args, q0), s);
      rest.Return? ==>
        && r.Some? && rest.value == ReceiptRecord(r.value)
        && RequestAt(s, args.scope, args.planId).Some? && GatewayAt(s, args.scope, args.planId).Some?
        && Simulates(signer, args, s, s', RequestAt(s, args.scope, args.planId).value,
                     GatewayAt(s, args.scope, args.planId).value, r.value)
  {
    hide Simulates, Effect, After, Fetch, SimulateAfterGateway, Valid, SimulationLocks, ContextOf;
    r := None;
    var ses := SessionOf(SimulateTxn(signer, args, q0));
    RaisesEnd(ses, s);
    FetchAfter(ExecutionRequests, Name(args.planId), (r: Record) =>
      if r.RequestRecord? then SimulateAfterRequest(signer, args, r.request) else Raise(KeyError), ses, s, 7);
    if RequestAt(s, args.scope, args.planId).Some? {
      var q := RequestAt(s, args.scope, args.planId).value;
      FetchAfter(GatewayDecisions, Name(args.planId), (r: Record) =>
        if r.GatewayRecord? then SimulateAfterGateway(signer, args, q, r.gateway) else Raise(KeyError), ses, s, 6);
      if GatewayAt(s, args.scope, args.planId).Some? {
        r := GatewayEnds(signer, args, q, GatewayAt(s, args.scope, args.planId).value, ses, s);
      }
    }
  }

  lemma SimulatedFields(signer: Option<Signer>, e: DecisionEnvelope, a: AuthorityDecision, q: ExecutionRequest,
                        g: GatewayDecision, id: Id, now: string)
    requires Simulate(signer, e, a, q, g, id, now).Some?
    ensures
      var r := Simulate(signer, e, a, q, g, id, now).value;
      r.planId == q.planId && r.receiptId == id && r.simulatedAt == now
  {
  }

  lemma NewReceiptFits(signer: Option<Signer>, args: SimulateArgs, s: Store, s': Store, q: ExecutionRequest,
                       g: GatewayDecision, r: ShadowReceipt)
    requires Extends(s, s') && q.planId == args.planId
    requires Simulates(signer, args, s, s', q, g, r)
    requires PayloadAt(s, args.scope, ShadowExecutionReceipts, Name(args.planId)).None?
    ensures ReceiptFits(signer, s', args.scope, Name(args.planId), r) && r.planId == args.planId
  {
    hide Wrote, Judge, Simulate, EnvelopeAt, AuthorityAt, RequestAt, GatewayAt, Extends;
    var w := SimulateWrites(args.scope, args.planId, g, r, true);
    var e, a := EnvelopeAt(s, args.scope, q.envelopeId).value, AuthorityAt(s, args.scope, q.authorityDecisionId).value;
    RecordsStay(s, s', args.scope);
    SimulatedFields(signer, e, a, q, Judge(e, a, q, args.scope, "", args.now), args.receiptId, args.now);
    assert EventAt(s', args.scope, args.planId, SimulationRecorded) == Some(SimulationEvent(args.scope, args.planId, g, r)) by {
      assert RowKey(args.scope, GatewayDecisionEvents, EventKey(args.planId, SimulationRecorded)) in w;
      WrittenRecord(s, s', w, args.scope, GatewayDecisionEvents, EventKey(args.planId, SimulationRecorded));
    }
  }

  lemma SimulatedReceiptStored(signer: Option<Signer>, args: SimulateArgs, s: Store, s': Store, q: ExecutionRequest,
                               g: GatewayDecision, r: ShadowReceipt)
    requires Extends(s, s') && Simulates(signer, args, s, s', q, g, r)
    ensures ReceiptAt(s', args.scope, args.planId) == Some(r)
  {
    hide Wrote, Judge, Simulate, RequestAt, GatewayAt;
    if PayloadAt(s, args.scope, ShadowExecutionReceipts, Name(args.planId)).None? {
      WrittenRecord(s, s', SimulateWrites(args.scope, args.planId, g, r, true), args.scope, ShadowExecutionReceipts, Name(args.planId));
    }
  }

  /** The records a returning simulation wrote fit. */
  lemma SimulationFits(signer: Option<Signer>, args: SimulateArgs, s: Store, s': Store, q: ExecutionRequest,
                       g: GatewayDecision, r: ShadowReceipt)
    returns (w: map<Key, Record>)
    requires Governed(signer, s) && Simulates(signer, args, s, s', q, g, r)
    ensures Wrote(s, s', w)
    ensures forall k :: k in w ==> Fits(signer, s', k.group.scope, k.group.coll, k.ckey, w[k])
  {
    hide Wrote, Judge, Simulate, Governed, RequestAt, GatewayAt, Extends, ReceiptAt, ReceiptFits;
    var isNew := PayloadAt(s, args.scope, ShadowExecutionReceipts, Name(args.planId)).None?;
    w := SimulateWrites(args.scope, args.planId, g, r, isNew);
    WroteExtends(s, s', w);
    RequestIsFit(signer, s, args.scope, args.planId);
    SimulatedReceiptStored(signer, args, s, s', q, g, r);
    if isNew { NewReceiptFits(signer, args, s, s', q, g, r); }
  }

  lemma SimulateKeeps(signer: Option<Signer>, args: SimulateArgs, seen: Store, s: Store)
    requires Governed(signer, s) && ReadyToSimulate(signer, args, seen).Ready?
    ensures
      var t := ReadyToSimulate(signer, args, seen).txn;
      Governed(signer, RunTransaction(t, s).1) && Extends(s, RunTransaction(t, s).1)
  {
    hide Governed, RunTransaction, Extends, Ends, Fits, Simulates, Wrote, SimulationLocks, RequestAt;
    var q0 := RequestAt(seen, args.scope, args.planId).value;
    var t := SimulateTxn(signer, args, q0);
    GovernedIsValid(signer, s);
    SimulateRefs(args.scope, args.planId, q0.authorityDecisionId);
    var r := SimulateEnds(signer, args, q0, s);
    var w: map<Key, Record> := map[];
    if Ends(t, s).0.Return? {
      w := SimulationFits(signer, args, s, Ends(t, s).1, RequestAt(s, args.scope, args.planId).value,
                          GatewayAt(s, args.scope, args.planId).value, r.value);
    }
    CommitKeepsGoverned(signer, t, s, w);
  }

  // ---------------------------------------------------------------- record_shadow_outcome

  /** A recording that returns gives back the outcome already stored, or the new one it stored. */
  ghost predicate Records(signer: Option<Signer>, args: OutcomeArgs, q: ExecutionRequest, r: ShadowReceipt,
                          s: Store, s': Store, o: ShadowOutcome)
  {
    && OutcomeOk(signer, o, q, r)
    && match PayloadAt(s, args.scope, ShadowOutcomes, Name(r.receiptId))
       case Some(p) => p.record == OutcomeRecord(o) && s' == s
       case None =>
         && signer.Some? && AssessmentsOk(args.assessments) && o == NewOutcome(signer.value, args, q, r)
         && Wrote(s, s', map[RowKey(args.scope, ShadowOutcomes, Name(r.receiptId)) := OutcomeRecord(o)])
  }

  lemma OutcomeEnds(signer: Option<Signer>, args: OutcomeArgs, q: ExecutionRequest, r: ShadowReceipt, s: Store)
    requires Valid(s)
    ensures
      var (rest, s') := Ends(OutcomeTxn(signer, args, q, r), s);
      rest.Return? ==> rest.value.OutcomeRecord? && Records(signer, args, q, r, s, s', rest.value.outcome)
  {
    hide Wrote, Effect, After, Lookup, Put, Valid, OutcomeOk, AssessmentsOk, NewOutcome, ContextOf, OutcomeLocks;
    var ses := SessionOf(OutcomeTxn(signer, args, q, r));
    var p := PayloadAt(s, args.scope, ShadowOutcomes, Name(r.receiptId));
    RaisesEnd(ses, s);
    LookupAfter(ShadowOutcomes, Name(r.receiptId), (p: Option<Payload>) =>
      match p
      case Some(payload) => CheckOutcome(signer, q, r, payload.record)
      case None => PutOutcome(signer, args, q, r), ses, s, 2);
    if p.Some? {
      NothingLeft(p.value.record, ses, s);
    } else if AssessmentsOk(args.assessments) && signer.Some? {
      var o := NewOutcome(signer.value, args, q, r);
      WroteNothing(s);
      var s1 := PutAfter(ShadowOutcomes, Name(r.receiptId), OutcomeRecord(o), (stored: Record) =>
        CheckOutcome(signer, q, r, stored), ses, s, s, 1, map[]);
      NothingLeft(OutcomeRecord(o), ses, s1);
      RaisesEnd(ses, s1);
    }
  }

  lemma OutcomeFields(signer: Signer, args: OutcomeArgs, q: ExecutionRequest, r: ShadowReceipt)
    ensures
      var o := NewOutcome(signer, args, q, r);
      o.fields.shadowReceiptId == r.receiptId && o.fields.planId == q.planId && o.fields.assessments == args.assessments
  {
  }

  lemma NewOutcomeFits(signer: Option<Signer>, args: OutcomeArgs, q: ExecutionRequest, r: ShadowReceipt, s': Store)
    requires signer.Some? && RequestAt(s', args.scope, q.planId) == Some(q) && ReceiptAt(s', args.scope, q.planId) == Some(r)
    requires AssessmentsOk(args.assessments) && OutcomeOk(signer, NewOutcome(signer.value, args, q, r), q, r)
    ensures OutcomeFits(signer, s', args.scope, Name(r.receiptId), NewOutcome(signer.value, args, q, r))
  {
    hide RequestAt, ReceiptAt, OutcomeOk, AssessmentsOk, NewOutcome;
    OutcomeFields(signer.value, args, q, r);
  }

  lemma ReadToRecord(signer: Option<Signer>, args: OutcomeArgs, seen: Store)
    requires ReadyToRecord(signer, args, seen).Ready?
    ensures RequestAt(seen, args.scope, args.planId).Some?
    ensures
      var q := RequestAt(seen, args.scope, args.planId).value;
      && ReceiptAt(seen, args.scope, q.planId).Some?
      && ReceiptOk(signer, ReceiptAt(seen, args.scope, q.planId).value, q)
      && ReadyToRecord(signer, args, seen).txn == OutcomeTxn(signer, args, q, ReceiptAt(seen, args.scope, q.planId).value)
  {
    hide RequestAt, GatewayAt, ReceiptAt, ReceiptOk, ProjectsSimulated, OutcomeTxn;
  }

  lemma OutcomeCommitKeeps(signer: Option<Signer>, args: OutcomeArgs, q: ExecutionRequest, r: ShadowReceipt, s: Store)
    requires Governed(signer, s)
    requires RequestAt(s, args.scope, q.planId) == Some(q) && ReceiptAt(s, args.scope, q.planId) == Some(r)
    ensures
      var t := OutcomeTxn(signer, args, q, r);
      Governed(signer, RunTransaction(t, s).1) && Extends(s, RunTransaction(t, s).1)
  {
    hide Governed, RunTransaction, Extends, Ends, Wrote, RequestAt, ReceiptAt, OutcomeOk, AssessmentsOk, NewOutcome, OutcomeFits,
         OutcomeLocks;
    var t := OutcomeTxn(signer, args, q, r);
    GovernedIsValid(signer, s);
    OutcomeLocked(signer, args, q, r);
    OutcomeEnds(signer, args, q, r, s);
    var s' := Ends(t, s).1;
    var w: map<Key, Record> := map[];
    WroteNothing(s);
    if Ends(t, s).0.Return? && PayloadAt(s, args.scope, ShadowOutcomes, Name(r.receiptId)).None? {
      w := map[RowKey(args.scope, ShadowOutcomes, Name(r.receiptId)) := OutcomeRecord(NewOutcome(signer.value, args, q, r))];
      WroteExtends(s, s', w);
      RecordsStay(s, s', args.scope);
      NewOutcomeFits(signer, args, q, r, s');
    }
    CommitKeepsGoverned(signer, t, s, w);
  }

  lemma RecordKeeps(signer: Option<Signer>, args: OutcomeArgs, seen: Store, s: Store)
    requires Governed(signer, seen) && Extends(seen, s) && Governed(signer, s)
    requires ReadyToRecord(signer, args, seen).Ready?
    ensures
      var t := ReadyToRecord(signer, args, seen).txn;
      Governed(signer, RunTransaction(t, s).1) && Extends(s, RunTransaction(t, s).1)
  {
    hide Governed, RunTransaction, Extends, RequestAt, ReceiptAt, ReadyToRecord, OutcomeTxn, ReceiptOk;
    ReadToRecord(signer, args, seen);
    var q := RequestAt(seen, args.scope, args.planId).value;
    RequestIsFit(signer, seen, args.scope, args.planId);
    RecordsStay(seen, s, args.scope);
    OutcomeCommitKeeps(signer, args, q, ReceiptAt(seen, args.scope, q.planId).value, s);
  }
}
