/** The answers of register, authorise, create plan, simulate and record outcome (grdi/service.py): when a call
  * commits, what it then returns and stores, field by field from its arguments, and which error it gives otherwise. */
module ProtocolAnswers {
  import opened Signing
  import opened Models
  import opened ScopedStore
  import opened Locks
  import opened Sessions
  import opened SessionRules
  import opened Authority
  import opened Gateway
  import opened Outcomes
  import opened LedgerOps
  import opened ProtocolSteps
  import opened ProtocolLocks
  import opened ProtocolRecords
  import opened ProtocolInvariant
  import opened ReplayInvariant
  import opened ProtocolSafety
  import opened ReplayStability
  import opened StoreAnswers
  import opened Unrolling

  // ---------------------------------------------------------------- one append

  /** Every chain row that s' has and s has not is under one of these keys of the scope. */
  ghost predicate AddsOnly(s: Store, s': Store, scope: Scope, keys: set<(Collection, CKey)>) {
    forall k :: k in s'.rows && ChainLinked(k.group.coll) && k !in s.rows ==> k.group.scope == scope && (k.group.coll, k.ckey) in keys
  }

  /** An append under its locks: it stores the record under a free key, passes over the same record, and raises
    * on another one. */
  lemma PutExactly(c: Collection, key: CKey, record: Record, next: Record -> Prog, ses: Session, s: Store, n: nat)
    returns (s1: Store)
    requires n > 0 && Valid(s) && ses.locks.Some? && WriteAllowed(ses.locks, c, key) && ChainLinked(c)
    requires ExtractRecordId(c, record).Some?
    ensures
      match RecordAt(s, ses.scope, c, key)
      case None =>
        && Wrote(s, s1, map[Key(Group(ses.scope, c), key) := record])
        && After(Put(c, key, record, next), ses, s, n) == After(next(record), ses, s1, n - 1)
      case Some(stored) =>
        if stored == record then s1 == s && After(Put(c, key, record, next), ses, s, n) == After(next(record), ses, s, n - 1)
        else After(Put(c, key, record, next), ses, s, n).0 == Raise(DuplicateCanonicalKey)
  {
    hide Valid, Wrote, After, Put;
    s1 := s;
    if PayloadAt(s, ses.scope, c, key).None? {
      s1 := PutFree(c, key, record, next, ses, s, n);
    } else {
      MutableRow(s, Key(Group(ses.scope, c), key));
      if RecordAt(s, ses.scope, c, key) == Some(record) {
        PutSame(c, key, record, next, ses, s, n);
      } else {
        PutRefused(c, key, record, next, ses, s, n);
      }
    }
  }

  lemma PutRefused(c: Collection, key: CKey, record: Record, next: Record -> Prog, ses: Session, s: Store, n: nat)
    requires n > 0 && Valid(s) && WriteAllowed(ses.locks, c, key)
    requires RecordAt(s, ses.scope, c, key).Some? && RecordAt(s, ses.scope, c, key) != Some(record)
    ensures After(Put(c, key, record, next), ses, s, n).0 == Raise(DuplicateCanonicalKey)
  {
    hide Valid, Effect;
    AppendsExactly(ses, c, key, record, s);
  }

  lemma WroteOnly(s: Store, s': Store, w: map<Key, Record>, scope: Scope, keys: set<(Collection, CKey)>)
    requires Wrote(s, s', w) && forall k :: k in w ==> k.group.scope == scope && (k.group.coll, k.ckey) in keys
    ensures AddsOnly(s, s', scope, keys)
  {
  }

  // ---------------------------------------------------------------- register

  /** A registration stores the envelope as given, under its own id in its own scope, and returns it; with the
    * same envelope stored it changes nothing, and with another one under that id it is refused. */
  lemma RegisterAnswers(signer: Option<Signer>, e: DecisionEnvelope, seen: Store, s: Store)
    requires Governed(signer, s)
    ensures
      var scope := Scope(e.tenant, e.project);
      var (out, s') := Perform(signer, Register(e), seen, s);
      match EnvelopeAt(s, scope, e.envelopeId)
      case None =>
        && out == Committed(EnvelopeRecord(e)) && EnvelopeAt(s', scope, e.envelopeId) == Some(e)
        && AddsOnly(s, s', scope, {(DecisionEnvelopes, Name(e.envelopeId))})
      case Some(stored) => s' == s && out == if stored == e then Committed(EnvelopeRecord(e)) else Aborted(DuplicateCanonicalKey)
  {
    hide Governed, RunTransaction, AddsOnly, RegisterTxn, EnvelopeAt;
    RegisterRuns(signer, e, s);
  }

  lemma RegisterRuns(signer: Option<Signer>, e: DecisionEnvelope, s: Store)
    requires Governed(signer, s)
    ensures
      var scope := Scope(e.tenant, e.project);
      var (out, s') := RunTransaction(RegisterTxn(e), s);
      match EnvelopeAt(s, scope, e.envelopeId)
      case None =>
        && out == Committed(EnvelopeRecord(e)) && EnvelopeAt(s', scope, e.envelopeId) == Some(e)
        && AddsOnly(s, s', scope, {(DecisionEnvelopes, Name(e.envelopeId))})
      case Some(stored) => s' == s && out == if stored == e then Committed(EnvelopeRecord(e)) else Aborted(DuplicateCanonicalKey)
  {
    hide Governed, Wrote, RunTransaction, After, Put, WellLocked, AddsOnly, EnvelopeLocks, ContextOf, WriteAllowed, ExtractRecordId;
    var t := RegisterTxn(e);
    GovernedIsValid(signer, s);
    RegisterLocked(e);
    RegisterAllowed(e);
    TypedEnvelope(signer, s, t.scope, e.envelopeId);
    EnvelopeIdentified(e);
    TransactionIsAfter(t, s);
    var s1 := PutExactly(DecisionEnvelopes, Name(e.envelopeId), EnvelopeRecord(e), (_: Record) => Return(EnvelopeRecord(e)),
                         SessionOf(t), s, 1);
    NothingLeft(EnvelopeRecord(e), SessionOf(t), s1);
    var w: map<Key, Record> := map[RowKey(t.scope, DecisionEnvelopes, Name(e.envelopeId)) := EnvelopeRecord(e)];
    if EnvelopeAt(s, t.scope, e.envelopeId).None? {
      WrittenRecord(s, s1, w, t.scope, DecisionEnvelopes, Name(e.envelopeId));
      WroteOnly(s, s1, w, t.scope, {(DecisionEnvelopes, Name(e.envelopeId))});
    }
  }

  lemma EnvelopeIdentified(e: DecisionEnvelope)
    ensures ExtractRecordId(DecisionEnvelopes, EnvelopeRecord(e)).Some?
  {
  }

  lemma AuthorityIdentified(a: AuthorityDecision)
    ensures ExtractRecordId(AuthorityDecisions, AuthorityRecord(a)).Some?
  {
  }

  lemma RegisterAllowed(e: DecisionEnvelope)
    ensures WriteAllowed(SessionOf(RegisterTxn(e)).locks, DecisionEnvelopes, Name(e.envelopeId))
  {
    RegisterLocked(e);
    assert WriteLocked(ContextOf(RegisterTxn(e).locks), RegisterCommit(e).op);
  }

  /** What is stored under a key of a chain of the protocol is a record of that chain. */
  lemma TypedEnvelope(signer: Option<Signer>, s: Store, scope: Scope, id: Id)
    requires Governed(signer, s)
    ensures RecordAt(s, scope, DecisionEnvelopes, Name(id)).Some? <==> EnvelopeAt(s, scope, id).Some?
  {
    hide Governed, EnvelopeFits;
    if RecordAt(s, scope, DecisionEnvelopes, Name(id)).Some? { StoredFits(signer, s, scope, DecisionEnvelopes, Name(id)); }
  }

  lemma TypedAuthority(signer: Option<Signer>, s: Store, scope: Scope, id: Id)
    requires Governed(signer, s)
    ensures RecordAt(s, scope, AuthorityDecisions, Name(id)).Some? <==> AuthorityAt(s, scope, id).Some?
  {
    hide Governed, AuthorityFits;
    if RecordAt(s, scope, AuthorityDecisions, Name(id)).Some? { StoredFits(signer, s, scope, AuthorityDecisions, Name(id)); }
  }

  // ---------------------------------------------------------------- authorise

  lemma AuthorizeAllowed(args: AuthorizeArgs, a: AuthorityDecision)
    ensures WriteAllowed(SessionOf(AuthorizeTxn(args, a)).locks, AuthorityDecisions, Name(a.authorityDecisionId))
  {
    var refs := AuthorizeTxn(args, a).locks;
    assert refs[2] == ChainLock(args.scope, AuthorityDecisions);
    assert refs[3] == CanonicalLock(args.scope, AuthorityDecisions, Name(a.authorityDecisionId));
  }

  /** The transaction of an authorisation: it stores the decision under a free id. */
  lemma AuthorizeRuns(signer: Option<Signer>, args: AuthorizeArgs, a: AuthorityDecision, s: Store) returns (s1: Store)
    requires Governed(signer, s) && EnvelopeAt(s, args.scope, args.envelopeId).Some? && a.authorityDecisionId == args.authorityId
    ensures
      match AuthorityAt(s, args.scope, args.authorityId)
      case None =>
        && RunTransaction(AuthorizeTxn(args, a), s) == (Committed(AuthorityRecord(a)), s1)
        && AuthorityAt(s1, args.scope, args.authorityId) == Some(a)
        && AddsOnly(s, s1, args.scope, {(AuthorityDecisions, Name(args.authorityId))})
      case Some(stored) =>
        RunTransaction(AuthorizeTxn(args, a), s)
        == (if stored == a then Committed(AuthorityRecord(a)) else Aborted(DuplicateCanonicalKey), s)
  {
    hide Governed, Wrote, RunTransaction, After, WellLocked, Fetch, Put, AddsOnly, AuthorityLocks, ContextOf, WriteAllowed, ExtractRecordId;
    var t := AuthorizeTxn(args, a);
    GovernedIsValid(signer, s);
    AuthorityIdentified(a);
    AuthorizeLocked(args, a);
    AuthorizeAllowed(args, a);
    TypedAuthority(signer, s, args.scope, args.authorityId);
    TransactionIsAfter(t, s);
    FetchAfter(DecisionEnvelopes, Name(args.envelopeId), (_: Record) => PutAuthority(a), SessionOf(t), s, 2);
    s1 := PutExactly(AuthorityDecisions, Name(args.authorityId), AuthorityRecord(a), (_: Record) => Return(AuthorityRecord(a)),
                     SessionOf(t), s, 1);
    NothingLeft(AuthorityRecord(a), SessionOf(t), s1);
    var w: map<Key, Record> := map[RowKey(args.scope, AuthorityDecisions, Name(args.authorityId)) := AuthorityRecord(a)];
    if AuthorityAt(s, args.scope, args.authorityId).None? {
      WrittenRecord(s, s1, w, args.scope, AuthorityDecisions, Name(args.authorityId));
      WroteOnly(s, s1, w, args.scope, {(AuthorityDecisions, Name(args.authorityId))});
    }
  }

  /** A call to authorise, for an envelope that its reads saw, commits when its id is free; what it then returns and
    * stores is decided for exactly the subject, role and approvals of the call, and is AUTHORIZED if and only if the
    * envelope's receipt is a PASS of the signer for the envelope's scope and this subject may authorise. */
  lemma AuthorizeAnswers(signer: Option<Signer>, args: AuthorizeArgs, seen: Store, s: Store)
    requires Governed(signer, seen) && Extends(seen, s) && Governed(signer, s)
    ensures
      var (out, s') := Perform(signer, Authorize(args), seen, s);
      match EnvelopeAt(seen, args.scope, args.envelopeId)
      case None => out == Aborted(KeyError) && s' == s
      case Some(e) =>
        && (AuthorityAt(s, args.scope, args.authorityId).None? ==>
              out.Committed? && AddsOnly(s, s', args.scope, {(AuthorityDecisions, Name(args.authorityId))}))
        && (AuthorityAt(s, args.scope, args.authorityId).Some? ==>
              var stored := AuthorityAt(s, args.scope, args.authorityId).value;
              && s' == s
              && (out.Committed? <==>
                    && stored.envelopeId == args.envelopeId && stored.authoritySubject == args.subject
                    && stored.authorityRole == args.role && stored.approvals == args.approvals && stored.decidedAt == args.now)
              && (!out.Committed? ==> out == Aborted(DuplicateCanonicalKey)))
        && (out.Committed? ==>
              && out.value.AuthorityRecord?
              && var a := out.value.authority;
                 var hav := e.havReceipt;
                 var signed := signer.Some? && e.havSignature == Sign(signer.value, hav);
                 var passes := signed && hav.verdict.PASS? && hav.tenant == Some(e.tenant) && hav.project == Some(e.project);
                 var entitled := args.subject != e.proposedBy && (args.role == e.requiredAuthority || args.role == "admin");
                 var highRisk := e.riskLevel.High? || e.riskLevel.Critical?;
                 && AuthorityAt(s', args.scope, args.authorityId) == Some(a)
                 && a.authorityDecisionId == args.authorityId && a.envelopeId == args.envelopeId
                 && a.authoritySubject == args.subject && a.authorityRole == args.role && a.approvals == args.approvals
                 && a.decidedAt == args.now && a.executability.NOT_EXECUTABLE? && a.execution.NOT_EXECUTED?
                 && (a.verification.VERIFIED? <==> passes)
                 && (a.authorization.AUTHORIZED? <==>
                       && passes && entitled && (highRisk ==> args.approvals != [])
                       && forall p :: p in args.approvals ==> p.approved && p.approver != e.proposedBy)
                 && (a.authorization.REQUIRES_APPROVAL? <==>
                       || (signed && (hav.verdict.WARN? || hav.verdict.HUMAN_REVIEW?))
                       || (passes && entitled && highRisk && args.approvals == [])))
  {
    hide Governed, RunTransaction, Extends, AddsOnly, Decide, AuthorizeTxn, EnvelopeAt, AuthorityAt;
    if EnvelopeAt(seen, args.scope, args.envelopeId).Some? {
      var e := EnvelopeAt(seen, args.scope, args.envelopeId).value;
      var a := Decide(signer, e, args.subject, args.role, args.approvals, args.authorityId, args.now);
      RecordsStay(seen, s, args.scope);
      EnvelopeIsFit(signer, seen, args.scope, args.envelopeId);
      DecisionFields(signer, e, args.subject, args.role, args.approvals, args.authorityId, args.now);
      DecisionIsFailClosed(signer, e, args.subject, args.role, args.approvals, args.authorityId, args.now);
      var s1 := AuthorizeRuns(signer, args, a, s);
      if AuthorityAt(s, args.scope, args.authorityId).Some? { AuthorityIsFit(signer, s, args.scope, args.authorityId); }
    }
  }

  // ---------------------------------------------------------------- create_execution_plan

  lemma PlanAllowed(scope: Scope, q: ExecutionRequest, g: GatewayDecision)
    ensures
      var locks := SessionOf(PlanTxn(scope, q, g)).locks;
      && WriteAllowed(locks, ExecutionRequests, Name(q.planId)) && WriteAllowed(locks, GatewayDecisions, Name(q.planId))
      && WriteAllowed(locks, GatewayDecisionEvents, EventKey(q.planId, GatewayDecisionCreated))
  {
    hide ContextOf, PlanLocks;
    PlanRefs(scope, q);
    var ctx := ContextOf(PlanLocks(scope, q.envelopeId, q.authorityDecisionId, q.planId));
    assert ExecutionRequests in ctx.chains && GatewayDecisions in ctx.chains && GatewayDecisionEvents in ctx.chains;
    assert (ExecutionRequests, Name(q.planId)) in ctx.canonicals && (GatewayDecisions, Name(q.planId)) in ctx.canonicals;
  }

  lemma TypedPlan(signer: Option<Signer>, s: Store, scope: Scope, planId: Id)
    requires Governed(signer, s)
    ensures RecordAt(s, scope, ExecutionRequests, Name(planId)).Some? <==> RequestAt(s, scope, planId).Some?
    ensures RecordAt(s, scope, GatewayDecisions, Name(planId)).Some? <==> GatewayAt(s, scope, planId).Some?
    ensures RecordAt(s, scope, GatewayDecisionEvents, EventKey(planId, GatewayDecisionCreated)).Some?
       <==> EventAt(s, scope, planId, GatewayDecisionCreated).Some?
  {
    hide Governed, RequestFits, GatewayFits, EventFits;
    if RecordAt(s, scope, ExecutionRequests, Name(planId)).Some? { StoredFits(signer, s, scope, ExecutionRequests, Name(planId)); }
    if RecordAt(s, scope, GatewayDecisions, Name(planId)).Some? { StoredFits(signer, s, scope, GatewayDecisions, Name(planId)); }
    if RecordAt(s, scope, GatewayDecisionEvents, EventKey(planId, GatewayDecisionCreated)).Some? {
      StoredFits(signer, s, scope, GatewayDecisionEvents, EventKey(planId, GatewayDecisionCreated));
    }
  }

  /** The plan's transaction up to its first append. */
  lemma ReachRequest(scope: Scope, q: ExecutionRequest, g: GatewayDecision, ses: Session, s: Store)
    requires ses.scope == scope
    requires EnvelopeAt(s, scope, q.envelopeId).Some? && AuthorityAt(s, scope, q.authorityDecisionId).Some?
    ensures After(PlanCommit(scope, q, g), ses, s, 5) == After(PutRequest(scope, q, g), ses, s, 3)
  {
    hide After, Fetch, Put;
    FetchAfter(DecisionEnvelopes, Name(q.envelopeId), (_: Record) => PlanAfterEnvelope(scope, q, g), ses, s, 5);
    FetchAfter(AuthorityDecisions, Name(q.authorityDecisionId), (_: Record) => PutRequest(scope, q, g), ses, s, 4);
  }

  /** Under a free plan id all three records are stored. */
  lemma NewPlanRuns(scope: Scope, q: ExecutionRequest, g: GatewayDecision, ses: Session, s: Store) returns (s3: Store)
    requires Valid(s) && ses.scope == scope && ses.locks.Some?
    requires WriteAllowed(ses.locks, ExecutionRequests, Name(q.planId)) && WriteAllowed(ses.locks, GatewayDecisions, Name(q.planId))
    requires WriteAllowed(ses.locks, GatewayDecisionEvents, EventKey(q.planId, GatewayDecisionCreated))
    requires RecordAt(s, scope, ExecutionRequests, Name(q.planId)).None? && RecordAt(s, scope, GatewayDecisions, Name(q.planId)).None?
    requires RecordAt(s, scope, GatewayDecisionEvents, EventKey(q.planId, GatewayDecisionCreated)).None?
    ensures After(PutRequest(scope, q, g), ses, s, 3) == (Return(GatewayRecord(g)), s3)
  {
    hide Valid, Wrote, After, Put, WriteAllowed, ExtractRecordId;
    var v := CreatedEvent(scope, q, g);
    PlanIdentifiers(q, g, v);
    var s1 := PutExactly(ExecutionRequests, Name(q.planId), RequestRecord(q), (_: Record) => PutGateway(scope, q, g), ses, s, 3);
    UnwrittenRecord(s, s1, Key(Group(scope, ExecutionRequests), Name(q.planId)), RequestRecord(q));
    var s2 := PutExactly(GatewayDecisions, Name(q.planId), GatewayRecord(g), (_: Record) => PutCreated(scope, q, g), ses, s1, 2);
    UnwrittenRecord(s1, s2, Key(Group(scope, GatewayDecisions), Name(q.planId)), GatewayRecord(g));
    s3 := PutExactly(GatewayDecisionEvents, EventKey(q.planId, GatewayDecisionCreated), EventRecord(v),
                     (_: Record) => Return(GatewayRecord(g)), ses, s2, 1);
    NothingLeft(GatewayRecord(g), ses, s3);
  }

  lemma PlanIdentifiers(q: ExecutionRequest, g: GatewayDecision, v: GatewayEvent)
    ensures ExtractRecordId(ExecutionRequests, RequestRecord(q)).Some?
    ensures ExtractRecordId(GatewayDecisions, GatewayRecord(g)).Some?
    ensures ExtractRecordId(GatewayDecisionEvents, EventRecord(v)).Some?
  {
  }

  lemma UnwrittenRecord(s: Store, s': Store, k: Key, record: Record)
    requires Wrote(s, s', map[k := record])
    ensures Valid(s')
    ensures forall scope, c, key :: ChainLinked(c) && Key(Group(scope, c), key) != k ==>
      RecordAt(s', scope, c, key) == RecordAt(s, scope, c, key)
  {
  }

  /** Under a plan id in use nothing is stored: the call returns only if it brings the same records. */
  lemma OldPlanRuns(scope: Scope, q: ExecutionRequest, g: GatewayDecision, ses: Session, s: Store)
    requires Valid(s) && ses.scope == scope && ses.locks.Some?
    requires WriteAllowed(ses.locks, ExecutionRequests, Name(q.planId)) && WriteAllowed(ses.locks, GatewayDecisions, Name(q.planId))
    requires WriteAllowed(ses.locks, GatewayDecisionEvents, EventKey(q.planId, GatewayDecisionCreated))
    requires RequestAt(s, scope, q.planId).Some? && GatewayAt(s, scope, q.planId).Some?
    requires EventAt(s, scope, q.planId, GatewayDecisionCreated)
          == Some(CreatedEvent(scope, RequestAt(s, scope, q.planId).value, GatewayAt(s, scope, q.planId).value))
    ensures
      if RequestAt(s, scope, q.planId) == Some(q) && GatewayAt(s, scope, q.planId) == Some(g)
      then After(PutRequest(scope, q, g), ses, s, 3) == (Return(GatewayRecord(g)), s)
      else After(PutRequest(scope, q, g), ses, s, 3).0 == Raise(DuplicateCanonicalKey)
  {
    hide Valid, Wrote, After, Put, WriteAllowed, ExtractRecordId;
    var v := CreatedEvent(scope, q, g);
    PlanIdentifiers(q, g, v);
    var s1 := PutExactly(ExecutionRequests, Name(q.planId), RequestRecord(q), (_: Record) => PutGateway(scope, q, g), ses, s, 3);
    if RequestAt(s, scope, q.planId) == Some(q) {
      var s2 := PutExactly(GatewayDecisions, Name(q.planId), GatewayRecord(g), (_: Record) => PutCreated(scope, q, g), ses, s, 2);
      if GatewayAt(s, scope, q.planId) == Some(g) {
        var s3 := PutExactly(GatewayDecisionEvents, EventKey(q.planId, GatewayDecisionCreated), EventRecord(v),
                             (_: Record) => Return(GatewayRecord(g)), ses, s, 1);
        NothingLeft(GatewayRecord(g), ses, s);
      }
    }
  }

  /** The transaction of a new plan. */
  lemma PlanRuns(signer: Option<Signer>, scope: Scope, q: ExecutionRequest, g: GatewayDecision, s: Store)
    requires Governed(signer, s)
    requires EnvelopeAt(s, scope, q.envelopeId).Some? && AuthorityAt(s, scope, q.authorityDecisionId).Some?
    ensures
      var (out, s') := RunTransaction(PlanTxn(scope, q, g), s);
      match RequestAt(s, scope, q.planId)
      case None => out == Committed(GatewayRecord(g)) && PlanStored(s, s', scope, q, g)
      case Some(stored) =>
        && s' == s && GatewayAt(s, scope, q.planId).Some?
        && out == if stored == q && GatewayAt(s, scope, q.planId).value == g then Committed(GatewayRecord(g))
                  else Aborted(DuplicateCanonicalKey)
  {
    hide Governed, Wrote, RunTransaction, After, PlanCommit, PlanLocks, ContextOf, WriteAllowed, RequestFits, PlanWrites, PlanStored;
    var t := PlanTxn(scope, q, g);
    GovernedIsValid(signer, s);
    PlanRefs(scope, q);
    PlanAllowed(scope, q, g);
    TransactionIsAfter(t, s);
    ReachRequest(scope, q, g, SessionOf(t), s);
    RecordsComeTogether(signer, s, scope, q.planId);
    TypedPlan(signer, s, scope, q.planId);
    if RequestAt(s, scope, q.planId).None? {
      var s1 := NewPlanRuns(scope, q, g, SessionOf(t), s);
      PlanEnds(scope, q, g, s);
      EndsWithin(t, s);
      PlanIsStored(s, s1, scope, q, g);
    } else {
      PlanEvent(signer, s, scope, q.planId);
      OldPlanRuns(scope, q, g, SessionOf(t), s);
    }
  }

  lemma EndsWithin(t: Txn, s: Store)
    ensures Ends(t, s) == After(t.body, SessionOf(t), s, t.bound)
  {
  }

  lemma PlanEvent(signer: Option<Signer>, s: Store, scope: Scope, planId: Id)
    requires Governed(signer, s) && RequestAt(s, scope, planId).Some?
    ensures GatewayAt(s, scope, planId).Some? && RequestAt(s, scope, planId).value.planId == planId
    ensures EventAt(s, scope, planId, GatewayDecisionCreated)
         == Some(CreatedEvent(scope, RequestAt(s, scope, planId).value, GatewayAt(s, scope, planId).value))
  {
    hide Governed, Judge, RequestAt, GatewayAt, EventAt, EnvelopeAt, AuthorityAt, CreatedEvent;
    RequestIsFit(signer, s, scope, planId);
  }

  /** Request, gateway decision and CREATED event are stored, and nothing else on any chain. */
  ghost predicate PlanStored(s: Store, s': Store, scope: Scope, q: ExecutionRequest, g: GatewayDecision) {
    && RequestAt(s', scope, q.planId) == Some(q) && GatewayAt(s', scope, q.planId) == Some(g)
    && EventAt(s', scope, q.planId, GatewayDecisionCreated)
       == Some(GatewayEvent(q.planId, g.gatewayDecisionId, GatewayDecisionCreated, g.decidedAt, scope.tenant, scope.project,
                            g.gatewayDecisionId, ""))
    && AddsOnly(s, s', scope, {(ExecutionRequests, Name(q.planId)), (GatewayDecisions, Name(q.planId)),
                               (GatewayDecisionEvents, EventKey(q.planId, GatewayDecisionCreated))})
  }

  lemma PlanIsStored(s: Store, s': Store, scope: Scope, q: ExecutionRequest, g: GatewayDecision)
    requires Wrote(s, s', PlanWrites(scope, q, g))
    ensures PlanStored(s, s', scope, q, g)
  {
    hide Wrote, AddsOnly;
    var w := PlanWrites(scope, q, g);
    WrittenRecord(s, s', w, scope, ExecutionRequests, Name(q.planId));
    WrittenRecord(s, s', w, scope, GatewayDecisions, Name(q.planId));
    WrittenRecord(s, s', w, scope, GatewayDecisionEvents, EventKey(q.planId, GatewayDecisionCreated));
    WroteOnly(s, s', w, scope, {(ExecutionRequests, Name(q.planId)), (GatewayDecisions, Name(q.planId)),
                                (GatewayDecisionEvents, EventKey(q.planId, GatewayDecisionCreated))});
  }

  /** A call to create a plan, for an envelope and an authority decision that its reads saw, commits when its plan id is
    * free: it stores the request exactly as asked for, the gateway's decision and the CREATED event, and returns the
    * decision, which is eligible if and only if the authority is AUTHORIZED and VERIFIED for that envelope and the
    * action is the one proposed there. */
  lemma PlanAnswers(signer: Option<Signer>, args: PlanArgs, seen: Store, s: Store)
    requires Governed(signer, seen) && Extends(seen, s) && Governed(signer, s)
    ensures
      var scope := args.scope;
      var (out, s') := Perform(signer, CreatePlan(args), seen, s);
      var asked := ExecutionRequest(args.planId, args.envelopeId, args.authorityId, scope.tenant, scope.project, args.requestedBy,
                                    args.action, ActionHash(args.action), args.effects, args.rollback, args.requestedAt);
      match (EnvelopeAt(seen, scope, args.envelopeId), AuthorityAt(seen, scope, args.authorityId))
      case (Some(e), Some(a)) =>
        && (RequestAt(s, scope, args.planId).None? ==>
              && out.Committed? && out.value.GatewayRecord?
              && PlanStored(s, s', scope, asked, out.value.gateway))
        && (RequestAt(s, scope, args.planId).Some? ==>
              && s' == s && GatewayAt(s, scope, args.planId).Some?
              && var g := GatewayAt(s, scope, args.planId).value;
                 out == if RequestAt(s, scope, args.planId).value == asked && g.gatewayDecisionId == args.gatewayId
                           && g.decidedAt == args.decidedAt
                        then Committed(GatewayRecord(g)) else Aborted(DuplicateCanonicalKey))
        && (out.Committed? ==>
              && out.value.GatewayRecord?
              && var g := out.value.gateway;
                 && g.gatewayDecisionId == args.gatewayId && g.planId == args.planId && g.envelopeId == args.envelopeId
                 && g.authorityDecisionId == args.authorityId && g.decidedAt == args.decidedAt
                 && g.simulation.NOT_SIMULATED? && g.execution.NOT_EXECUTED?
                 && (g.eligibility.ELIGIBLE_FOR_SHADOW? <==>
                       && a.authorization.AUTHORIZED? && a.verification.VERIFIED? && a.envelopeId == args.envelopeId
                       && args.action == e.proposedAction)
                 && (g.eligibility.ELIGIBLE_FOR_SHADOW? <==> g.reasons == []))
      case _ => out == Aborted(KeyError) && s' == s
  {
    hide Governed, RunTransaction, Extends, PlanStored, Judge, PlanTxn, EnvelopeAt, AuthorityAt, RequestAt, GatewayAt, Eligible,
         EnvelopeFits, AuthorityFits;
    var scope := args.scope;
    if EnvelopeAt(seen, scope, args.envelopeId).Some? && AuthorityAt(seen, scope, args.authorityId).Some? {
      var e, a := EnvelopeAt(seen, scope, args.envelopeId).value, AuthorityAt(seen, scope, args.authorityId).value;
      var q := RequestOf(args);
      var g := Judge(e, a, q, scope, args.gatewayId, args.decidedAt);
      RecordsStay(seen, s, scope);
      PlanJudged(signer, args, seen, e, a);
      PlanRuns(signer, scope, q, g, s);
      if RequestAt(s, scope, args.planId) == Some(q) { StoredJudge(signer, s, scope, args.planId, e, a); }
    }
  }

  /** What the gateway says about a request that has just been asked for. */
  lemma PlanJudged(signer: Option<Signer>, args: PlanArgs, seen: Store, e: DecisionEnvelope, a: AuthorityDecision)
    requires Governed(signer, seen)
    requires EnvelopeAt(seen, args.scope, args.envelopeId) == Some(e) && AuthorityAt(seen, args.scope, args.authorityId) == Some(a)
    ensures
      var g := Judge(e, a, RequestOf(args), args.scope, args.gatewayId, args.decidedAt);
      && g.gatewayDecisionId == args.gatewayId && g.planId == args.planId && g.envelopeId == args.envelopeId
      && g.authorityDecisionId == args.authorityId && g.decidedAt == args.decidedAt
      && g.simulation.NOT_SIMULATED? && g.execution.NOT_EXECUTED?
      && (g.eligibility.ELIGIBLE_FOR_SHADOW? <==>
            && a.authorization.AUTHORIZED? && a.verification.VERIFIED? && a.envelopeId == args.envelopeId
            && args.action == e.proposedAction)
      && (g.eligibility.ELIGIBLE_FOR_SHADOW? <==> g.reasons == [])
  {
    hide Governed, Reasons, Decide, EnvelopeAt, AuthorityAt;
    EnvelopeIsFit(signer, seen, args.scope, args.envelopeId);
    AuthorityIsFit(signer, seen, args.scope, args.authorityId);
    DecisionIsFailClosed(signer, EnvelopeAt(seen, args.scope, a.envelopeId).value, a.authoritySubject, a.authorityRole, a.approvals,
                         a.authorityDecisionId, a.decidedAt);
    EligibleExactly(e, a, RequestOf(args), args.scope, args.gatewayId, args.decidedAt);
  }

  /** The stored gateway decision of a plan is what the gateway says with the id and time stored. */
  lemma StoredJudge(signer: Option<Signer>, s: Store, scope: Scope, planId: Id, e: DecisionEnvelope, a: AuthorityDecision)
    requires Governed(signer, s) && RequestAt(s, scope, planId).Some?
    requires
      var q := RequestAt(s, scope, planId).value;
      EnvelopeAt(s, scope, q.envelopeId) == Some(e) && AuthorityAt(s, scope, q.authorityDecisionId) == Some(a)
    ensures GatewayAt(s, scope, planId).Some?
    ensures
      var q, g := RequestAt(s, scope, planId).value, GatewayAt(s, scope, planId).value;
      forall id, now :: Judge(e, a, q, scope, id, now) == g <==> g.gatewayDecisionId == id && g.decidedAt == now
  {
    hide Governed, Reasons, RequestAt, GatewayAt, EnvelopeAt, AuthorityAt, EventAt, CreatedEvent;
    RequestIsFit(signer, s, scope, planId);
  }

  // ---------------------------------------------------------------- simulate_execution_plan

  /** A first simulation that commits returns and stores a receipt under the id and time it drew: the signed plan that
    * the stored request asks for, eligible, with nothing executed; and the event that announces it. */
  lemma SimulateAnswers(signer: Option<Signer>, args: SimulateArgs, seen: Store, s: Store)
    requires Governed(signer, s) && Extends(seen, s)
    ensures
      var (out, s') := Perform(signer, SimulatePlan(args), seen, s);
      match RequestAt(seen, args.scope, args.planId)
      case None => out == Aborted(KeyError) && s' == s
      case Some(q) =>
        && GatewayAt(s, args.scope, args.planId).Some?
        && var g := GatewayAt(s, args.scope, args.planId).value;
           && (out.Committed? <==> signer.Some? && g.eligibility.ELIGIBLE_FOR_SHADOW?)
           && (!out.Committed? ==> s' == s)
           && (out.Committed? && ReceiptAt(s, args.scope, args.planId).Some? ==>
                 s' == s && out.value == ReceiptRecord(ReceiptAt(s, args.scope, args.planId).value))
           && (out.Committed? && ReceiptAt(s, args.scope, args.planId).None? ==>
                 && out.value.ReceiptRecord?
                 && SimulationStored(signer.value, s, s', args, q, g, out.value.receipt))
  {
    hide Governed, Extends, RunTransaction, SimulateTxn, RequestAt, GatewayAt, ReceiptAt, SimulationStored;
    if RequestAt(seen, args.scope, args.planId).Some? {
      RecordsStay(seen, s, args.scope);
      SimulationSucceedsExactly(signer, args, seen, s);
      if ReceiptAt(s, args.scope, args.planId).Some? {
        RepeatedSimulation(signer, args, seen, s);
      } else if Perform(signer, SimulatePlan(args), seen, s).0.Committed? {
        FirstSimulation(signer, args, RequestAt(seen, args.scope, args.planId).value, s);
      }
      AbortsChangeNothing(SimulateTxn(signer, args, RequestAt(seen, args.scope, args.planId).value), s);
    }
  }

  lemma AbortsChangeNothing(t: Txn, s: Store)
    ensures !RunTransaction(t, s).0.Committed? ==> RunTransaction(t, s).1 == s
  {
  }

  /** The new receipt and its event, field by field, and nothing else on any chain. */
  ghost predicate SimulationStored(signer: Signer, s: Store, s': Store, args: SimulateArgs, q: ExecutionRequest, g: GatewayDecision,
                                   r: ShadowReceipt)
  {
    && r == ShadowReceipt(args.receiptId, args.planId, false, false, false,
                          PlanBody(args.planId, q.envelopeId, q.authorityDecisionId, q.requestedAction, q.actionHash, q.expectedEffects,
                                   q.rollbackStrategy, args.scope.tenant, args.scope.project, ELIGIBLE_FOR_SHADOW, false, false, false,
                                   NOT_EXECUTED, "1.0.0"),
                          Sign(signer, r.plan), args.now)
    && ReceiptAt(s', args.scope, args.planId) == Some(r)
    && EventAt(s', args.scope, args.planId, SimulationRecorded)
       == Some(GatewayEvent(args.planId, g.gatewayDecisionId, SimulationRecorded, args.now, args.scope.tenant, args.scope.project,
                            args.receiptId, args.receiptId))
    && AddsOnly(s, s', args.scope, {(ShadowExecutionReceipts, Name(args.planId)),
                                    (GatewayDecisionEvents, EventKey(args.planId, SimulationRecorded))})
  }

  lemma FirstSimulation(signer: Option<Signer>, args: SimulateArgs, q0: ExecutionRequest, s: Store)
    requires Governed(signer, s) && RequestAt(s, args.scope, args.planId) == Some(q0) && GatewayAt(s, args.scope, args.planId).Some?
    requires ReceiptAt(s, args.scope, args.planId).None? && RunTransaction(SimulateTxn(signer, args, q0), s).0.Committed?
    ensures signer.Some?
    ensures
      var (out, s') := RunTransaction(SimulateTxn(signer, args, q0), s);
      && out.value.ReceiptRecord?
      && SimulationStored(signer.value, s, s', args, q0, GatewayAt(s, args.scope, args.planId).value, out.value.receipt)
  {
    hide Governed, RunTransaction, RequestAt, GatewayAt, Simulates, SimulationLocks, SimulateCommit, After, SimulationStored;
    var t := SimulateTxn(signer, args, q0);
    GovernedIsValid(signer, s);
    SimulateRefs(args.scope, args.planId, q0.authorityDecisionId);
    var r := SimulateEnds(signer, args, q0, s);
    TransactionIsAfter(t, s);
    EndsWithin(t, s);
    ResultsAreTyped(signer, s, args.scope, args.planId);
    SimulationIsStored(signer, args, s, Ends(t, s).1, q0, GatewayAt(s, args.scope, args.planId).value, r.value);
  }

  lemma SimulationIsStored(signer: Option<Signer>, args: SimulateArgs, s: Store, s': Store, q: ExecutionRequest, g: GatewayDecision,
                           r: ShadowReceipt)
    requires Governed(signer, s) && Simulates(signer, args, s, s', q, g, r)
    requires PayloadAt(s, args.scope, ShadowExecutionReceipts, Name(args.planId)).None?
    ensures signer.Some? && SimulationStored(signer.value, s, s', args, q, g, r)
  {
    hide Governed, Wrote, AddsOnly, RequestAt, GatewayAt, EnvelopeAt, AuthorityAt, Simulate;
    var w := SimulateWrites(args.scope, args.planId, g, r, true);
    var e, a := EnvelopeAt(s, args.scope, q.envelopeId).value, AuthorityAt(s, args.scope, q.authorityDecisionId).value;
    RequestIsFit(signer, s, args.scope, args.planId);
    EnvelopeIsFit(signer, s, args.scope, q.envelopeId);
    AuthorityIsFit(signer, s, args.scope, q.authorityDecisionId);
    SimulatedPlan(signer, e, a, q, args.scope, args.receiptId, args.now);
    WrittenRecord(s, s', w, args.scope, ShadowExecutionReceipts, Name(args.planId));
    WrittenRecord(s, s', w, args.scope, GatewayDecisionEvents, EventKey(args.planId, SimulationRecorded));
    WroteOnly(s, s', w, args.scope, {(ShadowExecutionReceipts, Name(args.planId)),
                                     (GatewayDecisionEvents, EventKey(args.planId, SimulationRecorded))});
  }

  /** The receipt that the gateway makes out for a request, field by field. */
  lemma SimulatedPlan(signer: Option<Signer>, e: DecisionEnvelope, a: AuthorityDecision, q: ExecutionRequest, scope: Scope, id: Id,
                      now: string)
    requires Simulate(signer, e, a, q, Judge(e, a, q, scope, "", now), id, now).Some?
    ensures signer.Some?
    ensures
      var r := Simulate(signer, e, a, q, Judge(e, a, q, scope, "", now), id, now).value;
      r == ShadowReceipt(id, q.planId, false, false, false,
                         PlanBody(q.planId, e.envelopeId, a.authorityDecisionId, q.requestedAction, q.actionHash, q.expectedEffects,
                                  q.rollbackStrategy, q.tenant, q.project, ELIGIBLE_FOR_SHADOW, false, false, false, NOT_EXECUTED, "1.0.0"),
                         Sign(signer.value, r.plan), now)
  {
    hide Reasons;
  }

  // ---------------------------------------------------------------- record_shadow_outcome

  /** Among the first 1000 events of the scope one says that the plan was simulated. */
  ghost predicate Announced(s: Store, scope: Scope, planId: Id) {
    exists row :: row in Page(Listing(GroupRows(s, Group(scope, GatewayDecisionEvents))), 1000, 0)
      && row.payload.record.EventRecord? && row.payload.record.event.planId == planId
      && row.payload.record.event.kind.SimulationRecorded?
  }

  /** Only plans with a receipt are announced, and among at most 1000 events all of them. */
  lemma AnnouncedExactly(signer: Option<Signer>, s: Store, scope: Scope, planId: Id)
    requires Governed(signer, s)
    ensures Announced(s, scope, planId) ==> ReceiptAt(s, scope, planId).Some?
    ensures |Listing(GroupRows(s, Group(scope, GatewayDecisionEvents)))| <= 1000 && ReceiptAt(s, scope, planId).Some? ==>
      Announced(s, scope, planId)
  {
    hide Governed, Listing, ReceiptAt;
    var m := GroupRows(s, Group(scope, GatewayDecisionEvents));
    if Announced(s, scope, planId) {
      var row :| row in Page(Listing(m), 1000, 0) && row.payload.record.EventRecord? && row.payload.record.event.planId == planId
        && row.payload.record.event.kind.SimulationRecorded?;
      var k := ListedFits(signer, s, Group(scope, GatewayDecisionEvents), row);
    }
    if |Listing(m)| <= 1000 && ReceiptAt(s, scope, planId).Some? {
      ReceiptIsFit(signer, s, scope, planId);
      AnnouncedEvent(signer, s, scope, planId);
      StoredIsListed(m, RowKey(scope, GatewayDecisionEvents, EventKey(planId, SimulationRecorded)));
      assert Page(Listing(m), 1000, 0) == Listing(m);
    }
  }

  lemma AnnouncedEvent(signer: Option<Signer>, s: Store, scope: Scope, planId: Id)
    requires Governed(signer, s) && ReceiptAt(s, scope, planId).Some?
    ensures
      var k := RowKey(scope, GatewayDecisionEvents, EventKey(planId, SimulationRecorded));
      && k in GroupRows(s, Group(scope, GatewayDecisionEvents))
      && var record := GroupRows(s, Group(scope, GatewayDecisionEvents))[k].payload.record;
         record.EventRecord? && record.event.planId == planId && record.event.kind.SimulationRecorded?
  {
    hide Governed, RequestAt, ReceiptAt, EnvelopeAt, AuthorityAt, GatewayAt, Simulate, Judge;
    ReceiptIsFit(signer, s, scope, planId);
  }

  /** Whether the reads of a recording let it go on. */
  lemma ReadyExactly(signer: Option<Signer>, args: OutcomeArgs, seen: Store)
    requires Governed(signer, seen)
    ensures
      match RequestAt(seen, args.scope, args.planId)
      case None => ReadyToRecord(signer, args, seen) == Refused(KeyError)
      case Some(q) =>
        if !Announced(seen, args.scope, args.planId) then ReadyToRecord(signer, args, seen) == Refused(ValueError)
        else
          && ReceiptAt(seen, args.scope, args.planId).Some?
          && ReadyToRecord(signer, args, seen) == Ready(OutcomeTxn(signer, args, q, ReceiptAt(seen, args.scope, args.planId).value))
  {
    hide Governed, RequestAt, GatewayAt, ReceiptAt, ReceiptOk, OutcomeTxn, Listing, Page, HavPasses, MayAuthorize, Eligible, EnvelopeAt,
         AuthorityAt;
    if RequestAt(seen, args.scope, args.planId).Some? {
      PlanIds(signer, seen, args.scope, args.planId);
      NotExecuted(signer, seen, args.scope, args.planId);
      assert ProjectsSimulated(Page(Listing(GroupRows(seen, Group(args.scope, GatewayDecisionEvents))), MAX_LIST_LIMIT, 0), args.planId)
        <==> Announced(seen, args.scope, args.planId);
      AnnouncedExactly(signer, seen, args.scope, args.planId);
      if Announced(seen, args.scope, args.planId) { ReceiptMeansEligible(signer, seen, args.scope, args.planId); }
    }
  }

  lemma NotExecuted(signer: Option<Signer>, s: Store, scope: Scope, planId: Id)
    requires Governed(signer, s) && RequestAt(s, scope, planId).Some?
    ensures GatewayAt(s, scope, planId).Some? && GatewayAt(s, scope, planId).value.execution.NOT_EXECUTED?
  {
    hide Governed, RequestAt, GatewayAt, EnvelopeAt, AuthorityAt, EventAt, Reasons;
    RequestIsFit(signer, s, scope, planId);
  }

  /** The new outcome, field by field, in the state that its assessments give it, and nothing else on any chain. */
  ghost predicate OutcomeStored(signer: Signer, s: Store, s': Store, args: OutcomeArgs, q: ExecutionRequest, r: ShadowReceipt,
                                o: ShadowOutcome)
  {
    && o.fields == OutcomeBody(args.outcomeId, args.planId, r.receiptId, q.envelopeId, q.authorityDecisionId, args.scope.tenant,
                               args.scope.project, args.recordedBy, args.assessments, o.fields.outcomeState, args.metrics,
                               args.limitations, true, false, false, false, NOT_EXECUTED, ReceiptHash(r), args.now)
    && o.signed == o.fields && o.signature == Sign(signer, o.fields)
    && (var complete := q.expectedEffects != [] && forall a :: a in args.assessments ==> a.expectedEffect in q.expectedEffects;
        && (o.fields.outcomeState.CONSISTENT? <==>
              complete && forall x :: x in q.expectedEffects ==> AssessedOnce(args.assessments, x, MATCHED))
        && (o.fields.outcomeState.DEVIATED? <==>
              && complete && (exists a :: a in args.assessments && a.state.ASSESSED_DEVIATED?)
              && forall x :: x in q.expectedEffects ==>
                   AssessedOnce(args.assessments, x, MATCHED) || AssessedOnce(args.assessments, x, ASSESSED_DEVIATED)))
    && OutcomeAt(s', args.scope, r.receiptId) == Some(o)
    && AddsOnly(s, s', args.scope, {(ShadowOutcomes, Name(r.receiptId))})
  }

  /** A recording needs a plan whose simulation is announced. It returns the outcome that is already stored, or stores
    * a new one exactly if each assessment has text and no two name the same effect, blanks aside. */
  lemma OutcomeAnswers(signer: Option<Signer>, args: OutcomeArgs, seen: Store, s: Store)
    requires Governed(signer, seen) && Extends(seen, s) && Governed(signer, s) && ReceiptsDistinct(s)
    ensures
      var (out, s') := Perform(signer, RecordOutcome(args), seen, s);
      match RequestAt(seen, args.scope, args.planId)
      case None => out == Aborted(KeyError) && s' == s
      case Some(q) =>
        if !Announced(seen, args.scope, args.planId) then out == Aborted(ValueError) && s' == s
        else
          && signer.Some? && ReceiptAt(seen, args.scope, args.planId).Some?
          && var r := ReceiptAt(seen, args.scope, args.planId).value;
             match OutcomeAt(s, args.scope, r.receiptId)
             case Some(stored) => out == Committed(OutcomeRecord(stored)) && s' == s
             case None =>
               && (out.Committed? <==>
                     && (forall a :: a in args.assessments ==> Strip(a.expectedEffect) != "" && Strip(a.simulatedObservation) != "")
                     && (forall i, j :: 0 <= i < j < |args.assessments| ==>
                           Strip(args.assessments[i].expectedEffect) != Strip(args.assessments[j].expectedEffect)))
               && (!out.Committed? ==> out == Aborted(ValueError) && s' == s)
               && (out.Committed? ==>
                     out.value.OutcomeRecord? && OutcomeStored(signer.value, s, s', args, q, r, out.value.outcome))
  {
    hide Governed, Extends, RunTransaction, OutcomeTxn, RequestAt, ReceiptAt, OutcomeAt, ReadyToRecord, Announced, OutcomeStored,
         ReceiptsDistinct, Strip;
    ReadyExactly(signer, args, seen);
    if RequestAt(seen, args.scope, args.planId).Some? && Announced(seen, args.scope, args.planId) {
      var q, r := RequestAt(seen, args.scope, args.planId).value, ReceiptAt(seen, args.scope, args.planId).value;
      RecordsStay(seen, s, args.scope);
      RecordingSigner(signer, seen, args.scope, args.planId);
      if OutcomeAt(s, args.scope, r.receiptId).Some? {
        RepeatedOutcome(signer, args, seen, s);
      } else {
        OutcomeRuns(signer, args, q, r, s);
        assert AssessmentsOk(args.assessments) <==>
          && (forall a :: a in args.assessments ==> Strip(a.expectedEffect) != "" && Strip(a.simulatedObservation) != "")
          && (forall i, j :: 0 <= i < j < |args.assessments| ==>
                Strip(args.assessments[i].expectedEffect) != Strip(args.assessments[j].expectedEffect));
      }
    }
  }

  lemma RecordingSigner(signer: Option<Signer>, s: Store, scope: Scope, planId: Id)
    requires Governed(signer, s) && ReceiptAt(s, scope, planId).Some?
    ensures signer.Some?
  {
    hide Governed, ReceiptAt, GatewayAt;
    BlockedPlansHaveNoReceipt(signer, s, scope, planId);
  }

  lemma OutcomeAllowed(signer: Option<Signer>, args: OutcomeArgs, q: ExecutionRequest, r: ShadowReceipt)
    ensures WriteAllowed(SessionOf(OutcomeTxn(signer, args, q, r)).locks, ShadowOutcomes, Name(r.receiptId))
  {
    var refs := OutcomeTxn(signer, args, q, r).locks;
    assert refs[3] == ChainLock(args.scope, ShadowOutcomes) && refs[4] == CanonicalLock(args.scope, ShadowOutcomes, Name(r.receiptId));
  }

  /** The transaction of a recording when no outcome is stored. */
  lemma OutcomeRuns(signer: Option<Signer>, args: OutcomeArgs, q: ExecutionRequest, r: ShadowReceipt, s: Store)
    requires Governed(signer, s) && signer.Some? && OutcomeAt(s, args.scope, r.receiptId).None?
    requires RequestAt(s, args.scope, args.planId) == Some(q)
    ensures
      var (out, s') := RunTransaction(OutcomeTxn(signer, args, q, r), s);
      if AssessmentsOk(args.assessments)
      then out.Committed? && out.value.OutcomeRecord? && OutcomeStored(signer.value, s, s', args, q, r, out.value.outcome)
      else out == Aborted(ValueError) && s' == s
  {
    hide Governed, Wrote, RunTransaction, After, Lookup, Put, OutcomeLocks, ContextOf, WriteAllowed, AssessmentsOk, NewOutcome,
         OutcomeOk, RequestAt, ExtractRecordId, OutcomeStored;
    var t := OutcomeTxn(signer, args, q, r);
    var ses, o := SessionOf(t), NewOutcome(signer.value, args, q, r);
    GovernedIsValid(signer, s);
    OutcomeLocked(signer, args, q, r);
    OutcomeAllowed(signer, args, q, r);
    ResultsAreTyped(signer, s, args.scope, r.receiptId);
    TransactionIsAfter(t, s);
    RaisesEnd(ses, s);
    LookupAfter(ShadowOutcomes, Name(r.receiptId), (p: Option<Payload>) =>
      match p
      case Some(payload) => CheckOutcome(signer, q, r, payload.record)
      case None => PutOutcome(signer, args, q, r), ses, s, 2);
    if AssessmentsOk(args.assessments) {
      NewOutcomeIsOk(signer, args, q, r, s);
      var s1 := PutExactly(ShadowOutcomes, Name(r.receiptId), OutcomeRecord(o), (stored: Record) => CheckOutcome(signer, q, r, stored),
                           ses, s, 1);
      NothingLeft(OutcomeRecord(o), ses, s1);
      OutcomeIsStored(signer.value, args, q, r, s, s1);
    }
  }

  lemma NewOutcomeIsOk(signer: Option<Signer>, args: OutcomeArgs, q: ExecutionRequest, r: ShadowReceipt, s: Store)
    requires Governed(signer, s) && signer.Some? && RequestAt(s, args.scope, args.planId) == Some(q)
    ensures OutcomeOk(signer, NewOutcome(signer.value, args, q, r), q, r) && q.planId == args.planId
    ensures ExtractRecordId(ShadowOutcomes, OutcomeRecord(NewOutcome(signer.value, args, q, r))).Some?
  {
    hide Governed, RequestAt, Aggregate;
    RequestIsFit(signer, s, args.scope, args.planId);
  }

  lemma OutcomeIsStored(signer: Signer, args: OutcomeArgs, q: ExecutionRequest, r: ShadowReceipt, s: Store, s': Store)
    requires q.planId == args.planId
    requires Wrote(s, s', map[RowKey(args.scope, ShadowOutcomes, Name(r.receiptId)) := OutcomeRecord(NewOutcome(signer, args, q, r))])
    ensures OutcomeStored(signer, s, s', args, q, r, NewOutcome(signer, args, q, r))
  {
    hide Wrote, AddsOnly, Aggregate, AssessedOnce;
    var w := map[RowKey(args.scope, ShadowOutcomes, Name(r.receiptId)) := OutcomeRecord(NewOutcome(signer, args, q, r))];
    WrittenRecord(s, s', w, args.scope, ShadowOutcomes, Name(r.receiptId));
    WroteOnly(s, s', w, args.scope, {(ShadowOutcomes, Name(r.receiptId))});
    ConsistentExactly(q.expectedEffects, args.assessments);
    DeviatedExactly(q.expectedEffects, args.assessments);
  }

  // ---------------------------------------------------------------- records that somebody altered

  /** On any ledger, governed or not: a stored receipt that is not valid for its plan's request is not returned. */
  lemma AlteredReceiptRefused(signer: Option<Signer>, args: SimulateArgs, seen: Store, s: Store)
    requires RequestAt(seen, args.scope, args.planId).Some?
    requires RequestAt(s, args.scope, args.planId).Some? && GatewayAt(s, args.scope, args.planId).Some?
    requires ReceiptAt(s, args.scope, args.planId).Some?
    requires !ReceiptOk(signer, ReceiptAt(s, args.scope, args.planId).value, RequestAt(s, args.scope, args.planId).value)
    ensures Perform(signer, SimulatePlan(args), seen, s) == (Aborted(ValueError), s)
  {
    hide RequestAt, GatewayAt, SimulationLocks, ContextOf, SimulateCommit, RunTransaction, SimulateFresh, ReceiptOk, After;
    var q0 := RequestAt(seen, args.scope, args.planId).value;
    var t := SimulateTxn(signer, args, q0);
    SimulationSession(signer, args, q0);
    ReachReceipt(signer, args, SessionOf(t), s);
    RaisesEnd(SessionOf(t), s);
    SimulateRefs(args.scope, args.planId, q0.authorityDecisionId);
    TransactionIsAfter(t, s);
  }

  /** Nor is an outcome recorded on it. */
  lemma AlteredReceiptNotRecorded(signer: Option<Signer>, args: OutcomeArgs, seen: Store, s: Store)
    requires RequestAt(seen, args.scope, args.planId).Some? && GatewayAt(seen, args.scope, args.planId).Some?
    requires RequestAt(seen, args.scope, args.planId).value.planId == args.planId && ReceiptAt(seen, args.scope, args.planId).Some?
    requires !ReceiptOk(signer, ReceiptAt(seen, args.scope, args.planId).value, RequestAt(seen, args.scope, args.planId).value)
    ensures Perform(signer, RecordOutcome(args), seen, s) == (Aborted(ValueError), s)
  {
    hide RequestAt, GatewayAt, ReceiptAt, ReceiptOk, ProjectsSimulated, RunTransaction, Listing, Page;
  }

  /** A stored outcome that is not valid for its plan and receipt is not returned. */
  lemma AlteredOutcomeRefused(signer: Option<Signer>, args: OutcomeArgs, q: ExecutionRequest, r: ShadowReceipt, s: Store)
    requires OutcomeAt(s, args.scope, r.receiptId).Some? && !OutcomeOk(signer, OutcomeAt(s, args.scope, r.receiptId).value, q, r)
    ensures RunTransaction(OutcomeTxn(signer, args, q, r), s) == (Aborted(ValueError), s)
  {
    hide After, Lookup, RunTransaction, OutcomeLocks, ContextOf, OutcomeOk, PutOutcome;
    var t := OutcomeTxn(signer, args, q, r);
    OutcomeLocked(signer, args, q, r);
    TransactionIsAfter(t, s);
    RaisesEnd(SessionOf(t), s);
    LookupAfter(ShadowOutcomes, Name(r.receiptId), (p: Option<Payload>) =>
      match p
      case Some(payload) => CheckOutcome(signer, q, r, payload.record)
      case None => PutOutcome(signer, args, q, r), SessionOf(t), s, 2);
  }
}
