/** Backfill of gateway events for migrated plans (grdi/migration.py): it must leave what the live path
  * would have left. */
module Backfill {
  import opened Signing
  import opened Models
  import opened ScopedStore
  import opened ScopedInvariant
  import opened Locks
  import opened LedgerOps
  import opened ScopedEngine
  import opened ProtocolSteps
  import opened ProtocolRecords
  import opened ProtocolInvariant
  import opened ProtocolRuns
  import opened ProtocolSafety

  /** A listed gateway row: its scope and decision. */
  datatype PlanRow = PlanRow(scope: Scope, gateway: GatewayDecision)
  datatype Counts = Counts(created: nat, skipped: nat, notEvaluated: nat)
  datatype Filled = Filled(store: Store, counts: Counts) | Unfilled(error: Error)

  const NOTHING := Counts(0, 0, 0)

  function Sum(a: Counts, b: Counts): Counts {
    Counts(a.created + b.created, a.skipped + b.skipped, a.notEvaluated + b.notEvaluated)
  }

  function Created(p: PlanRow): GatewayEvent {
    GatewayEvent(p.gateway.planId, p.gateway.gatewayDecisionId, GatewayDecisionCreated, p.gateway.decidedAt,
                 p.scope.tenant, p.scope.project, p.gateway.gatewayDecisionId, "")
  }

  // ---------------------------------------------------------------- one plan as a value

  /** append_scoped_once of an event. */
  ghost function AddEvent(scope: Scope, v: GatewayEvent, s: Store): Filled {
    var (r, d) := AppendEffect(Session(scope, None), GatewayDecisionEvents, EventKey(v.planId, v.kind), EventRecord(v), s);
    match r
    case Stored(_, created) => Filled(Overlay(s, d), if created then Counts(1, 0, 0) else Counts(0, 1, 0))
    case Failure(e) => Unfilled(e)
    case _ => Unfilled(KeyError)
  }

  /** The receipt that a plan flagged as simulated needs: one with a simulation time. */
  function TimedReceipt(p: PlanRow, s: Store): Option<ShadowReceipt> {
    match ReceiptAt(s, p.scope, p.gateway.planId)
    case None => None
    case Some(r) => if r.simulatedAt == "" then None else Some(r)
  }

  /** _backfill_plan_events: all of a plan's events, or none. */
  ghost function FillPlan(p: PlanRow, s: Store): Filled {
    match AddEvent(p.scope, Created(p), s)
    case Unfilled(e) => Unfilled(e)
    case Filled(s1, counts) =>
      if !p.gateway.simulation.SIMULATED? then Filled(s1, counts)
      else
        match TimedReceipt(p, s1)
        case None => Filled(s1, Sum(counts, Counts(0, 0, 1)))
        case Some(r) =>
          match AddEvent(p.scope, SimulationEvent(p.scope, p.gateway.planId, p.gateway, r), s1)
          case Unfilled(e) => Unfilled(e)
          case Filled(s2, more) => Filled(s2, Sum(counts, more))
  }

  /** The first n plans, one transaction each. */
  ghost function FillPlans(plans: seq<PlanRow>, s: Store, n: nat): Filled
    requires n <= |plans|
  {
    if n == 0 then Filled(s, NOTHING)
    else
      match FillPlans(plans, s, n - 1)
      case Unfilled(e) => Unfilled(e)
      case Filled(s1, counts) =>
        match FillPlan(plans[n - 1], s1)
        case Unfilled(e) => Unfilled(e)
        case Filled(s2, more) => Filled(s2, Sum(counts, more))
  }

  // ---------------------------------------------------------------- adding events

  /** The event is stored under its key. */
  ghost predicate HasEvent(s: Store, scope: Scope, v: GatewayEvent) {
    PayloadAt(s, scope, GatewayDecisionEvents, EventKey(v.planId, v.kind)) == Some(Payload(EventRecord(v), scope))
  }

  /** s' differs from s by at most the event under this key. */
  ghost predicate OnlyEvent(s: Store, s': Store, scope: Scope, key: CKey) {
    forall k :: k != RowKey(scope, GatewayDecisionEvents, key) ==>
      (k in s'.rows <==> k in s.rows) && (k in s.rows ==> s'.rows[k] == s.rows[k])
  }

  lemma AddedEvent(scope: Scope, v: GatewayEvent, s: Store)
    requires Valid(s)
    ensures
      var key := EventKey(v.planId, v.kind);
      match AddEvent(scope, v, s)
      case Filled(s1, counts) =>
        && Valid(s1) && HasEvent(s1, scope, v) && Extends(s, s1) && OnlyEvent(s, s1, scope, key)
        && (HasEvent(s, scope, v) ==> s1 == s && counts == Counts(0, 1, 0))
        && (!HasEvent(s, scope, v) ==> counts == Counts(1, 0, 0) && PayloadAt(s, scope, GatewayDecisionEvents, key).None?)
      case Unfilled(e) => e.DuplicateCanonicalKey? && PayloadAt(s, scope, GatewayDecisionEvents, key).Some? && !HasEvent(s, scope, v)
  {
    hide Valid, NextSequence, ChainPrev;
    var ses, key := Session(scope, None), EventKey(v.planId, v.kind);
    var k := RowKey(scope, GatewayDecisionEvents, key);
    AppendKeepsValid(ses, GatewayDecisionEvents, key, EventRecord(v), s);
    OverlayEmpty(s);
    if k in s.rows { RowsAreValid(s, k); }
  }

  lemma OtherRecordsStay(s: Store, s': Store, scope: Scope, key: CKey)
    requires OnlyEvent(s, s', scope, key)
    ensures SameReceipts(s, s')
  {
    forall sc, id ensures ReceiptAt(s', sc, id) == ReceiptAt(s, sc, id) {
      assert RowKey(sc, ShadowExecutionReceipts, Name(id)) != RowKey(scope, GatewayDecisionEvents, key);
    }
  }

  lemma EventsStay(s: Store, s': Store, scope: Scope, v: GatewayEvent)
    requires Extends(s, s') && HasEvent(s, scope, v)
    ensures HasEvent(s', scope, v)
  {
  }

  /** What filling a plan leaves: its events, every row there was before, and no other change. */
  ghost predicate PlanFilled(p: PlanRow, s: Store, s': Store) {
    && Valid(s') && Extends(s, s') && HasEvent(s', p.scope, Created(p))
    && SameReceipts(s, s')
    && (p.gateway.simulation.SIMULATED? && TimedReceipt(p, s).Some? ==>
          HasEvent(s', p.scope, SimulationEvent(p.scope, p.gateway.planId, p.gateway, TimedReceipt(p, s).value)))
  }

  lemma SameTimedReceipt(p: PlanRow, s: Store, s': Store)
    requires SameReceipts(s, s')
    ensures TimedReceipt(p, s') == TimedReceipt(p, s)
  {
    hide ReceiptAt;
  }

  lemma ReceiptsTransitive(s: Store, s': Store, s'': Store)
    requires SameReceipts(s, s') && SameReceipts(s', s'')
    ensures SameReceipts(s, s'')
  {
    hide ReceiptAt;
  }

  lemma FirstEvent(p: PlanRow, s: Store)
    requires Valid(s) && AddEvent(p.scope, Created(p), s).Filled?
    ensures
      var s1 := AddEvent(p.scope, Created(p), s).store;
      && Valid(s1) && Extends(s, s1) && HasEvent(s1, p.scope, Created(p)) && SameReceipts(s, s1)
      && TimedReceipt(p, s1) == TimedReceipt(p, s)
    ensures AddEvent(p.scope, Created(p), s).counts.notEvaluated == 0
  {
    hide Valid, AddEvent, HasEvent, OnlyEvent, Extends, TimedReceipt, SameReceipts;
    AddedEvent(p.scope, Created(p), s);
    var s1 := AddEvent(p.scope, Created(p), s).store;
    OtherRecordsStay(s, s1, p.scope, EventKey(p.gateway.planId, GatewayDecisionCreated));
    SameTimedReceipt(p, s, s1);
  }

  lemma SecondEvent(p: PlanRow, r: ShadowReceipt, s: Store)
    requires Valid(s) && HasEvent(s, p.scope, Created(p))
    requires AddEvent(p.scope, SimulationEvent(p.scope, p.gateway.planId, p.gateway, r), s).Filled?
    ensures
      var v := SimulationEvent(p.scope, p.gateway.planId, p.gateway, r);
      var s1 := AddEvent(p.scope, v, s).store;
      && Valid(s1) && Extends(s, s1) && HasEvent(s1, p.scope, Created(p)) && HasEvent(s1, p.scope, v) && SameReceipts(s, s1)
      && AddEvent(p.scope, v, s).counts.notEvaluated == 0
  {
    hide Valid, AddEvent, HasEvent, OnlyEvent, Extends, SameReceipts;
    var v := SimulationEvent(p.scope, p.gateway.planId, p.gateway, r);
    AddedEvent(p.scope, v, s);
    var s1 := AddEvent(p.scope, v, s).store;
    OtherRecordsStay(s, s1, p.scope, EventKey(p.gateway.planId, SimulationRecorded));
    EventsStay(s, s1, p.scope, Created(p));
  }

  lemma FilledPlan(p: PlanRow, s: Store)
    requires Valid(s) && FillPlan(p, s).Filled?
    ensures PlanFilled(p, s, FillPlan(p, s).store)
    ensures FillPlan(p, s).counts.notEvaluated == if p.gateway.simulation.SIMULATED? && TimedReceipt(p, s).None? then 1 else 0
  {
    hide Valid, AddEvent, HasEvent, Extends, SameReceipts, TimedReceipt;
    FirstEvent(p, s);
    var s1 := AddEvent(p.scope, Created(p), s).store;
    if p.gateway.simulation.SIMULATED? && TimedReceipt(p, s1).Some? {
      SecondEvent(p, TimedReceipt(p, s1).value, s1);
      ExtendsIsTransitive(s, s1, FillPlan(p, s).store);
      ReceiptsTransitive(s, s1, FillPlan(p, s).store);
    }
  }

  // ---------------------------------------------------------------- nothing to do

  /** Every event the plan needs is stored. */
  ghost predicate Complete(p: PlanRow, s: Store) {
    && HasEvent(s, p.scope, Created(p))
    && (p.gateway.simulation.SIMULATED? && TimedReceipt(p, s).Some? ==>
          HasEvent(s, p.scope, SimulationEvent(p.scope, p.gateway.planId, p.gateway, TimedReceipt(p, s).value)))
  }

  lemma CompletePlanUnchanged(p: PlanRow, s: Store)
    requires Valid(s) && Complete(p, s)
    ensures FillPlan(p, s).Filled? && FillPlan(p, s).store == s && FillPlan(p, s).counts.created == 0
  {
    hide Valid, AddEvent, HasEvent, OnlyEvent, Extends, TimedReceipt;
    AddedEvent(p.scope, Created(p), s);
    if p.gateway.simulation.SIMULATED? && TimedReceipt(p, s).Some? {
      AddedEvent(p.scope, SimulationEvent(p.scope, p.gateway.planId, p.gateway, TimedReceipt(p, s).value), s);
    }
  }

  lemma {:induction false} CompletePlansUnchanged(plans: seq<PlanRow>, s: Store, n: nat)
    requires Valid(s) && n <= |plans| && forall i :: 0 <= i < |plans| ==> Complete(plans[i], s)
    ensures FillPlans(plans, s, n).Filled? && FillPlans(plans, s, n).store == s && FillPlans(plans, s, n).counts.created == 0
  {
    hide Valid, FillPlan, Complete;
    if n > 0 {
      CompletePlansUnchanged(plans, s, n - 1);
      CompletePlanUnchanged(plans[n - 1], s);
    }
  }

  /** The plan is a gateway row of the store. */
  predicate Listed(p: PlanRow, s: Store) {
    GatewayAt(s, p.scope, p.gateway.planId) == Some(p.gateway)
  }

  lemma LivePlanIsComplete(signer: Option<Signer>, p: PlanRow, s: Store)
    requires Governed(signer, s) && Listed(p, s)
    ensures Complete(p, s)
  {
    hide Governed, RequestAt, GatewayAt, EnvelopeAt, AuthorityAt, ReceiptAt, EventAt, Gateway.Judge;
    var planId := p.gateway.planId;
    GatewayIsFit(signer, s, p.scope, planId);
    RequestIsFit(signer, s, p.scope, planId);
    var q := RequestAt(s, p.scope, planId).value;
    JudgeFields(EnvelopeAt(s, p.scope, q.envelopeId).value, AuthorityAt(s, p.scope, q.authorityDecisionId).value, q, p.scope,
                p.gateway.gatewayDecisionId, p.gateway.decidedAt);
    StoredCreated(signer, p, s, q);
  }

  lemma StoredCreated(signer: Option<Signer>, p: PlanRow, s: Store, q: ExecutionRequest)
    requires Governed(signer, s) && q.planId == p.gateway.planId
    requires EventAt(s, p.scope, q.planId, GatewayDecisionCreated) == Some(CreatedEvent(p.scope, q, p.gateway))
    ensures HasEvent(s, p.scope, Created(p))
  {
    hide Governed;
    StoredFits(signer, s, p.scope, GatewayDecisionEvents, EventKey(q.planId, GatewayDecisionCreated));
  }

  /** On a ledger built by live steps the backfill creates nothing and changes nothing. */
  lemma LiveLedgerNeedsNoBackfill(signer: Option<Signer>, plans: seq<PlanRow>, s: Store)
    requires Governed(signer, s) && forall i :: 0 <= i < |plans| ==> Listed(plans[i], s)
    ensures
      var filled := FillPlans(plans, s, |plans|);
      filled.Filled? && filled.store == s && filled.counts.created == 0
  {
    hide Governed, Listed, Complete, FillPlans;
    GovernedIsValid(signer, s);
    forall i | 0 <= i < |plans| ensures Complete(plans[i], s) { LivePlanIsComplete(signer, plans[i], s); }
    CompletePlansUnchanged(plans, s, |plans|);
  }

  // ---------------------------------------------------------------- filling twice

  lemma CompleteStays(p: PlanRow, s: Store, s': Store)
    requires Complete(p, s) && Extends(s, s') && SameReceipts(s, s')
    ensures Complete(p, s')
  {
    hide HasEvent, Extends, ReceiptAt;
    EventsStay(s, s', p.scope, Created(p));
    if p.gateway.simulation.SIMULATED? && TimedReceipt(p, s).Some? {
      EventsStay(s, s', p.scope, SimulationEvent(p.scope, p.gateway.planId, p.gateway, TimedReceipt(p, s).value));
    }
  }

  lemma FilledIsComplete(p: PlanRow, s: Store, s': Store)
    requires PlanFilled(p, s, s')
    ensures Complete(p, s')
  {
    hide HasEvent, Extends, ReceiptAt, Valid;
  }

  lemma {:induction false} FilledPlans(plans: seq<PlanRow>, s: Store, n: nat)
    requires Valid(s) && n <= |plans| && FillPlans(plans, s, n).Filled?
    ensures
      var s' := FillPlans(plans, s, n).store;
      && Valid(s') && Extends(s, s')
      && SameReceipts(s, s')
      && (forall i :: 0 <= i < n ==> Complete(plans[i], s'))
  {
    hide Valid, FillPlan, Complete, ReceiptAt, Extends;
    if n == 0 {
      ExtendsItself(s);
    } else {
      FilledPlans(plans, s, n - 1);
      var s1 := FillPlans(plans, s, n - 1).store;
      var s2 := FillPlan(plans[n - 1], s1).store;
      FilledPlan(plans[n - 1], s1);
      FilledIsComplete(plans[n - 1], s1, s2);
      ExtendsIsTransitive(s, s1, s2);
      forall i | 0 <= i < n ensures Complete(plans[i], s2) {
        if i < n - 1 { CompleteStays(plans[i], s1, s2); }
      }
    }
  }

  /** Backfilling again creates nothing and changes nothing. */
  lemma BackfillIsIdempotent(plans: seq<PlanRow>, s: Store)
    requires Valid(s) && FillPlans(plans, s, |plans|).Filled?
    ensures
      var s' := FillPlans(plans, s, |plans|).store;
      var again := FillPlans(plans, s', |plans|);
      again.Filled? && again.store == s' && again.counts.created == 0
  {
    hide Valid, Complete, FillPlans, ReceiptAt;
    FilledPlans(plans, s, |plans|);
    CompletePlansUnchanged(plans, FillPlans(plans, s, |plans|).store, |plans|);
  }

  // ---------------------------------------------------------------- agreement with the legacy flag

  /** The plan's event-sourced state: SIMULATED exactly when a simulation event is stored. */
  predicate Projects(p: PlanRow, s: Store) {
    PayloadAt(s, p.scope, GatewayDecisionEvents, EventKey(p.gateway.planId, SimulationRecorded)).Some?
  }

  predicate Disagrees(p: PlanRow, s: Store) {
    Projects(p, s) != p.gateway.simulation.SIMULATED?
  }

  function Disagreements(plans: seq<PlanRow>, s: Store, n: nat): nat
    requires n <= |plans|
  {
    if n == 0 then 0 else Disagreements(plans, s, n - 1) + if Disagrees(plans[n - 1], s) then 1 else 0
  }

  predicate SamePlan(p: PlanRow, q: PlanRow) {
    p.scope == q.scope && p.gateway.planId == q.gateway.planId
  }

  /** Adding an event of another plan leaves the projection alone. */
  lemma OtherEvent(scope: Scope, v: GatewayEvent, q: PlanRow, s: Store)
    requires Valid(s) && AddEvent(scope, v, s).Filled? && !(scope == q.scope && v.planId == q.gateway.planId)
    ensures Valid(AddEvent(scope, v, s).store) && Projects(q, AddEvent(scope, v, s).store) == Projects(q, s)
  {
    hide Valid, AddEvent, HasEvent, Extends;
    AddedEvent(scope, v, s);
    var k := RowKey(q.scope, GatewayDecisionEvents, EventKey(q.gateway.planId, SimulationRecorded));
    assert k in AddEvent(scope, v, s).store.rows <==> k in s.rows;
  }

  /** Filling one plan leaves the projections of all others alone. */
  lemma OtherProjections(p: PlanRow, q: PlanRow, s: Store)
    requires Valid(s) && FillPlan(p, s).Filled? && !SamePlan(p, q)
    ensures Projects(q, FillPlan(p, s).store) == Projects(q, s)
  {
    hide Valid, AddEvent, Projects, TimedReceipt;
    OtherEvent(p.scope, Created(p), q, s);
    var s1 := AddEvent(p.scope, Created(p), s).store;
    if p.gateway.simulation.SIMULATED? && TimedReceipt(p, s1).Some? {
      OtherEvent(p.scope, SimulationEvent(p.scope, p.gateway.planId, p.gateway, TimedReceipt(p, s1).value), q, s1);
    }
  }

  /** A plan without a simulation event ends up simulated exactly if its flag says so and it was evaluated. */
  lemma OwnProjection(p: PlanRow, s: Store)
    requires Valid(s) && FillPlan(p, s).Filled? && !Projects(p, s)
    ensures Projects(p, FillPlan(p, s).store) <==> p.gateway.simulation.SIMULATED? && TimedReceipt(p, s).Some?
  {
    hide Valid, AddEvent, Extends, TimedReceipt, SameReceipts;
    AddedEvent(p.scope, Created(p), s);
    FirstEvent(p, s);
    var s1 := AddEvent(p.scope, Created(p), s).store;
    var k := RowKey(p.scope, GatewayDecisionEvents, EventKey(p.gateway.planId, SimulationRecorded));
    assert k in s1.rows <==> k in s.rows;
    if p.gateway.simulation.SIMULATED? && TimedReceipt(p, s1).Some? {
      AddedEvent(p.scope, SimulationEvent(p.scope, p.gateway.planId, p.gateway, TimedReceipt(p, s1).value), s1);
    }
  }

  lemma {:induction false} LaterDisagreements(plans: seq<PlanRow>, s: Store, s': Store, n: nat)
    requires n <= |plans| && forall i :: 0 <= i < n ==> Projects(plans[i], s') == Projects(plans[i], s)
    ensures Disagreements(plans, s', n) == Disagreements(plans, s, n)
  {
    hide Projects;
    if n > 0 { LaterDisagreements(plans, s, s', n - 1); }
  }

  ghost predicate DistinctPlans(plans: seq<PlanRow>) {
    forall i, j :: 0 <= i < j < |plans| ==> !SamePlan(plans[i], plans[j])
  }

  /** After backfilling plans that had no simulation events, the plans whose event projection differs from
    * their legacy flag are exactly as many as the backfill reports as not evaluated. */
  lemma {:induction false} DisagreementsAreReported(plans: seq<PlanRow>, s: Store, n: nat)
    requires Valid(s) && DistinctPlans(plans) && (forall i :: 0 <= i < |plans| ==> !Projects(plans[i], s))
    requires n <= |plans| && FillPlans(plans, s, n).Filled?
    ensures
      var filled := FillPlans(plans, s, n);
      && Valid(filled.store)
      && (forall i :: n <= i < |plans| ==> !Projects(plans[i], filled.store))
      && Disagreements(plans, filled.store, n) == filled.counts.notEvaluated
  {
    hide Valid, FillPlan, Projects, SamePlan, PlanFilled;
    if n > 0 {
      DisagreementsAreReported(plans, s, n - 1);
      var s1, p := FillPlans(plans, s, n - 1).store, plans[n - 1];
      var s2 := FillPlan(p, s1).store;
      FilledPlan(p, s1);
      assert Valid(s2) by { FilledIsValid(p, s1); }
      OwnProjection(p, s1);
      forall i | 0 <= i < |plans| && i != n - 1 ensures Projects(plans[i], s2) == Projects(plans[i], s1) {
        assert !SamePlan(p, plans[i]) by { SamePlanIsSymmetric(p, plans[i]); }
        OtherProjections(p, plans[i], s1);
      }
      LaterDisagreements(plans, s1, s2, n - 1);
    }
  }

  lemma SamePlanIsSymmetric(p: PlanRow, q: PlanRow)
    ensures SamePlan(p, q) <==> SamePlan(q, p)
  {
  }

  lemma FilledIsValid(p: PlanRow, s: Store)
    requires Valid(s) && FillPlan(p, s).Filled?
    ensures Valid(FillPlan(p, s).store)
  {
    hide FillPlan, Valid;
    FilledPlan(p, s);
  }

  // ---------------------------------------------------------------- the backfill, as written

  lemma BackfillRefs(scope: Scope, planId: Id, kind: EventType)
    ensures WriteAllowed(Some(ContextOf(BackfillLocks(scope, planId))), GatewayDecisionEvents, EventKey(planId, kind))
  {
    var refs := BackfillLocks(scope, planId);
    assert refs[2] == ChainLock(scope, GatewayDecisionEvents);
    assert refs[3] == CanonicalLock(scope, GatewayDecisionEvents, EventKey(planId, GatewayDecisionCreated));
    assert refs[4] == CanonicalLock(scope, GatewayDecisionEvents, EventKey(planId, SimulationRecorded));
    assert refs[2] in refs && refs[3] in refs && refs[4] in refs;
  }

  /** One event inside the open transaction; its CHAIN and CANONICAL locks are declared. */
  method AppendEvent(engine: JsonEngine, scope: Scope, planId: Id, v: GatewayEvent) returns (r: Result)
    requires engine.Consistent() && engine.active != null && v.planId == planId
    requires engine.locks == Some(ContextOf(BackfillLocks(scope, planId)))
    modifies engine, engine.active
    ensures engine.active == old(engine.active) && engine.locks == old(engine.locks) && engine.file == old(engine.file)
    ensures match AddEvent(scope, v, old(engine.View()))
      case Filled(s, counts) => r.Stored? && engine.View() == s && counts == if r.created then Counts(1, 0, 0) else Counts(0, 1, 0)
      case Unfilled(e) => r == Failure(e)
  {
    hide AppendEffect, Overlay;
    BackfillRefs(scope, planId, v.kind);
    LocksOnlyRefuse(scope, engine.locks, GatewayDecisionEvents, EventKey(planId, v.kind), EventRecord(v), engine.View());
    r := engine.Append(scope, GatewayDecisionEvents, EventKey(planId, v.kind), EventRecord(v));
    AppendAnswers(scope, v, old(engine.View()));
  }

  lemma AppendAnswers(scope: Scope, v: GatewayEvent, s: Store)
    ensures
      var r := AppendEffect(Session(scope, None), GatewayDecisionEvents, EventKey(v.planId, v.kind), EventRecord(v), s).0;
      r.Stored? || r.Failure?
  {
  }

  method ReadReceipt(engine: JsonEngine, p: PlanRow) returns (r: Option<ShadowReceipt>)
    ensures r == TimedReceipt(p, engine.View())
  {
    var found := engine.Get(p.scope, ShadowExecutionReceipts, Name(p.gateway.planId));
    if !found.Found? || !found.row.payload.record.ReceiptRecord? || found.row.payload.record.receipt.simulatedAt == "" {
      return None;
    }
    r := Some(found.row.payload.record.receipt);
  }

  function OneEvent(created: bool): Counts {
    if created then Counts(1, 0, 0) else Counts(0, 1, 0)
  }

  /** What a plan flagged as simulated still needs once its CREATED event is stored. */
  ghost function FillSimulation(p: PlanRow, s: Store, counts: Counts): Filled {
    match TimedReceipt(p, s)
    case None => Filled(s, Sum(counts, Counts(0, 0, 1)))
    case Some(r) =>
      match AddEvent(p.scope, SimulationEvent(p.scope, p.gateway.planId, p.gateway, r), s)
      case Unfilled(e) => Unfilled(e)
      case Filled(s2, more) => Filled(s2, Sum(counts, more))
  }

  method SimulationPart(engine: JsonEngine, p: PlanRow, sofar: Counts) returns (counts: Counts, error: Option<Error>)
    requires engine.Consistent() && engine.active != null
    requires engine.locks == Some(ContextOf(BackfillLocks(p.scope, p.gateway.planId)))
    modifies engine, engine.active
    ensures engine.active == old(engine.active) && engine.locks == old(engine.locks) && engine.file == old(engine.file)
    ensures match FillSimulation(p, old(engine.View()), sofar)
      case Filled(s, c) => error.None? && counts == c && engine.View() == s
      case Unfilled(e) => error == Some(e)
  {
    hide AddEvent, TimedReceipt, BackfillLocks, ContextOf;
    counts, error := sofar, None;
    var receipt := ReadReceipt(engine, p);
    if receipt.None? { return Sum(counts, Counts(0, 0, 1)), None; }
    var v := SimulationEvent(p.scope, p.gateway.planId, p.gateway, receipt.value);
    var r := AppendEvent(engine, p.scope, p.gateway.planId, v);
    if r.Failure? { return counts, Some(r.error); }
    counts := Sum(counts, OneEvent(r.created));
  }

  /** The body of the transaction. */
  method PlanEvents(engine: JsonEngine, p: PlanRow) returns (counts: Counts, error: Option<Error>)
    requires engine.Consistent() && engine.active != null
    requires engine.locks == Some(ContextOf(BackfillLocks(p.scope, p.gateway.planId)))
    modifies engine, engine.active
    ensures engine.active == old(engine.active) && engine.locks == old(engine.locks) && engine.file == old(engine.file)
    ensures match FillPlan(p, old(engine.View()))
      case Filled(s, c) => error.None? && counts == c && engine.View() == s
      case Unfilled(e) => error == Some(e)
  {
    hide AddEvent, FillPlan, FillSimulation, BackfillLocks, ContextOf;
    FillInParts(p, engine.View());
    counts, error := NOTHING, None;
    var r := AppendEvent(engine, p.scope, p.gateway.planId, Created(p));
    if r.Failure? { return counts, Some(r.error); }
    counts := OneEvent(r.created);
    if p.gateway.simulation.SIMULATED? { counts, error := SimulationPart(engine, p, counts); }
  }

  lemma FillInParts(p: PlanRow, s: Store)
    ensures Created(p).planId == p.gateway.planId
    ensures FillPlan(p, s) ==
      match AddEvent(p.scope, Created(p), s)
      case Unfilled(e) => Unfilled(e)
      case Filled(s1, counts) => if p.gateway.simulation.SIMULATED? then FillSimulation(p, s1, counts) else Filled(s1, counts)
  {
    hide AddEvent, TimedReceipt;
  }

  /** _backfill_plan_events: the events of one plan in one transaction. */
  method BackfillPlanEvents(engine: JsonEngine, p: PlanRow) returns (counts: Counts, error: Option<Error>)
    requires engine.Consistent() && engine.active == null
    modifies engine
    ensures engine.Consistent() && engine.active == null
    ensures match FillPlan(p, old(engine.file))
      case Filled(s, c) => error.None? && counts == c && engine.file == s
      case Unfilled(e) => error == Some(e) && engine.file == old(engine.file)
  {
    hide FillPlan, BackfillLocks, ContextOf;
    engine.Enter(BackfillLocks(p.scope, p.gateway.planId));
    counts, error := PlanEvents(engine, p);
    engine.Leave(error.None?);
  }

  /** The backfill failed at plan n and had committed exactly the plans before it. */
  ghost predicate StoppedAt(plans: seq<PlanRow>, s: Store, n: nat, s': Store, e: Error)
    requires n < |plans|
  {
    && FillPlans(plans, s, n).Filled? && FillPlans(plans, s, n).store == s'
    && FillPlan(plans[n], s') == Unfilled(e)
  }

  /** backfill_gateway_decision_events over the listed rows; an error keeps the plans done before it. */
  method BackfillGatewayEvents(engine: JsonEngine, plans: seq<PlanRow>) returns (counts: Counts, error: Option<Error>)
    requires engine.Consistent() && engine.active == null
    modifies engine
    ensures engine.Consistent() && engine.active == null
    ensures match FillPlans(plans, old(engine.file), |plans|)
      case Filled(s, c) => error.None? && counts == c && engine.file == s
      case Unfilled(e) => error.Some?
    ensures error.Some? ==> exists n :: 0 <= n < |plans| && StoppedAt(plans, old(engine.file), n, engine.file, error.value)
  {
    hide FillPlan;
    counts, error := NOTHING, None;
    ghost var before := engine.file;
    for i := 0 to |plans|
      invariant engine.Consistent() && engine.active == null && error.None?
      invariant FillPlans(plans, before, i) == Filled(engine.file, counts)
    {
      var more, failed := BackfillPlanEvents(engine, plans[i]);
      if failed.Some? {
        UnfilledStays(plans, before, i + 1, |plans|);
        assert StoppedAt(plans, before, i, engine.file, failed.value);
        return counts, failed;
      }
      counts := Sum(counts, more);
    }
  }

  lemma {:induction false} UnfilledStays(plans: seq<PlanRow>, s: Store, i: nat, n: nat)
    requires i <= n <= |plans| && FillPlans(plans, s, i).Unfilled?
    ensures FillPlans(plans, s, n) == FillPlans(plans, s, i)
  {
    hide FillPlan;
    if i < n { UnfilledStays(plans, s, i, n - 1); }
  }
}
