/** When a migration or a backfill succeeds, and what it then counts (core_v3/scoped_ledger.py, grdi/migration.py). */
module MigrationAnswers {
  import opened Signing
  import opened Models
  import opened ScopedStore
  import opened StoreAnswers
  import opened Authority
  import opened Gateway
  import opened Outcomes
  import opened Replay
  import opened Comparison
  import opened ProtocolSteps
  import opened ProtocolRecords
  import opened ProtocolInvariant
  import opened ProtocolRuns
  import opened LegacyMigration
  import opened Backfill

  // ---------------------------------------------------------------- when rows can be moved

  /** Row i can be moved over s: it has a key, equals every earlier row with that key, and if it is the first one, then it
    * is stored already, with an exact scope entry, or has a record id to be stored under. */
  ghost predicate RowMoves(c: Collection, rows: seq<LegacyRow>, s: Store, i: nat)
    requires i < |rows|
  {
    && StoreKey(c, rows[i]).Some?
    && (forall j :: 0 <= j < i && StoreKey(c, rows[j]) == StoreKey(c, rows[i]) ==> rows[j] == rows[i])
    && ((forall j :: 0 <= j < i ==> StoreKey(c, rows[j]) != StoreKey(c, rows[i])) ==> FirstMoves(c, rows[i], s, StoreKey(c, rows[i]).value))
  }

  predicate FirstMoves(c: Collection, row: LegacyRow, s: Store, k: Key) {
    if k in s.rows
    then row.tenant == Some(k.group.scope.tenant) && row.project == Some(k.group.scope.project) && row.extra == ""
      && row.record == s.rows[k].payload.record
    else ExtractRecordId(c, row.record).Some?
  }

  lemma FirstMovesExactly(c: Collection, row: LegacyRow, p: Progress)
    requires ChainLinked(c) && Valid(p.store) && StoreKey(c, row).Some? && StoreKey(c, row).value !in p.seen
    ensures MoveRow(c, row, p).Moved? <==> FirstMoves(c, row, p.store, StoreKey(c, row).value)
  {
    hide Valid, LegacyKey, NextSequence, ChainPrev, ExtractRecordId, BuildRow;
    var k := StoreKey(c, row).value;
    ScopeOfKey(c, row);
    if k in p.store.rows { MutableRow(p.store, k); }
  }

  lemma SeenMoves(c: Collection, row: LegacyRow, p: Progress)
    requires StoreKey(c, row).Some? && StoreKey(c, row).value in p.seen
    ensures MoveRow(c, row, p).Moved? <==> p.seen[StoreKey(c, row).value] == row
  {
    hide LegacyKey, AppendEffect;
  }

  lemma KeylessRefused(c: Collection, row: LegacyRow, p: Progress)
    requires StoreKey(c, row).None?
    ensures !MoveRow(c, row, p).Moved?
  {
  }

  /** What is in the store for a key not yet seen is what was there before. */
  lemma UnseenStays(c: Collection, row: LegacyRow, s: Store, p: Progress, k: Key)
    requires HoldsSeen(s, p) && k !in p.seen
    ensures FirstMoves(c, row, p.store, k) <==> FirstMoves(c, row, s, k)
  {
    hide Valid, ExtractRecordId;
  }

  /** One more row. */
  lemma NextMoves(c: Collection, rows: seq<LegacyRow>, start: Progress, n: nat)
    requires ChainLinked(c) && Valid(start.store) && start.seen == map[] && n < |rows| && MoveRows(c, rows, start, n).Moved?
    ensures MoveRow(c, rows[n], MoveRows(c, rows, start, n).progress).Moved? <==> RowMoves(c, rows, start.store, n)
  {
    hide Valid, StoreKey, MoveRow, AppendsNew, SeenFirsts, HoldsSeen, FirstMoves, First, MoveRows;
    var p := MoveRows(c, rows, start, n).progress;
    MoveRowsExactly(c, rows, start, n);
    if StoreKey(c, rows[n]).None? {
      KeylessRefused(c, rows[n], p);
    } else {
      var k := StoreKey(c, rows[n]).value;
      SeenUnlessFirst(c, rows, p.seen, n);
      if k in p.seen {
        SeenMoves(c, rows[n], p);
        SeenRow(c, rows, p.seen, n);
        forall j | 0 <= j < n && StoreKey(c, rows[j]) == StoreKey(c, rows[n]) ensures p.seen[k] == rows[j] {
          AllRepeatFirsts(c, rows, start, n, j);
        }
      } else {
        FirstOfKey(c, rows, n);
        assert Valid(p.store) by { HeldIsValid(start.store, p); }
        FirstMovesExactly(c, rows[n], p);
        UnseenStays(c, rows[n], start.store, p, k);
      }
    }
  }

  lemma HeldIsValid(s: Store, p: Progress)
    requires HoldsSeen(s, p)
    ensures Valid(p.store)
  {
  }

  lemma FirstOfKey(c: Collection, rows: seq<LegacyRow>, n: nat)
    requires n < |rows|
    ensures First(c, rows, n) <==> forall j :: 0 <= j < n ==> StoreKey(c, rows[j]) != StoreKey(c, rows[n])
  {
    hide StoreKey;
  }

  lemma SeenRow(c: Collection, rows: seq<LegacyRow>, seen: map<Key, LegacyRow>, n: nat)
    requires n < |rows| && SeenFirsts(c, rows, seen, n) && StoreKey(c, rows[n]).Some? && StoreKey(c, rows[n]).value in seen
    ensures exists j :: 0 <= j < n && StoreKey(c, rows[j]) == StoreKey(c, rows[n])
  {
    hide StoreKey, First;
  }

  /** A collection's rows can all be moved exactly if each of them can, whatever is moved before it. */
  lemma {:induction false} RowsMoveExactly(c: Collection, rows: seq<LegacyRow>, start: Progress, n: nat)
    requires ChainLinked(c) && Valid(start.store) && start.seen == map[] && n <= |rows|
    ensures MoveRows(c, rows, start, n).Moved? <==> forall i :: 0 <= i < n ==> RowMoves(c, rows, start.store, i)
  {
    hide Valid, MoveRow, RowMoves;
    if n > 0 {
      RowsMoveExactly(c, rows, start, n - 1);
      if MoveRows(c, rows, start, n - 1).Moved? { NextMoves(c, rows, start, n - 1); }
    }
  }

  lemma SameMoves(c: Collection, rows: seq<LegacyRow>, s: Store, s': Store, i: nat)
    requires i < |rows|
    requires forall k: Key :: k.group.coll == c ==> (k in s.rows <==> k in s'.rows) && (k in s.rows ==> s'.rows[k] == s.rows[k])
    ensures RowMoves(c, rows, s, i) <==> RowMoves(c, rows, s', i)
  {
    hide LegacyKey, ExtractRecordId;
  }

  ghost predicate AllMove(order: seq<Collection>, book: LegacyBook, s: Store, n: nat)
    requires n <= |order|
  {
    forall m, i :: 0 <= m < n && 0 <= i < |RowsOf(book, order[m])| ==> RowMoves(order[m], RowsOf(book, order[m]), s, i)
  }

  /** A migration succeeds exactly if every row of every migrated collection can be moved over the ledger as it was, and
    * it reports as inserted exactly the rows that the ledger gained. */
  lemma {:induction false} MigrationSucceedsExactly(order: seq<Collection>, book: LegacyBook, s: Store, n: nat)
    requires Valid(s) && n <= |order| && LegacyMigration.NoRepeats(order) && (forall c :: c in order ==> ChainLinked(c))
    ensures MoveCollections(order, book, s, n).Moved? <==> AllMove(order, book, s, n)
    ensures MoveCollections(order, book, s, n).Moved? ==>
      |MoveCollections(order, book, s, n).progress.store.rows| == |s.rows| + MoveCollections(order, book, s, n).progress.inserted
  {
    hide Valid, MoveRows, RowMoves, RowsOf, Gains;
    if n > 0 {
      MigrationSucceedsExactly(order, book, s, n - 1);
      if MoveCollections(order, book, s, n - 1).Moved? {
        var c, q := order[n - 1], MoveCollections(order, book, s, n - 1).progress.(seen := map[]);
        var rows := RowsOf(book, c);
        MigrationExactly(order, book, s, n - 1);
        assert c !in order[..n - 1];
        RowsMoveExactly(c, rows, q, |rows|);
        forall i | 0 <= i < |rows| ensures RowMoves(c, rows, s, i) <==> RowMoves(c, rows, q.store, i) { SameMoves(c, rows, s, q.store, i); }
        if MoveRows(c, rows, q, |rows|).Moved? { InsertedAreNew(c, rows, q, |rows|); }
      }
    }
  }

  lemma InsertedIsNew(c: Collection, row: LegacyRow, p: Progress)
    requires ChainLinked(c) && Valid(p.store) && MoveRow(c, row, p).Moved?
    ensures
      var q := MoveRow(c, row, p).progress;
      |q.store.rows| - |p.store.rows| == q.inserted - p.inserted
  {
    hide Valid, LegacyKey, AppendEffect, Overlay, Matches;
    var k := StoreKey(c, row).value;
    if k !in p.seen && k !in p.store.rows { AppendedRow(Session(k.group.scope, None), c, k.ckey, row.record, p.store); }
  }

  lemma {:induction false} InsertedAreNew(c: Collection, rows: seq<LegacyRow>, start: Progress, n: nat)
    requires ChainLinked(c) && Valid(start.store) && start.seen == map[] && n <= |rows| && MoveRows(c, rows, start, n).Moved?
    ensures
      var p := MoveRows(c, rows, start, n).progress;
      |p.store.rows| - |start.store.rows| == p.inserted - start.inserted
  {
    hide Valid, MoveRow, HoldsSeen, AppendsNew, SeenFirsts;
    if n > 0 {
      var q := MoveRows(c, rows, start, n - 1).progress;
      InsertedAreNew(c, rows, start, n - 1);
      MoveRowsExactly(c, rows, start, n - 1);
      HeldIsValid(start.store, q);
      InsertedIsNew(c, rows[n - 1], q);
    }
  }

  /** A record of the live ledger has the same key when it is migrated. */
  lemma LiveKeysMigrate(signer: Option<Signer>, s: Store, k: Key)
    requires Governed(signer, s) && k in s.rows && k.group.coll in MIGRATABLE
    ensures LegacyKey(k.group.coll, s.rows[k].payload.record) == Some(k.ckey)
  {
    hide Valid, LegacyKey, Fits;
    MigratableCollections();
    FitsItsKey(signer, s, k.group.scope, k.group.coll, k.ckey, s.rows[k].payload.record);
  }

  lemma FitsItsKey(signer: Option<Signer>, s: Store, scope: Scope, c: Collection, key: CKey, record: Record)
    requires Fits(signer, s, scope, c, key, record) && c in MIGRATABLE
    ensures LegacyKey(c, record) == Some(key)
  {
    hide RequestAt, EnvelopeAt, AuthorityAt, GatewayAt, ReceiptAt, EventAt, Judge, Decide, Simulate, OutcomeOk, AssessmentsOk, ReportOk,
         ReportFitsStage, ComparisonOk, Compares;
  }

  // ---------------------------------------------------------------- when plans can be filled

  /** Nothing is stored under the event's key, or this very event is. */
  ghost predicate EventFree(s: Store, scope: Scope, v: GatewayEvent) {
    PayloadAt(s, scope, GatewayDecisionEvents, EventKey(v.planId, v.kind)).None? || HasEvent(s, scope, v)
  }

  /** A plan needs its simulation event: it is flagged as simulated and has a receipt with a time. */
  predicate NeedsSimulation(p: PlanRow, s: Store) {
    && p.gateway.simulation.SIMULATED? && ReceiptAt(s, p.scope, p.gateway.planId).Some?
    && ReceiptAt(s, p.scope, p.gateway.planId).value.simulatedAt != ""
  }

  /** The events that the live path would have left for the plan. */
  ghost predicate CanFill(p: PlanRow, s: Store) {
    && EventFree(s, p.scope, GatewayEvent(p.gateway.planId, p.gateway.gatewayDecisionId, GatewayDecisionCreated, p.gateway.decidedAt,
                                          p.scope.tenant, p.scope.project, p.gateway.gatewayDecisionId, ""))
    && (NeedsSimulation(p, s) ==>
          var r := ReceiptAt(s, p.scope, p.gateway.planId).value;
          EventFree(s, p.scope, GatewayEvent(p.gateway.planId, p.gateway.gatewayDecisionId, SimulationRecorded, r.simulatedAt,
                                             p.scope.tenant, p.scope.project, r.receiptId, r.receiptId)))
  }

  lemma AddsExactly(scope: Scope, v: GatewayEvent, s: Store)
    requires Valid(s)
    ensures AddEvent(scope, v, s).Filled? <==> EventFree(s, scope, v)
    ensures AddEvent(scope, v, s).Filled? ==>
      var filled := AddEvent(scope, v, s);
      && Valid(filled.store) && |filled.store.rows| == |s.rows| + filled.counts.created
      && filled.counts.created + filled.counts.skipped == 1
      && OnlyEvent(s, filled.store, scope, EventKey(v.planId, v.kind)) && SameReceipts(s, filled.store)
  {
    hide Valid, AddEvent, Extends, ReceiptAt;
    AddedEvent(scope, v, s);
    if AddEvent(scope, v, s).Filled? {
      var s1, k := AddEvent(scope, v, s).store, RowKey(scope, GatewayDecisionEvents, EventKey(v.planId, v.kind));
      if !HasEvent(s, scope, v) { assert s1.rows == s.rows[k := s1.rows[k]]; }
      OtherRecordsStay(s, s1, scope, EventKey(v.planId, v.kind));
    }
  }

  /** The stores agree on everything but the events of this plan. */
  ghost predicate OnlyPlan(p: PlanRow, s: Store, s': Store) {
    forall k: Key :: !(k.group == Group(p.scope, GatewayDecisionEvents) && k.ckey.EventKey? && k.ckey.planId == p.gateway.planId) ==>
      (k in s'.rows <==> k in s.rows) && (k in s.rows ==> s'.rows[k] == s.rows[k])
  }

  lemma OnlyItsEvents(p: PlanRow, s: Store, s1: Store, s2: Store, kind: EventType)
    requires OnlyPlan(p, s, s1) && OnlyEvent(s1, s2, p.scope, EventKey(p.gateway.planId, kind))
    ensures OnlyPlan(p, s, s2)
  {
  }

  lemma NothingElse(p: PlanRow, s: Store)
    ensures OnlyPlan(p, s, s)
  {
  }

  /** A plan is filled exactly if no other event is in the way; it then counts one event or two, and creates as many as
    * the ledger gains rows. */
  lemma PlanFillsExactly(p: PlanRow, s: Store)
    requires Valid(s)
    ensures FillPlan(p, s).Filled? <==> CanFill(p, s)
    ensures FillPlan(p, s).Filled? ==>
      var filled := FillPlan(p, s);
      && Valid(filled.store) && |filled.store.rows| == |s.rows| + filled.counts.created
      && filled.counts.created + filled.counts.skipped == (if NeedsSimulation(p, s) then 2 else 1)
      && OnlyPlan(p, s, filled.store) && SameReceipts(s, filled.store)
  {
    hide Valid, AddEvent, EventFree, HasEvent, SameReceipts, ReceiptAt, OnlyEvent, OnlyPlan, Extends;
    var v := Created(p);
    AddsExactly(p.scope, v, s);
    NothingElse(p, s);
    if AddEvent(p.scope, v, s).Filled? {
      var s1 := AddEvent(p.scope, v, s).store;
      OnlyItsEvents(p, s, s, s1, GatewayDecisionCreated);
      FirstEvent(p, s);
      if NeedsSimulation(p, s) {
        var w := SimulationEvent(p.scope, p.gateway.planId, p.gateway, ReceiptAt(s, p.scope, p.gateway.planId).value);
        AddsExactly(p.scope, w, s1);
        OtherEventFree(p.scope, v, w, s, s1);
        if AddEvent(p.scope, w, s1).Filled? {
          ReceiptsTransitive(s, s1, AddEvent(p.scope, w, s1).store);
          OnlyItsEvents(p, s, s1, AddEvent(p.scope, w, s1).store, SimulationRecorded);
        }
      }
    }
  }

  lemma OtherEventFree(scope: Scope, v: GatewayEvent, w: GatewayEvent, s: Store, s': Store)
    requires OnlyEvent(s, s', scope, EventKey(v.planId, v.kind)) && v.kind != w.kind
    ensures EventFree(s', scope, w) <==> EventFree(s, scope, w)
  {
    assert RowKey(scope, GatewayDecisionEvents, EventKey(w.planId, w.kind)) != RowKey(scope, GatewayDecisionEvents, EventKey(v.planId, v.kind));
  }

  lemma OtherPlanFills(p: PlanRow, q: PlanRow, s: Store, s': Store)
    requires OnlyPlan(p, s, s') && SameReceipts(s, s') && !SamePlan(p, q)
    ensures CanFill(q, s') <==> CanFill(q, s)
    ensures NeedsSimulation(q, s') <==> NeedsSimulation(q, s)
  {
    hide ReceiptAt;
    forall kind: EventType ensures PayloadAt(s', q.scope, GatewayDecisionEvents, EventKey(q.gateway.planId, kind))
                                == PayloadAt(s, q.scope, GatewayDecisionEvents, EventKey(q.gateway.planId, kind)) {
      var k := RowKey(q.scope, GatewayDecisionEvents, EventKey(q.gateway.planId, kind));
      assert k in s'.rows <==> k in s.rows;
    }
  }

  function EventsNeeded(plans: seq<PlanRow>, s: Store, n: nat): nat
    requires n <= |plans|
  {
    if n == 0 then 0 else EventsNeeded(plans, s, n - 1) + if NeedsSimulation(plans[n - 1], s) then 2 else 1
  }

  /** A backfill of distinct plans succeeds exactly if none of them has another event in the way. It reports as created
    * exactly the rows that the ledger gained, and created and skipped together are the events that the plans need. */
  lemma {:induction false} BackfillSucceedsExactly(plans: seq<PlanRow>, s: Store, n: nat)
    requires Valid(s) && n <= |plans| && DistinctPlans(plans)
    ensures FillPlans(plans, s, n).Filled? <==> forall i :: 0 <= i < n ==> CanFill(plans[i], s)
    ensures FillPlans(plans, s, n).Filled? ==>
      var filled := FillPlans(plans, s, n);
      && Valid(filled.store) && |filled.store.rows| == |s.rows| + filled.counts.created
      && filled.counts.created + filled.counts.skipped == EventsNeeded(plans, s, n)
      && (forall i :: n <= i < |plans| ==> (CanFill(plans[i], filled.store) <==> CanFill(plans[i], s))
                                           && (NeedsSimulation(plans[i], filled.store) <==> NeedsSimulation(plans[i], s)))
  {
    hide Valid, FillPlan, CanFill, NeedsSimulation, SamePlan, OnlyPlan, SameReceipts;
    if n > 0 {
      BackfillSucceedsExactly(plans, s, n - 1);
      if FillPlans(plans, s, n - 1).Filled? {
        var s1, p := FillPlans(plans, s, n - 1).store, plans[n - 1];
        PlanFillsExactly(p, s1);
        if FillPlan(p, s1).Filled? {
          var s2 := FillPlan(p, s1).store;
          forall i | n <= i < |plans|
            ensures (CanFill(plans[i], s2) <==> CanFill(plans[i], s)) && (NeedsSimulation(plans[i], s2) <==> NeedsSimulation(plans[i], s))
          {
            assert !SamePlan(p, plans[i]);
            OtherPlanFills(p, plans[i], s1, s2);
          }
        }
      }
    }
  }
}
