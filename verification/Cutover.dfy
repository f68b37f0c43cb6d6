/** The cutover (grdi/migration.py): legacy rows are migrated, then the events of the listed plans are
  * backfilled.  Afterwards the event projection of a plan differs from its legacy flag exactly where the
  * backfill says so, apart from what listings of 1000 rows cut off. */
module Cutover {
  import opened Signing
  import opened Models
  import opened ScopedStore
  import opened ChainVerifier
  import opened ScopedEngine
  import opened LockOrder
  import opened ProtocolSteps
  import opened ProtocolRecords
  import opened ProtocolInvariant
  import opened ProtocolRuns
  import opened Backfill
  import M = LegacyMigration

  // ---------------------------------------------------------------- admin_list_scoped

  /** The gateway rows of every scope that the filter selects. */
  function GatewayRows(s: Store, f: Filter): map<Key, Row> {
    map k | k in s.rows && k.group.coll.GatewayDecisions? && Selects(f.(coll := None), k.group) :: s.rows[k]
  }

  predicate ScopeBefore(a: Scope, b: Scope) {
    StringBefore(a.tenant, b.tenant) || (a.tenant == b.tenant && StringBefore(a.project, b.project))
  }

  /** The sort key (tenant, project, sequence); the record id that breaks ties is never consulted in a valid store. */
  predicate ListedBefore(m: map<Key, Row>, a: Key, b: Key)
    requires a in m && b in m
  {
    ScopeBefore(a.group.scope, b.group.scope) || (a.group.scope == b.group.scope && m[a].sequence <= m[b].sequence)
  }

  ghost predicate AdminListing(m: map<Key, Row>, keys: seq<Key>) {
    && Lists(m, keys)
    && forall i, j :: 0 <= i < j < |keys| ==> ListedBefore(m, keys[i], keys[j])
  }

  lemma ListedOrder(m: map<Key, Row>, a: Key, b: Key, c: Key)
    requires a in m && b in m && c in m
    ensures ListedBefore(m, a, b) || ListedBefore(m, b, a)
    ensures ListedBefore(m, a, b) && ListedBefore(m, b, c) ==> ListedBefore(m, a, c)
  {
    StringOrderIsTotal();
  }

  /** Insert a key into the sorted list. */
  method InsertKey(m: map<Key, Row>, keys: seq<Key>, k: Key) returns (r: seq<Key>)
    requires k in m && k !in keys && (forall j :: j in keys ==> j in m) && ChainVerifier.NoRepeats(keys)
    requires forall i, j :: 0 <= i < j < |keys| ==> ListedBefore(m, keys[i], keys[j])
    ensures ChainVerifier.NoRepeats(r) && forall j :: j in r <==> j == k || j in keys
    ensures forall i, j :: 0 <= i < j < |r| ==> ListedBefore(m, r[i], r[j])
  {
    hide ListedBefore;
    var at := 0;
    while at < |keys| && ListedBefore(m, keys[at], k)
      invariant 0 <= at <= |keys|
      invariant forall i :: 0 <= i < at ==> ListedBefore(m, keys[i], k)
    {
      at := at + 1;
    }
    if at < |keys| { ListedOrder(m, k, keys[at], keys[at]); }
    forall i | at <= i < |keys| ensures ListedBefore(m, k, keys[i]) {
      ListedOrder(m, k, keys[at], keys[i]);
    }
    r := keys[..at] + [k] + keys[at..];
    InsertedMembers(keys, k, at);
    InsertedOrder(m, keys, k, at);
  }

  lemma InsertedMembers(keys: seq<Key>, k: Key, at: nat)
    requires at <= |keys| && k !in keys && ChainVerifier.NoRepeats(keys)
    ensures
      var r := keys[..at] + [k] + keys[at..];
      ChainVerifier.NoRepeats(r) && forall j :: j in r <==> j == k || j in keys
  {
    var r := keys[..at] + [k] + keys[at..];
    assert keys == keys[..at] + keys[at..];
    forall i, j | 0 <= i < j < |r| ensures r[i] != r[j] {
      assert r[i] == if i < at then keys[i] else if i == at then k else keys[i - 1];
      assert r[j] == if j < at then keys[j] else if j == at then k else keys[j - 1];
    }
  }

  lemma InsertedOrder(m: map<Key, Row>, keys: seq<Key>, k: Key, at: nat)
    requires at <= |keys| && k in m && forall j :: j in keys ==> j in m
    requires forall i, j :: 0 <= i < j < |keys| ==> ListedBefore(m, keys[i], keys[j])
    requires (forall i :: 0 <= i < at ==> ListedBefore(m, keys[i], k)) && forall i :: at <= i < |keys| ==> ListedBefore(m, k, keys[i])
    ensures
      var r := keys[..at] + [k] + keys[at..];
      (forall j :: j in r ==> j in m) && forall i, j :: 0 <= i < j < |r| ==> ListedBefore(m, r[i], r[j])
  {
    hide ListedBefore;
    var r := keys[..at] + [k] + keys[at..];
    forall j | j in r ensures j in m {}
    forall i, j | 0 <= i < j < |r| ensures ListedBefore(m, r[i], r[j]) {
      assert r[i] == if i < at then keys[i] else if i == at then k else keys[i - 1];
      assert r[j] == if j < at then keys[j] else if j == at then k else keys[j - 1];
    }
  }

  /** All selected rows, sorted. */
  method AdminList(m: map<Key, Row>) returns (keys: seq<Key>)
    ensures AdminListing(m, keys)
  {
    hide ListedBefore;
    keys := [];
    var todo := m.Keys;
    while todo != {}
      invariant todo <= m.Keys && ChainVerifier.NoRepeats(keys)
      invariant (forall k :: k in keys ==> k in m) && (forall k :: k in keys <==> k in m.Keys - todo)
      invariant forall i, j :: 0 <= i < j < |keys| ==> ListedBefore(m, keys[i], keys[j])
    {
      var k :| k in todo;
      keys := InsertKey(m, keys, k);
      todo := todo - {k};
    }
  }

  // ---------------------------------------------------------------- the listed plans

  predicate IsPlan(s: Store, k: Key) {
    k in s.rows && s.rows[k].payload.record.GatewayRecord?
  }

  function PlanAt(s: Store, k: Key): PlanRow
    requires IsPlan(s, k)
  {
    PlanRow(k.group.scope, s.rows[k].payload.record.gateway)
  }

  /** The plans among the keys; a row that is no gateway decision is none. */
  function PlansAt(s: Store, keys: seq<Key>): seq<PlanRow> {
    if keys == [] then [] else PlansAt(s, keys[..|keys| - 1]) + (if IsPlan(s, keys[|keys| - 1]) then [PlanAt(s, keys[|keys| - 1])] else [])
  }

  ghost predicate AllPlans(s: Store, keys: seq<Key>) {
    forall i :: 0 <= i < |keys| ==> IsPlan(s, keys[i])
  }

  lemma {:induction false} PlansOfAll(s: Store, keys: seq<Key>)
    requires AllPlans(s, keys)
    ensures |PlansAt(s, keys)| == |keys| && forall i :: 0 <= i < |keys| ==> PlansAt(s, keys)[i] == PlanAt(s, keys[i])
    decreases |keys|
  {
    if keys != [] { PlansOfAll(s, keys[..|keys| - 1]); }
  }

  lemma {:induction false} PlansConcatenate(s: Store, a: seq<Key>, b: seq<Key>)
    ensures PlansAt(s, a + b) == PlansAt(s, a) + PlansAt(s, b)
    decreases |b|
  {
    if b == [] {
      assert a + b == a;
    } else {
      PlansConcatenate(s, a, b[..|b| - 1]);
      assert (a + b)[..|a + b| - 1] == a + b[..|b| - 1] && (a + b)[|a + b| - 1] == b[|b| - 1];
    }
  }

  // ---------------------------------------------------------------- backfill_gateway_decision_events

  /** The backfill of the first 1000 listed rows, with the verification at its end. */
  ghost function FillListed(s: Store, f: Filter, keys: seq<Key>): Filled {
    var listed := Page(keys, MAX_LIST_LIMIT, 0);
    var plans := PlansAt(s, listed);
    if !AllPlans(s, listed) then Unfilled(KeyError)
    else
      match FillPlans(plans, s, |plans|)
      case Unfilled(e) => Unfilled(e)
      case Filled(s', counts) => if Intact(s', f) then Filled(s', counts) else Unfilled(LedgerIntegrityError)
  }

  /** The backfill ended with an error at listed row n, or verifying after the last one: exactly the plans
    * before it are filled, and the error is that of its conversion, its transaction or the verification. */
  ghost predicate StoppedListed(s: Store, f: Filter, listed: seq<Key>, n: nat, s': Store, e: Error)
    requires n <= |listed|
  {
    var plans := PlansAt(s, listed[..n]);
    && AllPlans(s, listed[..n]) && FillPlans(plans, s, |plans|).Filled? && FillPlans(plans, s, |plans|).store == s'
    && if n == |listed| then e == LedgerIntegrityError && !Intact(s', f)
       else if !IsPlan(s, listed[n]) then e == KeyError
       else FillPlan(PlanAt(s, listed[n]), s') == Unfilled(e)
  }

  /** The loop converts each listed row in turn; a row that cannot be converted ends it with an error. */
  method ConvertListed(s: Store, listed: seq<Key>) returns (plans: seq<PlanRow>, count: nat)
    ensures count <= |listed| && AllPlans(s, listed[..count]) && plans == PlansAt(s, listed[..count])
    ensures count < |listed| ==> !IsPlan(s, listed[count])
  {
    plans, count := [], 0;
    while count < |listed|
      invariant count <= |listed| && plans == PlansAt(s, listed[..count])
      invariant forall j :: 0 <= j < count ==> IsPlan(s, listed[j])
    {
      assert listed[..count + 1][..count] == listed[..count];
      if listed[count] !in s.rows || !s.rows[listed[count]].payload.record.GatewayRecord? { return; }
      plans := plans + [PlanAt(s, listed[count])];
      count := count + 1;
    }
  }

  /** What stopped the loop over the converted plans stopped it at the same listed row. */
  lemma StoppedAtRow(s: Store, f: Filter, listed: seq<Key>, count: nat, n: nat, s': Store, e: Error)
    requires count <= |listed| && AllPlans(s, listed[..count]) && n < |PlansAt(s, listed[..count])|
    requires StoppedAt(PlansAt(s, listed[..count]), s, n, s', e)
    ensures n < count && StoppedListed(s, f, listed, n, s', e)
  {
    hide FillPlan, FillPlans;
    PlansOfAll(s, listed[..count]);
    PlansOfAll(s, listed[..n]);
    assert listed[..count] == listed[..n] + listed[n..count];
    PlansConcatenate(s, listed[..n], listed[n..count]);
    FillPrefix(PlansAt(s, listed[..n]), PlansAt(s, listed[n..count]), s, n);
  }

  method BackfillListed(engine: JsonEngine, f: Filter) returns (counts: Counts, error: Option<Error>, ghost keys: seq<Key>)
    requires engine.Consistent() && engine.active == null
    modifies engine
    ensures engine.Consistent() && engine.active == null
    ensures AdminListing(GatewayRows(old(engine.file), f), keys)
    ensures match FillListed(old(engine.file), f, keys)
      case Filled(s, c) => error.None? && counts == c && engine.file == s
      case Unfilled(_) => error.Some?
    ensures error.Some? ==>
      var listed := Page(keys, MAX_LIST_LIMIT, 0);
      exists n :: 0 <= n <= |listed| && StoppedListed(old(engine.file), f, listed, n, engine.file, error.value)
  {
    hide FillPlans, FillPlan, AdminListing, PlansAt, Intact, AllPlans, StoppedAt, StoppedListed;
    var s := engine.file;
    var sorted := AdminList(GatewayRows(s, f));
    keys := sorted;
    var listed := Page(sorted, MAX_LIST_LIMIT, 0);
    var plans, count := ConvertListed(s, listed);
    counts, error := BackfillGatewayEvents(engine, plans);
    if error.Some? {
      ghost var n :| 0 <= n < |plans| && StoppedAt(plans, s, n, engine.file, error.value);
      StoppedAtRow(s, f, listed, count, n, engine.file, error.value);
      FailedRow(s, f, sorted, count);
      return;
    }
    if count < |listed| {
      NotAllPlans(s, listed, count);
      error := Some(KeyError);
      assert StoppedListed(s, f, listed, count, engine.file, KeyError) by { StoppedBetween(s, f, listed, count, engine.file); }
      return;
    }
    assert listed[..count] == listed;
    var ok, _ := VerifyState(engine.file, f);
    if !ok {
      error := Some(LedgerIntegrityError);
      assert StoppedListed(s, f, listed, count, engine.file, LedgerIntegrityError) by { StoppedBetween(s, f, listed, count, engine.file); }
    }
  }

  lemma NotAllPlans(s: Store, listed: seq<Key>, count: nat)
    requires count < |listed| && !IsPlan(s, listed[count])
    ensures !AllPlans(s, listed)
  {
  }

  /** A conversion or verification error after the first count rows were filled. */
  lemma StoppedBetween(s: Store, f: Filter, listed: seq<Key>, count: nat, s': Store)
    requires count <= |listed| && AllPlans(s, listed[..count])
    requires
      var plans := PlansAt(s, listed[..count]);
      FillPlans(plans, s, |plans|).Filled? && FillPlans(plans, s, |plans|).store == s'
    ensures count < |listed| && !IsPlan(s, listed[count]) ==> StoppedListed(s, f, listed, count, s', KeyError)
    ensures count == |listed| && !Intact(s', f) ==> StoppedListed(s, f, listed, count, s', LedgerIntegrityError)
  {
    hide FillPlan, FillPlans, Intact;
  }

  /** If the first plans do not all fill, neither do all that are listed. */
  lemma FailedRow(s: Store, f: Filter, keys: seq<Key>, count: nat)
    requires
      var listed := Page(keys, MAX_LIST_LIMIT, 0);
      && count <= |listed| && AllPlans(s, listed[..count])
      && var plans := PlansAt(s, listed[..count]);
         FillPlans(plans, s, |plans|).Unfilled?
    ensures FillListed(s, f, keys).Unfilled?
  {
    hide FillPlan, FillPlans, Intact;
    var listed := Page(keys, MAX_LIST_LIMIT, 0);
    var plans := PlansAt(s, listed[..count]);
    assert listed[..count] + listed[count..] == listed;
    PlansConcatenate(s, listed[..count], listed[count..]);
    FillPrefix(plans, PlansAt(s, listed[count..]), s, |plans|);
    UnfilledStays(PlansAt(s, listed), s, |plans|, |PlansAt(s, listed)|);
  }

  datatype CutoverReport = CutoverReport(migrated: M.Report, events: Counts)

  /** cutover_grdi_scoped_ledger. */
  method RunCutover(engine: JsonEngine, book: M.LegacyBook) returns (report: CutoverReport, error: Option<Error>, ghost keys: seq<Key>)
    requires engine.Consistent() && engine.active == null
    modifies engine
    ensures engine.Consistent() && engine.active == null
    ensures match M.MoveCollections(M.MIGRATABLE, book, old(engine.file), |M.MIGRATABLE|)
      case Refused(e) => error == Some(e) && engine.file == old(engine.file)
      case Moved(p) =>
        && AdminListing(GatewayRows(p.store, EVERYTHING), keys)
        && match FillListed(p.store, EVERYTHING, keys)
           case Filled(s, c) => error.None? && report == CutoverReport(M.Report(p.inserted, p.skipped), c) && engine.file == s
           case Unfilled(_) =>
             && error.Some?
             && var listed := Page(keys, MAX_LIST_LIMIT, 0);
                exists n :: 0 <= n <= |listed| && StoppedListed(p.store, EVERYTHING, listed, n, engine.file, error.value)
  {
    hide AdminListing, FillListed, StoppedListed;
    keys := [];
    report := CutoverReport(M.Report(0, 0), NOTHING);
    var migrated := M.MigrateLegacyJson(engine, book);
    if migrated.Failed? { return report, Some(migrated.error), keys; }
    var counts;
    counts, error, keys := BackfillListed(engine, EVERYTHING);
    report := CutoverReport(migrated, counts);
  }

  const EVERYTHING := Filter(None, None, None)

  // ---------------------------------------------------------------- freshly migrated rows

  /** The store has no gateway decisions and no gateway events yet. */
  ghost predicate NoGateway(s: Store) {
    forall k :: k in s.rows ==> !k.group.coll.GatewayDecisions? && !k.group.coll.GatewayDecisionEvents?
  }

  ghost predicate NoEvents(s: Store) {
    forall k :: k in s.rows ==> !k.group.coll.GatewayDecisionEvents?
  }

  /** Gateway decisions are stored under their plans. */
  ghost predicate KeyedByPlan(s: Store) {
    forall k: Key :: k.group.coll.GatewayDecisions? && IsPlan(s, k) ==> k.ckey == Name(s.rows[k].payload.record.gateway.planId)
  }

  lemma MigratedGateways(book: M.LegacyBook, s: Store)
    requires Valid(s) && NoGateway(s) && M.MoveCollections(M.MIGRATABLE, book, s, |M.MIGRATABLE|).Moved?
    ensures
      var s1 := M.MoveCollections(M.MIGRATABLE, book, s, |M.MIGRATABLE|).progress.store;
      Valid(s1) && NoEvents(s1) && KeyedByPlan(s1)
  {
    hide Valid, M.MoveCollections, M.Gains, M.AllFirstsExact, M.RowCount;
    M.BookMigratesExactly(book, s);
    M.MigratableCollections();
    M.MigratedKeys(M.MIGRATABLE, book, s, |M.MIGRATABLE|);
    assert GatewayDecisionEvents !in M.MIGRATABLE;
  }

  lemma DifferentPlans(s: Store, f: Filter, keys: seq<Key>)
    requires KeyedByPlan(s) && Lists(GatewayRows(s, f), keys)
    ensures DistinctPlans(PlansAt(s, keys))
  {
    hide KeyedByPlan;
    assert forall i :: 0 <= i < |keys| ==> keys[i] in keys;
    PlansDiffer(s, keys);
  }

  /** Every listed plan comes from one of the keys. */
  lemma {:induction false} PlanHasKey(s: Store, keys: seq<Key>, p: PlanRow)
    ensures p in PlansAt(s, keys) <==> exists i :: 0 <= i < |keys| && IsPlan(s, keys[i]) && PlanAt(s, keys[i]) == p
    decreases |keys|
  {
    if keys != [] {
      var n := |keys| - 1;
      PlanHasKey(s, keys[..n], p);
      if i :| 0 <= i < |keys| && IsPlan(s, keys[i]) && PlanAt(s, keys[i]) == p { assert i < n ==> keys[..n][i] == keys[i]; }
      if i :| 0 <= i < n && IsPlan(s, keys[..n][i]) && PlanAt(s, keys[..n][i]) == p { assert keys[..n][i] == keys[i]; }
    }
  }

  lemma {:induction false} PlansDiffer(s: Store, keys: seq<Key>)
    requires KeyedByPlan(s) && ChainVerifier.NoRepeats(keys) && forall i :: 0 <= i < |keys| ==> keys[i].group.coll.GatewayDecisions?
    ensures DistinctPlans(PlansAt(s, keys))
    decreases |keys|
  {
    if keys != [] {
      var n := |keys| - 1;
      var before := PlansAt(s, keys[..n]);
      PlansDiffer(s, keys[..n]);
      if IsPlan(s, keys[n]) {
        forall j | 0 <= j < |before| ensures !SamePlan(before[j], PlanAt(s, keys[n])) {
          PlanHasKey(s, keys[..n], before[j]);
          var i :| 0 <= i < n && IsPlan(s, keys[..n][i]) && PlanAt(s, keys[..n][i]) == before[j];
          assert keys[..n][i] == keys[i] != keys[n];
        }
      }
    }
  }

  // ---------------------------------------------------------------- events under their keys

  ghost predicate EventsKeyed(s: Store) {
    forall k :: k in s.rows && k.group.coll.GatewayDecisionEvents? ==>
      && s.rows[k].payload.record.EventRecord?
      && k.ckey == EventKey(s.rows[k].payload.record.event.planId, s.rows[k].payload.record.event.kind)
  }

  lemma EventAdded(scope: Scope, v: GatewayEvent, s: Store)
    requires Valid(s) && EventsKeyed(s) && AddEvent(scope, v, s).Filled?
    ensures Valid(AddEvent(scope, v, s).store) && EventsKeyed(AddEvent(scope, v, s).store)
  {
    hide Valid, AddEvent, Extends;
    AddedEvent(scope, v, s);
    var s', key := AddEvent(scope, v, s).store, RowKey(scope, GatewayDecisionEvents, EventKey(v.planId, v.kind));
    forall k | k in s'.rows && k.group.coll.GatewayDecisionEvents?
      ensures s'.rows[k].payload.record.EventRecord?
      ensures k.ckey == EventKey(s'.rows[k].payload.record.event.planId, s'.rows[k].payload.record.event.kind)
    {
      if k != key { assert k in s.rows && s'.rows[k] == s.rows[k]; }
    }
  }

  lemma PlanFilledKeyed(p: PlanRow, s: Store)
    requires Valid(s) && EventsKeyed(s) && FillPlan(p, s).Filled?
    ensures Valid(FillPlan(p, s).store) && EventsKeyed(FillPlan(p, s).store)
  {
    hide Valid, AddEvent, EventsKeyed, TimedReceipt;
    EventAdded(p.scope, Created(p), s);
    var s1 := AddEvent(p.scope, Created(p), s).store;
    if p.gateway.simulation.SIMULATED? && TimedReceipt(p, s1).Some? {
      EventAdded(p.scope, SimulationEvent(p.scope, p.gateway.planId, p.gateway, TimedReceipt(p, s1).value), s1);
    }
  }

  lemma {:induction false} PlansFilledKeyed(plans: seq<PlanRow>, s: Store, n: nat)
    requires Valid(s) && EventsKeyed(s) && n <= |plans| && FillPlans(plans, s, n).Filled?
    ensures Valid(FillPlans(plans, s, n).store) && EventsKeyed(FillPlans(plans, s, n).store)
  {
    hide Valid, FillPlan, EventsKeyed;
    if n > 0 {
      PlansFilledKeyed(plans, s, n - 1);
      PlanFilledKeyed(plans[n - 1], FillPlans(plans, s, n - 1).store);
    }
  }

  lemma {:induction false} FillPrefix(plans: seq<PlanRow>, more: seq<PlanRow>, s: Store, n: nat)
    requires n <= |plans|
    ensures FillPlans(plans + more, s, n) == FillPlans(plans, s, n)
  {
    hide FillPlan;
    if n > 0 { FillPrefix(plans, more, s, n - 1); }
  }

  // ---------------------------------------------------------------- the projection that readers see

  ghost function Events(s: Store, scope: Scope): seq<Row> {
    Listing(GroupRows(s, Group(scope, GatewayDecisionEvents)))
  }

  /** The plan projects to SIMULATED from the first 1000 events of its scope. */
  ghost predicate ShownSimulated(p: PlanRow, s: Store) {
    ProjectsSimulated(Page(Events(s, p.scope), MAX_LIST_LIMIT, 0), p.gateway.planId)
  }

  /** The plan's simulation event is stored, but not among the first 1000 of its scope. */
  ghost predicate Hidden(p: PlanRow, s: Store) {
    Projects(p, s) && !ShownSimulated(p, s)
  }

  lemma ListedEvent(s: Store, scope: Scope, row: Row)
    requires row in Events(s, scope)
    ensures exists k :: k in s.rows && k.group == Group(scope, GatewayDecisionEvents) && s.rows[k] == row
  {
    var m := GroupRows(s, Group(scope, GatewayDecisionEvents));
    SortedKeysMembers(m);
    var i :| 0 <= i < |Events(s, scope)| && Events(s, scope)[i] == row;
    assert SortedKeys(m)[i] in SortedKeys(m);
  }

  lemma EventIsListed(s: Store, scope: Scope, k: Key)
    requires k in s.rows && k.group == Group(scope, GatewayDecisionEvents)
    ensures s.rows[k] in Events(s, scope)
  {
    var m := GroupRows(s, Group(scope, GatewayDecisionEvents));
    SortedKeysMembers(m);
    assert k in SortedKeys(m);
    var i :| 0 <= i < |SortedKeys(m)| && SortedKeys(m)[i] == k;
    assert Events(s, scope)[i] == m[k];
  }

  /** What readers see is stored; and all that is stored is seen when the scope has at most 1000 events. */
  lemma ShownIsStored(p: PlanRow, s: Store)
    requires EventsKeyed(s)
    ensures ShownSimulated(p, s) ==> Projects(p, s)
    ensures |Events(s, p.scope)| <= MAX_LIST_LIMIT ==> !Hidden(p, s)
  {
    hide Listing;
    var events := Events(s, p.scope);
    var k := RowKey(p.scope, GatewayDecisionEvents, EventKey(p.gateway.planId, SimulationRecorded));
    if ShownSimulated(p, s) {
      var row :| row in Page(events, MAX_LIST_LIMIT, 0) && row.payload.record.EventRecord? &&
        row.payload.record.event.planId == p.gateway.planId && row.payload.record.event.kind.SimulationRecorded?;
      assert row in events;
      ListedEvent(s, p.scope, row);
    }
    if |events| <= MAX_LIST_LIMIT && Projects(p, s) {
      assert Page(events, MAX_LIST_LIMIT, 0) == events;
      EventIsListed(s, p.scope, k);
    }
  }

  // ---------------------------------------------------------------- counting

  ghost function Count(plans: seq<PlanRow>, test: PlanRow -> bool): nat {
    if plans == [] then 0 else Count(plans[..|plans| - 1], test) + if test(plans[|plans| - 1]) then 1 else 0
  }

  /** The plans whose projection, as readers see it, differs from the legacy flag. */
  ghost function Differing(plans: seq<PlanRow>, s: Store): nat {
    Count(plans, p => ShownSimulated(p, s) != p.gateway.simulation.SIMULATED?)
  }

  ghost function HiddenCount(plans: seq<PlanRow>, s: Store): nat {
    Count(plans, p => Hidden(p, s))
  }

  function FlaggedCount(plans: seq<PlanRow>): nat {
    if plans == [] then 0 else FlaggedCount(plans[..|plans| - 1]) + if plans[|plans| - 1].gateway.simulation.SIMULATED? then 1 else 0
  }

  /** Among plans without an event for an unflagged simulation, readers see the stored disagreements and the
    * hidden events. */
  lemma {:induction false} DifferingSplits(plans: seq<PlanRow>, s: Store, n: nat)
    requires EventsKeyed(s) && n <= |plans|
    requires forall i :: 0 <= i < n && Projects(plans[i], s) ==> plans[i].gateway.simulation.SIMULATED?
    ensures Differing(plans[..n], s) == Disagreements(plans, s, n) + HiddenCount(plans[..n], s)
  {
    hide Projects, ShownSimulated;
    if n > 0 {
      DifferingSplits(plans, s, n - 1);
      assert plans[..n][..n - 1] == plans[..n - 1];
      ShownIsStored(plans[n - 1], s);
    }
  }

  /** Plans without a stored simulation event differ exactly if they are flagged. */
  lemma {:induction false} UnfilledDiffer(plans: seq<PlanRow>, s: Store)
    requires EventsKeyed(s) && forall i :: 0 <= i < |plans| ==> !Projects(plans[i], s)
    ensures Differing(plans, s) == FlaggedCount(plans) && HiddenCount(plans, s) == 0
    decreases |plans|
  {
    hide Projects, ShownSimulated;
    if plans != [] {
      UnfilledDiffer(plans[..|plans| - 1], s);
      ShownIsStored(plans[|plans| - 1], s);
    }
  }

  lemma {:induction false} CountConcatenates(a: seq<PlanRow>, b: seq<PlanRow>, test: PlanRow -> bool)
    ensures Count(a + b, test) == Count(a, test) + Count(b, test)
    decreases |b|
  {
    if b == [] {
      assert a + b == a;
    } else {
      CountConcatenates(a, b[..|b| - 1], test);
      assert (a + b)[..|a + b| - 1] == a + b[..|b| - 1];
    }
  }

  lemma {:induction false} NoneHidden(plans: seq<PlanRow>, s: Store)
    requires EventsKeyed(s) && forall i :: 0 <= i < |plans| ==> |Events(s, plans[i].scope)| <= MAX_LIST_LIMIT
    ensures HiddenCount(plans, s) == 0
    decreases |plans|
  {
    hide Events, Hidden;
    if plans != [] {
      NoneHidden(plans[..|plans| - 1], s);
      ShownIsStored(plans[|plans| - 1], s);
    }
  }

  // ---------------------------------------------------------------- filling never adds an unflagged simulation

  lemma {:induction false} OnlyFlaggedProject(plans: seq<PlanRow>, s: Store, n: nat, i: nat)
    requires Valid(s) && DistinctPlans(plans) && n <= |plans| && i < |plans| && FillPlans(plans, s, n).Filled?
    requires !Projects(plans[i], s)
    ensures Projects(plans[i], FillPlans(plans, s, n).store) ==> i < n && plans[i].gateway.simulation.SIMULATED?
  {
    hide Valid, FillPlan, Projects, SamePlan, PlanFilled, Extends, SameReceipts, Complete, TimedReceipt;
    if n > 0 {
      OnlyFlaggedProject(plans, s, n - 1, i);
      FilledPlans(plans, s, n - 1);
      var s1 := FillPlans(plans, s, n - 1).store;
      if i == n - 1 {
        if !Projects(plans[i], s1) { OwnProjection(plans[i], s1); }
      } else {
        assert !SamePlan(plans[n - 1], plans[i]) by { SamePlanIsSymmetric(plans[n - 1], plans[i]); }
        OtherProjections(plans[n - 1], plans[i], s1);
      }
    }
  }

  // ---------------------------------------------------------------- the theorem

  /** On rows with no events yet: the plans whose projection differs from the legacy flag are those reported
    * as not evaluated, those flagged but past the first 1000 listed, and those whose event is hidden. */
  lemma BackfillAccountsForAll(listed: seq<PlanRow>, rest: seq<PlanRow>, s: Store)
    requires Valid(s) && NoEvents(s) && DistinctPlans(listed + rest) && FillPlans(listed, s, |listed|).Filled?
    ensures
      var filled := FillPlans(listed, s, |listed|);
      && Valid(filled.store) && EventsKeyed(filled.store)
      && Differing(listed + rest, filled.store)
         == filled.counts.notEvaluated + FlaggedCount(rest) + HiddenCount(listed + rest, filled.store)
  {
    hide Valid, FillPlans, Projects, Disagreements, ShownSimulated, Hidden, DistinctPlans, EventsKeyed;
    var n, plans := |listed|, listed + rest;
    FillPrefix(listed, rest, s, n);
    var s' := FillPlans(plans, s, n).store;
    forall i | 0 <= i < |plans| ensures !Projects(plans[i], s) { NothingProjects(plans[i], s); }
    assert EventsKeyed(s) by { NoEventsKeyed(s); }
    PlansFilledKeyed(plans, s, n);
    DisagreementsAreReported(plans, s, n);
    forall i | 0 <= i < |plans| ensures Projects(plans[i], s') ==> i < n && plans[i].gateway.simulation.SIMULATED? {
      OnlyFlaggedProject(plans, s, n, i);
    }
    assert plans[..n] == listed && forall i :: 0 <= i < |rest| ==> rest[i] == plans[n + i];
    DifferingSplits(plans, s', n);
    UnfilledDiffer(rest, s');
    CountConcatenates(listed, rest, p => ShownSimulated(p, s') != p.gateway.simulation.SIMULATED?);
    CountConcatenates(listed, rest, p => Hidden(p, s'));
  }

  lemma NothingProjects(p: PlanRow, s: Store)
    requires NoEvents(s)
    ensures !Projects(p, s)
  {
  }

  lemma NoEventsKeyed(s: Store)
    requires NoEvents(s)
    ensures EventsKeyed(s)
  {
  }

  /** After a cutover of any legacy book into a ledger without gateway rows, every listed row is a plan, and the
    * plans whose event projection differs from the legacy flag are exactly as many as the backfill reports as not
    * evaluated, together with the flagged plans past the first 1000 listed and those whose event is past the
    * first 1000 of its scope. */
  lemma CutoverAgreesExactly(book: M.LegacyBook, s: Store, f: Filter, keys: seq<Key>)
    requires Valid(s) && NoGateway(s) && M.MoveCollections(M.MIGRATABLE, book, s, |M.MIGRATABLE|).Moved?
    requires
      var s1 := M.MoveCollections(M.MIGRATABLE, book, s, |M.MIGRATABLE|).progress.store;
      AdminListing(GatewayRows(s1, f), keys) && FillListed(s1, f, keys).Filled?
    ensures
      var s1 := M.MoveCollections(M.MIGRATABLE, book, s, |M.MIGRATABLE|).progress.store;
      var filled, plans := FillListed(s1, f, keys), PlansAt(s1, keys);
      var cut := if |keys| < MAX_LIST_LIMIT then |keys| else MAX_LIST_LIMIT;
      var rest := PlansAt(s1, keys[cut..]);
      && Valid(filled.store)
      && |plans| == cut + |rest|
      && (forall i :: 0 <= i < cut ==> IsPlan(s1, keys[i]) && plans[i] == PlanAt(s1, keys[i]))
      && Differing(plans, filled.store) == filled.counts.notEvaluated + FlaggedCount(rest) + HiddenCount(plans, filled.store)
      && (|keys| <= MAX_LIST_LIMIT && (forall scope :: |Events(filled.store, scope)| <= MAX_LIST_LIMIT) ==>
            Differing(plans, filled.store) == filled.counts.notEvaluated)
  {
    hide Valid, M.MoveCollections, FillPlans, Differing, HiddenCount, FlaggedCount, Intact, DistinctPlans, PlansAt, Events, AllPlans,
         EventsKeyed, NoEvents, NoGateway;
    var s1 := M.MoveCollections(M.MIGRATABLE, book, s, |M.MIGRATABLE|).progress.store;
    var cut := if |keys| < MAX_LIST_LIMIT then |keys| else MAX_LIST_LIMIT;
    var listed, rest := PlansAt(s1, keys[..cut]), PlansAt(s1, keys[cut..]);
    assert Page(keys, MAX_LIST_LIMIT, 0) == keys[..cut] && keys[..cut] + keys[cut..] == keys;
    PlansConcatenate(s1, keys[..cut], keys[cut..]);
    ListedArePlans(s1, keys, cut);
    MigratedGateways(book, s);
    DifferentPlans(s1, f, keys);
    BackfillAccountsForAll(listed, rest, s1);
    var s2 := FillListed(s1, f, keys).store;
    if |keys| <= MAX_LIST_LIMIT && (forall scope :: |Events(s2, scope)| <= MAX_LIST_LIMIT) {
      NoneHidden(listed + rest, s2);
      assert keys[cut..] == [];
      assert rest == [] && FlaggedCount([]) == 0 by { NoPlans(s1); }
    }
  }

  lemma ListedArePlans(s: Store, keys: seq<Key>, cut: nat)
    requires cut <= |keys| && AllPlans(s, keys[..cut])
    ensures |PlansAt(s, keys[..cut])| == cut
    ensures forall i :: 0 <= i < cut ==> IsPlan(s, keys[i]) && PlansAt(s, keys[..cut])[i] == PlanAt(s, keys[i])
  {
    PlansOfAll(s, keys[..cut]);
    assert forall i :: 0 <= i < cut ==> keys[..cut][i] == keys[i];
  }

  lemma NoPlans(s: Store)
    ensures PlansAt(s, []) == [] && FlaggedCount([]) == 0
  {
  }
}
