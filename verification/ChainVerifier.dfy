/** The verifier that re-derives every chain (_verify_json_state, _validate_linked_chain_group): it
  * accepts exactly the stores in which every selected chain, head and standalone row is intact. */
module ChainVerifier {
  import opened Signing
  import opened Models
  import opened ScopedStore

  // ---------------------------------------------------------------- sorting a group

  ghost predicate NoRepeats(ks: seq<Key>) {
    forall i, j :: 0 <= i < j < |ks| ==> ks[i] != ks[j]
  }

  ghost predicate Lists(m: map<Key, Row>, ks: seq<Key>) {
    NoRepeats(ks) && forall k :: k in ks <==> k in m
  }

  ghost predicate AscendingBySequence(m: map<Key, Row>, ks: seq<Key>)
    requires forall k :: k in ks ==> k in m
  {
    forall i, j :: 0 <= i < j < |ks| ==> m[ks[i]].sequence <= m[ks[j]].sequence
  }

  function InsertBySequence(m: map<Key, Row>, k: Key, ks: seq<Key>): (r: seq<Key>)
    requires k in m && forall j :: j in ks ==> j in m
    ensures forall j :: j in r <==> j == k || j in ks
  {
    if ks == [] || m[k].sequence <= m[ks[0]].sequence then [k] + ks
    else
      var rest := InsertBySequence(m, k, ks[1..]);
      assert forall j :: j in ks <==> j == ks[0] || j in ks[1..];
      [ks[0]] + rest
  }

  /** sorted(rows, key=chain_sequence). */
  function SortBySequence(m: map<Key, Row>, ks: seq<Key>): (r: seq<Key>)
    requires forall j :: j in ks ==> j in m
    ensures forall j :: j in r <==> j in ks
  {
    if ks == [] then []
    else
      assert forall j :: j in ks <==> j == ks[0] || j in ks[1..];
      InsertBySequence(m, ks[0], SortBySequence(m, ks[1..]))
  }

  /** k goes before the list when it is no larger than its first key, and the list has none of it. */
  lemma ConsKeepsOrder(m: map<Key, Row>, k: Key, ks: seq<Key>)
    requires k in m && k !in ks && (forall j :: j in ks ==> j in m) && NoRepeats(ks) && AscendingBySequence(m, ks)
    requires forall j :: j in ks ==> m[k].sequence <= m[j].sequence
    ensures NoRepeats([k] + ks) && AscendingBySequence(m, [k] + ks)
  {
    assert forall i :: 0 <= i < |ks| ==> ks[i] in ks;
  }

  lemma {:induction false} InsertKeepsOrder(m: map<Key, Row>, k: Key, ks: seq<Key>)
    requires k in m && k !in ks && (forall j :: j in ks ==> j in m) && NoRepeats(ks) && AscendingBySequence(m, ks)
    ensures NoRepeats(InsertBySequence(m, k, ks)) && AscendingBySequence(m, InsertBySequence(m, k, ks))
  {
    if ks == [] || m[k].sequence <= m[ks[0]].sequence {
      ConsKeepsOrder(m, k, ks);
    } else {
      assert forall j :: j in ks <==> j == ks[0] || j in ks[1..];
      assert ks[0] !in ks[1..];
      InsertKeepsOrder(m, k, ks[1..]);
      ConsKeepsOrder(m, ks[0], InsertBySequence(m, k, ks[1..]));
    }
  }

  lemma {:induction false} SortOrders(m: map<Key, Row>, ks: seq<Key>)
    requires (forall j :: j in ks ==> j in m) && NoRepeats(ks)
    ensures NoRepeats(SortBySequence(m, ks)) && AscendingBySequence(m, SortBySequence(m, ks))
  {
    if ks != [] {
      SortOrders(m, ks[1..]);
      InsertKeepsOrder(m, ks[0], SortBySequence(m, ks[1..]));
    }
  }

  lemma TailMembers(ks: seq<Key>, rest: set<Key>)
    requires ks != [] && NoRepeats(ks) && forall k :: k in ks <==> k == ks[0] || k in rest
    requires ks[0] !in rest
    ensures NoRepeats(ks[1..]) && forall k :: k in ks[1..] <==> k in rest
  {
    assert forall k :: k in ks <==> k == ks[0] || k in ks[1..];
  }

  lemma ListingHasNoRepeats(m: map<Key, Row>, ks: seq<Key>, start: int)
    requires ListsFrom(m, ks, start)
    ensures NoRepeats(ks)
  {
    forall i, j | 0 <= i < j < |ks| ensures ks[i] != ks[j] {
      assert m[ks[i]].sequence == start + i && m[ks[j]].sequence == start + j;
    }
  }

  lemma SameFirst(m: map<Key, Row>, ks: seq<Key>, zs: seq<Key>, start: int)
    requires ListsFrom(m, ks, start) && Lists(m, zs) && AscendingBySequence(m, zs)
    requires ks != [] && zs != []
    ensures ks[0] == zs[0]
  {
    assert ks[0] in zs && zs[0] in ks;
    var p :| 0 <= p < |zs| && zs[p] == ks[0];
    var q :| 0 <= q < |ks| && ks[q] == zs[0];
    assert m[ks[q]].sequence == start + q && m[zs[0]].sequence <= m[zs[p]].sequence;
  }

  lemma ListingTail(m: map<Key, Row>, ks: seq<Key>, start: int)
    requires ListsFrom(m, ks, start) && ks != []
    ensures ListsFrom(m - {ks[0]}, ks[1..], start + 1)
  {
    ListingHasNoRepeats(m, ks, start);
    TailMembers(ks, (m - {ks[0]}).Keys);
    forall i | 0 <= i < |ks[1..]| ensures (m - {ks[0]})[ks[1..][i]].sequence == start + 1 + i {
      assert ks[1..][i] == ks[i + 1];
    }
  }

  lemma SortedTail(m: map<Key, Row>, zs: seq<Key>)
    requires Lists(m, zs) && AscendingBySequence(m, zs) && zs != []
    ensures Lists(m - {zs[0]}, zs[1..]) && AscendingBySequence(m - {zs[0]}, zs[1..])
  {
    TailMembers(zs, (m - {zs[0]}).Keys);
    assert forall i :: 0 <= i < |zs[1..]| ==> zs[1..][i] == zs[i + 1];
  }

  lemma EmptyTogether(m: map<Key, Row>, ks: seq<Key>, zs: seq<Key>, start: int)
    requires ListsFrom(m, ks, start) && Lists(m, zs)
    ensures zs == [] <==> ks == []
  {
    assert |ks| > 0 ==> ks[0] in zs;
    assert |zs| > 0 ==> zs[0] in ks;
  }

  /** Sorting finds the listing by sequence numbers whenever there is one. */
  lemma {:induction false} SortFindsListing(m: map<Key, Row>, ks: seq<Key>, zs: seq<Key>, start: int)
    requires ListsFrom(m, ks, start) && Lists(m, zs) && AscendingBySequence(m, zs)
    ensures zs == ks
    decreases |ks|
  {
    hide Lists, AscendingBySequence;
    EmptyTogether(m, ks, zs, start);
    if ks != [] {
      SameFirst(m, ks, zs, start);
      ListingTail(m, ks, start);
      SortedTail(m, zs);
      SortFindsListing(m - {ks[0]}, ks[1..], zs[1..], start + 1);
      assert ks == [ks[0]] + ks[1..] && zs == [zs[0]] + zs[1..];
    }
  }

  // ---------------------------------------------------------------- one linked group

  method CheckMetadata(c: Collection, m: map<Key, Row>, sorted: seq<Key>) returns (ok: bool)
    requires forall k :: k in sorted ==> k in m
    ensures ok <==> forall i :: 0 <= i < |sorted| ==> MetaOk(c, m[sorted[i]])
  {
    var i := 0;
    while i < |sorted|
      invariant 0 <= i <= |sorted|
      invariant forall j :: 0 <= j < i ==> MetaOk(c, m[sorted[j]])
    {
      if !MetaOk(c, m[sorted[i]]) { return false; }
      i := i + 1;
    }
    ok := true;
  }

  method CheckSequences(m: map<Key, Row>, sorted: seq<Key>) returns (ok: bool)
    requires sorted != [] && forall k :: k in sorted ==> k in m
    ensures ok <==> forall i :: 0 <= i < |sorted| ==> m[sorted[i]].sequence == i + 1
  {
    if m[sorted[0]].sequence != 1 { return false; }
    var i := 1;
    while i < |sorted|
      invariant 1 <= i <= |sorted|
      invariant forall j :: 0 <= j < i ==> m[sorted[j]].sequence == j + 1
    {
      if m[sorted[i]].sequence != m[sorted[i - 1]].sequence + 1 { return false; }
      i := i + 1;
    }
    ok := true;
  }

  method CheckLinks(c: Collection, m: map<Key, Row>, sorted: seq<Key>) returns (ok: bool)
    requires forall k :: k in sorted ==> k in m
    ensures ok <==> forall i :: 0 <= i < |sorted| ==> StepOk(c, m, sorted, i)
  {
    var expectedPrev: Option<ChainHash> := None;
    var i := 0;
    while i < |sorted|
      invariant 0 <= i <= |sorted|
      invariant expectedPrev == HashBefore(m, sorted, i)
      invariant forall j :: 0 <= j < i ==> StepOk(c, m, sorted, j)
    {
      var row := m[sorted[i]];
      if row.chainPrev != expectedPrev || row.chainHash != ChainHash(row.chainPrev, c, row.payload) {
        assert !StepOk(c, m, sorted, i);
        return false;
      }
      assert StepOk(c, m, sorted, i);
      expectedPrev := Some(row.chainHash);
      i := i + 1;
    }
    ok := true;
  }

  ghost predicate Checks(c: Collection, m: map<Key, Row>, sorted: seq<Key>)
    requires forall k :: k in sorted ==> k in m
  {
    && (forall i :: 0 <= i < |sorted| ==> MetaOk(c, m[sorted[i]]))
    && (forall i :: 0 <= i < |sorted| ==> m[sorted[i]].sequence == i + 1)
    && (forall i :: 0 <= i < |sorted| ==> StepOk(c, m, sorted, i))
  }

  lemma ChecksMeanChain(c: Collection, m: map<Key, Row>, sorted: seq<Key>)
    requires Lists(m, sorted)
    ensures Checks(c, m, sorted) <==> IsChain(c, m, sorted)
  {
    if IsChain(c, m, sorted) {
      forall i | 0 <= i < |sorted| ensures MetaOk(c, m[sorted[i]]) && StepOk(c, m, sorted, i) {
        assert LinkOk(c, m, sorted, i);
      }
    } else if Checks(c, m, sorted) {
      assert IsListing(m, sorted);
    }
  }

  /** Only the sorted keys can be the chain. */
  lemma ChainIsSorted(c: Collection, m: map<Key, Row>, keys: seq<Key>, head: Option<Head>)
    requires Lists(m, keys)
    ensures
      var sorted := SortBySequence(m, keys);
      Lists(m, sorted) && (ChainEndsIn(c, m, head) <==> Checks(c, m, sorted) && HeadOk(head, m, sorted))
  {
    var sorted := SortBySequence(m, keys);
    SortOrders(m, keys);
    ChecksMeanChain(c, m, sorted);
    if ChainEndsIn(c, m, head) {
      var ks :| IsChain(c, m, ks) && HeadOk(head, m, ks);
      SortFindsListing(m, ks, sorted, 1);
    }
  }

  /** The checks on a sorted, non-empty group. */
  method CheckSorted(c: Collection, m: map<Key, Row>, sorted: seq<Key>, head: Option<Head>) returns (ok: bool)
    requires sorted != [] && forall k :: k in sorted ==> k in m
    ensures ok <==> Checks(c, m, sorted) && HeadOk(head, m, sorted)
  {
    hide MetaOk, StepOk;
    if head.None? { return false; }
    var metadata := CheckMetadata(c, m, sorted);
    if !metadata { return false; }
    var sequences := CheckSequences(m, sorted);
    if !sequences { return false; }
    var links := CheckLinks(c, m, sorted);
    if !links { return false; }
    var last := m[sorted[|sorted| - 1]];
    ok := head.value.last == last.sequence && head.value.hash == Some(last.chainHash);
  }

  /** _validate_linked_chain_group: the keys of one group, in any order, against the stored head. */
  method ValidateLinkedChainGroup(c: Collection, m: map<Key, Row>, keys: seq<Key>, head: Option<Head>)
    returns (ok: bool, count: nat)
    requires Lists(m, keys)
    ensures ok <==> keys == [] || ChainEndsIn(c, m, head)
    ensures ok ==> count == |keys|
  {
    hide ChainEndsIn, Checks, HeadOk, NoRepeats, SortBySequence;
    if keys == [] { return true, 0; }
    var sorted := SortBySequence(m, keys);
    ChainIsSorted(c, m, keys, head);
    SameLength(sorted, keys);
    ok := CheckSorted(c, m, sorted, head);
    count := |sorted|;
  }

  lemma {:induction false} KeysOfList(keys: set<Key>, ks: seq<Key>)
    requires NoRepeats(ks) && forall k :: k in ks <==> k in keys
    ensures |keys| == |ks|
  {
    if ks == [] {
      assert keys == {};
    } else {
      TailMembers(ks, keys - {ks[0]});
      KeysOfList(keys - {ks[0]}, ks[1..]);
    }
  }

  lemma SameLength(a: seq<Key>, b: seq<Key>)
    requires NoRepeats(a) && NoRepeats(b) && forall k :: k in a <==> k in b
    ensures |a| == |b|
  {
    var keys := set k | k in a;
    KeysOfList(keys, a);
    KeysOfList(keys, b);
  }

  // ---------------------------------------------------------------- what an intact store is

  /** Row i along ks: numbered i + 1, with the hash of the row before it, the hash of its own payload over that, and a
    * `_chain` entry and payload hash that agree. */
  predicate CompleteStep(s: Store, g: Group, ks: seq<Key>, i: nat)
    requires i < |ks| && forall k :: k in ks ==> k in s.rows
  {
    var row := s.rows[ks[i]];
    && row.sequence == i + 1 && row.linked
    && row.chainPrev == (if i == 0 then None else Some(s.rows[ks[i - 1]].chainHash))
    && row.chainHash == ChainHash(row.chainPrev, g.coll, row.payload)
    && row.meta == ChainMeta(row.chainPrev, Some(row.chainHash), Some(row.sequence), Some(true))
    && (row.payloadHash.None? || row.payloadHash.value == PayloadHash(row.payload))
  }

  /** The keys ks are those of the group, its rows are a chain along them, and the stored head names the last row. */
  ghost predicate CompleteChain(s: Store, g: Group, ks: seq<Key>) {
    && (forall k :: k in ks <==> k in s.rows && k.group == g)
    && (forall i :: 0 <= i < |ks| ==> CompleteStep(s, g, ks, i))
    && (if ks == [] then g !in s.heads || s.heads[g] == Head(0, None)
        else g in s.heads && s.heads[g] == Head(|ks|, Some(s.rows[ks[|ks| - 1]].chainHash)))
  }

  /** A row of no chain: nothing before it, and hashes and `_chain` entry that agree with its payload. */
  predicate CompleteRow(c: Collection, row: Row) {
    && row.chainPrev.None? && row.chainHash == ChainHash(None, c, row.payload)
    && row.meta == ChainMeta(None, Some(row.chainHash), Some(row.sequence), Some(false))
    && (row.payloadHash.None? || row.payloadHash.value == PayloadHash(row.payload))
  }

  lemma StepIsComplete(s: Store, g: Group, ks: seq<Key>, i: nat)
    requires ChainLinked(g.coll) && i < |ks| && forall k :: k in ks ==> k in s.rows && k.group == g
    ensures
      var m := GroupRows(s, g);
      CompleteStep(s, g, ks, i) <==> LinkOk(g.coll, m, ks, i) && m[ks[i]].sequence == i + 1
  {
    var m := GroupRows(s, g);
    assert ks[i] in ks && m[ks[i]] == s.rows[ks[i]];
    assert i > 0 ==> ks[i - 1] in ks && m[ks[i - 1]] == s.rows[ks[i - 1]];
  }

  lemma HeadIsComplete(s: Store, g: Group, ks: seq<Key>)
    requires forall k :: k in ks ==> k in s.rows && k.group == g
    ensures HeadOk(HeadOf(s, g), GroupRows(s, g), ks) <==>
      if ks == [] then g !in s.heads || s.heads[g] == Head(0, None)
      else g in s.heads && s.heads[g] == Head(|ks|, Some(s.rows[ks[|ks| - 1]].chainHash))
  {
    assert |ks| > 0 ==> ks[|ks| - 1] in ks && GroupRows(s, g)[ks[|ks| - 1]] == s.rows[ks[|ks| - 1]];
  }

  lemma GroupKeys(s: Store, g: Group)
    ensures forall k :: k in GroupRows(s, g) <==> k in s.rows && k.group == g
  {
  }

  lemma CompleteIsChain(s: Store, g: Group, ks: seq<Key>)
    requires ChainLinked(g.coll) && CompleteChain(s, g, ks)
    ensures ChainEndsIn(g.coll, GroupRows(s, g), HeadOf(s, g))
  {
    hide CompleteStep, LinkOk, HeadOk, GroupRows;
    GroupKeys(s, g);
    HeadIsComplete(s, g, ks);
    forall i | 0 <= i < |ks| ensures LinkOk(g.coll, GroupRows(s, g), ks, i) && GroupRows(s, g)[ks[i]].sequence == i + 1 {
      StepIsComplete(s, g, ks, i);
    }
    assert IsChain(g.coll, GroupRows(s, g), ks);
  }

  lemma ChainIsComplete(s: Store, g: Group) returns (ks: seq<Key>)
    requires ChainLinked(g.coll) && ChainEndsIn(g.coll, GroupRows(s, g), HeadOf(s, g))
    ensures CompleteChain(s, g, ks)
  {
    hide CompleteStep, LinkOk, HeadOk, GroupRows;
    GroupKeys(s, g);
    ks :| IsChain(g.coll, GroupRows(s, g), ks) && HeadOk(HeadOf(s, g), GroupRows(s, g), ks);
    HeadIsComplete(s, g, ks);
    forall i | 0 <= i < |ks| ensures CompleteStep(s, g, ks, i) { StepIsComplete(s, g, ks, i); }
  }

  /** What verification promises of the selected part of a store, written out. */
  lemma IntactExactly(s: Store, f: Filter)
    ensures Intact(s, f) <==>
      && (forall g: Group ::
            && (f.tenant.Some? ==> g.scope.tenant == f.tenant.value) && (f.project.Some? ==> g.scope.project == f.project.value)
            && (f.coll.Some? ==> g.coll == f.coll.value)
            && g.coll !in {Claims, Evidence, Verifications, Actions, PolicyDecisions, Outcomes}
            ==> exists ks :: CompleteChain(s, g, ks))
      && (forall k ::
            && k in s.rows && !s.rows[k].linked
            && (f.tenant.Some? ==> k.group.scope.tenant == f.tenant.value)
            && (f.project.Some? ==> k.group.scope.project == f.project.value) && (f.coll.Some? ==> k.group.coll == f.coll.value)
            ==> CompleteRow(k.group.coll, s.rows[k]))
  {
    hide ChainEndsIn, CompleteChain;
    forall g: Group | ChainLinked(g.coll)
      ensures ChainEndsIn(g.coll, GroupRows(s, g), HeadOf(s, g)) <==> exists ks :: CompleteChain(s, g, ks)
    {
      if ks :| CompleteChain(s, g, ks) { CompleteIsChain(s, g, ks); }
      if ChainEndsIn(g.coll, GroupRows(s, g), HeadOf(s, g)) { var ks := ChainIsComplete(s, g); }
    }
  }

  // ---------------------------------------------------------------- the whole store

  /** The groups dictionary that the first loop fills: the rows of each selected linked group. */
  ghost predicate GroupsUpTo(s: Store, f: Filter, done: set<Key>, groups: map<Group, seq<Key>>) {
    && (forall g :: g in groups ==> ChainLinked(g.coll) && Selects(f, g) && groups[g] != [] && NoRepeats(groups[g]))
    && (forall g, k :: g in groups && k in groups[g] ==> k in done && k.group == g)
    && (forall k :: k in done && ChainLinked(k.group.coll) && Selects(f, k.group) ==>
          k.group in groups && k in groups[k.group])
  }

  lemma AddToGroups(s: Store, f: Filter, done: set<Key>, groups: map<Group, seq<Key>>, k: Key)
    requires GroupsUpTo(s, f, done, groups) && k !in done
    ensures
      var g := k.group;
      var old_ := if g in groups then groups[g] else [];
      GroupsUpTo(s, f, done + {k}, if ChainLinked(g.coll) && Selects(f, g) then groups[g := old_ + [k]] else groups)
  {
  }

  method GroupRowsByChain(s: Store, f: Filter) returns (groups: map<Group, seq<Key>>)
    ensures GroupsUpTo(s, f, s.rows.Keys, groups)
  {
    groups := map[];
    var todo := s.rows.Keys;
    while todo != {}
      invariant todo <= s.rows.Keys
      invariant GroupsUpTo(s, f, s.rows.Keys - todo, groups)
    {
      hide GroupsUpTo;
      var k :| k in todo;
      AddToGroups(s, f, s.rows.Keys - todo, groups, k);
      if ChainLinked(k.group.coll) && Selects(f, k.group) {
        groups := groups[k.group := (if k.group in groups then groups[k.group] else []) + [k]];
      }
      assert s.rows.Keys - (todo - {k}) == s.rows.Keys - todo + {k};
      todo := todo - {k};
    }
    assert s.rows.Keys - todo == s.rows.Keys;
  }

  lemma GroupIsListed(s: Store, f: Filter, groups: map<Group, seq<Key>>, g: Group)
    requires GroupsUpTo(s, f, s.rows.Keys, groups) && g in groups
    ensures Lists(GroupRows(s, g), groups[g])
  {
  }

  lemma SomethingListed(m: map<Key, Row>, ks: seq<Key>)
    requires IsListing(m, ks)
    ensures |ks| > 0 ==> m != map[]
  {
    if |ks| > 0 { assert ks[0] in m; }
  }

  /** A linked group that the grouping loop did not meet has no rows, so only its head is left to check. */
  lemma EmptyGroup(s: Store, f: Filter, groups: map<Group, seq<Key>>, g: Group)
    requires GroupsUpTo(s, f, s.rows.Keys, groups) && g !in groups && ChainLinked(g.coll) && Selects(f, g)
    ensures ChainEndsIn(g.coll, GroupRows(s, g), HeadOf(s, g)) <==> g !in s.heads || s.heads[g] == Head(0, None)
  {
    var m := GroupRows(s, g);
    assert m == map[];
    assert IsChain(g.coll, m, []);
    forall ks | IsListing(m, ks) ensures |ks| == 0 {
      SomethingListed(m, ks);
    }
  }

  ghost predicate LinkedOk(s: Store, g: Group) {
    ChainEndsIn(g.coll, GroupRows(s, g), HeadOf(s, g))
  }

  method CheckChains(s: Store, f: Filter, groups: map<Group, seq<Key>>)
    returns (ok: bool, heads: map<Group, Option<ChainHash>>)
    requires GroupsUpTo(s, f, s.rows.Keys, groups)
    ensures ok <==> forall g :: g in groups ==> LinkedOk(s, g)
    ensures ok ==> heads.Keys == groups.Keys && forall g :: g in groups ==> g in s.heads && heads[g] == s.heads[g].hash
  {
    heads := map[];
    var todo := groups.Keys;
    while todo != {}
      invariant todo <= groups.Keys
      invariant heads.Keys == groups.Keys - todo
      invariant forall g :: g in groups.Keys - todo ==> LinkedOk(s, g) && g in s.heads && heads[g] == s.heads[g].hash
    {
      var g :| g in todo;
      GroupIsListed(s, f, groups, g);
      var valid, _ := ValidateLinkedChainGroup(g.coll, GroupRows(s, g), groups[g], HeadOf(s, g));
      if !valid { return false, map[]; }
      assert LinkedOk(s, g);
      NonEmptyNeedsHead(s, g, groups[g]);
      heads := heads[g := s.heads[g].hash];
      todo := todo - {g};
    }
    ok := true;
  }

  lemma NonEmptyNeedsHead(s: Store, g: Group, keys: seq<Key>)
    requires LinkedOk(s, g) && Lists(GroupRows(s, g), keys) && keys != []
    ensures g in s.heads
  {
    var m := GroupRows(s, g);
    var ks :| IsChain(g.coll, m, ks) && HeadOk(HeadOf(s, g), m, ks);
    assert keys[0] in ks;
  }

  /** The loop over stored heads whose chain has no rows. */
  method CheckOrphanHeads(s: Store, f: Filter, seen: set<Group>) returns (ok: bool)
    ensures ok <==> forall g :: g in s.heads && ChainLinked(g.coll) && Selects(f, g) && g !in seen ==> s.heads[g] == Head(0, None)
  {
    var todo := s.heads.Keys;
    while todo != {}
      invariant todo <= s.heads.Keys
      invariant forall g :: g in s.heads.Keys - todo && ChainLinked(g.coll) && Selects(f, g) && g !in seen ==>
        s.heads[g] == Head(0, None)
    {
      var g :| g in todo;
      if ChainLinked(g.coll) && Selects(f, g) && g !in seen {
        // _invalid_orphan_head
        if s.heads[g].last < 0 || s.heads[g].last > 0 || s.heads[g].hash.Some? { return false; }
      }
      todo := todo - {g};
    }
    ok := true;
  }

  /** The loop over rows that are not flagged chain_linked. */
  method CheckStandaloneRows(s: Store, f: Filter) returns (ok: bool)
    ensures ok <==> forall k :: k in s.rows && Selects(f, k.group) && !s.rows[k].linked ==> StandaloneOk(k.group.coll, s.rows[k])
  {
    var todo := s.rows.Keys;
    while todo != {}
      invariant todo <= s.rows.Keys
      invariant forall k :: k in s.rows.Keys - todo && Selects(f, k.group) && !s.rows[k].linked ==>
        StandaloneOk(k.group.coll, s.rows[k])
    {
      var k :| k in todo;
      if Selects(f, k.group) && !s.rows[k].linked && !StandaloneOk(k.group.coll, s.rows[k]) { return false; }
      todo := todo - {k};
    }
    ok := true;
  }

  /** _verify_json_state accepts a store exactly when everything selected is intact, and then reports the
    * head of every selected chain that has rows. */
  method VerifyState(s: Store, f: Filter) returns (ok: bool, heads: map<Group, Option<ChainHash>>)
    ensures ok <==> Intact(s, f)
    ensures ok ==> forall g :: g in heads <==>
      ChainLinked(g.coll) && Selects(f, g) && exists k :: k in s.rows && k.group == g
    ensures ok ==> forall g :: g in heads ==> g in s.heads && heads[g] == s.heads[g].hash
  {
    var groups := GroupRowsByChain(s, f);
    var chains;
    chains, heads := CheckChains(s, f, groups);
    var orphans := CheckOrphanHeads(s, f, groups.Keys);
    var standalone := CheckStandaloneRows(s, f);
    ok := chains && orphans && standalone;
    forall g: Group | ChainLinked(g.coll) && Selects(f, g) && g !in groups
      ensures LinkedOk(s, g) <==> g !in s.heads || s.heads[g] == Head(0, None)
    {
      EmptyGroup(s, f, groups, g);
    }
    assert forall g :: g in groups ==> groups[g][0] in s.rows && groups[g][0].group == g;
    hide ChainEndsIn;
    assert Intact(s, f) ==> forall g :: g in groups ==> LinkedOk(s, g);
    if Intact(s, f) {
      forall g | g in s.heads && ChainLinked(g.coll) && Selects(f, g) && g !in groups ensures LinkedOk(s, g) {}
    }
    if ok {
      forall g: Group | ChainLinked(g.coll) && Selects(f, g) ensures LinkedOk(s, g) {}
    }
  }
}
