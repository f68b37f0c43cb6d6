/** Every session operation keeps the scoped store valid, so every chain stays verifiable. */
module ScopedInvariant {
  import opened Signing
  import opened Models
  import opened ScopedStore

  lemma EmptyIsValid()
    ensures Valid(EMPTY)
  {
    forall g ensures GroupValid(EMPTY, g) {
      assert GroupRows(EMPTY, g) == map[];
      assert IsListing(map[], []) && IsChain(g.coll, map[], []) && HeadOk(None, map[], []);
    }
  }

  lemma OverlayEmpty(s: Store)
    ensures Overlay(s, EMPTY) == s
  {
  }

  /** A group whose rows and head are the same in two stores is valid in both. */
  lemma GroupUnchanged(s: Store, s': Store, g: Group)
    requires GroupValid(s, g)
    requires GroupRows(s', g) == GroupRows(s, g) && HeadOf(s', g) == HeadOf(s, g)
    ensures GroupValid(s', g)
  {
  }

  /** The listing of a valid group: row numbers 1, 2, ..., with the next number one past its length. */
  ghost function Order(s: Store, g: Group): (ks: seq<Key>)
    requires Valid(s)
    ensures IsListing(GroupRows(s, g), ks)
    ensures ks == SortedKeys(GroupRows(s, g))
    ensures ChainLinked(g.coll) ==> IsChain(g.coll, GroupRows(s, g), ks) && HeadOk(HeadOf(s, g), GroupRows(s, g), ks)
    ensures NextSequence(s, g) == |ks| + 1
  {
    var m := GroupRows(s, g);
    assert GroupValid(s, g);
    if ChainLinked(g.coll) then
      var ks :| IsChain(g.coll, m, ks) && HeadOk(HeadOf(s, g), m, ks);
      ListingIsSorted(m, ks);
      ks
    else
      var ks :| IsListing(m, ks);
      ListingIsSorted(m, ks);
      ks
  }

  lemma {:induction false} ExtendedChain(c: Collection, m: map<Key, Row>, ks: seq<Key>, k: Key, row: Row)
    requires IsChain(c, m, ks) && k !in m && ChainLinked(c)
    requires row.sequence == |ks| + 1 && row.chainPrev == HashBefore(m, ks, |ks|)
    requires MetaOk(c, row) && row.chainHash == ChainHash(row.chainPrev, c, row.payload)
    ensures IsChain(c, m[k := row], ks + [k])
    ensures HeadOk(Some(Head(row.sequence, Some(row.chainHash))), m[k := row], ks + [k])
  {
    var m', ks' := m[k := row], ks + [k];
    forall i | 0 <= i < |ks'| ensures m'[ks'[i]].sequence == i + 1 && LinkOk(c, m', ks', i) {
      if i < |ks| {
        assert LinkOk(c, m, ks, i) && ks'[i] == ks[i] && ks[i] in m;
        if i > 0 { assert ks'[i - 1] == ks[i - 1] && ks[i - 1] in m; }
      } else if i > 0 {
        assert ks'[i - 1] == ks[i - 1] && ks[i - 1] in m;
      }
    }
  }

  lemma OverlayRow(s: Store, k: Key, row: Row, heads: map<Group, Head>, g: Group)
    ensures GroupRows(Overlay(s, Store(map[k := row], heads)), g)
         == if g == k.group then GroupRows(s, g)[k := row] else GroupRows(s, g)
  {
  }

  lemma ExtendedListing(m: map<Key, Row>, ks: seq<Key>, k: Key, row: Row)
    requires IsListing(m, ks) && k !in m && row.sequence == |ks| + 1
    ensures IsListing(m[k := row], ks + [k])
  {
    forall i | 0 <= i < |ks + [k]| ensures m[k := row][(ks + [k])[i]].sequence == i + 1 {
      if i < |ks| { assert ks[i] in m; }
    }
  }

  /** The row that a successful append inserts, and the head it leaves, keep the appended group valid. */
  lemma InsertKeepsGroup(s: Store, k: Key, payload: Payload, id: RecordId, s': Store)
    requires Valid(s) && k !in s.rows
    requires
      var g, c := k.group, k.group.coll;
      var row := BuildRow(c, payload, id, ChainPrev(s, g), NextSequence(s, g));
      s' == Overlay(s, Store(map[k := row], if ChainLinked(c) then map[g := Head(row.sequence, Some(row.chainHash))] else map[]))
    ensures GroupValid(s', k.group)
  {
    var g, c := k.group, k.group.coll;
    var row := BuildRow(c, payload, id, ChainPrev(s, g), NextSequence(s, g));
    var ks := Order(s, g);
    var m := GroupRows(s, g);
    OverlayRow(s, k, row, if ChainLinked(c) then map[g := Head(row.sequence, Some(row.chainHash))] else map[], g);
    if ChainLinked(c) {
      ExtendedChain(c, m, ks, k, row);
      assert IsChain(c, GroupRows(s', g), ks + [k]);
    } else {
      ExtendedListing(m, ks, k, row);
      assert GroupValid(s, g);
    }
  }

  /** Writing one row and at most its own head, validly, keeps the whole store valid. */
  lemma PutKeepsValid(s: Store, k: Key, row: Row, heads: map<Group, Head>)
    requires Valid(s) && RowValid(k, row)
    requires forall g :: g in heads ==> g == k.group
    requires GroupValid(Overlay(s, Store(map[k := row], heads)), k.group)
    ensures Valid(Overlay(s, Store(map[k := row], heads)))
  {
    var s' := Overlay(s, Store(map[k := row], heads));
    forall g ensures GroupValid(s', g) {
      if g != k.group {
        OverlayRow(s, k, row, heads, g);
        assert GroupValid(s, g);
        GroupUnchanged(s, s', g);
      }
    }
    forall j | j in s'.rows ensures RowValid(j, s'.rows[j]) {
      if j != k { assert RowValid(j, s.rows[j]); }
    }
  }

  /** An append that fails for want of a record id may leave an empty head behind. */
  lemma EmptyHeadKeepsValid(s: Store, g: Group)
    requires Valid(s) && ChainLinked(g.coll) && g !in s.heads
    ensures Valid(Overlay(s, Store(map[], map[g := Head(0, None)])))
  {
    var s' := Overlay(s, Store(map[], map[g := Head(0, None)]));
    var ks := Order(s, g);
    forall g' ensures GroupValid(s', g') {
      assert GroupValid(s, g') && GroupRows(s', g') == GroupRows(s, g');
      if g' == g {
        assert HeadOk(HeadOf(s', g), GroupRows(s', g), ks);
      } else {
        GroupUnchanged(s, s', g');
      }
    }
    forall j | j in s'.rows ensures RowValid(j, s'.rows[j]) {
      assert RowValid(j, s.rows[j]);
    }
  }

  lemma AppendKeepsValid(ses: Session, c: Collection, key: CKey, record: Record, s: Store)
    requires Valid(s)
    ensures Valid(Overlay(s, AppendEffect(ses, c, key, record, s).1))
  {
    var (res, delta) := AppendEffect(ses, c, key, record, s);
    var g := Group(ses.scope, c);
    var k := Key(g, key);
    if delta == EMPTY {
      OverlayEmpty(s);
    } else if res.Stored? {
      InsertKeepsGroup(s, k, Payload(record, ses.scope), ExtractRecordId(c, record).value, Overlay(s, delta));
      PutKeepsValid(s, k, res.row, delta.heads);
    } else {
      EmptyHeadKeepsValid(s, g);
    }
  }

  lemma GroupIsValid(s: Store, g: Group)
    requires Valid(s)
    ensures GroupValid(s, g)
  {
  }

  lemma SwappedGroup(c: Collection, m: map<Key, Row>, ks: seq<Key>, k: Key, row: Row)
    requires IsListing(m, ks) && k in m && row.sequence == m[k].sequence && StandaloneOk(c, row)
    requires forall j :: j in m ==> StandaloneOk(c, m[j])
    ensures ListedStandalone(c, m[k := row])
  {
    hide StandaloneOk;
    assert IsListing(m[k := row], ks);
  }

  lemma SwappedRow(c: Collection, payload: Payload, row: Row)
    requires StandaloneOk(c, row)
    ensures StandaloneOk(c, SwapRow(c, payload, row)) && SwapRow(c, payload, row).sequence == row.sequence
  {
  }

  /** A swapped row keeps its sequence number and is a consistent standalone row again. */
  lemma SwapKeepsGroup(s: Store, k: Key, payload: Payload)
    requires Valid(s) && k in s.rows && CasAllowed(k.group.coll)
    ensures GroupValid(Overlay(s, Store(map[k := SwapRow(k.group.coll, payload, s.rows[k])], map[])), k.group)
  {
    hide Valid, SwapRow, StandaloneOk, IsListing;
    var g, row := k.group, SwapRow(k.group.coll, payload, s.rows[k]);
    var m, ks := GroupRows(s, g), Order(s, g);
    GroupIsValid(s, g);
    OverlayRow(s, k, row, map[], g);
    SwappedRow(g.coll, payload, m[k]);
    SwappedGroup(g.coll, m, ks, k, row);
  }

  lemma CasKeepsValid(ses: Session, op: Op, s: Store)
    requires Valid(s) && op.CompareAndSet?
    ensures Valid(Overlay(s, CasEffect(ses, op, s).1))
  {
    var (res, delta) := CasEffect(ses, op, s);
    var k := Key(Group(ses.scope, op.coll), op.ckey);
    if res.Swapped? {
      assert RowValid(k, s.rows[k]);
      SwapKeepsGroup(s, k, Payload(op.record, ses.scope));
      PutKeepsValid(s, k, res.row, map[]);
    } else {
      OverlayEmpty(s);
    }
  }

  /** No session operation, successful or not, breaks a chain, a head or a standalone row. */
  lemma EffectKeepsValid(ses: Session, op: Op, s: Store)
    requires Valid(s)
    ensures Valid(Overlay(s, Effect(ses, op, s).1))
  {
    match op
    case Append(c, key, record) => AppendKeepsValid(ses, c, key, record, s);
    case CompareAndSet(_, _, _, _, _) => CasKeepsValid(ses, op, s);
    case _ => OverlayEmpty(s);
  }

  /** Verification of any selection succeeds on a valid store. */
  lemma ValidIsIntact(s: Store, f: Filter)
    requires Valid(s)
    ensures Intact(s, f)
  {
    forall g: Group | ChainLinked(g.coll) ensures ChainEndsIn(g.coll, GroupRows(s, g), HeadOf(s, g)) {
      assert GroupValid(s, g);
    }
    forall k | k in s.rows && !s.rows[k].linked ensures StandaloneOk(k.group.coll, s.rows[k]) {
      assert RowValid(k, s.rows[k]) && GroupValid(s, k.group);
      assert k in GroupRows(s, k.group);
    }
  }
}
