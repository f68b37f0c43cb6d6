/** Where the JSON and SQLite verifiers differ: SQLite decides by collection which rows belong to a chain,
  * JSON by the flag stored in the row, so JSON checks nothing about a mutable row flagged chain_linked. */
module VerifierGap {
  import opened Signing
  import opened Models
  import opened ScopedStore
  import opened ScopedInvariant

  /** The table that SQLite would hold: no flag is stored, the collection decides. */
  function AsSqlite(s: Store): Store {
    Store(map k | k in s.rows :: s.rows[k].(linked := ChainLinked(k.group.coll)), s.heads)
  }

  /** The rows that the JSON verifier passes over. */
  predicate PassedOver(f: Filter, k: Key, row: Row) {
    Selects(f, k.group) && CasAllowed(k.group.coll) && row.linked
  }

  lemma SameLinkedGroup(s: Store, g: Group)
    requires ChainLinked(g.coll) && forall k :: k in s.rows && k.group == g ==> s.rows[k].linked
    ensures GroupRows(AsSqlite(s), g) == GroupRows(s, g) && HeadOf(AsSqlite(s), g) == HeadOf(s, g)
  {
  }

  lemma LinkedRowsAreFlagged(s: Store, g: Group)
    requires ChainLinked(g.coll) && ChainEndsIn(g.coll, GroupRows(s, g), HeadOf(s, g))
    ensures forall k :: k in s.rows && k.group == g ==> s.rows[k].linked
  {
    var m := GroupRows(s, g);
    var ks :| IsChain(g.coll, m, ks) && HeadOk(HeadOf(s, g), m, ks);
    forall k | k in m ensures m[k].linked {
      assert k in ks;
      var i :| 0 <= i < |ks| && ks[i] == k;
      assert LinkOk(g.coll, m, ks, i);
    }
    assert forall k :: k in s.rows && k.group == g ==> k in m && m[k] == s.rows[k];
  }

  /** A store that the JSON verifier accepts is accepted by the SQLite verifier exactly when every row the
    * JSON verifier passed over is a consistent standalone row. */
  lemma VerifiersAgreeExactly(s: Store, f: Filter)
    requires Intact(s, f)
    ensures Intact(AsSqlite(s), f) <==>
      forall k :: k in s.rows && PassedOver(f, k, s.rows[k]) ==> StandaloneOk(k.group.coll, s.rows[k])
  {
    hide ChainEndsIn;
    var t := AsSqlite(s);
    forall g | Selects(f, g) && ChainLinked(g.coll) ensures ChainEndsIn(g.coll, GroupRows(t, g), HeadOf(t, g)) {
      LinkedRowsAreFlagged(s, g);
      SameLinkedGroup(s, g);
    }
    forall k | k in s.rows ensures k in t.rows && (StandaloneOk(k.group.coll, t.rows[k]) <==> StandaloneOk(k.group.coll, s.rows[k])) {}
    if Intact(t, f) {
      forall k | k in s.rows && PassedOver(f, k, s.rows[k]) ensures StandaloneOk(k.group.coll, s.rows[k]) {
        assert k in t.rows && !t.rows[k].linked;
      }
    }
    if forall k :: k in s.rows && PassedOver(f, k, s.rows[k]) ==> StandaloneOk(k.group.coll, s.rows[k]) {
      forall k | k in t.rows && Selects(f, k.group) && !t.rows[k].linked ensures StandaloneOk(k.group.coll, t.rows[k]) {
        assert s.rows[k].linked ==> PassedOver(f, k, s.rows[k]);
      }
    }
  }

  /** Stores that the operations build have no such row. */
  lemma ValidStoresAgree(s: Store, f: Filter)
    requires Valid(s)
    ensures Intact(s, f) && AsSqlite(s) == s
  {
    ValidIsIntact(s, f);
    forall k | k in s.rows ensures AsSqlite(s).rows[k] == s.rows[k] {
      assert RowValid(k, s.rows[k]);
    }
  }

  /** A tampered claim: its record was replaced, its hashes were not, and it was flagged as linked. */
  function TamperedClaim(): Store {
    var scope := Scope("t", "p");
    var claimed, stored := Payload(OtherRecord(map[Claims := "c1"], "old"), scope), Payload(OtherRecord(map[Claims := "c1"], "new"), scope);
    var hash := ChainHash(None, Claims, claimed);
    Store(map[Key(Group(scope, Claims), Name("c1")) :=
                Row(PlainId("c1"), stored, ChainMeta(None, Some(hash), Some(1), Some(false)), Some(PayloadHash(claimed)),
                    None, hash, 1, 1, true)],
          map[])
  }

  /** The gap is real: the JSON verifier accepts a tampered mutable row that the SQLite verifier rejects. */
  lemma JsonAcceptsTamperedRow(f: Filter)
    requires f == Filter(None, None, None)
    ensures Intact(TamperedClaim(), f) && !Intact(AsSqlite(TamperedClaim()), f)
  {
    var s := TamperedClaim();
    var k := Key(Group(Scope("t", "p"), Claims), Name("c1"));
    forall g: Group | ChainLinked(g.coll) ensures ChainEndsIn(g.coll, GroupRows(s, g), HeadOf(s, g)) {
      assert GroupRows(s, g) == map[];
      assert IsChain(g.coll, map[], []) && HeadOk(None, map[], []);
    }
    assert k in s.rows && PassedOver(f, k, s.rows[k]);
    assert "old" != "new";
    assert !StandaloneOk(Claims, s.rows[k]);
    VerifiersAgreeExactly(s, f);
  }
}
