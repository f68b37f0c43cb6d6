/** Laws of the scoped store that callers rely on: listing is insertion order, pages concatenate to the
  * whole, and at most one compare-and-set per expected version wins. */
module StoreLaws {
  import opened Signing
  import opened Models
  import opened ScopedStore
  import opened ScopedInvariant
  import opened TamperEvidence

  // ---------------------------------------------------------------- pages

  /** The first n pages, one after another. */
  function Pages<T>(rows: seq<T>, limit: nat, n: nat): seq<T> {
    if n == 0 then [] else Pages(rows, limit, n - 1) + Page(rows, limit, (n - 1) * limit)
  }

  function Least(a: nat, b: nat): nat {
    if a < b then a else b
  }

  /** Reading page after page returns the rows in order, each exactly once. */
  lemma {:induction false} PagesConcatenate<T>(rows: seq<T>, limit: nat, n: nat)
    ensures Pages(rows, limit, n) == rows[..Least(n * limit, |rows|)]
  {
    if n > 0 {
      PagesConcatenate(rows, limit, n - 1);
      var offset := (n - 1) * limit;
      assert offset + limit == n * limit;
      NextPage(rows, limit, offset);
    }
  }

  lemma NextPage<T>(rows: seq<T>, limit: nat, offset: nat)
    ensures rows[..Least(offset, |rows|)] + Page(rows, limit, offset) == rows[..Least(offset + limit, |rows|)]
  {
  }

  // ---------------------------------------------------------------- insertion order

  lemma AppendedRecords(m: map<Key, Row>, ks: seq<Key>, k: Key, row: Row)
    requires IsListing(m, ks) && k !in m && row.sequence == |ks| + 1
    ensures Records(m[k := row]) == Records(m) + [row.payload]
  {
    ExtendedListing(m, ks, k, row);
    RecordsOfListing(m, ks);
    RecordsOfListing(m[k := row], ks + [k]);
    SameElements(Records(m[k := row]), Records(m) + [row.payload]);
  }

  /** A new record is listed last, after everything appended before it, and no other listing changes. */
  lemma AppendIsListedLast(ses: Session, c: Collection, key: CKey, record: Record, s: Store, g: Group)
    requires Valid(s)
    ensures
      var (r, d) := AppendEffect(ses, c, key, record, s);
      Records(GroupRows(Overlay(s, d), g)) ==
        if g == Group(ses.scope, c) && r.Stored? && r.created then Records(GroupRows(s, g)) + [Payload(record, ses.scope)]
        else Records(GroupRows(s, g))
  {
    hide Valid, Records, NextSequence, ChainPrev, ExtractRecordId;
    var (r, d) := AppendEffect(ses, c, key, record, s);
    var k := Key(Group(ses.scope, c), key);
    if r.Stored? && r.created {
      OverlayRow(s, k, r.row, d.heads, g);
      if g == k.group { AppendedRecords(GroupRows(s, g), Order(s, g), k, r.row); }
    } else {
      assert d.rows == map[];
      assert GroupRows(Overlay(s, d), g) == GroupRows(s, g);
    }
  }

  // ---------------------------------------------------------------- compare-and-set

  datatype Request = Request(ses: Session, op: Op)

  predicate Targets(q: Request, k: Key, version: int) {
    && q.op.CompareAndSet?
    && Key(Group(q.ses.scope, q.op.coll), q.op.ckey) == k
    && q.op.expectedVersion == Some(version)
  }

  /** How many of the requests, run in order, are swaps of row k that expected this version. */
  ghost function Wins(requests: seq<Request>, s: Store, k: Key, version: int): nat {
    if requests == [] then 0
    else
      var (r, d) := Effect(requests[0].ses, requests[0].op, s);
      (if Targets(requests[0], k, version) && r.Swapped? then 1 else 0) + Wins(requests[1..], Overlay(s, d), k, version)
  }

  lemma VersionsOnlyGrow(q: Request, s: Store, k: Key, version: int)
    requires k in s.rows
    ensures
      var (r, d) := Effect(q.ses, q.op, s);
      && k in Overlay(s, d).rows && Overlay(s, d).rows[k].version >= s.rows[k].version
      && (Targets(q, k, version) && r.Swapped? ==> s.rows[k].version == version && Overlay(s, d).rows[k].version == version + 1)
  {
    hide Intact, VerifiedHeads, Listing, NextSequence, ChainPrev, ExtractRecordId;
  }

  lemma {:induction false} PastVersionsLose(requests: seq<Request>, s: Store, k: Key, version: int)
    requires k in s.rows && s.rows[k].version > version
    ensures Wins(requests, s, k, version) == 0
  {
    hide Effect;
    if requests != [] {
      VersionsOnlyGrow(requests[0], s, k, version);
      PastVersionsLose(requests[1..], Overlay(s, Effect(requests[0].ses, requests[0].op, s).1), k, version);
    }
  }

  lemma MissingRowsLose(q: Request, s: Store, k: Key, version: int)
    requires k !in s.rows
    ensures !(Targets(q, k, version) && Effect(q.ses, q.op, s).0.Swapped?)
  {
  }

  /** Of any number of compare-and-sets on one row with the same expected version, in any mix with other
    * operations, at most one wins. */
  lemma {:induction false} AtMostOneWins(requests: seq<Request>, s: Store, k: Key, version: int)
    ensures Wins(requests, s, k, version) <= 1
  {
    hide Effect, Targets, Overlay;
    if requests != [] {
      var (r, d) := Effect(requests[0].ses, requests[0].op, s);
      AtMostOneWins(requests[1..], Overlay(s, d), k, version);
      if k !in s.rows {
        MissingRowsLose(requests[0], s, k, version);
      } else {
        VersionsOnlyGrow(requests[0], s, k, version);
        if Targets(requests[0], k, version) && r.Swapped? { PastVersionsLose(requests[1..], Overlay(s, d), k, version); }
      }
    }
  }
}
