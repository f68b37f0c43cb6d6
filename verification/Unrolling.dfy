/** Running a transaction body call by call. */
module Unrolling {
  import opened Signing
  import opened Models
  import opened ScopedStore
  import opened ScopedInvariant
  import opened Sessions
  import opened SessionRules
  import opened Replay
  import opened ProtocolSteps
  import opened ProtocolRecords

  lemma LookupAfter(c: Collection, key: CKey, next: Option<Payload> -> Prog, ses: Session, s: Store, n: nat)
    requires n > 0
    ensures After(Lookup(c, key, next), ses, s, n) == After(next(PayloadAt(s, ses.scope, c, key)), ses, s, n - 1)
  {
    OverlayEmpty(s);
  }

  lemma FetchAfter(c: Collection, key: CKey, next: Record -> Prog, ses: Session, s: Store, n: nat)
    requires n > 0
    ensures
      match RecordAt(s, ses.scope, c, key)
      case Some(record) => After(Fetch(c, key, next), ses, s, n) == After(next(record), ses, s, n - 1)
      case None => After(Fetch(c, key, next), ses, s, n) == (Raise(ScopedRecordNotFound), s)
  {
    OverlayEmpty(s);
  }

  lemma ListingAfter(c: Collection, next: seq<Row> -> Prog, ses: Session, s: Store, n: nat)
    requires n > 0
    ensures
      var rows := Page(Listing(GroupRows(s, Group(ses.scope, c))), MAX_LIST_LIMIT, 0);
      After(Listing1000(c, next), ses, s, n) == After(next(rows), ses, s, n - 1)
  {
    OverlayEmpty(s);
  }

  /** An append that succeeds continues with the given record stored; one that fails ends the body. */
  lemma PutAfter(c: Collection, key: CKey, record: Record, next: Record -> Prog, ses: Session, s0: Store, s: Store,
                 n: nat, w: map<Key, Record>)
    returns (s1: Store)
    requires n > 0 && Wrote(s0, s, w) && ChainLinked(c)
    requires Key(Group(ses.scope, c), key) !in w
    ensures After(Put(c, key, record, next), ses, s, n).0.Return? ==>
      && Wrote(s0, s1, w[Key(Group(ses.scope, c), key) := record])
      && After(Put(c, key, record, next), ses, s, n) == After(next(record), ses, s1, n - 1)
  {
    hide Effect, Wrote;
    var (res, d) := Effect(ses, Append(c, key, record), s);
    s1 := Overlay(s, d);
    PutEffect(ses, c, key, record, s0, s, w);
    if !res.Stored? {
      assert After(Put(c, key, record, next), ses, s, n).0 == Raise(res.error);
    }
  }
}
