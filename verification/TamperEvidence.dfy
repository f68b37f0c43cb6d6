/** A stored head commits to the whole chain behind it. */
module TamperEvidence {
  import opened Signing
  import opened Models
  import opened ScopedStore

  /** The records of a group in insertion order: what is left of its rows without "_chain". */
  ghost function Records(m: map<Key, Row>): seq<Payload> {
    seq(|Listing(m)|, i requires 0 <= i < |Listing(m)| => Listing(m)[i].payload)
  }

  lemma RecordsOfListing(m: map<Key, Row>, ks: seq<Key>)
    requires IsListing(m, ks)
    ensures |Records(m)| == |ks| && forall i :: 0 <= i < |ks| ==> Records(m)[i] == m[ks[i]].payload
  {
    ListingIsSorted(m, ks);
  }

  /** Equal hashes after i and i' rows mean equal records all the way back, using injectivity alone. */
  lemma {:induction false} SamePrefix(c: Collection, m: map<Key, Row>, ks: seq<Key>, i: nat,
                                      c': Collection, m': map<Key, Row>, ks': seq<Key>, i': nat)
    requires IsChain(c, m, ks) && IsChain(c', m', ks') && i <= |ks| && i' <= |ks'|
    requires HashBefore(m, ks, i) == HashBefore(m', ks', i')
    ensures i == i' && (i > 0 ==> c == c')
    ensures forall j :: 0 <= j < i ==> m[ks[j]].payload == m'[ks'[j]].payload
    decreases i
  {
    if i > 0 && i' > 0 {
      assert LinkOk(c, m, ks, i - 1) && LinkOk(c', m', ks', i' - 1);
      SamePrefix(c, m, ks, i - 1, c', m', ks', i' - 1);
    }
  }

  lemma SameElements(a: seq<Payload>, b: seq<Payload>)
    requires |a| == |b| && forall j :: 0 <= j < |a| ==> a[j] == b[j]
    ensures a == b
  {
  }

  lemma SameListingSameRecords(m: map<Key, Row>, ks: seq<Key>, m': map<Key, Row>, ks': seq<Key>)
    requires IsListing(m, ks) && IsListing(m', ks') && |ks| == |ks'|
    requires forall j :: 0 <= j < |ks| ==> m[ks[j]].payload == m'[ks'[j]].payload
    ensures Records(m) == Records(m')
  {
    RecordsOfListing(m, ks);
    RecordsOfListing(m', ks');
    SameElements(Records(m), Records(m'));
  }

  /** Two groups that pass chain validation with the same head hash hold the same sequence of records:
    * no edit, reordering, insertion, removal or truncation keeps the head valid. */
  lemma SameHeadSameRecords(c: Collection, m: map<Key, Row>, head: Head, c': Collection, m': map<Key, Row>, head': Head)
    requires ChainEndsIn(c, m, Some(head)) && ChainEndsIn(c', m', Some(head'))
    requires head.hash == head'.hash
    ensures Records(m) == Records(m') && head == head'
    ensures head.last > 0 ==> c == c'
  {
    var ks :| IsChain(c, m, ks) && HeadOk(Some(head), m, ks);
    var ks' :| IsChain(c', m', ks') && HeadOk(Some(head'), m', ks');
    SamePrefix(c, m, ks, |ks|, c', m', ks', |ks'|);
    SameListingSameRecords(m, ks, m', ks');
  }
}
