/** The legacy whole-ledger chain (core_v3/ledger.py): lists of rows per collection, each list a hash chain
  * that is rebuilt after a row is changed in place. */
module LegacyLedger {
  import opened Signing
  import opened Models

  const COLLECTIONS := [
    Claims, Evidence, Verifications, Actions, PolicyDecisions, Outcomes, DecisionEnvelopes, AuthorityDecisions,
    ExecutionRequests, GatewayDecisions, GatewayDecisionEvents, ShadowExecutionReceipts, ShadowOutcomes,
    ReplayReports, HistoricalComparisons]

  /** A row's content: everything but "_chain". */
  datatype Content =
    | ClaimDoc(id: Id, status: string, evidenceIds: set<Id>, body: Json)
    | VerificationDoc(id: Id, claimId: Id, result: string, evidenceIds: set<Id>, body: Json)
    | ScopedDoc(id: Id, scope: Scope, body: Json)
    | PlainDoc(id: Id, body: Json)

  datatype LegacyHash = LegacyHash(prev: Option<LegacyHash>, coll: Collection, content: Content)
  datatype Chain = Chain(prev: Option<LegacyHash>, hash: Option<LegacyHash>, alg: string)
  datatype LegacyRow = LegacyRow(content: Content, chain: Option<Chain>)

  type Book = map<Collection, seq<LegacyRow>>

  ghost predicate Complete(book: Book) {
    forall c :: c in book
  }

  // ---------------------------------------------------------------- chains as values

  function Linked(c: Collection, content: Content, prev: Option<LegacyHash>): LegacyRow {
    LegacyRow(content, Some(Chain(prev, Some(LegacyHash(prev, c, content)), "sha256")))
  }

  /** The list with every link rebuilt from its contents. */
  function Rechained(c: Collection, rows: seq<LegacyRow>, prev: Option<LegacyHash>): (r: seq<LegacyRow>)
    ensures |r| == |rows|
  {
    if rows == [] then []
    else [Linked(c, rows[0].content, prev)] + Rechained(c, rows[1..], Some(LegacyHash(prev, c, rows[0].content)))
  }

  /** What verify_chain checks of one list. */
  predicate ChainOk(c: Collection, rows: seq<LegacyRow>, prev: Option<LegacyHash>) {
    rows == [] ||
    (&& rows[0].chain.Some?
     && rows[0].chain.value.prev == prev
     && rows[0].chain.value.hash == Some(LegacyHash(prev, c, rows[0].content))
     && ChainOk(c, rows[1..], Some(LegacyHash(prev, c, rows[0].content))))
  }

  ghost predicate BookOk(book: Book) {
    forall c :: c in book ==> ChainOk(c, book[c], None)
  }

  function Contents(rows: seq<LegacyRow>): (r: seq<Content>)
    ensures |r| == |rows| && forall i :: 0 <= i < |rows| ==> r[i] == rows[i].content
  {
    seq(|rows|, i requires 0 <= i < |rows| => rows[i].content)
  }

  // ---------------------------------------------------------------- rechaining

  lemma {:induction false} RechainedIsOk(c: Collection, rows: seq<LegacyRow>, prev: Option<LegacyHash>)
    ensures ChainOk(c, Rechained(c, rows, prev), prev)
  {
    if rows != [] { RechainedIsOk(c, rows[1..], Some(LegacyHash(prev, c, rows[0].content))); }
  }

  lemma {:induction false} RechainedContents(c: Collection, rows: seq<LegacyRow>, prev: Option<LegacyHash>)
    ensures Contents(Rechained(c, rows, prev)) == Contents(rows)
  {
    if rows != [] {
      RechainedContents(c, rows[1..], Some(LegacyHash(prev, c, rows[0].content)));
      forall i | 0 <= i < |rows| ensures Rechained(c, rows, prev)[i].content == rows[i].content {
        if i > 0 { assert Contents(rows[1..])[i - 1] == rows[i].content; }
      }
    }
  }

  /** Rechaining depends on the contents only, so doing it twice is doing it once. */
  lemma {:induction false} RechainedByContents(c: Collection, rows: seq<LegacyRow>, rows': seq<LegacyRow>, prev: Option<LegacyHash>)
    requires Contents(rows) == Contents(rows')
    ensures Rechained(c, rows, prev) == Rechained(c, rows', prev)
  {
    assert |rows| == |Contents(rows)| == |rows'|;
    if rows != [] {
      assert Contents(rows)[0] == Contents(rows')[0];
      forall i | 0 <= i < |rows[1..]| ensures rows[1..][i].content == rows'[1..][i].content {
        assert Contents(rows)[i + 1] == Contents(rows')[i + 1];
      }
      RechainedByContents(c, rows[1..], rows'[1..], Some(LegacyHash(prev, c, rows[0].content)));
    }
  }

  lemma RechainIsIdempotent(c: Collection, rows: seq<LegacyRow>)
    ensures Rechained(c, Rechained(c, rows, None), None) == Rechained(c, rows, None)
  {
    RechainedContents(c, rows, None);
    RechainedByContents(c, Rechained(c, rows, None), rows, None);
  }

  /** Equal apart from the "alg" entry, which verify_chain does not read. */
  predicate SameButAlg(a: seq<LegacyRow>, b: seq<LegacyRow>) {
    && |a| == |b|
    && forall i :: 0 <= i < |a| ==>
         && a[i].content == b[i].content
         && a[i].chain.Some? && b[i].chain.Some?
         && a[i].chain.value.prev == b[i].chain.value.prev && a[i].chain.value.hash == b[i].chain.value.hash
  }

  /** verify_chain accepts exactly the lists that rechaining leaves as they are, up to "alg". */
  lemma {:induction false} OkExactlyFixedPoints(c: Collection, rows: seq<LegacyRow>, prev: Option<LegacyHash>)
    ensures ChainOk(c, rows, prev) <==> SameButAlg(rows, Rechained(c, rows, prev))
  {
    if rows != [] {
      var next := Some(LegacyHash(prev, c, rows[0].content));
      var tail := Rechained(c, rows[1..], next);
      OkExactlyFixedPoints(c, rows[1..], next);
      assert Rechained(c, rows, prev) == [Linked(c, rows[0].content, prev)] + tail;
      assert forall i :: 0 <= i < |tail| ==> rows[1..][i] == rows[i + 1] && Rechained(c, rows, prev)[i + 1] == tail[i];
      if SameButAlg(rows, Rechained(c, rows, prev)) {
        forall i | 0 <= i < |tail| ensures rows[1..][i].content == tail[i].content && rows[1..][i].chain.Some? && tail[i].chain.Some? {
          assert rows[i + 1].content == Rechained(c, rows, prev)[i + 1].content;
        }
        assert SameButAlg(rows[1..], tail);
      }
      if ChainOk(c, rows, prev) {
        forall i | 0 <= i < |rows| ensures rows[i].content == Rechained(c, rows, prev)[i].content {
          if i > 0 { assert rows[1..][i - 1] == rows[i]; }
        }
        assert forall i :: 1 <= i < |rows| ==> rows[i] == rows[1..][i - 1];
      }
    }
  }

  /** Row i links to the hash in the row before it and hashes its own content over that. */
  predicate LinkShown(c: Collection, rows: seq<LegacyRow>, prev: Option<LegacyHash>, i: nat)
    requires i < |rows|
  {
    && rows[i].chain.Some?
    && rows[i].chain.value.prev == (if i == 0 then prev else if rows[i - 1].chain.Some? then rows[i - 1].chain.value.hash else None)
    && rows[i].chain.value.hash == Some(LegacyHash(rows[i].chain.value.prev, c, rows[i].content))
  }

  /** verify_chain accepts a list exactly if every row shows its link. */
  lemma {:induction false} ChainOkExactly(c: Collection, rows: seq<LegacyRow>, prev: Option<LegacyHash>)
    ensures ChainOk(c, rows, prev) <==> forall i :: 0 <= i < |rows| ==> LinkShown(c, rows, prev, i)
  {
    if rows != [] {
      var next := Some(LegacyHash(prev, c, rows[0].content));
      ChainOkExactly(c, rows[1..], next);
      if LinkShown(c, rows, prev, 0) {
        forall i | 0 <= i < |rows| - 1 ensures LinkShown(c, rows[1..], next, i) <==> LinkShown(c, rows, prev, i + 1) {
          assert rows[1..][i] == rows[i + 1] && (i > 0 ==> rows[1..][i - 1] == rows[i]);
        }
        if ChainOk(c, rows, prev) {
          forall i | 0 <= i < |rows| ensures LinkShown(c, rows, prev, i) {
            assert i > 0 ==> LinkShown(c, rows[1..], next, i - 1);
          }
        }
      }
    }
  }

  // ---------------------------------------------------------------- appending

  function LastHash(rows: seq<LegacyRow>): Option<LegacyHash> {
    if rows == [] || rows[|rows| - 1].chain.None? then None else rows[|rows| - 1].chain.value.hash
  }

  /** One more linked row at the end of a good chain. */
  lemma {:induction false} AppendKeepsChain(c: Collection, rows: seq<LegacyRow>, content: Content, prev: Option<LegacyHash>)
    requires ChainOk(c, rows, prev)
    ensures ChainOk(c, rows + [Linked(c, content, if rows == [] then prev else LastHash(rows))], prev)
  {
    if rows != [] {
      var last := Linked(c, content, LastHash(rows));
      var next := Some(LegacyHash(prev, c, rows[0].content));
      AppendKeepsChain(c, rows[1..], content, next);
      assert (rows + [last])[1..] == rows[1..] + [last];
      assert rows[1..] != [] ==> rows[1..][|rows[1..]| - 1] == rows[|rows| - 1];
    }
  }

  predicate HasId(rows: seq<LegacyRow>, id: Id) {
    exists i :: 0 <= i < |rows| && rows[i].content.id == id
  }

  /** The index of the first row with the identifier, or the length. */
  function FirstWith(rows: seq<LegacyRow>, id: Id): (n: nat)
    ensures n <= |rows| && (n < |rows| ==> rows[n].content.id == id)
    ensures forall i :: 0 <= i < n ==> rows[i].content.id != id
  {
    if rows == [] || rows[0].content.id == id then 0
    else
      var n := FirstWith(rows[1..], id);
      assert forall i :: 0 < i < 1 + n ==> rows[i] == rows[1..][i - 1];
      1 + n
  }

  datatype Answer = Done(content: Content) | DuplicateId | NotFound | Existing(content: Content)

  function RecordedVerification(book: Book, v: Content): Book
    requires v.VerificationDoc? && Claims in book && Verifications in book && HasId(book[Claims], v.claimId)
  {
    var i := FirstWith(book[Claims], v.claimId);
    assert i < |book[Claims]|;
    var claim := book[Claims][i].content;
    var claim' := if claim.ClaimDoc? then ClaimDoc(claim.id, v.result, claim.evidenceIds + v.evidenceIds, claim.body) else claim;
    book[Verifications := book[Verifications] + [LegacyRow(v, None)]]
        [Claims := book[Claims][i := LegacyRow(claim', book[Claims][i].chain)]]
  }

  /** Every list of the book rebuilt. */
  function RechainedBook(book: Book): (r: Book)
    ensures r.Keys == book.Keys
  {
    map c | c in book :: Rechained(c, book[c], None)
  }

  lemma RechainedBookIsOk(book: Book)
    ensures BookOk(RechainedBook(book))
    ensures forall c :: c in book ==> Contents(RechainedBook(book)[c]) == Contents(book[c])
    ensures RechainedBook(RechainedBook(book)) == RechainedBook(book)
  {
    forall c | c in book
      ensures ChainOk(c, RechainedBook(book)[c], None) && Contents(RechainedBook(book)[c]) == Contents(book[c])
      ensures RechainedBook(RechainedBook(book))[c] == RechainedBook(book)[c]
    {
      RechainedIsOk(c, book[c], None);
      RechainedContents(c, book[c], None);
      RechainIsIdempotent(c, book[c]);
    }
  }

  /** What a recorded verification leaves: it is the last verification, its claim takes its result as status and its
    * evidence besides the old, and every other content stays where it was. */
  lemma VerificationRecorded(book: Book, v: Content, i: nat)
    requires Complete(book) && v.VerificationDoc? && i < |book[Claims]| && book[Claims][i].content.id == v.claimId
    requires forall j :: 0 <= j < i ==> book[Claims][j].content.id != v.claimId
    ensures HasId(book[Claims], v.claimId)
    ensures
      var after := RechainedBook(RecordedVerification(book, v));
      var claim := book[Claims][i].content;
      && Complete(after) && BookOk(after)
      && Contents(after[Verifications]) == Contents(book[Verifications]) + [v]
      && Contents(after[Claims]) == Contents(book[Claims])[i :=
           if claim.ClaimDoc? then ClaimDoc(v.claimId, v.result, claim.evidenceIds + v.evidenceIds, claim.body) else claim]
      && forall c :: c != Claims && c != Verifications ==> Contents(after[c]) == Contents(book[c])
  {
    hide Rechained, ChainOk;
    assert FirstWith(book[Claims], v.claimId) == i;
    var recorded := RecordedVerification(book, v);
    RechainedBookIsOk(recorded);
    var claim := book[Claims][i].content;
    assert Contents(recorded[Claims]) == Contents(book[Claims])[i :=
      if claim.ClaimDoc? then ClaimDoc(v.claimId, v.result, claim.evidenceIds + v.evidenceIds, claim.body) else claim];
    assert Contents(recorded[Verifications]) == Contents(book[Verifications]) + [v];
  }

  /** The lists of these collections are rechained, all others as they were. */
  ghost predicate RechainedUpTo(payload: Book, r: Book, names: seq<Collection>) {
    && r.Keys == payload.Keys
    && forall c :: c in payload ==> r[c] == if c in names then Rechained(c, payload[c], None) else payload[c]
  }

  lemma NoneRechained(payload: Book)
    ensures RechainedUpTo(payload, payload, [])
  {
  }

  lemma RechainOneMore(payload: Book, r: Book, names: seq<Collection>, c: Collection)
    requires RechainedUpTo(payload, r, names) && Complete(payload) && c !in names
    ensures c in payload && c in r && r[c] == payload[c]
    ensures RechainedUpTo(payload, r[c := Rechained(c, payload[c], None)], names + [c])
  {
    hide Rechained;
  }

  lemma AllRechained(payload: Book, r: Book)
    requires RechainedUpTo(payload, r, COLLECTIONS)
    ensures r == RechainedBook(payload)
  {
    hide Rechained;
    forall c ensures c in COLLECTIONS { EveryCollection(c); }
  }

  class EvidenceLedger {
    /** What the backend stores. */
    var book: Book

    constructor ()
      ensures Complete(book) && BookOk(book) && forall c :: c in book ==> book[c] == []
    {
      book := map c | c in COLLECTIONS :: [];
      new;
      forall c ensures c in COLLECTIONS { EveryCollection(c); }
    }

    /** _rechain_payload for one collection. */
    static method RechainRows(c: Collection, rows: seq<LegacyRow>) returns (rebuilt: seq<LegacyRow>)
      ensures rebuilt == Rechained(c, rows, None)
    {
      var previousHash: Option<LegacyHash> := None;
      rebuilt := [];
      for i := 0 to |rows|
        invariant rebuilt + Rechained(c, rows[i..], previousHash) == Rechained(c, rows, None)
      {
        assert rows[i..][0] == rows[i] && rows[i..][1..] == rows[i + 1..];
        var hash := LegacyHash(previousHash, c, rows[i].content);
        rebuilt := rebuilt + [LegacyRow(rows[i].content, Some(Chain(previousHash, Some(hash), "sha256")))];
        previousHash := Some(hash);
      }
    }

    /** _rechain_payload: every collection in turn. */
    static method RechainPayload(payload: Book) returns (r: Book)
      requires Complete(payload)
      ensures r == RechainedBook(payload)
    {
      hide RechainedUpTo, Rechained, RechainedBook;
      r := payload;
      var names := COLLECTIONS;
      NoneRechained(payload);
      for i := 0 to |names|
        invariant RechainedUpTo(payload, r, names[..i])
      {
        var c := names[i];
        NamesDiffer(i);
        RechainOneMore(payload, r, names[..i], c);
        assert names[..i + 1] == names[..i] + [c];
        var rebuilt := RechainRows(c, r[c]);
        r := r[c := rebuilt];
      }
      assert names[..|names|] == names;
      AllRechained(payload, r);
    }

    /** repair_chain. */
    method RepairChain() returns (ok: bool)
      requires Complete(book)
      modifies this
      ensures book == RechainedBook(old(book)) && Complete(book) && BookOk(book) && ok
      ensures forall c :: c in book ==> Contents(book[c]) == Contents(old(book)[c])
    {
      book := RechainPayload(book);
      RechainedBookIsOk(old(book));
      ok := VerifyChain();
    }

    /** verify_chain for one collection. */
    static method VerifyRows(c: Collection, rows: seq<LegacyRow>) returns (ok: bool)
      ensures ok <==> ChainOk(c, rows, None)
    {
      var previousHash: Option<LegacyHash> := None;
      for i := 0 to |rows|
        invariant ChainOk(c, rows, None) <==> ChainOk(c, rows[i..], previousHash)
      {
        assert rows[i..][0] == rows[i] && rows[i..][1..] == rows[i + 1..];
        var chain := rows[i].chain;
        if chain.None? { return false; }
        if chain.value.prev != previousHash { return false; }
        if Some(LegacyHash(previousHash, c, rows[i].content)) != chain.value.hash { return false; }
        previousHash := chain.value.hash;
      }
      ok := true;
    }

    /** verify_chain accepts exactly the books in which every list is a good chain. */
    method VerifyChain() returns (ok: bool)
      requires Complete(book)
      ensures ok <==> BookOk(book)
    {
      var names := COLLECTIONS;
      for i := 0 to |names|
        invariant forall c :: c in names[..i] ==> ChainOk(c, book[c], None)
      {
        var good := VerifyRows(names[i], book[names[i]]);
        if !good { return false; }
        assert forall d :: d in names[..i + 1] <==> d == names[i] || d in names[..i];
      }
      assert names[..|names|] == names;
      forall c ensures c in COLLECTIONS { EveryCollection(c); }
      ok := true;
    }

    /** _append. */
    method Append(c: Collection, content: Content) returns (r: Answer)
      requires Complete(book)
      modifies this
      ensures Complete(book) && (old(BookOk(book)) ==> BookOk(book))
      ensures if HasId(old(book)[c], content.id) then r == DuplicateId && book == old(book)
        else r == Done(content) && book == old(book)[c := old(book)[c] + [Linked(c, content, LastHash(old(book)[c]))]]
    {
      var rows := book[c];
      for i := 0 to |rows|
        invariant forall j :: 0 <= j < i ==> rows[j].content.id != content.id
      {
        if rows[i].content.id == content.id { return DuplicateId; }
      }
      var previousHash := LastHash(rows);
      if ChainOk(c, rows, None) { AppendKeepsChain(c, rows, content, None); }
      book := book[c := rows + [LegacyRow(content, Some(Chain(previousHash, Some(LegacyHash(previousHash, c, content)), "sha256")))]];
      r := Done(content);
    }

    /** record_verification: the verification is added, its claim takes the result and the evidence, and
      * every chain is rebuilt. */
    method RecordVerification(v: Content) returns (r: Answer)
      requires Complete(book) && v.VerificationDoc?
      modifies this
      ensures Complete(book) && (old(BookOk(book)) ==> BookOk(book))
      ensures r == NotFound <==>
        !HasId(old(book)[Claims], v.claimId) || exists e :: e in v.evidenceIds && !HasId(old(book)[Evidence], e)
      ensures r != NotFound ==> (r == DuplicateId <==> HasId(old(book)[Verifications], v.id))
      ensures if r == Done(v) then HasId(old(book)[Claims], v.claimId) && book == RechainedBook(RecordedVerification(old(book), v))
        else book == old(book)
      ensures r == Done(v) || r == NotFound || r == DuplicateId
    {
      var i := FirstWith(book[Claims], v.claimId);
      if i == |book[Claims]| { return NotFound; }
      assert HasId(book[Claims], v.claimId);
      var known := set row | row in book[Evidence] :: row.content.id;
      var missing := v.evidenceIds - known;
      assert forall e :: e in known <==> HasId(book[Evidence], e) by { KnownIds(book[Evidence], known); }
      if missing != {} {
        var e :| e in missing;
        return NotFound;
      }
      assert forall e :: e in v.evidenceIds ==> e in known by {
        assert forall e :: e in v.evidenceIds && e !in known ==> e in missing;
      }
      if FirstWith(book[Verifications], v.id) < |book[Verifications]| { return DuplicateId; }
      var payload: Book := book[Verifications := book[Verifications] + [LegacyRow(v, None)]];
      var claim := payload[Claims][i].content;
      if claim.ClaimDoc? {
        var evidence := claim.evidenceIds + v.evidenceIds;
        claim := ClaimDoc(claim.id, v.result, evidence, claim.body);
      }
      payload := payload[Claims := payload[Claims][i := LegacyRow(claim, payload[Claims][i].chain)]];
      assert payload == RecordedVerification(book, v);
      RechainedBookIsOk(payload);
      book := RechainPayload(payload);
      r := Done(v);
    }

    /** update_scoped_record: the first row with the identifier is replaced when its scope matches. */
    method UpdateScopedRecord(c: Collection, id: Id, body: Json, scope: Scope) returns (r: Answer)
      requires Complete(book)
      modifies this
      ensures Complete(book) && (old(BookOk(book)) ==> BookOk(book))
      ensures r == NotFound ==> book == old(book)
      ensures
        var i := FirstWith(old(book)[c], id);
        if i < |old(book)[c]| && old(book)[c][i].content.ScopedDoc? && old(book)[c][i].content.scope == scope
        then r == Done(ScopedDoc(id, scope, body))
          && book == RechainedBook(old(book)[c := old(book)[c][i := LegacyRow(ScopedDoc(id, scope, body), None)]])
        else r == NotFound
    {
      var rows := book[c];
      var i := 0;
      while i < |rows|
        invariant i <= |rows| && forall j :: 0 <= j < i ==> rows[j].content.id != id
      {
        if rows[i].content.id == id {
          assert FirstWith(rows, id) == i;
          if !(rows[i].content.ScopedDoc? && rows[i].content.scope == scope) { return NotFound; }
          var payload: Book := book[c := rows[i := LegacyRow(ScopedDoc(id, scope, body), None)]];
          RechainedBookIsOk(payload);
          book := RechainPayload(payload);
          return Done(ScopedDoc(id, scope, body));
        }
        i := i + 1;
      }
      r := NotFound;
    }
  }

  lemma KnownIds(rows: seq<LegacyRow>, known: set<Id>)
    requires known == set row | row in rows :: row.content.id
    ensures forall e :: e in known <==> HasId(rows, e)
  {
    forall e ensures e in known <==> HasId(rows, e) {
      if HasId(rows, e) {
        var i :| 0 <= i < |rows| && rows[i].content.id == e;
        assert rows[i] in rows;
      }
    }
  }

  lemma EveryCollection(c: Collection)
    ensures c in COLLECTIONS
  {
    var l := COLLECTIONS;
    match c
    case Claims => assert l[0] == c;
    case Evidence => assert l[1] == c;
    case Verifications => assert l[2] == c;
    case Actions => assert l[3] == c;
    case PolicyDecisions => assert l[4] == c;
    case Outcomes => assert l[5] == c;
    case DecisionEnvelopes => assert l[6] == c;
    case AuthorityDecisions => assert l[7] == c;
    case ExecutionRequests => assert l[8] == c;
    case GatewayDecisions => assert l[9] == c;
    case GatewayDecisionEvents => assert l[10] == c;
    case ShadowExecutionReceipts => assert l[11] == c;
    case ShadowOutcomes => assert l[12] == c;
    case ReplayReports => assert l[13] == c;
    case HistoricalComparisons => assert l[14] == c;
  }

  lemma NamesDiffer(i: nat)
    requires i < |COLLECTIONS|
    ensures COLLECTIONS[i] !in COLLECTIONS[..i]
  {
  }
}
