/** The tamper-evident audit log: every row carries the hash of the one before it.
    The digest is abstract and is not assumed injective: where two chains disagree although their
    heads agree, a concrete collision is computed instead. */
module AuditChain {
  import opened Common

  /** A field as the driver or the ORM hands it over. `Json` is a parsed document and `JsonText` the
      same document as text; an `Instant` is a time, with the zone it happens to be shown in. */
  datatype Value =
    | Null
    | Text(text: string)
    | Number(n: int)
    | Json(document: string)
    | JsonText(document: string)
    | Instant(utc: int, zoneMinutes: int)
    | Other(content: string)

  /** The chained fields, in the order of CHAINED_FIELDS; a missing one is Null. */
  datatype Entry = Entry(
    tenantId: Value, seqNo: Value, actorType: Value, actorId: Value, agentName: Value, agentRunId: Value,
    service: Value, toolName: Value, action: Value, targetType: Value, targetId: Value, requestId: Value,
    sourceIp: Value, outcome: Value, riskLevel: Value, approvalId: Value, metadata: Value, createdAt: Value)

  datatype Row = Row(fields: Entry, prevHash: string, entryHash: string)

  /** `digest(prev, material)` stands for SHA-256 over the previous hash and the canonical JSON,
      `show` for Python's `str`. */
  datatype Crypto = Crypto(digest: (string, Entry) -> string, show: Value -> string)

  function Zeros(n: nat): string {
    if n == 0 then "" else Zeros(n - 1) + "0"
  }

  const GENESIS: string := Zeros(64)

  function Render(c: Crypto, v: Value): Value {
    if v == Null then v else Text(c.show(v))
  }

  /** Everything is stringified but the number, the metadata and what is missing. */
  function Material(c: Crypto, e: Entry): Entry {
    Entry(Render(c, e.tenantId), e.seqNo, Render(c, e.actorType), Render(c, e.actorId), Render(c, e.agentName),
          Render(c, e.agentRunId), Render(c, e.service), Render(c, e.toolName), Render(c, e.action),
          Render(c, e.targetType), Render(c, e.targetId), Render(c, e.requestId), Render(c, e.sourceIp),
          Render(c, e.outcome), Render(c, e.riskLevel), Render(c, e.approvalId), e.metadata,
          Render(c, e.createdAt))
  }

  function EntryHash(c: Crypto, prev: string, e: Entry): string {
    c.digest(prev, Material(c, e))
  }

  /** What `verify_rows` hashes for a row: jsonb text is parsed and the time is put in UTC. */
  function Normal(e: Entry): Entry {
    e.(metadata := if e.metadata.JsonText? then Json(e.metadata.document) else e.metadata,
       createdAt := if e.createdAt.Instant? then Instant(e.createdAt.utc, 0) else e.createdAt)
  }

  /** The two fields are both missing or both there and show the same text. */
  predicate Shows(c: Crypto, u: Value, v: Value) {
    (u == Null <==> v == Null) && (u != Null ==> c.show(u) == c.show(v))
  }

  /** The time as it is hashed, in UTC. */
  function InUtc(v: Value): Value {
    if v.Instant? then Instant(v.utc, 0) else v
  }

  predicate SameDocument(u: Value, v: Value) {
    u == v || ((u.Json? || u.JsonText?) && (v.Json? || v.JsonText?) && u.document == v.document)
  }

  /** Who did it: the tenant's entry number, the actor, the agent, the service and the tool. */
  predicate SameActor(c: Crypto, e: Entry, f: Entry) {
    && Shows(c, e.tenantId, f.tenantId) && e.seqNo == f.seqNo && Shows(c, e.actorType, f.actorType)
    && Shows(c, e.actorId, f.actorId) && Shows(c, e.agentName, f.agentName)
    && Shows(c, e.agentRunId, f.agentRunId) && Shows(c, e.service, f.service) && Shows(c, e.toolName, f.toolName)
  }

  /** What was done: the action, its target, request and source, how it ended, and when. */
  predicate SameDeed(c: Crypto, e: Entry, f: Entry) {
    && Shows(c, e.action, f.action) && Shows(c, e.targetType, f.targetType) && Shows(c, e.targetId, f.targetId)
    && Shows(c, e.requestId, f.requestId) && Shows(c, e.sourceIp, f.sourceIp)
    && Shows(c, e.outcome, f.outcome) && Shows(c, e.riskLevel, f.riskLevel)
    && Shows(c, e.approvalId, f.approvalId) && SameDocument(e.metadata, f.metadata)
    && Shows(c, InUtc(e.createdAt), InUtc(f.createdAt))
  }

  /** Every one of the 18 chained fields says the same in both entries. */
  predicate SaysTheSame(c: Crypto, e: Entry, f: Entry) {
    SameActor(c, e, f) && SameDeed(c, e, f)
  }

  /** Nothing is left out of the hash, and nothing else goes into it: two rows are hashed alike exactly if
      every chained field says the same. */
  lemma {:induction false} EveryFieldIsHashed(c: Crypto, e: Entry, f: Entry)
    ensures Material(c, Normal(e)) == Material(c, Normal(f)) <==> SaysTheSame(c, e, f)
  {
    HashedIfSaid(c, e, f);
    if Material(c, Normal(e)) == Material(c, Normal(f)) {
      ActorIfHashed(c, e, f);
      DeedIfHashed(c, e, f);
    }
  }

  lemma {:induction false} HashedIfSaid(c: Crypto, e: Entry, f: Entry)
    ensures SaysTheSame(c, e, f) ==> Material(c, Normal(e)) == Material(c, Normal(f))
  {
  }

  lemma {:induction false} ActorIfHashed(c: Crypto, e: Entry, f: Entry)
    requires Material(c, Normal(e)) == Material(c, Normal(f))
    ensures SameActor(c, e, f)
  {
    forall u, v | Render(c, u) == Render(c, v)
      ensures Shows(c, u, v)
    {
      ShownIfRendered(c, u, v);
    }
  }

  lemma {:induction false} DeedIfHashed(c: Crypto, e: Entry, f: Entry)
    requires Material(c, Normal(e)) == Material(c, Normal(f))
    ensures SameDeed(c, e, f)
  {
    forall u, v | Render(c, u) == Render(c, v)
      ensures Shows(c, u, v)
    {
      ShownIfRendered(c, u, v);
    }
  }

  lemma {:induction false} ShownIfRendered(c: Crypto, u: Value, v: Value)
    requires Render(c, u) == Render(c, v)
    ensures Shows(c, u, v)
  {
  }

  /** The chain starts from 64 zeros. */
  lemma {:induction false} GenesisIsZeros()
    ensures |GENESIS| == 64 && forall x :: x in GENESIS ==> x == '0'
  {
    ZerosAre(64);
  }

  lemma {:induction false} ZerosAre(n: nat)
    ensures |Zeros(n)| == n && forall x :: x in Zeros(n) ==> x == '0'
  {
    if n > 0 {
      ZerosAre(n - 1);
    }
  }

  /** The hash the row after the first `n` rows must point at. */
  function Head(rows: seq<Row>, n: nat): string
    requires n <= |rows|
  {
    if n == 0 then GENESIS else rows[n - 1].entryHash
  }

  predicate RowOk(c: Crypto, rows: seq<Row>, i: nat)
    requires i < |rows|
  {
    && rows[i].fields.seqNo == Number(i + 1)
    && rows[i].prevHash == Head(rows, i)
    && rows[i].entryHash == EntryHash(c, Head(rows, i), Normal(rows[i].fields))
  }

  predicate Accepted(c: Crypto, rows: seq<Row>) {
    forall i :: 0 <= i < |rows| ==> RowOk(c, rows, i)
  }

  method Read(fields: Entry) returns (entry: Entry)
    ensures entry == Normal(fields)
  {
    entry := fields;
    if entry.metadata.JsonText? {
      entry := entry.(metadata := Json(entry.metadata.document));
    }
    if entry.createdAt.Instant? {
      entry := entry.(createdAt := Instant(entry.createdAt.utc, 0));
    }
  }

  datatype Verdict = Intact(entries: nat, head: string) | Broken(atSeq: Value, entries: nat)

  /** `verify_rows`: accepts exactly the well-chained lists, and otherwise names the first row that
      does not fit; everything before it verifies. */
  method VerifyRows(c: Crypto, rows: seq<Row>) returns (v: Verdict)
    ensures v.Intact? <==> Accepted(c, rows)
    ensures v.Intact? ==> v == Intact(|rows|, Head(rows, |rows|))
    ensures v.Broken? ==> exists k :: 0 <= k < |rows| && Accepted(c, rows[..k]) && !RowOk(c, rows, k)
                                      && v == Broken(rows[k].fields.seqNo, |rows|)
  {
    var prev, expected := GENESIS, 1;
    for i := 0 to |rows|
      invariant prev == Head(rows, i) && expected == i + 1
      invariant forall j :: 0 <= j < i ==> RowOk(c, rows, j)
    {
      var r := rows[i];
      var entry := Read(r.fields);
      if r.fields.seqNo != Number(expected) || r.prevHash != prev || r.entryHash != EntryHash(c, prev, entry) {
        PrefixAccepted(c, rows, i);
        assert !RowOk(c, rows, i);
        return Broken(r.fields.seqNo, |rows|);
      }
      prev, expected := r.entryHash, expected + 1;
    }
    v := Intact(|rows|, prev);
  }

  /** The first rows of a list are accepted if they fit: dropping the tail is not noticed. */
  lemma {:induction false} PrefixAccepted(c: Crypto, rows: seq<Row>, n: nat)
    requires n <= |rows| && forall i :: 0 <= i < n ==> RowOk(c, rows, i)
    ensures Accepted(c, rows[..n]) && Head(rows[..n], n) == Head(rows, n)
  {
    forall i | 0 <= i < n
      ensures RowOk(c, rows[..n], i)
    {
      assert RowOk(c, rows, i) && Head(rows[..n], i) == Head(rows, i);
    }
  }

  /** Reading rows back in another time zone, or with jsonb as text, cannot break the chain: only what the
      fields say counts. */
  lemma {:induction false} RepresentationDoesNotMatter(c: Crypto, stored: seq<Row>, read: seq<Row>)
    requires |stored| == |read|
    requires forall i :: 0 <= i < |read| ==>
               read[i].prevHash == stored[i].prevHash && read[i].entryHash == stored[i].entryHash
               && SaysTheSame(c, read[i].fields, stored[i].fields)
    ensures Accepted(c, read) <==> Accepted(c, stored)
  {
    forall i | 0 <= i < |read|
      ensures RowOk(c, read, i) <==> RowOk(c, stored, i)
    {
      assert Head(read, i) == Head(stored, i);
      EveryFieldIsHashed(c, read[i].fields, stored[i].fields);
    }
  }

  // ------------------------------------------------------------------ tampering leaves evidence

  /** Either two different inputs of `entry_hash` with the same hash, or an input hashing to GENESIS. */
  datatype Evidence =
    | Collision(prevA: string, entryA: Entry, prevB: string, entryB: Entry)
    | GenesisPreimage(prev: string, entry: Entry)

  predicate Genuine(c: Crypto, ev: Evidence) {
    match ev
    case Collision(p, a, q, b) =>
      (p != q || !SaysTheSame(c, a, b)) && c.digest(p, Material(c, a)) == c.digest(q, Material(c, b))
    case GenesisPreimage(p, e) => c.digest(p, Material(c, e)) == GENESIS
  }

  /** Two lists say the same if every chained field of every row does. */
  predicate SameContent(c: Crypto, a: seq<Row>, b: seq<Row>) {
    |a| == |b| && forall i :: 0 <= i < |a| ==> SaysTheSame(c, a[i].fields, b[i].fields)
  }

  /** Two accepted lists with the same head that say different things: walking back from the head
      meets a collision of `entry_hash`, or, if one of them is empty, a preimage of GENESIS. */
  function FindEvidence(c: Crypto, a: seq<Row>, b: seq<Row>): (ev: Evidence)
    requires Accepted(c, a) && Accepted(c, b) && Head(a, |a|) == Head(b, |b|) && !SameContent(c, a, b)
    ensures Genuine(c, ev)
    ensures ev.GenesisPreimage? ==> (a == [] || b == []) && |a| != |b|
    decreases |a|
  {
    if a == [] then
      LastLink(c, b);
      GenesisPreimage(Head(b, |b| - 1), Normal(b[|b| - 1].fields))
    else if b == [] then
      LastLink(c, a);
      GenesisPreimage(Head(a, |a| - 1), Normal(a[|a| - 1].fields))
    else
      LastLink(c, a);
      LastLink(c, b);
      if SameLink(c, a, b) then
        ShorterLists(c, a, b);
        FindEvidence(c, a[..|a| - 1], b[..|b| - 1])
      else
        Collision(Head(a, |a| - 1), Normal(a[|a| - 1].fields), Head(b, |b| - 1), Normal(b[|b| - 1].fields))
  }

  predicate SameLink(c: Crypto, a: seq<Row>, b: seq<Row>)
    requires a != [] && b != []
  {
    Head(a, |a| - 1) == Head(b, |b| - 1)
    && SaysTheSame(c, a[|a| - 1].fields, b[|b| - 1].fields)
  }

  lemma {:induction false} LastLink(c: Crypto, a: seq<Row>)
    requires Accepted(c, a) && a != []
    ensures Head(a, |a|) == EntryHash(c, Head(a, |a| - 1), Normal(a[|a| - 1].fields))
    ensures Material(c, Normal(a[|a| - 1].fields)).seqNo == Number(|a|)
  {
    assert RowOk(c, a, |a| - 1);
  }

  lemma {:induction false} SameContentExtends(c: Crypto, a: seq<Row>, b: seq<Row>)
    requires |a| == |b| > 0 && SameContent(c, a[..|a| - 1], b[..|b| - 1])
    requires SaysTheSame(c, a[|a| - 1].fields, b[|b| - 1].fields)
    ensures SameContent(c, a, b)
  {
    forall i | 0 <= i < |a|
      ensures SaysTheSame(c, a[i].fields, b[i].fields)
    {
      assert i < |a| - 1 ==> a[..|a| - 1][i] == a[i] && b[..|b| - 1][i] == b[i];
    }
  }

  lemma {:induction false} ShorterStillDiffer(c: Crypto, a: seq<Row>, b: seq<Row>)
    requires |a| == |b| > 0 && !SameContent(c, a, b)
    requires SaysTheSame(c, a[|a| - 1].fields, b[|b| - 1].fields)
    ensures !SameContent(c, a[..|a| - 1], b[..|b| - 1])
  {
    if SameContent(c, a[..|a| - 1], b[..|b| - 1]) {
      SameContentExtends(c, a, b);
    }
  }

  lemma {:induction false} WithoutLast(c: Crypto, a: seq<Row>)
    requires Accepted(c, a) && a != []
    ensures Accepted(c, a[..|a| - 1]) && Head(a[..|a| - 1], |a| - 1) == Head(a, |a| - 1)
  {
    PrefixAccepted(c, a, |a| - 1);
  }

  lemma {:induction false} ShorterLists(c: Crypto, a: seq<Row>, b: seq<Row>)
    requires Accepted(c, a) && Accepted(c, b) && |a| == |b| > 0
    requires SameLink(c, a, b) && !SameContent(c, a, b)
    ensures Accepted(c, a[..|a| - 1]) && Accepted(c, b[..|b| - 1])
    ensures Head(a[..|a| - 1], |a| - 1) == Head(b[..|b| - 1], |b| - 1)
    ensures !SameContent(c, a[..|a| - 1], b[..|b| - 1])
  {
    WithoutLast(c, a);
    WithoutLast(c, b);
    ShorterStillDiffer(c, a, b);
  }

  /** Truncation verifies, but keeping the published head as well takes a collision or a preimage. */
  lemma {:induction false} TruncationChangesTheHead(c: Crypto, rows: seq<Row>, n: nat) returns (ev: Evidence)
    requires Accepted(c, rows) && n < |rows|
    ensures Accepted(c, rows[..n])
    ensures Head(rows[..n], n) == Head(rows, |rows|) ==> Genuine(c, ev)
  {
    PrefixAccepted(c, rows, n);
    if Head(rows[..n], n) == Head(rows, |rows|) {
      ev := FindEvidence(c, rows[..n], rows);
    } else {
      ev := GenesisPreimage("", Normal(rows[0].fields));
    }
  }

  /** Putting another row in the place of one is accepted exactly if it has the old number and link, a hash
      that fits what it says, and, unless it is the last row, the old hash. */
  lemma {:induction false} EditIsAcceptedIff(c: Crypto, rows: seq<Row>, k: nat, row: Row)
    requires Accepted(c, rows) && k < |rows|
    ensures Accepted(c, rows[k := row]) <==>
              && row.fields.seqNo == Number(k + 1) && row.prevHash == rows[k].prevHash
              && row.entryHash == c.digest(row.prevHash, Material(c, Normal(row.fields)))
              && (k + 1 < |rows| ==> row.entryHash == rows[k].entryHash)
  {
    var edited := rows[k := row];
    assert RowOk(c, rows, k) && Head(edited, k) == Head(rows, k);
    if Accepted(c, edited) {
      assert RowOk(c, edited, k);
      assert k + 1 < |rows| ==> RowOk(c, edited, k + 1) && RowOk(c, rows, k + 1);
    } else if row.fields.seqNo == Number(k + 1) && row.prevHash == rows[k].prevHash
              && row.entryHash == c.digest(row.prevHash, Material(c, Normal(row.fields)))
              && (k + 1 < |rows| ==> row.entryHash == rows[k].entryHash) {
      forall i | 0 <= i < |edited|
        ensures RowOk(c, edited, i)
      {
        assert RowOk(c, rows, i) && (i != k + 1 ==> Head(edited, i) == Head(rows, i));
      }
    }
  }

  /** Editing a row is noticed, in whichever of the chained fields it says something else, unless the edit
      comes with a collision of the digest or replaces the last row together with its hash. */
  lemma {:induction false} EditIsNoticed(c: Crypto, rows: seq<Row>, k: nat, row: Row)
    requires Accepted(c, rows) && k < |rows|
    requires !SaysTheSame(c, row.fields, rows[k].fields)
    ensures Accepted(c, rows[k := row]) ==>
              || (k + 1 == |rows| && row.entryHash != rows[k].entryHash)
              || Genuine(c, Collision(rows[k].prevHash, Normal(rows[k].fields), row.prevHash, Normal(row.fields)))
  {
    EditIsAcceptedIff(c, rows, k, row);
    assert RowOk(c, rows, k);
    EveryFieldIsHashed(c, row.fields, rows[k].fields);
    EveryFieldIsHashed(c, Normal(rows[k].fields), Normal(row.fields));
  }

  // ------------------------------------------------------------------ rows deleted or rearranged

  /** The rows at the given places, in that order: some may be missing, repeated or out of order. */
  function Picked(rows: seq<Row>, pick: seq<nat>): (picked: seq<Row>)
    requires forall i :: 0 <= i < |pick| ==> pick[i] < |rows|
    ensures |picked| == |pick| && forall i :: 0 <= i < |pick| ==> picked[i] == rows[pick[i]]
  {
    seq(|pick|, i requires 0 <= i < |pick| => rows[pick[i]])
  }

  /** Up to the first row that is out of its place everything fits, and that row does not. */
  lemma {:induction false} FirstOutOfPlace(c: Crypto, rows: seq<Row>, pick: seq<nat>, k: nat)
    requires Accepted(c, rows) && forall i :: 0 <= i < |pick| ==> pick[i] < |rows|
    requires k <= |pick| && forall i :: 0 <= i < k ==> pick[i] == i
    ensures forall i :: 0 <= i < k ==> RowOk(c, Picked(rows, pick), i)
    ensures k < |pick| && pick[k] != k ==> !RowOk(c, Picked(rows, pick), k)
  {
    var picked := Picked(rows, pick);
    forall i | 0 <= i < k
      ensures RowOk(c, picked, i)
    {
      assert pick[i] == i && RowOk(c, rows, pick[i]);
      assert i > 0 ==> picked[i - 1] == rows[pick[i - 1]] == rows[i - 1];
    }
    if k < |pick| {
      assert RowOk(c, rows, pick[k]);
    }
  }

  /** Of all deletions, repetitions and rearrangements of the rows of an accepted list, exactly those are
      accepted that only drop a tail. */
  lemma {:induction false} OnlyTheTailCanGo(c: Crypto, rows: seq<Row>, pick: seq<nat>)
    requires Accepted(c, rows) && forall i :: 0 <= i < |pick| ==> pick[i] < |rows|
    ensures Accepted(c, Picked(rows, pick)) <==> forall i :: 0 <= i < |pick| ==> pick[i] == i
    ensures Accepted(c, Picked(rows, pick)) ==> |pick| <= |rows| && Picked(rows, pick) == rows[..|pick|]
  {
    var picked := Picked(rows, pick);
    if Accepted(c, picked) {
      forall i | 0 <= i < |pick|
        ensures pick[i] == i
      {
        assert RowOk(c, picked, i) && RowOk(c, rows, pick[i]);
      }
      assert |pick| > 0 ==> pick[|pick| - 1] == |pick| - 1;
    } else if forall i :: 0 <= i < |pick| ==> pick[i] == i {
      FirstOutOfPlace(c, rows, pick, |pick|);
    }
  }

  /** `verify_rows` answers with the number that the first row out of its place carries. */
  method VerifyPicked(c: Crypto, rows: seq<Row>, pick: seq<nat>) returns (v: Verdict, ghost first: nat)
    requires Accepted(c, rows) && forall i :: 0 <= i < |pick| ==> pick[i] < |rows|
    ensures v.Intact? <==> forall i :: 0 <= i < |pick| ==> pick[i] == i
    ensures v.Broken? ==> first < |pick| && pick[first] != first && forall i :: 0 <= i < first ==> pick[i] == i
    ensures v.Broken? ==> v == Broken(Number(pick[first] + 1), |pick|)
  {
    OnlyTheTailCanGo(c, rows, pick);
    var picked := Picked(rows, pick);
    v := VerifyRows(c, picked);
    first := 0;
    if v.Broken? {
      ghost var k :| 0 <= k < |picked| && Accepted(c, picked[..k]) && !RowOk(c, picked, k)
                     && v == Broken(picked[k].fields.seqNo, |picked|);
      first := FirstMoved(pick);
      FirstOutOfPlace(c, rows, pick, first);
      BrokenOnce(c, picked, k, first);
      assert RowOk(c, rows, pick[first]);
    }
  }

  lemma {:induction false} FirstMoved(pick: seq<nat>) returns (first: nat)
    requires exists i :: 0 <= i < |pick| && pick[i] != i
    ensures first < |pick| && pick[first] != first && forall i :: 0 <= i < first ==> pick[i] == i
  {
    first := 0;
    while pick[first] == first
      invariant first < |pick| && forall i :: 0 <= i < first ==> pick[i] == i
      decreases |pick| - first
    {
      assert exists i :: first < i < |pick| && pick[i] != i;
      first := first + 1;
    }
  }

  /** Only one row can be the first that does not fit. */
  lemma {:induction false} BrokenOnce(c: Crypto, rows: seq<Row>, k: nat, n: nat)
    requires k < |rows| && n < |rows| && !RowOk(c, rows, k) && !RowOk(c, rows, n)
    requires Accepted(c, rows[..k]) && forall i :: 0 <= i < n ==> RowOk(c, rows, i)
    ensures k == n
  {
    forall i | 0 <= i < k
      ensures RowOk(c, rows, i)
    {
      assert RowOk(c, rows[..k], i) && Head(rows[..k], i) == Head(rows, i);
    }
  }

  // ------------------------------------------------------------------ the store

  function Truncate(v: Value, n: nat): Value {
    if v.Text? && |v.text| > n then Text(v.text[..n]) else v
  }

  /** `v` is `was`, or its first `n` characters if it is longer. */
  predicate CutTo(v: Value, was: Value, n: nat) {
    if was.Text? && n < |was.text| then v.Text? && |v.text| == n && v.text <= was.text else v == was
  }

  /** The entry `append` writes: number, writer, metadata and time are the store's own. */
  function NewEntry(event: Entry, n: int, writer: string, document: string, nowSeconds: int): (e: Entry)
    ensures Normal(e) == e
  {
    event.(seqNo := Number(n), service := Text(writer), metadata := Json(document),
           createdAt := Instant(nowSeconds, 0),
           actorId := Truncate(event.actorId, 256), requestId := Truncate(event.requestId, 128))
  }

  /** One tenant's log; `redact` is the redaction of metadata documents. */
  class AuditStore {
    const crypto: Crypto
    const redact: string -> string
    var rows: seq<Row>

    ghost predicate Valid()
      reads this
    {
      Accepted(crypto, rows)
    }

    constructor (crypto: Crypto, redact: string -> string)
      ensures Valid() && rows == []
    {
      this.crypto := crypto;
      this.redact := redact;
      rows := [];
    }

    /** Appends under the tenant's advisory lock. The writing service is the authenticated caller,
        whatever the event says, and the number and the time are the store's own. */
    method Append(event: Entry, metadata: string, writer: string, nowSeconds: int) returns (row: Row)
      requires Valid()
      modifies this
      ensures Valid() && rows == old(rows) + [row]
      ensures row.fields == event.(
                seqNo := Number(|old(rows)| + 1), service := Text(writer), metadata := Json(redact(metadata)),
                createdAt := Instant(nowSeconds, 0), actorId := row.fields.actorId, requestId := row.fields.requestId)
      ensures CutTo(row.fields.actorId, event.actorId, 256) && CutTo(row.fields.requestId, event.requestId, 128)
    {
      var next, prev := 1, GENESIS;
      if rows != [] {
        var last := rows[|rows| - 1];
        assert RowOk(crypto, rows, |rows| - 1);
        next, prev := last.fields.seqNo.n + 1, last.entryHash;
      }
      var entry := NewEntry(event, next, writer, redact(metadata), nowSeconds);
      row := Row(entry, prev, EntryHash(crypto, prev, entry));
      AppendAccepted(crypto, rows, row);
      rows := rows + [row];
    }

    /** Whatever was appended, `verify` answers that the log is intact. */
    method Verify() returns (v: Verdict)
      requires Valid()
      ensures v == Intact(|rows|, Head(rows, |rows|))
    {
      v := VerifyRows(crypto, rows);
    }
  }

  lemma {:induction false} AppendAccepted(c: Crypto, rows: seq<Row>, row: Row)
    requires Accepted(c, rows)
    requires row.fields.seqNo == Number(|rows| + 1) && row.prevHash == Head(rows, |rows|)
    requires row.entryHash == EntryHash(c, row.prevHash, Normal(row.fields))
    ensures Accepted(c, rows + [row])
  {
    forall i | 0 <= i < |rows| + 1
      ensures RowOk(c, rows + [row], i)
    {
      assert Head(rows + [row], i) == Head(rows, i);
      assert i < |rows| ==> RowOk(c, rows, i);
    }
  }
}
