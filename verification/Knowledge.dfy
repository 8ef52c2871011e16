/** The knowledge base: versioned documents and the index of chunks that retrieval reads. */
module Knowledge {
  import opened Common
  import opened Chunker

  datatype Status = Draft | PendingApproval | Approved | Archived

  datatype Document = Document(lineage: nat, version: int, title: string, content: string, category: string,
                               public: bool, status: Status, structured: Option<string>, flags: seq<string>,
                               createdBy: Option<string>, approvedBy: Option<string>, approvedAt: Option<int>,
                               effective: Option<int>, review: Option<int>, expiration: Option<int>)

  datatype DocumentIn = DocumentIn(title: string, content: string, category: string, public: bool,
                                   structured: Option<string>, effective: Option<int>, review: Option<int>,
                                   expiration: Option<int>)

  /** A patch sets the fields it carries. */
  datatype Patch = Patch(title: Option<string>, content: Option<string>, public: Option<bool>,
                         structured: Option<Option<string>>, effective: Option<Option<int>>,
                         review: Option<Option<int>>, expiration: Option<Option<int>>)

  /** What the service is configured with, and the text functions it calls: normalisation, the signals
      of instruction-like content, and the validation of pricing data (which fails, or rewrites it). */
  datatype Env = Env(window: Window, distinctApprover: bool, normalize: string -> string,
                     signals: string -> seq<string>, pricing: string -> Option<string>)

  /** A chunk in the index, with the name of the model that computed its vector. */
  datatype ChunkRow = ChunkRow(document: nat, index: nat, content: string, model: string)

  /** Rows by identifier. A lineage is named after its first row. */
  type Table = seq<Document>

  // ------------------------------------------------------------------ checks

  predicate DatesOk(effective: Option<int>, review: Option<int>, expiration: Option<int>) {
    && !(effective.Some? && expiration.Some? && expiration.value <= effective.value)
    && !(review.Some? && expiration.Some? && review.value > expiration.value)
  }

  function ValidStructured(env: Env, category: string, data: Option<string>): Result<Option<string>, Error> {
    if category != "pricing" then Ok(data)
    else if data.None? || env.pricing(data.value).None? then Err(ValidationFailed)
    else Ok(env.pricing(data.value))
  }

  function Patched<T>(patch: Option<T>, was: T): T {
    if patch.Some? then patch.value else was
  }

  // ------------------------------------------------------------------ rows

  function NewDocument(env: Env, lineage: nat, body: DocumentIn, author: Option<string>): Result<Document, Error> {
    if !DatesOk(body.effective, body.review, body.expiration) then Err(ValidationFailed)
    else
      var structured := ValidStructured(env, body.category, body.structured);
      if structured.Err? then Err(structured.error)
      else
        var content := env.normalize(body.content);
        Ok(Document(lineage, 1, body.title, content, body.category, body.public, Draft, structured.value,
                    env.signals(content), author, None, None, body.effective, body.review, body.expiration))
  }

  predicate Frozen(doc: Document) {
    doc.status.Approved? || doc.status.Archived?
  }

  /** The row an edit starts from: the next version of a frozen row, or the row itself as a draft. */
  function EditBase(doc: Document, version: int, author: Option<string>): Document {
    if Frozen(doc) then
      doc.(version := version, status := Draft, createdBy := author, approvedBy := None, approvedAt := None)
    else doc.(status := Draft)
  }

  function Edited(env: Env, base: Document, patch: Patch): Result<Document, Error> {
    var content := if patch.content.Some? then env.normalize(patch.content.value) else base.content;
    var effective := Patched(patch.effective, base.effective);
    var review := Patched(patch.review, base.review);
    var expiration := Patched(patch.expiration, base.expiration);
    var structured := ValidStructured(env, base.category, Patched(patch.structured, base.structured));
    if structured.Err? then Err(structured.error)
    else if !DatesOk(effective, review, expiration) then Err(ValidationFailed)
    else
      Ok(base.(title := Patched(patch.title, base.title), content := content,
               flags := if patch.content.Some? then env.signals(content) else base.flags,
               public := Patched(patch.public, base.public), structured := structured.value,
               effective := effective, review := review, expiration := expiration))
  }

  function Approval(env: Env, doc: Document, approver: string, acknowledged: bool, embedded: bool, now: int)
    : Result<Document, Error>
  {
    if !doc.status.PendingApproval? then Err(Conflict)
    else if env.distinctApprover && doc.createdBy == Some(approver) then Err(Forbidden)
    else if doc.flags != [] && !acknowledged then Err(Conflict)
    else if !embedded then Err(UpstreamUnavailable)
    else Ok(doc.(status := Approved, approvedBy := Some(approver), approvedAt := Some(now)))
  }

  function RetiredRow(doc: Document, lineage: nat): Document {
    if doc.lineage == lineage && doc.status.Approved? then doc.(status := Archived) else doc
  }

  /** The approved version of a lineage, retired. */
  function Retired(docs: Table, lineage: nat): (r: Table)
    ensures |r| == |docs| && forall d :: 0 <= d < |docs| ==> r[d] == RetiredRow(docs[d], lineage)
  {
    seq(|docs|, d requires 0 <= d < |docs| => RetiredRow(docs[d], lineage))
  }

  /** The highest version of a lineage, 0 if it has none. */
  function LatestVersion(docs: Table, lineage: nat): (v: int)
    ensures v >= 0 && forall d :: 0 <= d < |docs| && docs[d].lineage == lineage ==> docs[d].version <= v
  {
    if docs == [] then 0
    else
      var rest := LatestVersion(docs[..|docs| - 1], lineage);
      if docs[|docs| - 1].lineage == lineage then Max(rest, docs[|docs| - 1].version) else rest
  }

  // ------------------------------------------------------------------ invariants

  predicate RowValid(env: Env, doc: Document) {
    && (doc.status.Approved? ==> doc.approvedBy.Some?)
    && (doc.approvedBy.Some? ==> Frozen(doc))
    && (env.distinctApprover && doc.approvedBy.Some? ==> doc.createdBy != doc.approvedBy)
    && DatesOk(doc.effective, doc.review, doc.expiration) && doc.version >= 1
    && doc.flags == env.signals(doc.content) && (doc.category == "pricing" ==> doc.structured.Some?)
  }

  /** Two rows of one lineage are different versions, and not both approved. */
  predicate Apart(a: Document, b: Document) {
    a.lineage == b.lineage ==> a.version != b.version && !(a.status.Approved? && b.status.Approved?)
  }

  ghost predicate TableValid(env: Env, docs: Table) {
    && (forall d :: 0 <= d < |docs| ==> RowValid(env, docs[d]) && docs[d].lineage <= d)
    && (forall a, b :: 0 <= a < |docs| && 0 <= b < |docs| && a != b ==> Apart(docs[a], docs[b]))
  }

  function RowsOf(rows: seq<ChunkRow>, d: nat): seq<ChunkRow> {
    if rows == [] then []
    else RowsOf(rows[..|rows| - 1], d) + (if rows[|rows| - 1].document == d then [rows[|rows| - 1]] else [])
  }

  /** The rows of a document's chunks, numbered from 0. */
  function Numbered(d: nat, model: string, chunks: seq<string>): (r: seq<ChunkRow>)
    ensures |r| == |chunks| && forall i :: 0 <= i < |r| ==> r[i].model == model
  {
    if chunks == [] then []
    else Numbered(d, model, chunks[..|chunks| - 1]) + [ChunkRow(d, |chunks| - 1, chunks[|chunks| - 1], model)]
  }

  predicate DocIndexed(env: Env, docs: Table, rows: seq<ChunkRow>, d: nat)
    requires env.window.Ok()
  {
    if d < |docs| && docs[d].approvedBy.Some? then
      RowsOf(rows, d) != [] && RowsOf(rows, d) == Numbered(d, ModelOf(rows, d), Chunks(docs[d].content, env.window))
    else RowsOf(rows, d) == []
  }

  /** The model a document was indexed with. */
  function ModelOf(rows: seq<ChunkRow>, d: nat): string
    requires RowsOf(rows, d) != []
  {
    RowsOf(rows, d)[0].model
  }

  /** The index holds exactly the chunks of every document that was ever approved, all under one model,
      and nothing of any other. */
  ghost predicate IndexValid(env: Env, docs: Table, rows: seq<ChunkRow>)
    requires env.window.Ok()
  {
    forall d: nat :: DocIndexed(env, docs, rows, d)
  }

  /** What never changes about a row: its place in the lineage, its author, and everything but the
      status once it is frozen; an archived row stays archived. */
  predicate Evolved(was: Document, doc: Document) {
    && doc.lineage == was.lineage && doc.version == was.version && doc.createdBy == was.createdBy
    && doc.category == was.category
    && (Frozen(was) ==> doc == was || doc == was.(status := Archived))
  }

  ghost predicate Evolves(was: Table, docs: Table) {
    |was| <= |docs| && forall d :: 0 <= d < |was| ==> Evolved(was[d], docs[d])
  }

  /** An empty patch changes nothing, and a patch sets what it names for good: applying it again to its
      own result changes nothing either. */
  lemma {:induction false} PatchesSettle(env: Env, base: Document, patch: Patch)
    requires RowValid(env, base)
    requires forall x :: env.pricing(x).Some? ==> env.pricing(env.pricing(x).value) == env.pricing(x)
    ensures ValidStructured(env, base.category, base.structured) == Ok(base.structured) ==>
              Edited(env, base, Patch(None, None, None, None, None, None, None)) == Ok(base)
    ensures Edited(env, base, patch).Ok? ==>
              Edited(env, Edited(env, base, patch).value, patch) == Edited(env, base, patch)
  {
  }

  /** Every stored row is sound: its flags are the signals of its text, its dates are in order, a pricing
      document has pricing data, and whoever approved it did not start it where that is required. */
  lemma {:induction false} RowsAreSound(env: Env, docs: Table, d: nat, e: nat)
    requires TableValid(env, docs) && d < |docs| && e < |docs|
    ensures docs[d].flags == env.signals(docs[d].content)
    ensures DatesOk(docs[d].effective, docs[d].review, docs[d].expiration)
    ensures docs[d].category == "pricing" ==> docs[d].structured.Some?
    ensures env.distinctApprover && docs[d].approvedBy.Some? ==> docs[d].createdBy != docs[d].approvedBy
    ensures docs[d].status == Approved ==> docs[d].approvedBy.Some?
    ensures d != e && docs[d].lineage == docs[e].lineage ==>
              docs[d].version != docs[e].version && !(docs[d].status == Approved && docs[e].status == Approved)
  {
    assert RowValid(env, docs[d]);
    assert d != e ==> Apart(docs[d], docs[e]);
  }

  // ------------------------------------------------------------------ one row at a time

  lemma {:induction false} AddKeepsTable(env: Env, docs: Table, doc: Document)
    requires TableValid(env, docs) && RowValid(env, doc) && doc.lineage <= |docs|
    requires forall b :: 0 <= b < |docs| ==> Apart(doc, docs[b])
    ensures TableValid(env, docs + [doc]) && Evolves(docs, docs + [doc])
  {
    var after := docs + [doc];
    forall a, b | 0 <= a < |after| && 0 <= b < |after| && a != b
      ensures Apart(after[a], after[b])
    {
      if a < |docs| && b < |docs| {
        assert Apart(docs[a], docs[b]);
      } else {
        assert a == |docs| ==> Apart(doc, docs[b]);
        assert b == |docs| ==> Apart(doc, docs[a]);
      }
    }
  }

  lemma {:induction false} UpdateKeepsTable(env: Env, docs: Table, d: nat, doc: Document)
    requires TableValid(env, docs) && RowValid(env, doc)
    requires d < |docs| && Evolved(docs[d], doc)
    requires forall b :: 0 <= b < |docs| && b != d ==> Apart(doc, docs[b])
    ensures TableValid(env, docs[d := doc]) && Evolves(docs, docs[d := doc])
  {
    var after := docs[d := doc];
    forall a, b | 0 <= a < |after| && 0 <= b < |after| && a != b
      ensures Apart(after[a], after[b])
    {
      if a != d && b != d {
        assert Apart(docs[a], docs[b]);
      } else {
        assert a == d ==> Apart(doc, docs[b]);
        assert b == d ==> Apart(doc, docs[a]);
      }
    }
  }

  lemma {:induction false} RetiringKeepsTable(env: Env, docs: Table, lineage: nat)
    requires TableValid(env, docs)
    ensures TableValid(env, Retired(docs, lineage)) && Evolves(docs, Retired(docs, lineage))
  {
    var after := Retired(docs, lineage);
    forall a, b | 0 <= a < |after| && 0 <= b < |after| && a != b
      ensures Apart(after[a], after[b])
    {
      assert Apart(docs[a], docs[b]);
    }
  }

  lemma {:induction false} EvolvesTrans(a: Table, b: Table, c: Table)
    requires Evolves(a, b) && Evolves(b, c)
    ensures Evolves(a, c)
  {
    forall d | 0 <= d < |a|
      ensures Evolved(a[d], c[d])
    {
      assert Evolved(a[d], b[d]) && Evolved(b[d], c[d]);
    }
  }

  /** Over every run an approved row keeps its text, author and approver for ever: all it can still do
      is be archived. */
  lemma {:induction false} ApprovedTextIsForever(run: seq<Table>, a: nat, b: nat, d: nat)
    requires forall k :: 0 < k < |run| ==> Evolves(run[k - 1], run[k])
    requires a <= b < |run| && d < |run[a]| && Frozen(run[a][d])
    ensures d < |run[b]| && (run[b][d] == run[a][d] || run[b][d] == run[a][d].(status := Archived))
  {
    if a < b {
      ApprovedTextIsForever(run, a, b - 1, d);
      assert Evolves(run[b - 1], run[b]);
      assert Evolved(run[b - 1][d], run[b][d]);
    }
  }

  // ------------------------------------------------------------------ the operations keep the table

  lemma {:induction false} CreatingKeepsTable(env: Env, docs: Table, body: DocumentIn, author: Option<string>)
    requires TableValid(env, docs) && NewDocument(env, |docs|, body, author).Ok?
    ensures var doc := NewDocument(env, |docs|, body, author).value;
            && TableValid(env, docs + [doc]) && Evolves(docs, docs + [doc]) && doc.approvedBy.None?
  {
    AddKeepsTable(env, docs, NewDocument(env, |docs|, body, author).value);
  }

  /** Editing a frozen row adds the next version; editing any other row turns it back into a draft. */
  lemma {:induction false} EditingKeepsTable(env: Env, docs: Table, d: nat, patch: Patch, author: Option<string>)
    requires TableValid(env, docs) && d < |docs|
    ensures var base := EditBase(docs[d], LatestVersion(docs, docs[d].lineage) + 1, author);
            var doc := Edited(env, base, patch);
            && (doc.Ok? && Frozen(docs[d]) ==>
                  TableValid(env, docs + [doc.value]) && Evolves(docs, docs + [doc.value]))
            && (doc.Ok? && !Frozen(docs[d]) ==>
                  TableValid(env, docs[d := doc.value]) && Evolves(docs, docs[d := doc.value]))
            && (doc.Ok? ==> doc.value.approvedBy.None?)
  {
    var base := EditBase(docs[d], LatestVersion(docs, docs[d].lineage) + 1, author);
    var doc := Edited(env, base, patch);
    if doc.Ok? {
      if Frozen(docs[d]) {
        AddKeepsTable(env, docs, doc.value);
      } else {
        forall b | 0 <= b < |docs| && b != d
          ensures Apart(doc.value, docs[b])
        {
          assert Apart(docs[d], docs[b]);
        }
        UpdateKeepsTable(env, docs, d, doc.value);
      }
    }
  }

  /** Approving retires the lineage's approved version in the same transaction. */
  lemma {:induction false} ApprovingKeepsTable(env: Env, docs: Table, d: nat, doc: Document)
    requires TableValid(env, docs) && d < |docs| && docs[d].status.PendingApproval? && doc.status.Approved?
    requires Evolved(docs[d], doc) && RowValid(env, doc)
    ensures TableValid(env, Retired(docs, doc.lineage)[d := doc]) && Evolves(docs, Retired(docs, doc.lineage)[d := doc])
  {
    var retired := Retired(docs, doc.lineage);
    RetiringKeepsTable(env, docs, doc.lineage);
    forall b | 0 <= b < |docs| && b != d
      ensures Apart(doc, retired[b])
    {
      assert Apart(docs[d], docs[b]);
    }
    UpdateKeepsTable(env, retired, d, doc);
    EvolvesTrans(docs, retired, retired[d := doc]);
  }

  lemma {:induction false} ArchivingKeepsTable(env: Env, docs: Table, d: nat)
    requires TableValid(env, docs) && d < |docs|
    ensures TableValid(env, docs[d := docs[d].(status := Archived)])
    ensures Evolves(docs, docs[d := docs[d].(status := Archived)])
  {
    forall b | 0 <= b < |docs| && b != d
      ensures Apart(docs[d].(status := Archived), docs[b])
    {
      assert Apart(docs[d], docs[b]);
    }
    UpdateKeepsTable(env, docs, d, docs[d].(status := Archived));
  }

  // ------------------------------------------------------------------ the index

  function Deleted(rows: seq<ChunkRow>, d: nat): seq<ChunkRow> {
    if rows == [] then []
    else Deleted(rows[..|rows| - 1], d) + (if rows[|rows| - 1].document == d then [] else [rows[|rows| - 1]])
  }

  lemma {:induction false} RowsAfterDelete(rows: seq<ChunkRow>, d: nat, e: nat)
    ensures RowsOf(Deleted(rows, d), e) == if e == d then [] else RowsOf(rows, e)
  {
    if rows != [] {
      var init, last := rows[..|rows| - 1], rows[|rows| - 1];
      RowsAfterDelete(init, d, e);
      if last.document != d {
        assert (Deleted(init, d) + [last])[..|Deleted(init, d)|] == Deleted(init, d);
      } else {
        assert Deleted(rows, d) == Deleted(init, d);
        assert e != d ==> RowsOf(rows, e) == RowsOf(init, e);
      }
    }
  }

  lemma {:induction false} RowsAppend(rows: seq<ChunkRow>, row: ChunkRow, e: nat)
    ensures RowsOf(rows + [row], e) == RowsOf(rows, e) + (if row.document == e then [row] else [])
  {
    assert (rows + [row])[..|rows|] == rows;
  }

  lemma {:induction false} RowsAfterInsert(rows: seq<ChunkRow>, d: nat, model: string, chunks: seq<string>, e: nat)
    ensures RowsOf(rows + Numbered(d, model, chunks), e)
         == RowsOf(rows, e) + (if e == d then Numbered(d, model, chunks) else [])
  {
    if chunks == [] {
      assert rows + [] == rows && RowsOf(rows, e) + [] == RowsOf(rows, e);
    } else {
      var init := Numbered(d, model, chunks[..|chunks| - 1]);
      var last := ChunkRow(d, |chunks| - 1, chunks[|chunks| - 1], model);
      RowsAfterInsert(rows, d, model, chunks[..|chunks| - 1], e);
      assert rows + (init + [last]) == (rows + init) + [last];
      RowsAppend(rows + init, last, e);
      if e == d {
        assert RowsOf(rows, e) + (init + [last]) == (RowsOf(rows, e) + init) + [last];
      } else {
        assert RowsOf(rows, e) + [] + [] == RowsOf(rows, e) + [];
      }
    }
  }

  function Reindexed(rows: seq<ChunkRow>, d: nat, model: string, chunks: seq<string>): seq<ChunkRow> {
    Deleted(rows, d) + Numbered(d, model, chunks)
  }

  lemma {:induction false} RowsAfterReindex(rows: seq<ChunkRow>, d: nat, model: string, chunks: seq<string>, e: nat)
    ensures RowsOf(Reindexed(rows, d, model, chunks), e)
         == if e == d then Numbered(d, model, chunks) else RowsOf(rows, e)
  {
    RowsAfterDelete(rows, d, e);
    RowsAfterInsert(Deleted(rows, d), d, model, chunks, e);
  }

  /** A change that touches neither the text nor the approval of an approved row keeps the index right. */
  lemma {:induction false} IndexStays(env: Env, docs: Table, after: Table, rows: seq<ChunkRow>)
    requires env.window.Ok() && IndexValid(env, docs, rows) && |docs| <= |after|
    requires forall d :: 0 <= d < |docs| ==>
               after[d].approvedBy == docs[d].approvedBy
               && (docs[d].approvedBy.Some? ==> after[d].content == docs[d].content)
    requires forall d :: |docs| <= d < |after| ==> after[d].approvedBy.None?
    ensures IndexValid(env, after, rows)
  {
    forall d: nat
      ensures DocIndexed(env, after, rows, d)
    {
      assert DocIndexed(env, docs, rows, d);
    }
  }

  lemma {:induction false} ReindexingKeepsIndex(env: Env, docs: Table, rows: seq<ChunkRow>, d: nat, model: string,
                                                doc: Document)
    requires env.window.Ok() && IndexValid(env, docs, rows) && d < |docs|
    requires doc.approvedBy.Some? && doc.content == docs[d].content
    ensures IndexValid(env, Retired(docs, doc.lineage)[d := doc],
                       Reindexed(rows, d, model, Chunks(doc.content, env.window)))
  {
    var chunks := Chunks(doc.content, env.window);
    var after, index := Retired(docs, doc.lineage)[d := doc], Reindexed(rows, d, model, chunks);
    forall e: nat
      ensures DocIndexed(env, after, index, e)
    {
      assert DocIndexed(env, docs, rows, e);
      assert e == d ==> RowsOf(index, e) == Numbered(d, model, chunks) by {
        RowsAfterReindex(rows, d, model, chunks, e);
      }
      assert e < |docs| && e != d ==> after[e] == RetiredRow(docs[e], doc.lineage);
      RowsAfterReindex(rows, d, model, chunks, e);
    }
  }

  /** The whole state after a transaction is as good as before it, and nothing frozen was lost. */
  ghost predicate Step(env: Env, docs: Table, after: Table, index: seq<ChunkRow>)
    requires env.window.Ok()
  {
    TableValid(env, after) && IndexValid(env, after, index) && Evolves(docs, after)
  }

  /** The row that carries an edit, and the rows after it. */
  function EditOutcome(env: Env, docs: Table, d: nat, patch: Patch, author: Option<string>)
    : (Result<nat, Error>, Table)
  {
    if |docs| <= d then (Err(NotFound), docs)
    else
      var doc := Edited(env, EditBase(docs[d], LatestVersion(docs, docs[d].lineage) + 1, author), patch);
      if doc.Err? then (Err(doc.error), docs)
      else if Frozen(docs[d]) then (Ok(|docs|), docs + [doc.value])
      else (Ok(d), docs[d := doc.value])
  }

  /** Dates are in order: a document expires after it takes effect and not before its review. */
  predicate InOrder(effective: Option<int>, review: Option<int>, expiration: Option<int>) {
    && (effective.Some? && expiration.Some? ==> effective.value < expiration.value)
    && (review.Some? && expiration.Some? ==> review.value <= expiration.value)
  }

  /** Pricing documents need pricing data that validates; other data is free. */
  predicate Structured(env: Env, category: string, data: Option<string>) {
    category == "pricing" ==> data.Some? && env.pricing(data.value).Some?
  }

  /** The first version of a document, as it was handed in. */
  predicate IsFirstDraft(env: Env, doc: Document, lineage: nat, body: DocumentIn, author: Option<string>) {
    && doc.lineage == lineage && doc.version == 1 && doc.status == Draft && doc.createdBy == author
    && doc.title == body.title && doc.category == body.category && doc.public == body.public
    && doc.content == env.normalize(body.content) && doc.flags == env.signals(env.normalize(body.content))
    && doc.effective == body.effective && doc.review == body.review && doc.expiration == body.expiration
    && doc.approvedBy == None && doc.approvedAt == None
    && doc.structured == if body.category == "pricing" && body.structured.Some? then env.pricing(body.structured.value)
                         else body.structured
  }

  /** A document is created exactly if its dates are in order and its pricing data validates. */
  lemma {:induction false} CreateMeans(env: Env, lineage: nat, body: DocumentIn, author: Option<string>)
    ensures var r := NewDocument(env, lineage, body, author);
            && (r.Ok? <==> InOrder(body.effective, body.review, body.expiration)
                           && Structured(env, body.category, body.structured))
            && (r.Ok? ==> IsFirstDraft(env, r.value, lineage, body, author))
            && (r.Err? ==> r == Err(ValidationFailed))
  {
  }

  /** What the patch says where it says anything, and what was there before where it does not. */
  predicate Carries(env: Env, doc: Document, was: Document, patch: Patch) {
    && doc.title == (if patch.title.Some? then patch.title.value else was.title)
    && doc.public == (if patch.public.Some? then patch.public.value else was.public)
    && doc.content == (if patch.content.Some? then env.normalize(patch.content.value) else was.content)
    && (if patch.content.Some? then doc.flags == env.signals(doc.content) else doc.flags == was.flags)
    && doc.effective == (if patch.effective.Some? then patch.effective.value else was.effective)
    && doc.review == (if patch.review.Some? then patch.review.value else was.review)
    && doc.expiration == (if patch.expiration.Some? then patch.expiration.value else was.expiration)
    && doc.category == was.category && doc.lineage == was.lineage && doc.status == Draft
    && var data := if patch.structured.Some? then patch.structured.value else was.structured;
       doc.structured == if was.category == "pricing" && data.Some? then env.pricing(data.value) else data
  }

  lemma {:induction false} EditedMeans(env: Env, base: Document, patch: Patch)
    requires base.status == Draft
    ensures var r := Edited(env, base, patch);
            && (r.Ok? <==> Structured(env, base.category,
                                      if patch.structured.Some? then patch.structured.value else base.structured)
                           && InOrder(if patch.effective.Some? then patch.effective.value else base.effective,
                                      if patch.review.Some? then patch.review.value else base.review,
                                      if patch.expiration.Some? then patch.expiration.value else base.expiration))
            && (r.Err? ==> r == Err(ValidationFailed))
            && (r.Ok? ==>
                  && Carries(env, r.value, base, patch) && r.value.createdBy == base.createdBy
                  && r.value.version == base.version && r.value.approvedBy == base.approvedBy
                  && r.value.approvedAt == base.approvedAt)
  {
  }

  /** An edit succeeds exactly if the dates and the pricing data it leads to are valid. It then carries the
      patch: an approved or archived row stays as it is and gets the next version of its lineage, by this
      author and not approved, and any other row becomes a draft in its place, still by its creator. */
  lemma {:induction false} EditMeans(env: Env, docs: Table, d: nat, patch: Patch, author: Option<string>)
    requires TableValid(env, docs) && d < |docs|
    ensures var (r, after) := EditOutcome(env, docs, d, patch, author);
            var was := docs[d];
            && (r.Ok? <==> Structured(env, was.category,
                                      if patch.structured.Some? then patch.structured.value else was.structured)
                           && InOrder(if patch.effective.Some? then patch.effective.value else was.effective,
                                      if patch.review.Some? then patch.review.value else was.review,
                                      if patch.expiration.Some? then patch.expiration.value else was.expiration))
            && (r.Err? ==> r == Err(ValidationFailed) && after == docs)
            && (r.Ok? && (was.status == Approved || was.status == Archived) ==>
                  && r == Ok(|docs|) && |after| == |docs| + 1 && after[..|docs|] == docs
                  && Carries(env, after[|docs|], was, patch) && after[|docs|].createdBy == author
                  && after[|docs|].approvedBy == None && after[|docs|].approvedAt == None
                  && IsNextVersion(docs, after[|docs|]))
            && (r.Ok? && (was.status == Draft || was.status == PendingApproval) ==>
                  && r == Ok(d) && after == docs[d := after[d]]
                  && Carries(env, after[d], was, patch) && after[d].createdBy == was.createdBy
                  && after[d].version == was.version && after[d].approvedBy == None)
  {
    assert RowValid(env, docs[d]);
    EditedMeans(env, EditBase(docs[d], LatestVersion(docs, docs[d].lineage) + 1, author), patch);
    LatestIsReached(docs, d);
  }

  /** One more than the highest version of its lineage. */
  ghost predicate IsNextVersion(docs: Table, doc: Document) {
    && (forall e :: 0 <= e < |docs| && docs[e].lineage == doc.lineage ==> docs[e].version < doc.version)
    && (exists e :: 0 <= e < |docs| && docs[e].lineage == doc.lineage && docs[e].version + 1 == doc.version)
  }

  lemma {:induction false} LatestIsReached(docs: Table, d: nat)
    requires d < |docs| && docs[d].version >= 1
    ensures exists e :: 0 <= e < |docs| && docs[e].lineage == docs[d].lineage
                        && docs[e].version == LatestVersion(docs, docs[d].lineage)
  {
    var lineage := docs[d].lineage;
    var e := LatestOf(docs, lineage);
    assert LatestVersion(docs, lineage) >= docs[d].version;
  }

  lemma {:induction false} LatestOf(docs: Table, lineage: nat) returns (e: nat)
    ensures LatestVersion(docs, lineage) > 0 ==>
              e < |docs| && docs[e].lineage == lineage && docs[e].version == LatestVersion(docs, lineage)
  {
    e := 0;
    if docs != [] {
      var init, last := docs[..|docs| - 1], docs[|docs| - 1];
      e := LatestOf(init, lineage);
      if last.lineage == lineage && last.version >= LatestVersion(init, lineage) {
        e := |docs| - 1;
      }
    }
  }

  /** A document waiting for approval is approved exactly by somebody who may, with its flags seen, and with
      its chunks embedded. */
  lemma {:induction false} ApprovalMeans(env: Env, doc: Document, approver: string, acknowledged: bool,
                                         embedded: bool, now: int)
    ensures var r := Approval(env, doc, approver, acknowledged, embedded, now);
            && (r.Ok? <==> doc.status == PendingApproval && (env.distinctApprover ==> doc.createdBy != Some(approver))
                           && (doc.flags == [] || acknowledged) && embedded)
            && (r.Ok? ==> r.value == doc.(status := Approved, approvedBy := Some(approver), approvedAt := Some(now)))
            && (r == Err(Forbidden) <==>
                  doc.status == PendingApproval && env.distinctApprover && doc.createdBy == Some(approver))
            && (r.Err? ==> r.error in {Forbidden, Conflict, UpstreamUnavailable})
  {
  }

  /** The row is approved, the one that was approved in its lineage is archived, and no other changes. */
  predicate Replaces(was: Table, docs: Table, d: nat, approver: string, now: int)
    requires d < |was|
  {
    && |docs| == |was|
    && forall e :: 0 <= e < |docs| ==>
         docs[e] == if e == d
                    then was[d].(status := Approved, approvedBy := Some(approver), approvedAt := Some(now))
                    else if was[e].lineage == was[d].lineage && was[e].status == Approved
                    then was[e].(status := Archived)
                    else was[e]
  }

  lemma {:induction false} RetiringReplaces(docs: Table, d: nat, doc: Document, approver: string, now: int)
    requires d < |docs|
    requires doc == docs[d].(status := Approved, approvedBy := Some(approver), approvedAt := Some(now))
    ensures Replaces(docs, Retired(docs, doc.lineage)[d := doc], d, approver, now)
  {
  }

  lemma {:induction false} SameStep(env: Env, docs: Table, index: seq<ChunkRow>)
    requires env.window.Ok() && TableValid(env, docs) && IndexValid(env, docs, index)
    ensures Step(env, docs, docs, index)
  {
  }

  lemma {:induction false} AddedStep(env: Env, docs: Table, index: seq<ChunkRow>, doc: Document)
    requires env.window.Ok() && IndexValid(env, docs, index) && doc.approvedBy.None?
    requires TableValid(env, docs + [doc]) && Evolves(docs, docs + [doc])
    ensures Step(env, docs, docs + [doc], index)
  {
    IndexStays(env, docs, docs + [doc], index);
  }

  lemma {:induction false} ChangedStep(env: Env, docs: Table, index: seq<ChunkRow>, d: nat, doc: Document)
    requires env.window.Ok() && IndexValid(env, docs, index) && d < |docs|
    requires docs[d].approvedBy.None? && doc.approvedBy.None?
    requires TableValid(env, docs[d := doc]) && Evolves(docs, docs[d := doc])
    ensures Step(env, docs, docs[d := doc], index)
  {
    IndexStays(env, docs, docs[d := doc], index);
  }

  lemma {:induction false} EditStep(env: Env, docs: Table, index: seq<ChunkRow>, d: nat, patch: Patch,
                                    author: Option<string>)
    requires env.window.Ok() && TableValid(env, docs) && IndexValid(env, docs, index)
    ensures Step(env, docs, EditOutcome(env, docs, d, patch, author).1, index)
  {
    SameStep(env, docs, index);
    if d < |docs| {
      EditingKeepsTable(env, docs, d, patch, author);
      var doc := Edited(env, EditBase(docs[d], LatestVersion(docs, docs[d].lineage) + 1, author), patch);
      assert RowValid(env, docs[d]);
      if doc.Ok? && Frozen(docs[d]) {
        AddedStep(env, docs, index, doc.value);
      } else if doc.Ok? {
        ChangedStep(env, docs, index, d, doc.value);
      }
    }
  }

  lemma {:induction false} ApproveStep(env: Env, docs: Table, index: seq<ChunkRow>, d: nat, model: string,
                                       doc: Document)
    requires env.window.Ok() && TableValid(env, docs) && IndexValid(env, docs, index) && d < |docs|
    requires docs[d].status.PendingApproval? && doc.approvedBy.Some? && RowValid(env, doc)
    requires doc == docs[d].(status := Approved, approvedBy := doc.approvedBy, approvedAt := doc.approvedAt)
    ensures Step(env, docs, Retired(docs, doc.lineage)[d := doc],
                 Reindexed(index, d, model, Chunks(doc.content, env.window)))
  {
    ApprovingKeepsTable(env, docs, d, doc);
    ReindexingKeepsIndex(env, docs, index, d, model, doc);
  }

  lemma {:induction false} ApprovedStep(env: Env, docs: Table, index: seq<ChunkRow>, d: nat, model: string,
                                        doc: Document, approver: string, now: int)
    requires env.window.Ok() && TableValid(env, docs) && IndexValid(env, docs, index) && d < |docs|
    requires docs[d].status.PendingApproval? && (env.distinctApprover ==> docs[d].createdBy != Some(approver))
    requires doc == docs[d].(status := Approved, approvedBy := Some(approver), approvedAt := Some(now))
    ensures Step(env, docs, Retired(docs, doc.lineage)[d := doc],
                 Reindexed(index, d, model, Chunks(doc.content, env.window)))
    ensures Replaces(docs, Retired(docs, doc.lineage)[d := doc], d, approver, now)
  {
    assert RowValid(env, docs[d]);
    ApproveStep(env, docs, index, d, model, doc);
    RetiringReplaces(docs, d, doc, approver, now);
  }

  // ------------------------------------------------------------------ retrieval

  /** The document may be shown to the public now. */
  predicate InForce(doc: Document, now: int, categories: Option<seq<string>>) {
    && doc.status.Approved? && doc.public
    && (doc.effective.None? || doc.effective.value <= now)
    && (doc.expiration.None? || now < doc.expiration.value)
    && (categories.None? || doc.category in categories.value)
  }

  /** The filter of a search under the present model: what may be ranked at all. */
  predicate Eligible(docs: Table, row: ChunkRow, model: string, now: int, categories: Option<seq<string>>) {
    row.document < |docs| && InForce(docs[row.document], now, categories) && row.model == model
  }

  lemma {:induction false} RowIsListed(rows: seq<ChunkRow>, row: ChunkRow)
    ensures row in rows <==> row in RowsOf(rows, row.document)
  {
    if rows != [] {
      var init, last := rows[..|rows| - 1], rows[|rows| - 1];
      RowIsListed(init, row);
      assert rows == init + [last];
    }
  }

  lemma {:induction false} NumberedAt(d: nat, model: string, chunks: seq<string>, row: ChunkRow)
    ensures row in Numbered(d, model, chunks) <==>
              row.document == d && row.model == model && row.index < |chunks| && row.content == chunks[row.index]
  {
    if chunks != [] {
      var init := chunks[..|chunks| - 1];
      NumberedAt(d, model, init, row);
      var last := ChunkRow(d, |chunks| - 1, chunks[|chunks| - 1], model);
      assert Numbered(d, model, chunks) == Numbered(d, model, init) + [last];
    }
  }

  /** The index and the approved texts agree: a row is in the index exactly if it is that numbered chunk
      of a document that was approved, under the model of that document. */
  lemma {:induction false} IndexIsTheApprovedText(env: Env, docs: Table, rows: seq<ChunkRow>, row: ChunkRow)
    requires env.window.Ok() && IndexValid(env, docs, rows)
    ensures row in rows <==>
              && row.document < |docs| && docs[row.document].approvedBy.Some?
              && RowsOf(rows, row.document) != [] && row.model == ModelOf(rows, row.document)
              && var chunks := Chunks(docs[row.document].content, env.window);
                 row.index < |chunks| && row.content == chunks[row.index]
  {
    assert DocIndexed(env, docs, rows, row.document);
    RowIsListed(rows, row);
    if row.document < |docs| && docs[row.document].approvedBy.Some? {
      NumberedAt(row.document, ModelOf(rows, row.document), Chunks(docs[row.document].content, env.window), row);
    }
  }

  /** A search never mixes two versions of one lineage. */
  lemma {:induction false} OneVersionIsSearched(env: Env, docs: Table, a: ChunkRow, b: ChunkRow, model: string,
                                                now: int, categories: Option<seq<string>>)
    requires TableValid(env, docs)
    requires Eligible(docs, a, model, now, categories) && Eligible(docs, b, model, now, categories)
    requires docs[a.document].lineage == docs[b.document].lineage
    ensures a.document == b.document
  {
    assert a.document != b.document ==> Apart(docs[a.document], docs[b.document]);
  }

  /** Everything short enough in a document that is in force and was indexed under the present model can
      be found: some eligible row of the index holds it whole. */
  lemma {:induction false} ApprovedTextCanBeFound(env: Env, docs: Table, rows: seq<ChunkRow>, d: nat, now: int,
                                                  k: nat, a: nat, b: nat) returns (row: ChunkRow)
    requires env.window.Ok() && TableValid(env, docs) && IndexValid(env, docs, rows) && d < |docs|
    requires InForce(docs[d], now, None)
    requires k < |Paragraphs(docs[d].content)| && a <= b <= |Paragraphs(docs[d].content)[k]|
    requires |Paragraphs(docs[d].content)[k]| <= env.window.size || b - a <= env.window.overlap + 1
    ensures RowsOf(rows, d) != [] && row in rows && Eligible(docs, row, ModelOf(rows, d), now, None)
    ensures Within(Paragraphs(docs[d].content)[k][a..b], row.content)
  {
    assert DocIndexed(env, docs, rows, d) && RowValid(env, docs[d]);
    var chunks := Chunks(docs[d].content, env.window);
    var i := PiecesSurvive(docs[d].content, env.window, k, a, b);
    row := ChunkRow(d, i, chunks[i], ModelOf(rows, d));
    IndexIsTheApprovedText(env, docs, rows, row);
  }

  /** Under another model it cannot be found at all: a search sees something of a document if and only if
      the document is in force and was indexed under the model of the search. */
  lemma {:induction false} FoundUnderItsModelOnly(env: Env, docs: Table, rows: seq<ChunkRow>, d: nat, model: string,
                                                  now: int, categories: Option<seq<string>>)
    requires env.window.Ok() && TableValid(env, docs) && IndexValid(env, docs, rows) && d < |docs|
    ensures (exists row :: row in rows && row.document == d && Eligible(docs, row, model, now, categories)) <==>
              && docs[d].status == Approved && docs[d].public
              && (docs[d].effective.Some? ==> docs[d].effective.value <= now)
              && (docs[d].expiration.Some? ==> now < docs[d].expiration.value)
              && (categories.Some? ==> docs[d].category in categories.value)
              && (exists row :: row in rows && row.document == d && row.model == model)
  {
    assert DocIndexed(env, docs, rows, d) && RowValid(env, docs[d]);
    forall row | row in rows && row.document == d
      ensures RowsOf(rows, d) != [] && row.model == ModelOf(rows, d)
    {
      IndexIsTheApprovedText(env, docs, rows, row);
    }
    if RowsOf(rows, d) != [] {
      var row := RowsOf(rows, d)[0];
      OwnRows(rows, d, row);
      RowIsListed(rows, row);
    }
  }

  lemma {:induction false} OwnRows(rows: seq<ChunkRow>, d: nat, row: ChunkRow)
    requires row in RowsOf(rows, d)
    ensures row.document == d
  {
    if rows != [] && row in RowsOf(rows[..|rows| - 1], d) {
      OwnRows(rows[..|rows| - 1], d, row);
    }
  }

  // ------------------------------------------------------------------ who wrote what is approved

  /** Who wrote a version: the first entry started it, the others edited it, in this order. */
  type Authors = seq<Option<string>>

  ghost predicate Written(docs: Table, authors: seq<Authors>) {
    |authors| == |docs| && forall d :: 0 <= d < |docs| ==> authors[d] != [] && authors[d][0] == docs[d].createdBy
  }

  /** The authors after an edit that came to `r`. */
  ghost function AuthorsAfter(authors: seq<Authors>, d: nat, r: Result<nat, Error>, author: Option<string>)
    : seq<Authors>
  {
    if r.Err? then authors
    else if d < |authors| && r.value == d then authors[d := authors[d] + [author]]
    else authors + [[author]]
  }

  lemma {:induction false} EditIsWritten(env: Env, docs: Table, authors: seq<Authors>, d: nat, patch: Patch,
                                         author: Option<string>)
    requires Written(docs, authors)
    ensures var (r, after) := EditOutcome(env, docs, d, patch, author);
            Written(after, AuthorsAfter(authors, d, r, author))
  {
  }

  /** Whoever wrote a draft last may approve it unless distinct approval is on and they also started it;
      who else wrote it does not matter. */
  lemma {:induction false} EditorMayApproveOwnEdit(env: Env, doc: Document, text: string, editor: string, now: int)
    requires doc.status.Draft? && doc.category != "pricing" && RowValid(env, doc)
    ensures var edited := Edited(env, EditBase(doc, 0, Some(editor)),
                                 Patch(None, Some(text), None, None, None, None, None));
            && edited.Ok? && edited.value.content == env.normalize(text)
            && (Approval(env, edited.value.(status := PendingApproval), editor, true, true, now).Ok? <==>
                  !env.distinctApprover || doc.createdBy != Some(editor))
  {
  }

  // ------------------------------------------------------------------ the service

  class KnowledgeService {
    const env: Env
    var model: string
    var docs: Table
    var index: seq<ChunkRow>
    ghost var authors: seq<Authors>

    ghost predicate Valid()
      reads this
    {
      env.window.Ok() && TableValid(env, docs) && IndexValid(env, docs, index) && Written(docs, authors)
    }

    constructor (env: Env, model: string)
      requires env.window.Ok()
      ensures Valid() && this.env == env && this.model == model && docs == []
    {
      this.env, this.model := env, model;
      docs, index, authors := [], [], [];
    }

    /** A restart with another embedding model. The index is left as it is. */
    method ChangeModel(model: string)
      requires Valid()
      modifies this
      ensures Valid() && this.model == model && docs == old(docs) && index == old(index) && authors == old(authors)
    {
      this.model := model;
    }

    /** Over every run: an approved version was not approved by whoever started it, and its approver wrote
        part of it only by editing it later. */
    lemma {:induction false} ApproverDidNotStartIt(d: nat)
      requires Valid() && env.distinctApprover && d < |docs| && docs[d].approvedBy.Some?
      ensures authors[d][0] != docs[d].approvedBy
      ensures docs[d].approvedBy in authors[d] <==> docs[d].approvedBy in authors[d][1..]
    {
      assert RowValid(env, docs[d]);
      assert authors[d] == [authors[d][0]] + authors[d][1..];
    }

    method Create(body: DocumentIn, author: Option<string>) returns (r: Result<nat, Error>)
      requires Valid()
      modifies this
      ensures Valid() && Evolves(old(docs), docs) && index == old(index)
      ensures var doc := NewDocument(env, |old(docs)|, body, author);
              if doc.Ok? then r == Ok(|old(docs)|) && docs == old(docs) + [doc.value]
              else r == Err(doc.error) && docs == old(docs)
      ensures model == old(model) && authors == if r.Ok? then old(authors) + [[author]] else old(authors)
    {
      var doc := NewDocument(env, |docs|, body, author);
      if doc.Err? {
        return Err(doc.error);
      }
      CreatingKeepsTable(env, docs, body, author);
      IndexStays(env, docs, docs + [doc.value], index);
      r := Ok(|docs|);
      docs, authors := docs + [doc.value], authors + [[author]];
    }

    method MaxVersion(lineage: nat) returns (v: int)
      ensures v == LatestVersion(docs, lineage)
    {
      v := 0;
      for n := 0 to |docs|
        invariant v == LatestVersion(docs[..n], lineage)
      {
        assert docs[..n + 1][..n] == docs[..n];
        if docs[n].lineage == lineage {
          v := Max(v, docs[n].version);
        }
      }
      assert docs[..|docs|] == docs;
    }

    /** The edit, not yet flushed. */
    method Prepare(d: nat, patch: Patch, author: Option<string>) returns (r: Result<nat, Error>, after: Table)
      ensures (r, after) == EditOutcome(env, docs, d, patch, author)
    {
      after := docs;
      if |docs| <= d {
        r := Err(NotFound);
        return;
      }
      var latest := MaxVersion(docs[d].lineage);
      var doc := Edited(env, EditBase(docs[d], latest + 1, author), patch);
      if doc.Err? {
        r := Err(doc.error);
      } else if Frozen(docs[d]) {
        r, after := Ok(|docs|), docs + [doc.value];
      } else {
        r, after := Ok(d), docs[d := doc.value];
      }
    }

    /** `r` is the row that carries the edit: the same row, or the next version of a frozen one. */
    method Edit(d: nat, patch: Patch, author: Option<string>) returns (r: Result<nat, Error>)
      requires Valid()
      modifies this
      ensures Valid() && Evolves(old(docs), docs) && index == old(index)
      ensures (r, docs) == EditOutcome(env, old(docs), d, patch, author)
      ensures model == old(model) && authors == AuthorsAfter(old(authors), d, r, author)
    {
      EditIsWritten(env, docs, authors, d, patch, author);
      EditStep(env, docs, index, d, patch, author);
      var answer, after := Prepare(d, patch, author);
      docs, authors := after, AuthorsAfter(authors, d, answer, author);
      r := answer;
    }

    method Submit(d: nat) returns (r: Result<nat, Error>)
      requires Valid()
      modifies this
      ensures Valid() && Evolves(old(docs), docs) && index == old(index)
      ensures model == old(model) && authors == old(authors)
      ensures r == if |old(docs)| <= d then Err(NotFound)
                   else if !old(docs)[d].status.Draft? then Err(Conflict) else Ok(d)
      ensures docs == if r.Ok? then old(docs)[d := old(docs[d]).(status := PendingApproval)] else old(docs)
    {
      if |docs| <= d {
        return Err(NotFound);
      }
      if !docs[d].status.Draft? {
        return Err(Conflict);
      }
      var doc := docs[d].(status := PendingApproval);
      assert RowValid(env, docs[d]);
      forall b | 0 <= b < |docs| && b != d
        ensures Apart(doc, docs[b])
      {
        assert Apart(docs[d], docs[b]);
      }
      UpdateKeepsTable(env, docs, d, doc);
      IndexStays(env, docs, docs[d := doc], index);
      docs := docs[d := doc];
      r := Ok(d);
    }

    /** Approval replaces the lineage's approved version and the document's part of the index, together
        or not at all. `embedded` says whether the embedding provider answered. */
    method Approve(d: nat, approver: string, acknowledged: bool, embedded: bool, now: int)
      returns (r: Result<nat, Error>)
      requires Valid()
      modifies this
      ensures Valid() && Evolves(old(docs), docs) && model == old(model) && authors == old(authors)
      ensures |old(docs)| <= d ==> r == Err(NotFound)
      ensures r == Err(Forbidden) <==> && d < |old(docs)| && old(docs)[d].status == PendingApproval
                                       && env.distinctApprover && old(docs)[d].createdBy == Some(approver)
      ensures r.Err? ==> r.error in {NotFound, Forbidden, Conflict, UpstreamUnavailable}
      ensures r.Ok? <==> && d < |old(docs)| && old(docs)[d].status == PendingApproval
                         && (env.distinctApprover ==> old(docs)[d].createdBy != Some(approver))
                         && (old(docs)[d].flags == [] || acknowledged) && embedded
      ensures r.Ok? ==>
                && r == Ok(d) && |docs| == |old(docs)|
                && index == Reindexed(old(index), d, model, Chunks(docs[d].content, env.window))
                && Replaces(old(docs), docs, d, approver, now)
      ensures r.Err? ==> docs == old(docs) && index == old(index)
    {
      if |docs| <= d {
        return Err(NotFound);
      }
      var doc := Approval(env, docs[d], approver, acknowledged, embedded, now);
      ApprovalMeans(env, docs[d], approver, acknowledged, embedded, now);
      if doc.Err? {
        return Err(doc.error);
      }
      Publish(d, doc.value, approver, now);
      r := Ok(d);
    }

    /** The approved row takes the place of its lineage's, and its chunks that of its old ones. */
    method Publish(d: nat, doc: Document, ghost approver: string, ghost now: int)
      requires Valid() && d < |docs| && docs[d].status == PendingApproval
      requires env.distinctApprover ==> docs[d].createdBy != Some(approver)
      requires doc == docs[d].(status := Approved, approvedBy := Some(approver), approvedAt := Some(now))
      modifies this
      ensures Valid() && Evolves(old(docs), docs) && model == old(model) && authors == old(authors)
      ensures Replaces(old(docs), docs, d, approver, now)
      ensures index == Reindexed(old(index), d, model, Chunks(doc.content, env.window))
    {
      ApprovedStep(env, docs, index, d, model, doc, approver, now);
      var rows := Reindex(d, docs[d].content);
      docs := Retired(docs, doc.lineage)[d := doc];
      index := rows;
    }

    /** The index with the rows of one document replaced. */
    method Reindex(d: nat, content: string) returns (rows: seq<ChunkRow>)
      requires env.window.Ok()
      ensures rows == Reindexed(index, d, model, Chunks(content, env.window))
    {
      var chunks := ChunkText(content, env.window);
      rows := InsertChunks(Deleted(index, d), d, model, chunks);
    }

    static method InsertChunks(before: seq<ChunkRow>, d: nat, model: string, chunks: seq<string>)
      returns (rows: seq<ChunkRow>)
      ensures rows == before + Numbered(d, model, chunks)
    {
      rows := before;
      for i := 0 to |chunks|
        invariant rows == before + Numbered(d, model, chunks[..i])
      {
        assert chunks[..i + 1][..i] == chunks[..i];
        rows := rows + [ChunkRow(d, i, chunks[i], model)];
      }
      assert chunks[..|chunks|] == chunks;
    }

    method Archive(d: nat) returns (r: Result<nat, Error>)
      requires Valid()
      modifies this
      ensures Valid() && Evolves(old(docs), docs) && index == old(index)
      ensures model == old(model) && authors == old(authors)
      ensures r == if d < |old(docs)| then Ok(d) else Err(NotFound)
      ensures docs == if r.Ok? then old(docs)[d := old(docs[d]).(status := Archived)] else old(docs)
    {
      if |docs| <= d {
        return Err(NotFound);
      }
      var doc := docs[d].(status := Archived);
      ArchivingKeepsTable(env, docs, d);
      IndexStays(env, docs, docs[d := doc], index);
      docs := docs[d := doc];
      r := Ok(d);
    }
  }

  // ------------------------------------------------------------------ many authors, one of them approves

  datatype Revision = Revision(editor: string, text: string)

  function Editors(edits: seq<Revision>): (r: Authors)
    ensures |r| == |edits| && forall i :: 0 <= i < |edits| ==> r[i] == Some(edits[i].editor)
  {
    seq(|edits|, i requires 0 <= i < |edits| => Some(edits[i].editor))
  }

  function LastText(content: string, edits: seq<Revision>): string {
    if edits == [] then content else edits[|edits| - 1].text
  }

  /** A draft of this creator, written by these authors, that further edits of its text cannot spoil. */
  ghost predicate DraftOf(svc: KnowledgeService, d: nat, creator: string, authors: Authors, content: string)
    reads svc
  {
    && svc.Valid() && d < |svc.docs| && svc.docs[d].status.Draft? && svc.docs[d].content == content
    && svc.docs[d].createdBy == Some(creator) && svc.authors[d] == authors
    && ValidStructured(svc.env, svc.docs[d].category, svc.docs[d].structured).Ok?
  }

  method Revise(svc: KnowledgeService, d: nat, rev: Revision, ghost creator: string, ghost authors: Authors)
    requires d < |svc.docs| && DraftOf(svc, d, creator, authors, svc.docs[d].content)
    requires forall x :: svc.env.pricing(x).Some? ==> svc.env.pricing(svc.env.pricing(x).value).Some?
    modifies svc
    ensures DraftOf(svc, d, creator, authors + [Some(rev.editor)], svc.env.normalize(rev.text))
  {
    assert RowValid(svc.env, svc.docs[d]);
    var r := svc.Edit(d, Patch(None, Some(rev.text), None, None, None, None, None), Some(rev.editor));
  }

  method SubmitAndApprove(svc: KnowledgeService, d: nat, approver: string, acknowledged: bool, embedded: bool,
                          now: int, ghost creator: string, ghost authors: Authors, ghost content: string)
    returns (r: Result<nat, Error>)
    requires DraftOf(svc, d, creator, authors, content)
    modifies svc
    ensures svc.Valid() && d < |svc.docs| && svc.authors[d] == authors && svc.docs[d].content == content
    ensures r == Err(Forbidden) <==> svc.env.distinctApprover && approver == creator
    ensures r.Ok? <==> (!svc.env.distinctApprover || approver != creator)
                       && (svc.docs[d].flags == [] || acknowledged) && embedded
    ensures r.Err? ==> svc.docs[d].status.PendingApproval?
    ensures r.Ok? ==> svc.docs[d].status.Approved? && svc.docs[d].approvedBy == Some(approver)
  {
    var submitted := svc.Submit(d);
    ApprovalMeans(svc.env, svc.docs[d], approver, acknowledged, embedded, now);
    r := svc.Approve(d, approver, acknowledged, embedded, now);
  }

  function AuthorsOf(creator: string, edits: seq<Revision>): Authors {
    [Some(creator)] + Editors(edits)
  }

  lemma {:induction false} OneMoreAuthor(creator: string, edits: seq<Revision>, n: nat)
    requires n < |edits|
    ensures AuthorsOf(creator, edits[..n + 1]) == AuthorsOf(creator, edits[..n]) + [Some(edits[n].editor)]
  {
    assert Editors(edits[..n + 1]) == Editors(edits[..n]) + [Some(edits[n].editor)];
  }

  method StartDraft(svc: KnowledgeService, body: DocumentIn, creator: string) returns (d: nat)
    requires svc.Valid() && NewDocument(svc.env, |svc.docs|, body, Some(creator)).Ok?
    requires forall x :: svc.env.pricing(x).Some? ==> svc.env.pricing(svc.env.pricing(x).value).Some?
    modifies svc
    ensures DraftOf(svc, d, creator, AuthorsOf(creator, []), svc.env.normalize(body.content))
  {
    var created := svc.Create(body, Some(creator));
    d := created.value;
    assert AuthorsOf(creator, []) == [Some(creator)];
  }

  method WriteTogether(svc: KnowledgeService, body: DocumentIn, creator: string, edits: seq<Revision>)
    returns (d: nat)
    requires svc.Valid() && NewDocument(svc.env, |svc.docs|, body, Some(creator)).Ok?
    requires forall x :: svc.env.pricing(x).Some? ==> svc.env.pricing(svc.env.pricing(x).value).Some?
    modifies svc
    ensures DraftOf(svc, d, creator, AuthorsOf(creator, edits),
                    svc.env.normalize(LastText(body.content, edits)))
  {
    d := StartDraft(svc, body, creator);
    for i := 0 to |edits|
      invariant DraftOf(svc, d, creator, AuthorsOf(creator, edits[..i]),
                        svc.env.normalize(LastText(body.content, edits[..i])))
    {
      Revise(svc, d, edits[i], creator, AuthorsOf(creator, edits[..i]));
      OneMoreAuthor(creator, edits, i);
    }
    assert edits[..|edits|] == edits;
  }

  /** One writes a document, any number of others or the same edit it, it is submitted, and somebody
      approves it. The approver is refused if and only if distinct approval is on and they started it:
      every other editor may approve the text they have just put there. Pricing data that passed its
      validation has to pass it again, in the form it was given. */
  method WriteAndApprove(svc: KnowledgeService, body: DocumentIn, creator: string, edits: seq<Revision>,
                         approver: string, acknowledged: bool, embedded: bool, now: int)
    returns (d: nat, r: Result<nat, Error>)
    requires svc.Valid() && NewDocument(svc.env, |svc.docs|, body, Some(creator)).Ok?
    requires forall x :: svc.env.pricing(x).Some? ==> svc.env.pricing(svc.env.pricing(x).value).Some?
    modifies svc
    ensures svc.Valid() && d < |svc.docs|
    ensures r == Err(Forbidden) <==> svc.env.distinctApprover && approver == creator
    ensures r.Ok? <==> (!svc.env.distinctApprover || approver != creator)
                       && (svc.docs[d].flags == [] || acknowledged) && embedded
    ensures r.Err? ==> svc.docs[d].status.PendingApproval?
    ensures r.Ok? ==> svc.docs[d].status.Approved? && svc.docs[d].approvedBy == Some(approver)
    ensures svc.authors[d] == AuthorsOf(creator, edits)
    ensures svc.docs[d].content == svc.env.normalize(LastText(body.content, edits))
  {
    d := WriteTogether(svc, body, creator, edits);
    r := SubmitAndApprove(svc, d, approver, acknowledged, embedded, now, creator, AuthorsOf(creator, edits),
                          svc.env.normalize(LastText(body.content, edits)));
  }
}
