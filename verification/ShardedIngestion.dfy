/**
 * services/ingestion-service/src/pipeline.py, `_run_pdf_sharded`: a PDF is ingested shard by shard,
 * with a checkpoint in process memory and additive upserts into the chunk table.
 *
 * An attempt is played against a script that says, shard by shard, whether the attempt goes on, is
 * ended by an exception (the checkpoint survives) or by the death of the process (it is lost), and
 * whether that happens before or after the chunk table took the shard. Chunk ids are digests of
 * (document, index) and taken as collision-free, so a document's table is keyed by the index.
 */
module ShardedIngestion {
  import opened Text
  import opened Wrappers

  /** The document: pages, the shard size, and extraction and classification, which are deterministic. */
  datatype Pdf = Pdf(totalPages: nat, shardSize: nat, pageRouting: bool,
                     pageText: nat -> string, shardTexts: (nat, nat) -> seq<string>,
                     classify: nat -> string, hint: string)

  const AUTO := "auto"
  const GENERAL := "general"

  datatype Row = Row(content: string, splitId: nat, domain: string)
  type Table = map<nat, Row>
  datatype Checkpoint = Checkpoint(lastCompletedPage: nat, chunkCountSoFar: nat)
  datatype World = World(table: Table, checkpoint: Option<Checkpoint>)

  datatype Fate = GoesOn | RaisesBefore | RaisesAfter | DiesBefore | DiesAfter {
    predicate Dies() {
      DiesBefore? || DiesAfter?
    }
  }
  type Script = nat -> Fate
  datatype Outcome = Completed(chunkCount: nat, domain: string) | Raised | Died

  // ---------------------------------------------------------------- extraction

  function EndPage(pdf: Pdf, page: nat): nat
    requires page < pdf.totalPages && pdf.shardSize >= 1
  {
    if page + pdf.shardSize - 1 < pdf.totalPages - 1 then page + pdf.shardSize - 1 else pdf.totalPages - 1
  }

  function Kept(text: string): seq<string> {
    if Blank(text) then [] else [text]
  }

  /** The visible texts of pages lo, ..., hi - 1. */
  function PageTexts(pdf: Pdf, lo: nat, hi: nat): seq<string>
    requires lo <= hi
    decreases hi - lo
  {
    if lo == hi then [] else PageTexts(pdf, lo, hi - 1) + Kept(pdf.pageText(hi - 1))
  }

  function VisibleTexts(texts: seq<string>): seq<string> {
    if texts == [] then [] else VisibleTexts(texts[..|texts| - 1]) + Kept(texts[|texts| - 1])
  }

  function ShardDocs(pdf: Pdf, page: nat): seq<string>
    requires page < pdf.totalPages && pdf.shardSize >= 1
  {
    if pdf.pageRouting then PageTexts(pdf, page, EndPage(pdf, page) + 1)
    else VisibleTexts(pdf.shardTexts(page, EndPage(pdf, page)))
  }

  /** The chunk texts of an uninterrupted run from `page` on. */
  function CleanFrom(pdf: Pdf, page: nat): seq<string>
    requires pdf.shardSize >= 1
    decreases pdf.totalPages - page
  {
    if page >= pdf.totalPages then [] else ShardDocs(pdf, page) + CleanFrom(pdf, EndPage(pdf, page) + 1)
  }

  function Clean(pdf: Pdf): seq<string>
    requires pdf.shardSize >= 1
  {
    CleanFrom(pdf, 0)
  }

  // ---------------------------------------------------------------- one attempt

  function RowAt(docs: seq<string>, offset: nat, domain: string, i: nat): Row
    requires offset <= i < offset + |docs|
  {
    Row(docs[i - offset], i, domain)
  }

  function NewRows(docs: seq<string>, offset: nat, domain: string): Table {
    map i: nat | offset <= i < offset + |docs| :: RowAt(docs, offset, domain, i)
  }

  /** The table once the shard's chunks are appended; the clear comes with the append. */
  function Appended(table: Table, clears: bool, docs: seq<string>, offset: nat, domain: string): Table {
    if docs == [] then table else (if clears then map[] else table) + NewRows(docs, offset, domain)
  }

  /** What the loop carries from shard to shard. */
  datatype Loop = Loop(page: nat, offset: nat, clears: bool, domain: string, decided: bool) {
    predicate Classifies(pdf: Pdf, docs: seq<string>) {
      !decided && (pdf.pageRouting ==> docs != [])
    }

    function Label(pdf: Pdf, docs: seq<string>): string {
      if Classifies(pdf, docs) then pdf.classify(page) else domain
    }

    function Next(pdf: Pdf): Loop
      requires page < pdf.totalPages && pdf.shardSize >= 1
    {
      var docs := ShardDocs(pdf, page);
      Loop(EndPage(pdf, page) + 1, offset + |docs|, false, Label(pdf, docs), decided || Classifies(pdf, docs))
    }

    function Append(pdf: Pdf, table: Table): Table
      requires page < pdf.totalPages && pdf.shardSize >= 1
    {
      var docs := ShardDocs(pdf, page);
      Appended(table, clears, docs, offset, Label(pdf, docs))
    }
  }

  function Start(pdf: Pdf, checkpoint: Option<Checkpoint>): Loop {
    var domain := if pdf.hint != AUTO then pdf.hint else GENERAL;
    match checkpoint
    case None => Loop(0, 0, true, domain, pdf.hint != AUTO)
    case Some(c) => Loop(c.lastCompletedPage + 1, c.chunkCountSoFar, false, domain, true)
  }

  /** A shard that goes through: its chunks are in the table and the checkpoint stands behind it. */
  function Advanced(pdf: Pdf, l: Loop, w: World): World
    requires pdf.shardSize >= 1 && l.page < pdf.totalPages
  {
    World(l.Append(pdf, w.table), Some(Checkpoint(EndPage(pdf, l.page), l.Next(pdf).offset)))
  }

  /** One turn of the loop: what it leaves, and how the attempt ends if it ends here. */
  function Turn(pdf: Pdf, l: Loop, w: World, fate: Fate): (World, Option<Outcome>)
    requires pdf.shardSize >= 1 && l.page < pdf.totalPages
  {
    match fate
    case RaisesBefore => (w, Some(Raised))
    case DiesBefore => (World(w.table, None), Some(Died))
    case RaisesAfter => (World(l.Append(pdf, w.table), w.checkpoint), Some(Raised))
    case DiesAfter => (World(l.Append(pdf, w.table), None), Some(Died))
    case GoesOn => (Advanced(pdf, l, w), None)
  }

  function Shards(pdf: Pdf, l: Loop, w: World, script: Script): (World, Outcome)
    requires pdf.shardSize >= 1
    decreases pdf.totalPages - l.page
  {
    if l.page >= pdf.totalPages then
      (World(w.table, None), if script(l.page).Dies() then Died else Completed(l.offset, l.domain))
    else
      var (v, ended) := Turn(pdf, l, w, script(l.page));
      if ended.Some? then (v, ended.value) else Shards(pdf, l.Next(pdf), v, script)
  }

  function Attempt(pdf: Pdf, w: World, script: Script): (World, Outcome)
    requires pdf.shardSize >= 1
  {
    if pdf.totalPages == 0 then (w, Raised) else Shards(pdf, Start(pdf, w.checkpoint), w, script)
  }

  /** Any number of attempts, each from where the last one left table and checkpoint. */
  function Attempts(pdf: Pdf, w: World, scripts: seq<Script>): World
    requires pdf.shardSize >= 1
  {
    if scripts == [] then w
    else Attempt(pdf, Attempts(pdf, w, scripts[..|scripts| - 1]), scripts[|scripts| - 1]).0
  }

  // ---------------------------------------------------------------- the service's state

  /** A shard's document as it is extracted: its text and the number it was given then. */
  datatype ShardDoc = ShardDoc(content: string, splitId: nat)

  function Numbered(texts: seq<string>, offset: nat): (docs: seq<ShardDoc>)
    ensures |docs| == |texts|
  {
    seq(|texts|, k requires 0 <= k < |texts| => ShardDoc(texts[k], offset + k))
  }

  /** The chunk payloads: the index counts the embedded documents, the number comes with the document. */
  function Payloads(docs: seq<ShardDoc>, offset: nat, domain: string): Table {
    map i: nat | offset <= i < offset + |docs| :: PayloadAt(docs, offset, domain, i)
  }

  function PayloadAt(docs: seq<ShardDoc>, offset: nat, domain: string, i: nat): Row
    requires offset <= i < offset + |docs|
  {
    Row(docs[i - offset].content, docs[i - offset].splitId, domain)
  }

  lemma {:induction false} NumberedSnoc(texts: seq<string>, t: string, offset: nat)
    ensures Numbered(texts + [t], offset) == Numbered(texts, offset) + [ShardDoc(t, offset + |texts|)]
  {
  }

  /** The two ways of counting agree: every payload carries its index as its number. */
  lemma {:induction false} PayloadsAreNewRows(texts: seq<string>, offset: nat, domain: string)
    ensures Payloads(Numbered(texts, offset), offset, domain) == NewRows(texts, offset, domain)
  {
  }

  class IngestionService {
    var checkpoints: map<string, Checkpoint>
    var chunks: map<string, Table>

    constructor ()
      ensures checkpoints == map[] && chunks == map[]
    {
      checkpoints, chunks := map[], map[];
    }

    function WorldOf(documentId: string): World
      reads this
    {
      World(if documentId in chunks then chunks[documentId] else map[],
            if documentId in checkpoints then Some(checkpoints[documentId]) else None)
    }

    /** What is kept for the other documents: all of it, save that a death takes every checkpoint. */
    twostate predicate OthersKeptBut(documentId: string, died: bool)
      reads this
    {
      && chunks - {documentId} == old(chunks) - {documentId}
      && checkpoints - {documentId} == if died then map[] else old(checkpoints) - {documentId}
    }

    /** The store takes the chunks only for a document it knows under this tenant. */
    method AppendChunks(documentId: string, known: bool, docs: seq<ShardDoc>, offset: nat, domain: string, clearExisting: bool)
      returns (taken: bool)
      modifies this`chunks
      ensures taken == known
      ensures var w := old(WorldOf(documentId));
              WorldOf(documentId)
              == if !known then w else w.(table := (if clearExisting then map[] else w.table) + Payloads(docs, offset, domain))
      ensures OthersKeptBut(documentId, false)
    {
      if !known {
        return false;
      }
      var table := if clearExisting || documentId !in chunks then map[] else chunks[documentId];
      chunks := chunks[documentId := table + Payloads(docs, offset, domain)];
      return true;
    }

    method SaveCheckpoint(documentId: string, lastCompletedPage: nat, chunkCountSoFar: nat)
      modifies this`checkpoints
      ensures WorldOf(documentId)
              == old(WorldOf(documentId)).(checkpoint := Some(Checkpoint(lastCompletedPage, chunkCountSoFar)))
      ensures OthersKeptBut(documentId, false)
    {
      checkpoints := checkpoints[documentId := Checkpoint(lastCompletedPage, chunkCountSoFar)];
    }

    method DeleteCheckpoint(documentId: string)
      modifies this`checkpoints
      ensures WorldOf(documentId) == old(WorldOf(documentId)).(checkpoint := None)
      ensures OthersKeptBut(documentId, false)
    {
      checkpoints := checkpoints - {documentId};
    }

    /** Process death: the checkpoint cache of every document goes with the process. */
    method Die()
      modifies this`checkpoints
      ensures checkpoints == map[]
    {
      checkpoints := map[];
    }

    static method ExtractShard(pdf: Pdf, page: nat, offset: nat) returns (docs: seq<ShardDoc>)
      requires page < pdf.totalPages && pdf.shardSize >= 1
      ensures docs == Numbered(ShardDocs(pdf, page), offset)
    {
      docs := [];
      var end := EndPage(pdf, page);
      if pdf.pageRouting {
        for p := page to end + 1
          invariant docs == Numbered(PageTexts(pdf, page, p), offset)
        {
          if !Blank(pdf.pageText(p)) {
            NumberedSnoc(PageTexts(pdf, page, p), pdf.pageText(p), offset);
            docs := docs + [ShardDoc(pdf.pageText(p), offset + |docs|)];
          }
        }
      } else {
        var raw := pdf.shardTexts(page, end);
        for k := 0 to |raw|
          invariant docs == Numbered(VisibleTexts(raw[..k]), offset)
        {
          assert raw[..k + 1][..k] == raw[..k];
          if !Blank(raw[k]) {
            NumberedSnoc(VisibleTexts(raw[..k]), raw[k], offset);
            docs := docs + [ShardDoc(raw[k], offset + |docs|)];
          }
        }
        assert raw[..|raw|] == raw;
      }
    }

    /** One turn of the loop: extract, label, append, save the checkpoint, unless the script ends it. */
    method IngestShard(documentId: string, pdf: Pdf, l: Loop, fate: Fate) returns (next: Loop, ended: Option<Outcome>)
      requires pdf.shardSize >= 1 && l.page < pdf.totalPages
      modifies this
      ensures (WorldOf(documentId), ended) == Turn(pdf, l, old(WorldOf(documentId)), fate)
      ensures ended.None? ==> next == l.Next(pdf)
      ensures OthersKeptBut(documentId, ended == Some(Died))
    {
      next := l;
      if fate.RaisesBefore? {
        return l, Some(Raised);
      }
      if fate.DiesBefore? {
        Die();
        return l, Some(Died);
      }
      var docs := ExtractShard(pdf, l.page, l.offset);
      var domain, decided := l.domain, l.decided;
      if !decided && (pdf.pageRouting ==> docs != []) {
        domain, decided := pdf.classify(l.page), true;
      }
      if docs != [] {
        PayloadsAreNewRows(ShardDocs(pdf, l.page), l.offset, domain);
        var _ := AppendChunks(documentId, true, docs, l.offset, domain, l.clears);
      }
      assert WorldOf(documentId) == old(WorldOf(documentId)).(table := l.Append(pdf, old(WorldOf(documentId)).table));
      if fate.RaisesAfter? {
        return l, Some(Raised);
      }
      if fate.DiesAfter? {
        Die();
        return l, Some(Died);
      }
      next := Loop(EndPage(pdf, l.page) + 1, l.offset + |docs|, false, domain, decided);
      SaveCheckpoint(documentId, EndPage(pdf, l.page), next.offset);
      return next, None;
    }

    method RunPdfSharded(documentId: string, pdf: Pdf, script: Script) returns (outcome: Outcome)
      requires pdf.shardSize >= 1
      modifies this
      ensures (WorldOf(documentId), outcome) == Attempt(pdf, old(WorldOf(documentId)), script)
      ensures OthersKeptBut(documentId, outcome.Died?)
    {
      if pdf.totalPages == 0 {
        return Raised;
      }
      ghost var target := Attempt(pdf, WorldOf(documentId), script);
      var l := Start(pdf, if documentId in checkpoints then Some(checkpoints[documentId]) else None);
      while l.page < pdf.totalPages
        invariant Shards(pdf, l, WorldOf(documentId), script) == target
        invariant OthersKeptBut(documentId, false)
        decreases pdf.totalPages - l.page
      {
        var ended: Option<Outcome>;
        l, ended := IngestShard(documentId, pdf, l, script(l.page));
        if ended.Some? {
          return ended.value;
        }
      }
      if script(l.page).Dies() {
        Die();
        return Died;
      }
      DeleteCheckpoint(documentId);
      return Completed(l.offset, l.domain);
    }
  }

  // ---------------------------------------------------------------- what every attempt keeps

  /** What a clean run produces, the fixed label if any, and whether its first shard brings the clear. */
  datatype Goal = Goal(clean: seq<string>, hint: string, clears: bool)

  function GoalOf(pdf: Pdf): Goal
    requires pdf.shardSize >= 1
  {
    Goal(Clean(pdf), pdf.hint, pdf.totalPages > 0 && ShardDocs(pdf, 0) != [])
  }

  /** Row `i` is the clean run's; the label is compared when the caller fixed it. */
  predicate Agrees(g: Goal, row: Row, i: nat) {
    i < |g.clean| && row.content == g.clean[i] && row.splitId == i && (g.hint != AUTO ==> row.domain == g.hint)
  }

  ghost predicate Covers(g: Goal, table: Table, upTo: nat) {
    forall i: nat | i < upTo :: i in table && Agrees(g, table[i], i)
  }

  /** Nothing in the table disagrees with the clean run. */
  ghost predicate Consistent(g: Goal, table: Table) {
    forall i | i in table :: Agrees(g, table[i], i)
  }

  ghost predicate Within(table: Table, n: nat) {
    forall i | i in table :: i < n
  }

  /** The table is exactly the clean run's: indices 0, ..., n - 1 and no leftover. */
  ghost predicate Exact(g: Goal, table: Table) {
    Covers(g, table, |g.clean|) && Within(table, |g.clean|)
  }

  /** Rows beyond the clean run: gone once the first shard cleared, and untouched if it never clears. */
  ghost predicate Leftovers(g: Goal, before: Table, table: Table, cleared: bool) {
    if g.clears then cleared ==> Within(table, |g.clean|)
    else forall i: nat | |g.clean| <= i :: i in table <==> i in before
  }

  ghost predicate Sound(g: Goal, before: Table, table: Table, upTo: nat, cleared: bool) {
    && Covers(g, table, upTo)
    && Leftovers(g, before, table, cleared)
    && (Consistent(g, before) ==> Consistent(g, table))
  }

  predicate ShardPoint(g: Goal, pdf: Pdf, page: nat, offset: nat)
    requires pdf.shardSize >= 1
  {
    offset <= |g.clean| && g.clean[offset..] == CleanFrom(pdf, page)
  }

  /** Between attempts: without a checkpoint anything sound will do; with one, its offset is covered. */
  ghost predicate KeptBetween(g: Goal, pdf: Pdf, before: Table, w: World)
    requires pdf.shardSize >= 1
  {
    match w.checkpoint
    case None => Sound(g, before, w.table, 0, false)
    case Some(c) => ShardPoint(g, pdf, c.lastCompletedPage + 1, c.chunkCountSoFar)
                    && Sound(g, before, w.table, c.chunkCountSoFar, true)
  }

  /** At the head of the loop. */
  ghost predicate LoopKeeps(g: Goal, pdf: Pdf, before: Table, l: Loop, table: Table)
    requires pdf.shardSize >= 1
  {
    && ShardPoint(g, pdf, l.page, l.offset)
    && Sound(g, before, table, l.offset, !l.clears)
    && (l.clears ==> l.offset == 0 && l.page < pdf.totalPages && (g.clears <==> ShardDocs(pdf, l.page) != []))
    && g.hint == pdf.hint && (pdf.hint != AUTO ==> l.domain == pdf.hint && l.decided)
  }

  lemma {:induction false} NextPoint(g: Goal, pdf: Pdf, page: nat, offset: nat)
    requires pdf.shardSize >= 1 && page < pdf.totalPages && ShardPoint(g, pdf, page, offset)
    ensures var docs := ShardDocs(pdf, page);
            && ShardPoint(g, pdf, EndPage(pdf, page) + 1, offset + |docs|)
            && g.clean[offset..offset + |docs|] == docs
  {
    var docs, rest := ShardDocs(pdf, page), CleanFrom(pdf, EndPage(pdf, page) + 1);
    assert g.clean[offset..] == docs + rest;
    assert g.clean[offset..][|docs|..] == g.clean[offset + |docs|..];
    assert g.clean[offset..][..|docs|] == g.clean[offset..offset + |docs|];
  }

  /** Upserting the next slice of the clean run, after the clear if one is due, keeps the table sound. */
  lemma {:induction false} UpsertKeeps(g: Goal, before: Table, table: Table, clears: bool, docs: seq<string>, offset: nat, domain: string)
    requires Sound(g, before, table, offset, !clears)
    requires clears ==> offset == 0 && (g.clears <==> docs != [])
    requires offset + |docs| <= |g.clean| && g.clean[offset..offset + |docs|] == docs
    requires g.hint != AUTO ==> domain == g.hint
    ensures Sound(g, before, Appended(table, clears, docs, offset, domain), offset + |docs|, true)
  {
    forall i: nat | offset <= i < offset + |docs| ensures Agrees(g, RowAt(docs, offset, domain, i), i) {
      assert docs[i - offset] == g.clean[i];
    }
  }

  lemma {:induction false} ShardKeeps(g: Goal, pdf: Pdf, before: Table, l: Loop, table: Table)
    requires pdf.shardSize >= 1 && l.page < pdf.totalPages && LoopKeeps(g, pdf, before, l, table)
    ensures LoopKeeps(g, pdf, before, l.Next(pdf), l.Append(pdf, table))
  {
    var docs := ShardDocs(pdf, l.page);
    NextPoint(g, pdf, l.page, l.offset);
    UpsertKeeps(g, before, table, l.clears, docs, l.offset, l.Label(pdf, docs));
  }

  /** What covers more covers less. */
  lemma {:induction false} Weaken(g: Goal, pdf: Pdf, before: Table, l: Loop, table: Table, checkpoint: Option<Checkpoint>)
    requires pdf.shardSize >= 1 && LoopKeeps(g, pdf, before, l, table)
    requires checkpoint.Some? ==>
               var c := checkpoint.value;
               ShardPoint(g, pdf, c.lastCompletedPage + 1, c.chunkCountSoFar) && c.chunkCountSoFar <= l.offset && !l.clears
    ensures KeptBetween(g, pdf, before, World(table, checkpoint))
  {
  }

  /** The checkpoint an attempt runs with is never ahead of its loop. */
  predicate Behind(g: Goal, pdf: Pdf, l: Loop, checkpoint: Option<Checkpoint>)
    requires pdf.shardSize >= 1
  {
    match checkpoint
    case None => true
    case Some(c) => ShardPoint(g, pdf, c.lastCompletedPage + 1, c.chunkCountSoFar) && c.chunkCountSoFar <= l.offset && !l.clears
  }

  ghost predicate Delivered(g: Goal, before: Table, w: World, outcome: Outcome) {
    outcome.Completed? ==>
      outcome.chunkCount == |g.clean| && Sound(g, before, w.table, |g.clean|, true) && w.checkpoint == None
  }

  /** What an attempt that raises or dies within a shard leaves. */
  lemma {:induction false} EndingKeeps(g: Goal, pdf: Pdf, before: Table, l: Loop, w: World)
    requires pdf.shardSize >= 1 && l.page < pdf.totalPages
    requires LoopKeeps(g, pdf, before, l, w.table) && Behind(g, pdf, l, w.checkpoint)
    ensures KeptBetween(g, pdf, before, w)
    ensures KeptBetween(g, pdf, before, World(w.table, None))
    ensures KeptBetween(g, pdf, before, World(l.Append(pdf, w.table), w.checkpoint))
    ensures KeptBetween(g, pdf, before, World(l.Append(pdf, w.table), None))
  {
    Weaken(g, pdf, before, l, w.table, w.checkpoint);
    Weaken(g, pdf, before, l, w.table, None);
    ShardKeeps(g, pdf, before, l, w.table);
    Weaken(g, pdf, before, l.Next(pdf), l.Append(pdf, w.table), w.checkpoint);
    Weaken(g, pdf, before, l.Next(pdf), l.Append(pdf, w.table), None);
  }

  lemma {:induction false} AdvanceKeeps(g: Goal, pdf: Pdf, before: Table, l: Loop, w: World)
    requires pdf.shardSize >= 1 && l.page < pdf.totalPages && LoopKeeps(g, pdf, before, l, w.table)
    ensures var v := Advanced(pdf, l, w);
            LoopKeeps(g, pdf, before, l.Next(pdf), v.table) && Behind(g, pdf, l.Next(pdf), v.checkpoint)
  {
    ShardKeeps(g, pdf, before, l, w.table);
  }

  /** A turn that ends the attempt. */
  lemma {:induction false} TurnKeeps(g: Goal, pdf: Pdf, before: Table, l: Loop, w: World, fate: Fate)
    requires pdf.shardSize >= 1 && l.page < pdf.totalPages && !fate.GoesOn?
    requires LoopKeeps(g, pdf, before, l, w.table) && Behind(g, pdf, l, w.checkpoint)
    ensures KeptBetween(g, pdf, before, Turn(pdf, l, w, fate).0)
  {
    EndingKeeps(g, pdf, before, l, w);
  }

  /** The end of the loop. */
  lemma {:induction false} EndKeeps(g: Goal, pdf: Pdf, before: Table, l: Loop, table: Table)
    requires pdf.shardSize >= 1 && l.page >= pdf.totalPages && LoopKeeps(g, pdf, before, l, table)
    ensures KeptBetween(g, pdf, before, World(table, None))
    ensures l.offset == |g.clean| && Sound(g, before, table, |g.clean|, true)
  {
    Weaken(g, pdf, before, l, table, None);
    assert CleanFrom(pdf, l.page) == [];
  }

  lemma {:induction false} ShardsKeep(g: Goal, pdf: Pdf, before: Table, l: Loop, w: World, script: Script)
    requires pdf.shardSize >= 1
    requires LoopKeeps(g, pdf, before, l, w.table) && Behind(g, pdf, l, w.checkpoint)
    ensures var (w', outcome) := Shards(pdf, l, w, script);
            KeptBetween(g, pdf, before, w') && Delivered(g, before, w', outcome)
    decreases pdf.totalPages - l.page
  {
    if l.page >= pdf.totalPages {
      EndKeeps(g, pdf, before, l, w.table);
    } else if !script(l.page).GoesOn? {
      TurnKeeps(g, pdf, before, l, w, script(l.page));
    } else {
      AdvanceKeeps(g, pdf, before, l, w);
      ShardsKeep(g, pdf, before, l.Next(pdf), Advanced(pdf, l, w), script);
    }
  }

  lemma {:induction false} FreshStartKeeps(g: Goal, pdf: Pdf, before: Table, table: Table)
    requires pdf.shardSize >= 1 && pdf.totalPages > 0 && Sound(g, before, table, 0, false)
    requires g.clean == CleanFrom(pdf, 0) && g.hint == pdf.hint && (g.clears <==> ShardDocs(pdf, 0) != [])
    ensures LoopKeeps(g, pdf, before, Start(pdf, None), table)
  {
    assert g.clean[0..] == g.clean;
  }

  lemma {:induction false} ResumedStartKeeps(g: Goal, pdf: Pdf, before: Table, table: Table, c: Checkpoint)
    requires pdf.shardSize >= 1 && g.hint == pdf.hint
    requires ShardPoint(g, pdf, c.lastCompletedPage + 1, c.chunkCountSoFar) && Sound(g, before, table, c.chunkCountSoFar, true)
    ensures LoopKeeps(g, pdf, before, Start(pdf, Some(c)), table) && Behind(g, pdf, Start(pdf, Some(c)), Some(c))
  {
  }

  lemma {:induction false} StartKeeps(g: Goal, pdf: Pdf, before: Table, w: World)
    requires pdf.shardSize >= 1 && pdf.totalPages > 0
    requires KeptBetween(g, pdf, before, w)
    requires g.clean == CleanFrom(pdf, 0) && g.hint == pdf.hint && (g.clears <==> ShardDocs(pdf, 0) != [])
    ensures LoopKeeps(g, pdf, before, Start(pdf, w.checkpoint), w.table)
    ensures Behind(g, pdf, Start(pdf, w.checkpoint), w.checkpoint)
  {
    match w.checkpoint {
      case None => FreshStartKeeps(g, pdf, before, w.table);
      case Some(c) => ResumedStartKeeps(g, pdf, before, w.table, c);
    }
  }

  lemma {:induction false} AttemptKeeps(pdf: Pdf, before: Table, w: World, script: Script)
    requires pdf.shardSize >= 1
    requires KeptBetween(GoalOf(pdf), pdf, before, w)
    ensures var (w', outcome) := Attempt(pdf, w, script);
            KeptBetween(GoalOf(pdf), pdf, before, w') && Delivered(GoalOf(pdf), before, w', outcome)
  {
    if pdf.totalPages > 0 {
      StartKeeps(GoalOf(pdf), pdf, before, w);
      ShardsKeep(GoalOf(pdf), pdf, before, Start(pdf, w.checkpoint), w, script);
    }
  }

  /** Over any sequence of attempts the table never comes to disagree with the clean run. */
  lemma {:induction false} AttemptsKeep(pdf: Pdf, before: Table, scripts: seq<Script>)
    requires pdf.shardSize >= 1
    ensures KeptBetween(GoalOf(pdf), pdf, before, Attempts(pdf, World(before, None), scripts))
  {
    if scripts != [] {
      AttemptsKeep(pdf, before, scripts[..|scripts| - 1]);
      AttemptKeeps(pdf, before, Attempts(pdf, World(before, None), scripts[..|scripts| - 1]), scripts[|scripts| - 1]);
    }
  }

  /**
   * Whatever attempt failed before, and if nothing else touched the rows (CompletionIff says what if the document
   * is deleted in between), an attempt that completes returns the clean run's chunk count, and leaves
   * exactly the clean run's table iff the first shard had something to clear with or no stale row lay
   * beyond the clean run.
   */
  lemma {:induction false} RetriesEqualCleanRun(pdf: Pdf, before: Table, scripts: seq<Script>, last: Script)
    requires pdf.shardSize >= 1
    ensures var g, (w, outcome) := GoalOf(pdf), Attempt(pdf, Attempts(pdf, World(before, None), scripts), last);
            outcome.Completed? ==>
              && outcome.chunkCount == |g.clean|
              && Covers(g, w.table, |g.clean|)
              && w.checkpoint == None
              && (Exact(g, w.table) <==> g.clears || Within(before, |g.clean|))
  {
    AttemptsKeep(pdf, before, scripts);
    AttemptKeeps(pdf, before, Attempts(pdf, World(before, None), scripts), last);
    var (w, outcome) := Attempt(pdf, Attempts(pdf, World(before, None), scripts), last);
    if outcome.Completed? {
      ExactOrStale(GoalOf(pdf), before, w.table);
    }
  }

  lemma {:induction false} ExactOrStale(g: Goal, before: Table, table: Table)
    requires Sound(g, before, table, |g.clean|, true)
    ensures Exact(g, table) <==> g.clears || Within(before, |g.clean|)
  {
  }

  /** With a fixed domain the retried run ends just as one uninterrupted run on an empty store does. */
  lemma {:induction false} RetriesRefineOneRun(pdf: Pdf, before: Table, scripts: seq<Script>, last: Script)
    requires pdf.shardSize >= 1 && pdf.hint != AUTO
    requires GoalOf(pdf).clears || Within(before, |Clean(pdf)|)
    ensures var (w, outcome) := Attempt(pdf, Attempts(pdf, World(before, None), scripts), last);
            outcome.Completed? ==> (w, outcome) == Attempt(pdf, World(map[], None), _ => GoesOn)
  {
    var (w, outcome) := Attempt(pdf, Attempts(pdf, World(before, None), scripts), last);
    var calm: Script := _ => GoesOn;
    if outcome.Completed? {
      RetriesEqualCleanRun(pdf, before, scripts, last);
      RetriesEqualCleanRun(pdf, map[], [], calm);
      CalmCompletes(pdf, Start(pdf, None), World(map[], None), calm);
      ExactTablesEqual(GoalOf(pdf), w.table, Attempt(pdf, World(map[], None), calm).0.table);
      AttemptDomain(pdf, Attempts(pdf, World(before, None), scripts), last);
      AttemptDomain(pdf, World(map[], None), calm);
    }
  }

  lemma {:induction false} ExactTablesEqual(g: Goal, a: Table, b: Table)
    requires g.hint != AUTO && Exact(g, a) && Exact(g, b)
    ensures a == b
  {
    assert forall i | i in a :: i in b && a[i] == b[i];
  }

  lemma {:induction false} AttemptDomain(pdf: Pdf, w: World, script: Script)
    requires pdf.shardSize >= 1 && pdf.hint != AUTO
    ensures var outcome := Attempt(pdf, w, script).1; outcome.Completed? ==> outcome.domain == pdf.hint
  {
    CompletedDomain(pdf, Start(pdf, w.checkpoint), w, script);
  }

  lemma {:induction false} CompletedDomain(pdf: Pdf, l: Loop, w: World, script: Script)
    requires pdf.shardSize >= 1 && l.decided
    ensures var (w', outcome) := Shards(pdf, l, w, script); outcome.Completed? ==> outcome.domain == l.domain
    decreases pdf.totalPages - l.page
  {
    if l.page < pdf.totalPages && script(l.page).GoesOn? {
      var next := l.Next(pdf);
      CompletedDomain(pdf, next, World(l.Append(pdf, w.table), Some(Checkpoint(EndPage(pdf, l.page), next.offset))), script);
    }
  }

  lemma {:induction false} CalmCompletes(pdf: Pdf, l: Loop, w: World, calm: Script)
    requires pdf.shardSize >= 1 && forall p: nat :: calm(p) == GoesOn
    ensures Shards(pdf, l, w, calm).1.Completed?
    decreases pdf.totalPages - l.page
  {
    if l.page < pdf.totalPages {
      var next := l.Next(pdf);
      CalmCompletes(pdf, next, World(l.Append(pdf, w.table), Some(Checkpoint(EndPage(pdf, l.page), next.offset))), calm);
    }
  }

  /** Whether a shard that goes wrong is in the table: not if it went wrong before the append, all of it if after. */
  lemma {:induction false} TurnWrites(pdf: Pdf, l: Loop, w: World, fate: Fate)
    requires pdf.shardSize >= 1 && l.page < pdf.totalPages
    ensures var docs, v := ShardDocs(pdf, l.page), Turn(pdf, l, w, fate).0;
            if fate.RaisesBefore? || fate.DiesBefore? then v.table == w.table
            else
              && (forall i: nat | l.offset <= i < l.offset + |docs| :: i in v.table && v.table[i].content == docs[i - l.offset])
              && (!l.clears || docs == [] ==>
                    forall i: nat | i < l.offset || l.offset + |docs| <= i :: (i in v.table <==> i in w.table)
                                                                           && (i in w.table ==> v.table[i] == w.table[i]))
              && (l.clears && docs != [] ==> forall i: nat | i in v.table :: l.offset <= i < l.offset + |docs|)
  {
    var docs := ShardDocs(pdf, l.page);
    forall i: nat | l.offset <= i < l.offset + |docs|
      ensures RowAt(docs, l.offset, l.Label(pdf, docs), i).content == docs[i - l.offset]
    {
    }
  }

  // ---------------------------------------------------------------- where an attempt stops

  /** The first page of the first shard that does not go on, from `page` on; beyond the last page if all do. */
  function StopPage(pdf: Pdf, page: nat, script: Script): (p: nat)
    requires pdf.shardSize >= 1
    ensures page <= p
    decreases pdf.totalPages - page
  {
    if page >= pdf.totalPages || script(page) != GoesOn then page else StopPage(pdf, EndPage(pdf, page) + 1, script)
  }

  /** How many chunks the shards before that one have. */
  function ChunksUntilStop(pdf: Pdf, page: nat, script: Script): nat
    requires pdf.shardSize >= 1
    decreases pdf.totalPages - page
  {
    if page >= pdf.totalPages || script(page) != GoesOn then 0
    else |ShardDocs(pdf, page)| + ChunksUntilStop(pdf, EndPage(pdf, page) + 1, script)
  }

  /** They are the clean run's, less those from there on. */
  lemma {:induction false} ChunksUntilStopAre(pdf: Pdf, page: nat, script: Script)
    requires pdf.shardSize >= 1
    ensures ChunksUntilStop(pdf, page, script) + |CleanFrom(pdf, StopPage(pdf, page, script))| == |CleanFrom(pdf, page)|
    decreases pdf.totalPages - page
  {
    if page < pdf.totalPages && script(page) == GoesOn {
      ChunksUntilStopAre(pdf, EndPage(pdf, page) + 1, script);
    }
  }

  /** The checkpoint an attempt leaves that raises in the shard at `stop`: behind the shard before it, or as it was. */
  function LeftAt(page: nat, offset: nat, before: Option<Checkpoint>, stop: nat, chunks: nat): Option<Checkpoint>
    requires page <= stop
  {
    if stop == page then before else Some(Checkpoint(stop - 1, offset + chunks))
  }

  /** How an attempt ends that stops in the shard at `stop`. */
  predicate EndsAt(pdf: Pdf, script: Script, stop: nat, left: Option<Checkpoint>, v: World, outcome: Outcome) {
    && (outcome.Raised? <==> stop < pdf.totalPages && (script(stop).RaisesBefore? || script(stop).RaisesAfter?))
    && v.checkpoint == if outcome.Raised? then left else None
  }

  lemma {:induction false} StopsHere(pdf: Pdf, l: Loop, w: World, script: Script)
    requires pdf.shardSize >= 1 && (l.page >= pdf.totalPages || script(l.page) != GoesOn)
    ensures var (v, outcome) := Shards(pdf, l, w, script); EndsAt(pdf, script, l.page, w.checkpoint, v, outcome)
  {
  }

  lemma {:induction false} StopsBehind(pdf: Pdf, l: Loop, w: World, script: Script, stop: nat, chunks: nat)
    requires pdf.shardSize >= 1
    requires stop == StopPage(pdf, l.page, script) && chunks == ChunksUntilStop(pdf, l.page, script)
    ensures var (v, outcome) := Shards(pdf, l, w, script);
            EndsAt(pdf, script, stop, LeftAt(l.page, l.offset, w.checkpoint, stop, chunks), v, outcome)
    decreases pdf.totalPages - l.page
  {
    if l.page >= pdf.totalPages || script(l.page) != GoesOn {
      StopsHere(pdf, l, w, script);
    } else {
      var next := l.Next(pdf);
      var rest := ChunksUntilStop(pdf, next.page, script);
      StopsBehind(pdf, next, Advanced(pdf, l, w), script, stop, rest);
      assert chunks == |ShardDocs(pdf, l.page)| + rest && (stop == next.page ==> rest == 0);
    }
  }

  /**
   * An attempt that raises keeps its checkpoint at the end of the last shard it finished, with the chunks so far
   * (ChunksUntilStopAre), or as it was if it finished none; one that dies or completes leaves none.
   */
  lemma {:induction false} AttemptStops(pdf: Pdf, w: World, script: Script)
    requires pdf.shardSize >= 1 && pdf.totalPages > 0
    ensures var (v, outcome), l := Attempt(pdf, w, script), Start(pdf, w.checkpoint);
            var stop := StopPage(pdf, l.page, script);
            && (outcome.Raised? <==> stop < pdf.totalPages && (script(stop).RaisesBefore? || script(stop).RaisesAfter?))
            && (outcome.Raised? && stop == l.page ==> v.checkpoint == w.checkpoint)
            && (outcome.Raised? && stop > l.page ==>
                  v.checkpoint == Some(Checkpoint(stop - 1, l.offset + ChunksUntilStop(pdf, l.page, script))))
            && (!outcome.Raised? ==> v.checkpoint == None)
  {
    var l := Start(pdf, w.checkpoint);
    StopsBehind(pdf, l, w, script, StopPage(pdf, l.page, script), ChunksUntilStop(pdf, l.page, script));
  }

  // ---------------------------------------------------------------- the document is deleted between attempts

  /** An attempt, or the worker's deletion of the document's chunks, which leaves the checkpoint to a later upload of the same bytes. */
  datatype Event = Tried(script: Script) | Erased

  function After(pdf: Pdf, w: World, e: Event): World
    requires pdf.shardSize >= 1
  {
    match e
    case Tried(script) => Attempt(pdf, w, script).0
    case Erased => w.(table := map[])
  }

  function History(pdf: Pdf, w: World, events: seq<Event>): World
    requires pdf.shardSize >= 1
  {
    if events == [] then w else After(pdf, History(pdf, w, events[..|events| - 1]), events[|events| - 1])
  }

  /** From table `t` to table `u` only rows lo, ..., |clean| - 1 were touched, and those before `hi` are the clean run's now. */
  ghost predicate CarriedTo(g: Goal, t: Table, u: Table, lo: nat, hi: nat) {
    && lo <= hi <= |g.clean|
    && (forall i: nat | i < lo || |g.clean| <= i :: (i in u <==> i in t) && (i in t ==> u[i] == t[i]))
    && (forall i: nat | lo <= i < hi :: i in u && Agrees(g, u[i], i))
  }

  lemma {:induction false} CoversIffBefore(g: Goal, t: Table, u: Table, lo: nat, hi: nat)
    requires CarriedTo(g, t, u, lo, hi)
    ensures Covers(g, u, hi) <==> Covers(g, t, lo)
  {
    if Covers(g, u, hi) {
      assert forall i: nat | i < lo :: i in u && Agrees(g, u[i], i);
    }
  }

  lemma {:induction false} WithinIffBefore(g: Goal, t: Table, u: Table, lo: nat, hi: nat)
    requires CarriedTo(g, t, u, lo, hi)
    ensures Within(u, |g.clean|) <==> Within(t, |g.clean|)
  {
  }

  lemma {:induction false} UpsertCarries(g: Goal, t: Table, u: Table, lo: nat, docs: seq<string>, offset: nat, domain: string)
    requires CarriedTo(g, t, u, lo, offset)
    requires offset + |docs| <= |g.clean| && g.clean[offset..offset + |docs|] == docs
    requires g.hint != AUTO ==> domain == g.hint
    ensures CarriedTo(g, t, Appended(u, false, docs, offset, domain), lo, offset + |docs|)
  {
    forall i: nat | offset <= i < offset + |docs| ensures Agrees(g, RowAt(docs, offset, domain, i), i) {
      assert docs[i - offset] == g.clean[i];
    }
  }

  /** At the head of the loop of an attempt resumed with table `t` and offset `lo`. */
  ghost predicate Resumed(g: Goal, pdf: Pdf, t: Table, lo: nat, l: Loop, u: Table)
    requires pdf.shardSize >= 1
  {
    && ShardPoint(g, pdf, l.page, l.offset) && CarriedTo(g, t, u, lo, l.offset)
    && !l.clears && l.decided && (g.hint != AUTO ==> l.domain == g.hint)
  }

  ghost predicate CarriedBetween(g: Goal, pdf: Pdf, t: Table, lo: nat, w: World)
    requires pdf.shardSize >= 1
  {
    w.checkpoint.Some? ==>
      var c := w.checkpoint.value;
      ShardPoint(g, pdf, c.lastCompletedPage + 1, c.chunkCountSoFar) && CarriedTo(g, t, w.table, lo, c.chunkCountSoFar)
  }

  lemma {:induction false} ShardCarries(g: Goal, pdf: Pdf, t: Table, lo: nat, l: Loop, u: Table)
    requires pdf.shardSize >= 1 && l.page < pdf.totalPages && Resumed(g, pdf, t, lo, l, u)
    ensures Resumed(g, pdf, t, lo, l.Next(pdf), l.Append(pdf, u))
  {
    var docs := ShardDocs(pdf, l.page);
    NextPoint(g, pdf, l.page, l.offset);
    UpsertCarries(g, t, u, lo, docs, l.offset, l.domain);
  }

  /** The checkpoint of a resumed attempt is between where it was and where the loop is. */
  predicate Between(g: Goal, pdf: Pdf, lo: nat, l: Loop, checkpoint: Option<Checkpoint>)
    requires pdf.shardSize >= 1
  {
    checkpoint.Some? ==>
      var c := checkpoint.value;
      ShardPoint(g, pdf, c.lastCompletedPage + 1, c.chunkCountSoFar) && lo <= c.chunkCountSoFar <= l.offset
  }

  lemma {:induction false} CarriedLess(g: Goal, pdf: Pdf, t: Table, lo: nat, l: Loop, u: Table, checkpoint: Option<Checkpoint>)
    requires pdf.shardSize >= 1 && CarriedTo(g, t, u, lo, l.offset) && Between(g, pdf, lo, l, checkpoint)
    ensures CarriedBetween(g, pdf, t, lo, World(u, checkpoint))
  {
  }

  lemma {:induction false} CarriedNext(g: Goal, pdf: Pdf, t: Table, lo: nat, l: Loop, u: Table, checkpoint: Option<Checkpoint>)
    requires pdf.shardSize >= 1 && l.page < pdf.totalPages && Resumed(g, pdf, t, lo, l, u) && Between(g, pdf, lo, l, checkpoint)
    ensures CarriedBetween(g, pdf, t, lo, World(l.Append(pdf, u), checkpoint))
  {
    ShardCarries(g, pdf, t, lo, l, u);
    CarriedLess(g, pdf, t, lo, l.Next(pdf), l.Append(pdf, u), checkpoint);
  }

  /** A turn that ends the resumed attempt: the checkpoint is still behind. */
  lemma {:induction false} TurnCarries(g: Goal, pdf: Pdf, t: Table, lo: nat, l: Loop, w: World, fate: Fate)
    requires pdf.shardSize >= 1 && l.page < pdf.totalPages && !fate.GoesOn?
    requires Resumed(g, pdf, t, lo, l, w.table) && Between(g, pdf, lo, l, w.checkpoint)
    ensures CarriedBetween(g, pdf, t, lo, Turn(pdf, l, w, fate).0)
  {
    CarriedLess(g, pdf, t, lo, l, w.table, w.checkpoint);
    CarriedNext(g, pdf, t, lo, l, w.table, w.checkpoint);
  }

  lemma {:induction false} AdvanceCarries(g: Goal, pdf: Pdf, t: Table, lo: nat, l: Loop, w: World)
    requires pdf.shardSize >= 1 && l.page < pdf.totalPages && Resumed(g, pdf, t, lo, l, w.table)
    ensures var v := Advanced(pdf, l, w);
            Resumed(g, pdf, t, lo, l.Next(pdf), v.table) && Between(g, pdf, lo, l.Next(pdf), v.checkpoint)
  {
    ShardCarries(g, pdf, t, lo, l, w.table);
  }

  ghost predicate CarriedThrough(g: Goal, t: Table, lo: nat, v: World, outcome: Outcome) {
    outcome.Completed? ==>
      outcome.chunkCount == |g.clean| && v.checkpoint == None && CarriedTo(g, t, v.table, lo, |g.clean|)
  }

  lemma {:induction false} EndCarries(g: Goal, pdf: Pdf, t: Table, lo: nat, l: Loop, table: Table)
    requires pdf.shardSize >= 1 && l.page >= pdf.totalPages && Resumed(g, pdf, t, lo, l, table)
    ensures l.offset == |g.clean| && CarriedTo(g, t, table, lo, |g.clean|)
  {
    assert CleanFrom(pdf, l.page) == [];
  }

  lemma {:induction false} ShardsCarry(g: Goal, pdf: Pdf, t: Table, lo: nat, l: Loop, w: World, script: Script)
    requires pdf.shardSize >= 1
    requires Resumed(g, pdf, t, lo, l, w.table) && Between(g, pdf, lo, l, w.checkpoint)
    ensures var (v, outcome) := Shards(pdf, l, w, script);
            CarriedBetween(g, pdf, t, lo, v) && CarriedThrough(g, t, lo, v, outcome)
    decreases pdf.totalPages - l.page
  {
    if l.page >= pdf.totalPages {
      EndCarries(g, pdf, t, lo, l, w.table);
    } else if !script(l.page).GoesOn? {
      TurnCarries(g, pdf, t, lo, l, w, script(l.page));
    } else {
      AdvanceCarries(g, pdf, t, lo, l, w);
      ShardsCarry(g, pdf, t, lo, l.Next(pdf), Advanced(pdf, l, w), script);
    }
  }

  /** The checkpoint, if there is one, stands between two shards. Nothing is said about the table. */
  predicate Pointed(g: Goal, pdf: Pdf, w: World)
    requires pdf.shardSize >= 1
  {
    w.checkpoint.Some? ==> ShardPoint(g, pdf, w.checkpoint.value.lastCompletedPage + 1, w.checkpoint.value.chunkCountSoFar)
  }

  /** What the checkpoint takes for done is there. */
  ghost predicate Intact(g: Goal, w: World) {
    w.checkpoint.Some? ==> Covers(g, w.table, w.checkpoint.value.chunkCountSoFar)
  }

  /** What an attempt makes of any table at all, given a checkpoint that stands between two shards. */
  ghost predicate Made(g: Goal, w: World, v: World, outcome: Outcome) {
    && (Intact(g, w) ==> Intact(g, v))
    && (outcome.Completed? ==>
          && outcome.chunkCount == |g.clean| && v.checkpoint == None
          && (Covers(g, v.table, |g.clean|) <==> Intact(g, w))
          && (Within(v.table, |g.clean|) <==> (w.checkpoint.None? && g.clears) || Within(w.table, |g.clean|)))
  }

  lemma {:induction false} FreshMakes(pdf: Pdf, w: World, script: Script)
    requires pdf.shardSize >= 1 && w.checkpoint.None?
    ensures var (v, outcome) := Attempt(pdf, w, script);
            Pointed(GoalOf(pdf), pdf, v) && Made(GoalOf(pdf), w, v, outcome)
  {
    var g := GoalOf(pdf);
    AttemptKeeps(pdf, w.table, w, script);
    var (v, outcome) := Attempt(pdf, w, script);
    if outcome.Completed? {
      ExactOrStale(g, w.table, v.table);
    }
  }

  /** What the resumed attempt carried is what it made. */
  lemma {:induction false} CarriedMakes(g: Goal, pdf: Pdf, w: World, v: World, outcome: Outcome, lo: nat)
    requires pdf.shardSize >= 1 && w.checkpoint.Some? && lo == w.checkpoint.value.chunkCountSoFar
    requires CarriedBetween(g, pdf, w.table, lo, v) && CarriedThrough(g, w.table, lo, v, outcome)
    ensures Pointed(g, pdf, v) && Made(g, w, v, outcome)
  {
    if outcome.Completed? {
      CoversIffBefore(g, w.table, v.table, lo, |g.clean|);
      WithinIffBefore(g, w.table, v.table, lo, |g.clean|);
    }
    if v.checkpoint.Some? {
      CoversIffBefore(g, w.table, v.table, lo, v.checkpoint.value.chunkCountSoFar);
    }
  }

  lemma {:induction false} ResumedShards(g: Goal, pdf: Pdf, w: World, script: Script, l: Loop)
    requires pdf.shardSize >= 1 && w.checkpoint.Some? && Pointed(g, pdf, w) && g.hint == pdf.hint
    requires l == Start(pdf, w.checkpoint)
    ensures var (v, outcome) := Shards(pdf, l, w, script); Pointed(g, pdf, v) && Made(g, w, v, outcome)
  {
    var lo := w.checkpoint.value.chunkCountSoFar;
    assert Resumed(g, pdf, w.table, lo, l, w.table);
    ShardsCarry(g, pdf, w.table, lo, l, w, script);
    var (v, outcome) := Shards(pdf, l, w, script);
    CarriedMakes(g, pdf, w, v, outcome, lo);
  }

  lemma {:induction false} ResumedMakes(pdf: Pdf, w: World, script: Script)
    requires pdf.shardSize >= 1 && w.checkpoint.Some? && Pointed(GoalOf(pdf), pdf, w)
    ensures var (v, outcome) := Attempt(pdf, w, script);
            Pointed(GoalOf(pdf), pdf, v) && Made(GoalOf(pdf), w, v, outcome)
  {
    if pdf.totalPages > 0 {
      ResumedShards(GoalOf(pdf), pdf, w, script, Start(pdf, w.checkpoint));
    }
  }

  lemma {:induction false} AttemptMakes(pdf: Pdf, w: World, script: Script)
    requires pdf.shardSize >= 1 && Pointed(GoalOf(pdf), pdf, w)
    ensures var (v, outcome) := Attempt(pdf, w, script);
            Pointed(GoalOf(pdf), pdf, v) && Made(GoalOf(pdf), w, v, outcome)
  {
    if w.checkpoint.None? {
      FreshMakes(pdf, w, script);
    } else {
      ResumedMakes(pdf, w, script);
    }
  }

  lemma {:induction false} HistoryPointed(pdf: Pdf, before: Table, events: seq<Event>)
    requires pdf.shardSize >= 1
    ensures Pointed(GoalOf(pdf), pdf, History(pdf, World(before, None), events))
  {
    if events != [] {
      var init, e := events[..|events| - 1], events[|events| - 1];
      HistoryPointed(pdf, before, init);
      if e.Tried? {
        AttemptMakes(pdf, History(pdf, World(before, None), init), e.script);
      }
    }
  }

  /**
   * Whatever attempts and deletions came before, an attempt that completes returns the clean run's chunk count;
   * but the clean run's rows are all there iff it started without a checkpoint or with every row its
   * checkpoint takes for done, and no other row is there iff it cleared or there was none beyond the clean run.
   */
  lemma {:induction false} CompletionIff(pdf: Pdf, before: Table, events: seq<Event>, last: Script)
    requires pdf.shardSize >= 1
    ensures var g, w := GoalOf(pdf), History(pdf, World(before, None), events);
            var (v, outcome) := Attempt(pdf, w, last);
            outcome.Completed? ==>
              && outcome.chunkCount == |g.clean| && v.checkpoint == None
              && (Covers(g, v.table, |g.clean|) <==> w.checkpoint.None? || Covers(g, w.table, w.checkpoint.value.chunkCountSoFar))
              && (Exact(g, v.table) <==>
                    && (w.checkpoint.None? || Covers(g, w.table, w.checkpoint.value.chunkCountSoFar))
                    && ((w.checkpoint.None? && g.clears) || Within(w.table, |g.clean|)))
  {
    HistoryPointed(pdf, before, events);
    AttemptMakes(pdf, History(pdf, World(before, None), events), last);
  }

  /** The chunks go while a checkpoint that counts some of them stays. */
  predicate ErasesBehind(w: World, e: Event) {
    e.Erased? && w.checkpoint.Some? && w.checkpoint.value.chunkCountSoFar > 0
  }

  lemma {:induction false} EventIntactIff(pdf: Pdf, w: World, e: Event)
    requires pdf.shardSize >= 1 && Pointed(GoalOf(pdf), pdf, w) && Intact(GoalOf(pdf), w)
    ensures Intact(GoalOf(pdf), After(pdf, w, e)) <==> !ErasesBehind(w, e)
  {
    match e
    case Tried(script) => AttemptMakes(pdf, w, script);
    case Erased =>
      if ErasesBehind(w, e) {
        assert 0 !in After(pdf, w, e).table;
      }
  }

  ghost predicate AlwaysIntact(pdf: Pdf, w: World, events: seq<Event>)
    requires pdf.shardSize >= 1
  {
    Intact(GoalOf(pdf), History(pdf, w, events)) && (events != [] ==> AlwaysIntact(pdf, w, events[..|events| - 1]))
  }

  predicate NeverErasesBehind(pdf: Pdf, w: World, events: seq<Event>)
    requires pdf.shardSize >= 1
  {
    events != [] ==>
      && NeverErasesBehind(pdf, w, events[..|events| - 1])
      && !ErasesBehind(History(pdf, w, events[..|events| - 1]), events[|events| - 1])
  }

  /** For every history: each checkpoint on the way finds its rows iff no deletion removed rows that a checkpoint counts. */
  lemma {:induction false} IntactIff(pdf: Pdf, before: Table, events: seq<Event>)
    requires pdf.shardSize >= 1
    ensures AlwaysIntact(pdf, World(before, None), events) <==> NeverErasesBehind(pdf, World(before, None), events)
  {
    if events != [] {
      var init, e := events[..|events| - 1], events[|events| - 1];
      IntactIff(pdf, before, init);
      if AlwaysIntact(pdf, World(before, None), init) {
        HistoryPointed(pdf, before, init);
        EventIntactIff(pdf, History(pdf, World(before, None), init), e);
      }
    }
  }

  // ---------------------------------------------------------------- automatic labels

  /** The label of every row a run appends from here on if it completes. */
  function FinalLabel(pdf: Pdf, l: Loop): string
    requires pdf.shardSize >= 1
    decreases pdf.totalPages - l.page
  {
    if l.decided || l.page >= pdf.totalPages then l.domain else FinalLabel(pdf, l.Next(pdf))
  }

  ghost predicate LabelledFrom(table: Table, lo: nat, hi: nat, name: string) {
    forall i: nat | lo <= i < hi :: i in table && table[i].domain == name
  }

  lemma {:induction false} AppendLabels(pdf: Pdf, l: Loop, table: Table, lo: nat)
    requires pdf.shardSize >= 1 && l.page < pdf.totalPages && lo <= l.offset
    requires l.clears ==> l.offset == 0
    requires LabelledFrom(table, lo, l.offset, FinalLabel(pdf, l))
    ensures FinalLabel(pdf, l.Next(pdf)) == FinalLabel(pdf, l)
    ensures LabelledFrom(l.Append(pdf, table), lo, l.Next(pdf).offset, FinalLabel(pdf, l))
  {
    assert ShardDocs(pdf, l.page) != [] ==> l.Label(pdf, ShardDocs(pdf, l.page)) == FinalLabel(pdf, l);
  }

  lemma {:induction false} RunLabels(pdf: Pdf, l: Loop, w: World, script: Script, lo: nat)
    requires pdf.shardSize >= 1 && lo <= l.offset
    requires l.clears ==> l.offset == 0
    requires LabelledFrom(w.table, lo, l.offset, FinalLabel(pdf, l))
    ensures var (w', outcome) := Shards(pdf, l, w, script);
            outcome.Completed? ==> LabelledFrom(w'.table, lo, outcome.chunkCount, FinalLabel(pdf, l))
    decreases pdf.totalPages - l.page
  {
    if l.page < pdf.totalPages && script(l.page).GoesOn? {
      var next := l.Next(pdf);
      AppendLabels(pdf, l, w.table, lo);
      RunLabels(pdf, next, World(l.Append(pdf, w.table), Some(Checkpoint(EndPage(pdf, l.page), next.offset))), script, lo);
    }
  }

  /**
   * Under the automatic hint a run resumed from a checkpoint labels what is left "general", so it gives
   * those chunks the label of an uninterrupted run iff none are left or that label is "general" itself.
   */
  lemma {:induction false} ResumedLabels(pdf: Pdf, w: World, script: Script)
    requires pdf.shardSize >= 1 && pdf.hint == AUTO && w.checkpoint.Some?
    requires Attempt(pdf, w, script).1.Completed?
    ensures var (resumed, outcome) := Attempt(pdf, w, script);
            var name := FinalLabel(pdf, Start(pdf, None));
            && LabelledFrom(resumed.table, w.checkpoint.value.chunkCountSoFar, outcome.chunkCount, GENERAL)
            && (LabelledFrom(resumed.table, w.checkpoint.value.chunkCountSoFar, outcome.chunkCount, name)
                <==> outcome.chunkCount <= w.checkpoint.value.chunkCountSoFar || name == GENERAL)
  {
    var lo := w.checkpoint.value.chunkCountSoFar;
    RunLabels(pdf, Start(pdf, w.checkpoint), w, script, lo);
    var (resumed, outcome) := Attempt(pdf, w, script);
    if lo < outcome.chunkCount {
      assert resumed.table[lo].domain == GENERAL;
    }
  }

  /** An uninterrupted run gives every chunk that one label. */
  lemma {:induction false} FreshLabels(pdf: Pdf, table: Table, script: Script)
    requires pdf.shardSize >= 1
    ensures var (w, outcome) := Attempt(pdf, World(table, None), script);
            outcome.Completed? ==> LabelledFrom(w.table, 0, outcome.chunkCount, FinalLabel(pdf, Start(pdf, None)))
  {
    RunLabels(pdf, Start(pdf, None), World(table, None), script, 0);
  }

  lemma {:induction false} NoTextIff(pdf: Pdf, lo: nat, hi: nat)
    requires lo <= hi
    ensures PageTexts(pdf, lo, hi) == [] <==> forall k | lo <= k < hi :: Blank(pdf.pageText(k))
    decreases hi - lo
  {
    if lo < hi {
      NoTextIff(pdf, lo, hi - 1);
    }
  }

  /** Shards begin at multiples of the shard size. */
  lemma {:induction false} NextShard(size: nat, j: nat, n: nat)
    requires j < n
    ensures j * size + size <= n * size
    decreases n
  {
    assert (n - 1) * size + size == n * size;
    if j < n - 1 {
      NextShard(size, j, n - 1);
    }
  }

  /** From shard `j`, still undecided; the first page with text from there on is in shard `n`. */
  lemma {:induction false} LabelFrom(pdf: Pdf, l: Loop, j: nat, n: nat, first: nat)
    requires pdf.shardSize >= 1 && pdf.pageRouting && !l.decided && l.page == j * pdf.shardSize && j <= n
    requires n * pdf.shardSize <= first < n * pdf.shardSize + pdf.shardSize && first < pdf.totalPages
    requires !Blank(pdf.pageText(first)) && forall k: nat | l.page <= k < first :: Blank(pdf.pageText(k))
    ensures FinalLabel(pdf, l) == pdf.classify(n * pdf.shardSize)
    decreases n - j
  {
    if j < n {
      NextShard(pdf.shardSize, j, n);
      NoTextIff(pdf, l.page, EndPage(pdf, l.page) + 1);
      assert (j + 1) * pdf.shardSize == l.page + pdf.shardSize;
      LabelFrom(pdf, l.Next(pdf), j + 1, n, first);
    } else {
      NoTextIff(pdf, l.page, EndPage(pdf, l.page) + 1);
    }
  }

  /** Under the automatic hint and page routing the label is the classification of the first shard with text. */
  lemma {:induction false} FirstTextDecides(pdf: Pdf, n: nat, first: nat)
    requires pdf.shardSize >= 1 && pdf.pageRouting && pdf.hint == AUTO
    requires n * pdf.shardSize <= first < n * pdf.shardSize + pdf.shardSize && first < pdf.totalPages
    requires !Blank(pdf.pageText(first)) && forall k: nat | k < first :: Blank(pdf.pageText(k))
    ensures FinalLabel(pdf, Start(pdf, None)) == pdf.classify(n * pdf.shardSize)
  {
    LabelFrom(pdf, Start(pdf, None), 0, n, first);
  }

  /** Without page routing it is that of the first shard; and a hint that is not automatic is the label. */
  lemma {:induction false} FirstShardDecides(pdf: Pdf)
    requires pdf.shardSize >= 1 && pdf.totalPages > 0
    ensures !pdf.pageRouting && pdf.hint == "auto" ==> FinalLabel(pdf, Start(pdf, None)) == pdf.classify(0)
    ensures pdf.hint != "auto" ==> FinalLabel(pdf, Start(pdf, None)) == pdf.hint
  {
    var l := Start(pdf, None);
    if !pdf.pageRouting && pdf.hint == "auto" {
      assert l.Next(pdf).decided && l.Next(pdf).domain == pdf.classify(0);
    }
  }

  /** The chunks of several texts are those of each, in order. */
  lemma {:induction false} VisibleTextsAppend(a: seq<string>, b: seq<string>)
    ensures VisibleTexts(a + b) == VisibleTexts(a) + VisibleTexts(b)
  {
    if b == [] {
      assert a + b == a;
    } else {
      var init := b[..|b| - 1];
      assert (a + b)[..|a + b| - 1] == a + init;
      VisibleTextsAppend(a, init);
    }
  }

  /** A text is one chunk, or none if it has no visible character. */
  lemma {:induction false} VisibleTextsOne(text: string)
    ensures VisibleTexts([text]) == if Blank(text) then [] else [text]
  {
    assert [text][..0] == [];
  }

  // ---------------------------------------------------------------- concrete runs

  /** Two pages, one per shard, each visible or blank. */
  function TwoPages(first: string, second: string, hint: string, name: string): Pdf {
    Pdf(2, 1, true, p => if p == 0 then first else second, (_, _) => [], _ => name, hint)
  }

  lemma {:induction false} PageShard(pdf: Pdf, page: nat)
    requires pdf.shardSize == 1 && pdf.pageRouting && page < pdf.totalPages
    ensures ShardDocs(pdf, page) == Kept(pdf.pageText(page)) && EndPage(pdf, page) == page
  {
    assert PageTexts(pdf, page, page) == [];
  }

  lemma {:induction false} TwoPagesClean(pdf: Pdf)
    requires pdf.totalPages == 2 && pdf.shardSize == 1 && pdf.pageRouting
    ensures Clean(pdf) == Kept(pdf.pageText(0)) + Kept(pdf.pageText(1))
    ensures ShardDocs(pdf, 0) == Kept(pdf.pageText(0)) && ShardDocs(pdf, 1) == Kept(pdf.pageText(1))
  {
    PageShard(pdf, 0);
    PageShard(pdf, 1);
    assert CleanFrom(pdf, 2) == [];
    assert CleanFrom(pdf, 1) == ShardDocs(pdf, 1) + [];
  }

  /** A blank first page and a row left over from a longer version of the document: the row outlives a clean run. */
  lemma {:induction false} StaleRowOutlivesBlankFirstPage()
    ensures var pdf, old5 := TwoPages(" ", "x", "hr", "hr"), map[5 := Row("old", 5, "hr")];
            var (w, outcome) := Attempt(pdf, World(old5, None), _ => GoesOn);
            outcome.Completed? && outcome.chunkCount == 1 && !Exact(GoalOf(pdf), w.table)
  {
    var pdf, old5 := TwoPages(" ", "x", "hr", "hr"), map[5 := Row("old", 5, "hr")];
    var calm: Script := _ => GoesOn;
    TwoPagesClean(pdf);
    assert Blank(" ") && !Blank("x") by { assert "x"[0] == 'x'; }
    CalmCompletes(pdf, Start(pdf, None), World(old5, None), calm);
    RetriesEqualCleanRun(pdf, old5, [], calm);
    assert 5 in old5;
  }

  /** Two visible pages, and an attempt from nothing that raises on the second. */
  lemma {:induction false} StoppedOnSecond(pdf: Pdf, first: Script, name: string) returns (stopped: World)
    requires pdf == TwoPages("x", "y", pdf.hint, name) && first(0) == GoesOn && first(1) == RaisesBefore
    ensures stopped == Attempt(pdf, World(map[], None), first).0
    ensures stopped.checkpoint == Some(Checkpoint(0, 1))
    ensures 0 in stopped.table
            && stopped.table[0] == Row("x", 0, if pdf.hint != AUTO then pdf.hint else name)
    ensures ShardDocs(pdf, 1) == ["y"] && EndPage(pdf, 1) == 1
    ensures FinalLabel(pdf, Start(pdf, None)) == if pdf.hint != AUTO then pdf.hint else name
  {
    assert !Blank("x") && !Blank("y") by { assert "x"[0] == 'x' && "y"[0] == 'y'; }
    TwoPagesClean(pdf);
    assert ShardDocs(pdf, 0) == ["x"];
    PageShard(pdf, 1);
    var empty: Table := map[];
    var start := Start(pdf, None);
    var domain := if pdf.hint != AUTO then pdf.hint else name;
    var second := Loop(1, 1, false, domain, true);
    assert start.Next(pdf) == second;
    stopped := World(start.Append(pdf, empty), Some(Checkpoint(0, 1)));
    assert Shards(pdf, second, stopped, first) == (stopped, Raised);
    assert 0 in stopped.table && stopped.table[0] == RowAt(["x"], 0, domain, 0);
  }

  /** The attempt that takes up again there and completes. */
  lemma {:induction false} ResumedOnSecond(pdf: Pdf, w: World, calm: Script, domain: string) returns (v: World)
    requires pdf.totalPages == 2 && pdf.shardSize == 1 && ShardDocs(pdf, 1) == ["y"] && EndPage(pdf, 1) == 1
    requires w.checkpoint == Some(Checkpoint(0, 1)) && forall p: nat :: calm(p) == GoesOn
    requires domain == if pdf.hint != AUTO then pdf.hint else GENERAL
    ensures Attempt(pdf, w, calm) == (v, Completed(2, domain))
    ensures v == World(w.table + NewRows(["y"], 1, domain), None)
    ensures 1 in v.table && v.table[1] == Row("y", 1, domain)
  {
    var l := Start(pdf, w.checkpoint);
    var advanced := Advanced(pdf, l, w);
    assert l.Next(pdf) == Loop(2, 2, false, domain, true);
    v := World(advanced.table, None);
    assert Shards(pdf, l.Next(pdf), advanced, calm) == (v, Completed(2, domain));
    assert 1 in v.table && v.table[1] == RowAt(["y"], 1, domain, 1);
  }

  /** A first attempt that fails on the second page, and a second one that completes: the document ends with two labels. */
  lemma {:induction false} ResumedRunLosesLabel(first: Script, calm: Script)
    requires first(0) == GoesOn && first(1) == RaisesBefore && forall p: nat :: calm(p) == GoesOn
    ensures var pdf := TwoPages("x", "y", AUTO, "hr");
            var (w, outcome) := Attempt(pdf, Attempts(pdf, World(map[], None), [first]), calm);
            && outcome == Completed(2, GENERAL)
            && 0 in w.table && w.table[0] == Row("x", 0, "hr")
            && 1 in w.table && w.table[1] == Row("y", 1, GENERAL)
            && FinalLabel(pdf, Start(pdf, None)) == "hr"
  {
    var pdf := TwoPages("x", "y", AUTO, "hr");
    var stopped := StoppedOnSecond(pdf, first, "hr");
    assert [first][..0] == [];
    assert Attempts(pdf, World(map[], None), [first]) == stopped;
    var w := ResumedOnSecond(pdf, stopped, calm, GENERAL);
  }

  /**
   * The first attempt fails on the second page, the document is deleted, the same bytes are uploaded again:
   * the next attempt reports both chunks, and the first one is missing.
   */
  lemma {:induction false} ErasedPrefixIsLost(first: Script, calm: Script)
    requires first(0) == GoesOn && first(1) == RaisesBefore && forall p: nat :: calm(p) == GoesOn
    ensures var pdf := TwoPages("x", "y", "hr", "hr");
            var (w, outcome) := Attempt(pdf, History(pdf, World(map[], None), [Tried(first), Erased]), calm);
            && outcome == Completed(2, "hr")
            && 0 !in w.table && 1 in w.table && w.table[1] == Row("y", 1, "hr")
  {
    var pdf, tried, both := TwoPages("x", "y", "hr", "hr"), [Tried(first)], [Tried(first), Erased];
    var stopped := StoppedOnSecond(pdf, first, "hr");
    assert tried[..0] == [] && both[..1] == tried;
    assert History(pdf, World(map[], None), tried) == stopped;
    assert History(pdf, World(map[], None), both) == stopped.(table := map[]);
    var w := ResumedOnSecond(pdf, stopped.(table := map[]), calm, "hr");
  }

  // ---------------------------------------------------------------- sharding is invisible

  lemma {:induction false} PageTextsSplit(pdf: Pdf, lo: nat, mid: nat, hi: nat)
    requires lo <= mid <= hi
    ensures PageTexts(pdf, lo, hi) == PageTexts(pdf, lo, mid) + PageTexts(pdf, mid, hi)
    decreases hi - mid
  {
    if mid < hi {
      PageTextsSplit(pdf, lo, mid, hi - 1);
    } else {
      assert PageTexts(pdf, lo, mid) + [] == PageTexts(pdf, lo, mid);
    }
  }

  /** With per-page routing every page is extracted once and in order, whatever the shard size. */
  lemma {:induction false} PagesInOrder(pdf: Pdf, page: nat)
    requires pdf.shardSize >= 1 && pdf.pageRouting && page <= pdf.totalPages
    ensures CleanFrom(pdf, page) == PageTexts(pdf, page, pdf.totalPages)
    decreases pdf.totalPages - page
  {
    if page < pdf.totalPages {
      var next := EndPage(pdf, page) + 1;
      PagesInOrder(pdf, next);
      PageTextsSplit(pdf, page, next, pdf.totalPages);
    }
  }
}
