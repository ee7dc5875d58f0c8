/**
 * services/ingestion-service/src/pipeline.py, TokenAwareSplitter: recursive splitting on coarser to
 * finer separators. The tokenizer is an arbitrary counting function that gives blank text no tokens.
 */
module TokenSplitter {
  import opened Text

  datatype Budget = Budget(count: string -> nat, maxTokens: nat) {
    predicate Fits(s: string) {
      count(s) <= maxTokens
    }

    ghost predicate BlankIsFree() {
      forall s: string :: Blank(s) ==> count(s) == 0
    }
  }

  // ---------------------------------------------------------------- str.find, str.split, str.join

  predicate OccursAt(text: string, sub: string, i: int) {
    0 <= i && i + |sub| <= |text| && text[i..i + |sub|] == sub
  }

  /** `text.find(sub, from)` */
  function Find(text: string, sub: string, from: nat): (i: int)
    requires from <= |text|
    ensures i == -1 || (from <= i && OccursAt(text, sub, i))
    decreases |text| - from
  {
    if OccursAt(text, sub, from) then from
    else if from == |text| then -1
    else Find(text, sub, from + 1)
  }

  lemma {:induction false} FindIsFirst(text: string, sub: string, from: nat, at: nat)
    requires from <= at && OccursAt(text, sub, at)
    ensures from <= Find(text, sub, from) <= at
    decreases at - from
  {
    if !OccursAt(text, sub, from) {
      FindIsFirst(text, sub, from + 1, at);
    }
  }

  /** `text.split(sep)` */
  function Split(text: string, sep: string): (parts: seq<string>)
    requires sep != ""
    ensures parts != []
    decreases |text|
  {
    var i := Find(text, sep, 0);
    if i < 0 then [text] else [text[..i]] + Split(text[i + |sep|..], sep)
  }

  /** `sep.join(parts[lo:hi])` */
  function Join(sep: string, parts: seq<string>, lo: nat, hi: nat): string
    requires lo <= hi <= |parts|
    decreases hi - lo
  {
    if lo == hi then "" else if lo + 1 == hi then parts[lo] else parts[lo] + sep + Join(sep, parts, lo + 1, hi)
  }

  lemma {:induction false} JoinShift(sep: string, all: seq<string>, parts: seq<string>, lo: nat)
    requires lo <= |parts| && |all| == |parts| + 1 && forall i | 0 <= i < |parts| :: all[i + 1] == parts[i]
    ensures Join(sep, all, lo + 1, |all|) == Join(sep, parts, lo, |parts|)
    decreases |parts| - lo
  {
    if lo < |parts| {
      JoinShift(sep, all, parts, lo + 1);
    }
  }

  /** Joining what `split` returns gives the text back. */
  lemma {:induction false} JoinSplit(text: string, sep: string)
    requires sep != ""
    ensures var parts := Split(text, sep); Join(sep, parts, 0, |parts|) == text
    decreases |text|
  {
    var i := Find(text, sep, 0);
    if i >= 0 {
      var head, rest := text[..i], text[i + |sep|..];
      JoinSplit(rest, sep);
      OccursCut(text, sep, i);
      JoinHead(sep, head, Split(rest, sep));
    }
  }

  lemma {:induction false} OccursCut(text: string, sub: string, i: nat)
    requires OccursAt(text, sub, i)
    ensures text == text[..i] + sub + text[i + |sub|..]
  {
  }

  lemma {:induction false} JoinHead(sep: string, head: string, parts: seq<string>)
    requires parts != []
    ensures Join(sep, [head] + parts, 0, |parts| + 1) == head + sep + Join(sep, parts, 0, |parts|)
  {
    JoinShift(sep, [head] + parts, parts, 0);
  }

  lemma {:induction false} JoinAt(sep: string, parts: seq<string>, lo: nat, mid: nat, hi: nat)
    requires lo < mid < hi <= |parts|
    ensures Join(sep, parts, lo, hi) == Join(sep, parts, lo, mid) + sep + Join(sep, parts, mid, hi)
    decreases mid - lo
  {
    if lo + 1 < mid {
      JoinAt(sep, parts, lo + 1, mid, hi);
      Regroup(parts[lo] + sep, Join(sep, parts, lo + 1, mid), sep, Join(sep, parts, mid, hi));
    }
  }

  lemma Regroup(head: string, a: string, sep: string, b: string)
    ensures head + (a + sep + b) == (head + a) + sep + b
  {
  }

  /** The words of a split on a single space hold no space. */
  lemma {:induction false} WordsHaveNoSpace(text: string)
    ensures forall w | w in Split(text, " ") :: ' ' !in w
    decreases |text|
  {
    var i := Find(text, " ", 0);
    var head := if i < 0 then text else text[..i];
    forall k | 0 <= k < |head| ensures head[k] != ' ' {
      if text[k] == ' ' {
        assert text[k..k + 1] == " ";
        FindIsFirst(text, " ", 0, k);
      }
    }
    if i >= 0 {
      WordsHaveNoSpace(text[i + 1..]);
    }
  }

  /** The parts with the separator re-attached to all but the last. */
  function Segments(parts: seq<string>, sep: string): (segs: seq<string>)
    ensures |segs| == |parts|
    ensures forall i | 0 <= i < |parts| :: segs[i] == parts[i] + if i < |parts| - 1 then sep else ""
  {
    seq(|parts|, i requires 0 <= i < |parts| => parts[i] + if i < |parts| - 1 then sep else "")
  }

  lemma {:induction false} ConcatSegments(parts: seq<string>, sep: string, lo: nat)
    requires lo <= |parts|
    ensures Concat(Segments(parts, sep)[lo..]) == Join(sep, parts, lo, |parts|)
    decreases |parts| - lo
  {
    var segs := Segments(parts, sep);
    if lo < |parts| {
      ConcatSegments(parts, sep, lo + 1);
      assert segs[lo..][1..] == segs[lo + 1..];
    }
  }

  // ---------------------------------------------------------------- what the splitter computes

  const SEPARATORS: seq<string> := ["\n\n", "\n", ". ", " "]

  function RawChunks(b: Budget, text: string): seq<string> {
    if Blank(text) then [] else if b.Fits(text) then [text] else Pieces(b, text, SEPARATORS)
  }

  function Pieces(b: Budget, text: string, separators: seq<string>): seq<string>
    requires "" !in separators
    decreases |separators|, 0, 0
  {
    if b.Fits(text) then [text]
    else if separators == [] then HardPieces(b, text)
    else
      var pieces := Pack(b, Segments(Split(text, separators[0]), separators[0]), 0, "", separators[1..]);
      if pieces == [] then [text] else pieces
  }

  function Emit(buf: string): seq<string> {
    if Blank(buf) then [] else [buf]
  }

  /** From segment `i` on: gather while it fits; split a segment that alone does not fit with the finer separators. */
  function Pack(b: Budget, segs: seq<string>, i: nat, buf: string, finer: seq<string>): seq<string>
    requires i <= |segs| && "" !in finer
    decreases |finer|, 1, |segs| - i
  {
    if i == |segs| then Emit(buf)
    else if b.Fits(buf + segs[i]) then Pack(b, segs, i + 1, buf + segs[i], finer)
    else if b.Fits(segs[i]) then Emit(buf) + Pack(b, segs, i + 1, segs[i], finer)
    else Emit(buf) + Pieces(b, segs[i], finer) + Pack(b, segs, i + 1, "", finer)
  }

  /** How many words from `lo` on fit together, growing the run from `k` words while it fits. */
  function RunLength(b: Budget, words: seq<string>, lo: nat, k: nat): (n: nat)
    requires lo + k <= |words|
    ensures k <= n && lo + n <= |words|
    decreases |words| - lo - k
  {
    if lo + k < |words| && b.Fits(Join(" ", words, lo, lo + k + 1)) then RunLength(b, words, lo, k + 1) else k
  }

  /** The next chunk takes the longest fitting run of words, or one word that fits nowhere. */
  function Take(b: Budget, words: seq<string>, lo: nat): (n: nat)
    requires lo < |words|
    ensures 1 <= n && lo + n <= |words|
  {
    var n := RunLength(b, words, lo, 0);
    if n == 0 then 1 else n
  }

  function Greedy(b: Budget, words: seq<string>, lo: nat): seq<string>
    requires lo <= |words|
    decreases |words| - lo
  {
    if lo == |words| then []
    else
      var n := Take(b, words, lo);
      [Join(" ", words, lo, lo + n)] + Greedy(b, words, lo + n)
  }

  /** `[c for c in chunks if c.strip()]` */
  function NonBlank(chunks: seq<string>): seq<string> {
    if chunks == [] then [] else Emit(chunks[0]) + NonBlank(chunks[1..])
  }

  function HardPieces(b: Budget, text: string): seq<string> {
    NonBlank(Greedy(b, Split(text, " "), 0))
  }

  lemma {:induction false} GrowRun(b: Budget, words: seq<string>, lo: nat, hi: nat)
    requires lo <= hi < |words| && b.Fits(Join(" ", words, lo, hi + 1))
    ensures RunLength(b, words, lo, hi + 1 - lo) == RunLength(b, words, lo, hi - lo)
  {
  }

  lemma {:induction false} FlushRun(b: Budget, words: seq<string>, lo: nat, hi: nat, found: seq<string>)
    requires lo <= hi <= |words| && lo < |words|
    requires hi < |words| ==> !b.Fits(Join(" ", words, lo, hi + 1))
    requires RunLength(b, words, lo, hi - lo) == RunLength(b, words, lo, 0)
    ensures var next := if hi == lo then lo + 1 else hi;
            found + Greedy(b, words, lo) == (found + [Join(" ", words, lo, next)]) + Greedy(b, words, next)
    ensures hi == lo ==> Join(" ", words, lo, lo + 1) == words[lo]
  {
    var next := if hi == lo then lo + 1 else hi;
    assert RunLength(b, words, lo, hi - lo) == hi - lo;
    assert Greedy(b, words, lo) == [Join(" ", words, lo, next)] + Greedy(b, words, next);
    AssocSeq(found, [Join(" ", words, lo, next)], Greedy(b, words, next));
  }

  /** The words left over when the end is reached are the last run. */
  lemma {:induction false} LastRun(b: Budget, words: seq<string>, lo: nat, found: seq<string>)
    requires lo <= |words| && RunLength(b, words, lo, |words| - lo) == RunLength(b, words, lo, 0)
    ensures found + Greedy(b, words, lo) == if lo < |words| then found + [Join(" ", words, lo, |words|)] else found
  {
    if lo < |words| {
      FlushRun(b, words, lo, |words|, found);
      AppendNone(found + [Join(" ", words, lo, |words|)]);
    } else {
      AppendNone(found);
    }
  }

  lemma AppendNone<T>(s: seq<T>)
    ensures s + [] == s
  {
  }

  lemma AssocSeq<T>(a: seq<T>, b: seq<T>, c: seq<T>)
    ensures a + (b + c) == (a + b) + c
  {
  }

  function Flush(done: seq<string>, buf: string): seq<string> {
    if Blank(buf) then done else done + [buf]
  }

  lemma {:induction false} FlushEmit(done: seq<string>, buf: string, tail: seq<string>)
    ensures done + (Emit(buf) + tail) == Flush(done, buf) + tail
  {
    if Blank(buf) {
      assert [] + tail == tail;
    } else {
      AssocSeq(done, [buf], tail);
    }
  }

  lemma {:induction false} FlushEmitTwo(done: seq<string>, buf: string, sub: seq<string>, tail: seq<string>)
    ensures done + (Emit(buf) + sub + tail) == Flush(done, buf) + sub + tail
  {
    AssocSeq(Emit(buf), sub, tail);
    FlushEmit(done, buf, sub + tail);
    AssocSeq(Flush(done, buf), sub, tail);
  }

  /** One step of `Pack` as the loop performs it. */
  lemma {:induction false} PackStep(b: Budget, segs: seq<string>, i: nat, buf: string, finer: seq<string>, done: seq<string>)
    requires i < |segs| && "" !in finer
    ensures b.Fits(buf + segs[i]) ==>
              done + Pack(b, segs, i, buf, finer) == done + Pack(b, segs, i + 1, buf + segs[i], finer)
    ensures !b.Fits(buf + segs[i]) && b.Fits(segs[i]) ==>
              done + Pack(b, segs, i, buf, finer) == Flush(done, buf) + Pack(b, segs, i + 1, segs[i], finer)
    ensures !b.Fits(buf + segs[i]) && !b.Fits(segs[i]) ==>
              done + Pack(b, segs, i, buf, finer)
              == Flush(done, buf) + Pieces(b, segs[i], finer) + Pack(b, segs, i + 1, "", finer)
  {
    if !b.Fits(buf + segs[i]) {
      if b.Fits(segs[i]) {
        FlushEmit(done, buf, Pack(b, segs, i + 1, segs[i], finer));
      } else {
        FlushEmitTwo(done, buf, Pieces(b, segs[i], finer), Pack(b, segs, i + 1, "", finer));
      }
    }
  }

  /** One output document of `run`. */
  datatype ChunkDoc = ChunkDoc(content: string, splitId: nat, start: int, end: int, tokens: nat)

  class TokenAwareSplitter {
    const budget: Budget
    const overlapTokens: nat
    /** The text decoded from the last `overlapTokens` tokens of a chunk. */
    const tailText: string -> string

    constructor (budget: Budget, overlapTokens: nat, tailText: string -> string)
      ensures this.budget == budget && this.overlapTokens == overlapTokens && this.tailText == tailText
    {
      this.budget := budget;
      this.overlapTokens := overlapTokens;
      this.tailText := tailText;
    }

    method SplitText(text: string) returns (chunks: seq<string>)
      requires budget.BlankIsFree()
      ensures chunks == RawChunks(budget, text)
    {
      if Blank(text) {
        return [];
      }
      if budget.Fits(text) {
        return [text];
      }
      chunks := Recurse(text, SEPARATORS);
    }

    method Recurse(text: string, separators: seq<string>) returns (chunks: seq<string>)
      requires budget.BlankIsFree() && "" !in separators
      ensures chunks == Pieces(budget, text, separators)
      decreases |separators|, 0
    {
      if budget.Fits(text) {
        return [text];
      }
      if separators == [] {
        chunks := HardSplit(text);
        return;
      }
      var pieces := PackParts(Split(text, separators[0]), separators[0], separators[1..]);
      return if pieces == [] then [text] else pieces;
    }

    /** The loop of `_recurse` over the parts of one separator. */
    method PackParts(parts: seq<string>, sep: string, rest: seq<string>) returns (pieces: seq<string>)
      requires budget.BlankIsFree() && "" !in rest
      ensures pieces == Pack(budget, Segments(parts, sep), 0, "", rest)
      decreases |rest|, 1
    {
      ghost var segs := Segments(parts, sep);
      ghost var all := Pack(budget, segs, 0, "", rest);
      pieces := [];
      var buf := "";
      assert Blank(buf);
      for i := 0 to |parts|
        invariant budget.Fits(buf)
        invariant pieces + Pack(budget, segs, i, buf, rest) == all
      {
        var seg := parts[i] + if i < |parts| - 1 then sep else "";
        PackStep(budget, segs, i, buf, rest, pieces);
        var candidate := buf + seg;
        if budget.Fits(candidate) {
          buf := candidate;
        } else {
          ghost var flushed := Flush(pieces, buf);
          if !Blank(buf) {
            pieces := pieces + [buf];
          }
          assert pieces == flushed;
          buf := seg;
          if !budget.Fits(buf) {
            var sub := Recurse(buf, rest);
            pieces := pieces + sub;
            buf := "";
          }
        }
      }
      if !Blank(buf) {
        if !budget.Fits(buf) {
          assert false;  // the over-limit branch after the loop is never taken
        } else {
          pieces := pieces + [buf];
        }
      }
    }

    method HardSplit(text: string) returns (chunks: seq<string>)
      ensures chunks == HardPieces(budget, text)
    {
      var words := Split(text, " ");
      var found: seq<string> := [];
      var lo, hi := 0, 0;
      while hi < |words|
        invariant lo <= hi <= |words|
        invariant RunLength(budget, words, lo, hi - lo) == RunLength(budget, words, lo, 0)
        invariant found + Greedy(budget, words, lo) == Greedy(budget, words, 0)
        decreases 2 * |words| - lo - hi
      {
        var candidate := Join(" ", words, lo, hi + 1);
        if budget.Fits(candidate) {
          GrowRun(budget, words, lo, hi);
          hi := hi + 1;
        } else {
          FlushRun(budget, words, lo, hi, found);
          if hi == lo {
            found := found + [words[lo]];
            lo, hi := lo + 1, lo + 1;
          } else {
            found := found + [Join(" ", words, lo, hi)];
            lo := hi;
          }
        }
      }
      LastRun(budget, words, lo, found);
      if lo < |words| {
        found := found + [Join(" ", words, lo, |words|)];
      }
      return NonBlank(found);
    }

    /** A chunk preceded by the tail of the chunk before it. */
    function Overlapped(chunks: seq<string>, i: nat): string
      requires i < |chunks|
    {
      if i == 0 || overlapTokens == 0 then chunks[i] else tailText(chunks[i - 1]) + " " + chunks[i]
    }

    method AddOverlap(chunks: seq<string>) returns (result: seq<string>)
      ensures |result| == |chunks|
      ensures forall i | 0 <= i < |chunks| :: result[i] == Overlapped(chunks, i)
    {
      if overlapTokens == 0 || |chunks| <= 1 {
        return chunks;
      }
      result := [chunks[0]];
      for i := 1 to |chunks|
        invariant |result| == i
        invariant forall k | 0 <= k < i :: result[k] == Overlapped(chunks, k)
      {
        result := result + [tailText(chunks[i - 1]) + " " + chunks[i]];
      }
    }

    /** Every raw chunk is found in the content; the recorded slice is that chunk. */
    method Run(content: string) returns (output: seq<ChunkDoc>)
      requires budget.BlankIsFree()
      ensures var raw := RawChunks(budget, content);
              |output| == |raw| && forall i | 0 <= i < |raw| :: Records(content, raw, i, output[i])
    {
      var raw := SplitText(content);
      var extended := AddOverlap(raw);
      output := [];
      for idx := 0 to |extended|
        invariant |output| == idx
        invariant forall i | 0 <= i < idx :: Records(content, raw, i, output[i])
      {
        if idx < |raw| {
          var start := Find(content, raw[idx], 0);
          var end := if start >= 0 then start + |raw[idx]| else 0;
          FoundInText(budget, content, idx);
          var doc := ChunkDoc(extended[idx], idx, start, end, budget.count(raw[idx]));
          assert Records(content, raw, idx, doc);
          output := output + [doc];
        } else {
          assert false;  // the overlap step never adds chunks
        }
      }
    }

    /** The document numbers the raw chunk, counts it and points at a copy of it in the content. */
    ghost predicate Records(content: string, raw: seq<string>, i: nat, doc: ChunkDoc)
      requires i < |raw|
    {
      && doc.splitId == i
      && doc.tokens == budget.count(raw[i])
      && doc.content == Overlapped(raw, i)
      && 0 <= doc.start <= doc.end <= |content|
      && content[doc.start..doc.end] == raw[i]
      && doc.start == Find(content, raw[i], 0)
    }
  }

  /** With an overlap every chunk but the first begins with the tail of the one before, and ends with its own text behind a space. */
  lemma {:induction false} OverlapMeaning(t: TokenAwareSplitter, chunks: seq<string>, i: nat)
    requires i < |chunks|
    ensures var r := t.Overlapped(chunks, i);
            if i > 0 && t.overlapTokens > 0 then
              var tail := t.tailText(chunks[i - 1]);
              |r| == |tail| + 1 + |chunks[i]| && r[..|tail|] == tail && r[|tail|] == ' ' && r[|tail| + 1..] == chunks[i]
            else r == chunks[i]
  {
    if i > 0 && t.overlapTokens > 0 {
      var tail, r := t.tailText(chunks[i - 1]), t.Overlapped(chunks, i);
      assert r[..|tail|] == tail && r[|tail| + 1..] == chunks[i];
    }
  }

  // ---------------------------------------------------------------- the chunks tile the text

  /** After `k` characters of white space `text` goes on with the visible chunk `c`. */
  predicate Leads(text: string, c: string, k: nat) {
    !Blank(c) && k + |c| <= |text| && AllSpace(text, 0, k) && text[k..k + |c|] == c
  }

  /** `text` is the chunks in order, each visible, with nothing but white space before, between and after them. */
  ghost predicate Tiles(text: string, chunks: seq<string>)
    decreases |chunks|
  {
    if chunks == [] then Blank(text)
    else exists k: nat :: Leads(text, chunks[0], k) && Tiles(text[k + |chunks[0]|..], chunks[1..])
  }

  lemma {:induction false} TilesIntro(text: string, chunks: seq<string>, k: nat, rest: string)
    requires chunks != [] && Leads(text, chunks[0], k)
    requires text[k + |chunks[0]|..] == rest && Tiles(rest, chunks[1..])
    ensures Tiles(text, chunks)
  {
  }

  lemma {:induction false} LeadsPad(pad: string, text: string, c: string, k: nat)
    requires Blank(pad) && Leads(text, c, k)
    ensures Leads(pad + text, c, |pad| + k) && (pad + text)[|pad| + k + |c|..] == text[k + |c|..]
  {
    var all := pad + text;
    assert all[|pad| + k..|pad| + k + |c|] == text[k..k + |c|];
    assert forall i | |pad| <= i < |pad| + k :: all[i] == text[i - |pad|];
  }

  lemma {:induction false} LeadsAppend(a: string, b: string, c: string, k: nat)
    requires Leads(a, c, k)
    ensures Leads(a + b, c, k) && (a + b)[k + |c|..] == a[k + |c|..] + b
  {
    assert (a + b)[k..k + |c|] == a[k..k + |c|];
  }

  lemma {:induction false} TilesPad(pad: string, text: string, chunks: seq<string>)
    requires Blank(pad) && Tiles(text, chunks)
    ensures Tiles(pad + text, chunks)
  {
    if chunks != [] {
      var c := chunks[0];
      var k: nat :| Leads(text, c, k) && Tiles(text[k + |c|..], chunks[1..]);
      LeadsPad(pad, text, c, k);
      TilesIntro(pad + text, chunks, |pad| + k, text[k + |c|..]);
    }
  }

  lemma {:induction false} TilesAppendStep(a: string, cs: seq<string>, b: string, ds: seq<string>, k: nat)
    requires cs != [] && Leads(a, cs[0], k) && Tiles(a[k + |cs[0]|..] + b, cs[1..] + ds)
    ensures Tiles(a + b, cs + ds)
  {
    LeadsAppend(a, b, cs[0], k);
    assert (cs + ds)[1..] == cs[1..] + ds;
    TilesIntro(a + b, cs + ds, k, a[k + |cs[0]|..] + b);
  }

  lemma {:induction false} TilesAppend(a: string, cs: seq<string>, b: string, ds: seq<string>)
    requires Tiles(a, cs) && Tiles(b, ds)
    ensures Tiles(a + b, cs + ds)
    decreases |cs|
  {
    if cs == [] {
      TilesPad(a, b, ds);
      assert cs + ds == ds;
    } else {
      var k: nat :| Leads(a, cs[0], k) && Tiles(a[k + |cs[0]|..], cs[1..]);
      TilesAppend(a[k + |cs[0]|..], cs[1..], b, ds);
      TilesAppendStep(a, cs, b, ds, k);
    }
  }

  /** White space or a visible chunk `buf` may be put in front of a tiled text. */
  lemma {:induction false} TilesFlush(buf: string, text: string, chunks: seq<string>)
    requires Tiles(text, chunks)
    ensures Tiles(buf + text, Emit(buf) + chunks)
  {
    TilesEmit(buf);
    TilesAppend(buf, Emit(buf), text, chunks);
  }

  lemma {:induction false} TilesEmit(buf: string)
    ensures Tiles(buf, Emit(buf))
  {
    if !Blank(buf) {
      assert Tiles("", [buf][1..]);
      TilesIntro(buf, [buf], 0, "");
    }
  }

  lemma {:induction false} NonBlankCons(chunk: string, rest: seq<string>)
    ensures NonBlank([chunk] + rest) == Emit(chunk) + NonBlank(rest)
  {
    assert ([chunk] + rest)[1..] == rest;
  }

  /** A run of words, a space and a tiled rest. */
  lemma {:induction false} RunThenRest(chunk: string, text: string, chunks: seq<string>)
    requires Tiles(text, chunks)
    ensures Tiles(chunk + " " + text, Emit(chunk) + chunks)
  {
    TilesEmit(chunk);
    TilesPad(" ", text, chunks);
    TilesAppend(chunk, Emit(chunk), " " + text, chunks);
    assert chunk + " " + text == chunk + (" " + text);
  }

  lemma {:induction false} GreedyTiles(b: Budget, words: seq<string>, lo: nat)
    requires lo <= |words|
    ensures Tiles(Join(" ", words, lo, |words|), NonBlank(Greedy(b, words, lo)))
    decreases |words| - lo
  {
    if lo < |words| {
      var next := lo + Take(b, words, lo);
      var chunk, rest := Join(" ", words, lo, next), Greedy(b, words, next);
      assert Greedy(b, words, lo) == [chunk] + rest;
      NonBlankCons(chunk, rest);
      if next < |words| {
        GreedyTiles(b, words, next);
        JoinAt(" ", words, lo, next, |words|);
        RunThenRest(chunk, Join(" ", words, next, |words|), NonBlank(rest));
      } else {
        TilesEmit(chunk);
        AppendNone(Emit(chunk));
      }
    }
  }

  lemma {:induction false} RecurseTiles(b: Budget, text: string, separators: seq<string>)
    requires b.BlankIsFree() && "" !in separators && !Blank(text)
    ensures Tiles(text, Pieces(b, text, separators))
    decreases |separators|, 0, 0
  {
    TilesEmit(text);
    if !b.Fits(text) {
      if separators == [] {
        GreedyTiles(b, Split(text, " "), 0);
        JoinSplit(text, " ");
      } else {
        var sep := separators[0];
        var segs := Segments(Split(text, sep), sep);
        PackTiles(b, segs, 0, "", separators[1..]);
        JoinSplit(text, sep);
        ConcatSegments(Split(text, sep), sep, 0);
        assert segs[0..] == segs;
        assert "" + text == text;
      }
    }
  }

  lemma {:induction false} PackTiles(b: Budget, segs: seq<string>, i: nat, buf: string, finer: seq<string>)
    requires i <= |segs| && b.BlankIsFree() && "" !in finer
    ensures Tiles(buf + Concat(segs[i..]), Pack(b, segs, i, buf, finer))
    decreases |finer|, 1, |segs| - i
  {
    if i == |segs| {
      TilesEmit(buf);
      assert buf + "" == buf;
    } else {
      var seg, rest := segs[i], Concat(segs[i + 1..]);
      assert segs[i..][1..] == segs[i + 1..];
      if b.Fits(buf + seg) {
        PackTiles(b, segs, i + 1, buf + seg, finer);
        Assoc(buf, seg, rest);
      } else if b.Fits(seg) {
        PackTiles(b, segs, i + 1, seg, finer);
        TilesFlush(buf, seg + rest, Pack(b, segs, i + 1, seg, finer));
      } else {
        RecurseTiles(b, seg, finer);
        PackTiles(b, segs, i + 1, "", finer);
        TilesSplitSegment(buf, seg, rest, Pieces(b, seg, finer), Pack(b, segs, i + 1, "", finer));
      }
    }
  }

  lemma Assoc(a: string, b: string, c: string)
    ensures a + (b + c) == (a + b) + c
  {
  }

  lemma NothingBefore(s: string)
    ensures "" + s == s
  {
  }

  lemma {:induction false} TilesSplitSegment(buf: string, seg: string, rest: string, sub: seq<string>, tail: seq<string>)
    requires Tiles(seg, sub) && Tiles("" + rest, tail)
    ensures Tiles(buf + (seg + rest), Emit(buf) + sub + tail)
  {
    NothingBefore(rest);
    TilesAppend(seg, sub, rest, tail);
    TilesFlush(buf, seg + rest, sub + tail);
    AssocSeq(Emit(buf), sub, tail);
  }

  lemma SeparatorsAreReal()
    ensures "" !in SEPARATORS
  {
    assert SEPARATORS[0] == "\n\n";
  }

  /** For any text and any tokenizer, the raw chunks tile the text. */
  lemma {:induction false} ChunksTileText(b: Budget, text: string)
    requires b.BlankIsFree()
    ensures Tiles(text, RawChunks(b, text))
  {
    if !Blank(text) {
      TilesEmit(text);
      SeparatorsAreReal();
      RecurseTiles(b, text, SEPARATORS);
    }
  }

  /** The characters of a text that are not white space, in order. */
  function Visible(s: string): string {
    if s == "" then "" else (if IsSpace(s[0]) then "" else [s[0]]) + Visible(s[1..])
  }

  lemma {:induction false} VisibleAppend(a: string, b: string)
    ensures Visible(a + b) == Visible(a) + Visible(b)
  {
    if a == "" {
      assert a + b == b;
    } else {
      VisibleAppend(a[1..], b);
      assert (a + b)[1..] == a[1..] + b;
      Assoc(if IsSpace(a[0]) then "" else [a[0]], Visible(a[1..]), Visible(b));
    }
  }

  lemma {:induction false} VisibleBlank(s: string)
    requires Blank(s)
    ensures Visible(s) == ""
  {
    if s != "" {
      VisibleBlank(s[1..]);
    }
  }

  lemma {:induction false} VisibleLead(text: string, c: string, k: nat)
    requires Leads(text, c, k)
    ensures Visible(text) == Visible(c) + Visible(text[k + |c|..])
  {
    var gap, rest := text[..k], text[k + |c|..];
    assert text == gap + (c + rest);
    VisibleAppend(gap, c + rest);
    VisibleAppend(c, rest);
    VisibleBlank(gap);
  }

  /** No visible character is lost, duplicated or reordered by a tiling. */
  lemma {:induction false} TilingKeepsVisible(text: string, chunks: seq<string>)
    requires Tiles(text, chunks)
    ensures Visible(Concat(chunks)) == Visible(text)
    decreases |chunks|
  {
    if chunks == [] {
      VisibleBlank(text);
    } else {
      var c := chunks[0];
      var k: nat :| Leads(text, c, k) && Tiles(text[k + |c|..], chunks[1..]);
      TilingKeepsVisible(text[k + |c|..], chunks[1..]);
      VisibleAppend(c, Concat(chunks[1..]));
      VisibleLead(text, c, k);
    }
  }

  lemma {:induction false} SplitKeepsVisible(b: Budget, text: string)
    requires b.BlankIsFree()
    ensures Visible(Concat(RawChunks(b, text))) == Visible(text)
  {
    ChunksTileText(b, text);
    TilingKeepsVisible(text, RawChunks(b, text));
  }

  // ---------------------------------------------------------------- the bound

  predicate Breaks(c: char) {
    c == ' ' || c == '\n'
  }

  /** A place between two words: the text begins, or a space or the end of a line has just passed. */
  predicate Cut(s: string) {
    s == "" || Breaks(s[|s| - 1])
  }

  /** No space, and no newline but at the end. */
  predicate Plain(w: string) {
    ' ' !in w && forall k | 0 <= k < |w| - 1 :: w[k] != '\n'
  }

  /** After the word comes a space, or a line or the text ends with it. */
  predicate EndsWord(text: string, w: string, end: nat) {
    w != "" && (end == |text| || (end < |text| && text[end] == ' ') || w[|w| - 1] == '\n')
  }

  /** A whole word at `i`: from one place between words to the next space, or past the next newline, or to the end. */
  predicate WordAt(text: string, w: string, i: nat) {
    Plain(w) && OccursAt(text, w, i) && Cut(text[..i]) && EndsWord(text, w, i + |w|)
  }

  ghost predicate IsWord(text: string, w: string) {
    exists i: nat :: WordAt(text, w, i)
  }

  lemma {:induction false} WordEnds(text: string, w: string, i: nat)
    requires WordAt(text, w, i)
    ensures i > 0 ==> Breaks(text[i - 1])
    ensures w[|w| - 1] == text[i + |w| - 1] != ' '
  {
    assert i > 0 ==> text[..i][i - 1] == text[i - 1];
    assert w[|w| - 1] == text[i..i + |w|][|w| - 1] == text[i + |w| - 1];
  }

  lemma {:induction false} CutInContext(text: string, pre: string, s: string, post: string, i: nat)
    requires text == pre + s + post && Cut(pre) && i < |s| && Cut(s[..i])
    ensures Cut(text[..|pre| + i])
  {
    var before := text[..|pre| + i];
    if i > 0 {
      assert before[|pre| + i - 1] == s[..i][i - 1];
    } else {
      assert before == pre;
    }
  }

  lemma {:induction false} OccursInContext(pre: string, s: string, post: string, w: string, i: nat)
    requires OccursAt(s, w, i)
    ensures OccursAt(pre + s + post, w, |pre| + i)
  {
    var text := pre + s + post;
    assert text[|pre| + i..|pre| + i + |w|] == s[i..i + |w|];
  }

  lemma {:induction false} EndInContext(text: string, pre: string, s: string, post: string, w: string, end: nat)
    requires text == pre + s + post && (post == "" || Cut(s)) && |w| <= end <= |s| && EndsWord(s, w, end)
    requires w[|w| - 1] == s[end - 1] != ' '
    ensures EndsWord(text, w, |pre| + end)
  {
    if end < |s| {
      assert text[|pre| + end] == s[end];
    }
  }

  /** A word of a stretch between two cuts is a word of the whole. */
  lemma {:induction false} WordInContext(text: string, pre: string, s: string, post: string, w: string)
    requires text == pre + s + post && Cut(pre) && (post == "" || Cut(s)) && IsWord(s, w)
    ensures IsWord(text, w)
  {
    var i: nat :| WordAt(s, w, i);
    WordEnds(s, w, i);
    OccursInContext(pre, s, post, w, i);
    CutInContext(text, pre, s, post, i);
    EndInContext(text, pre, s, post, w, i + |w|);
    assert WordAt(text, w, |pre| + i);
  }

  /** Every chunk is within the token limit or a whole word of the text. */
  ghost predicate AllBounded(b: Budget, text: string, chunks: seq<string>) {
    forall c | c in chunks :: b.Fits(c) || IsWord(text, c)
  }

  lemma {:induction false} BoundedInContext(b: Budget, text: string, pre: string, s: string, post: string, chunks: seq<string>)
    requires text == pre + s + post && Cut(pre) && (post == "" || Cut(s)) && AllBounded(b, s, chunks)
    ensures AllBounded(b, text, chunks)
  {
    forall c | c in chunks && !b.Fits(c) ensures IsWord(text, c) {
      WordInContext(text, pre, s, post, c);
    }
  }

  lemma {:induction false} RunFits(b: Budget, words: seq<string>, lo: nat, k: nat)
    requires lo + k <= |words| && (k == 0 || b.Fits(Join(" ", words, lo, lo + k)))
    ensures var n := RunLength(b, words, lo, k); n == 0 || b.Fits(Join(" ", words, lo, lo + n))
    decreases |words| - lo - k
  {
    if lo + k < |words| && b.Fits(Join(" ", words, lo, lo + k + 1)) {
      RunFits(b, words, lo, k + 1);
    }
  }

  /** A line, with or without its end. */
  predicate OneLine(text: string) {
    forall k | 0 <= k < |text| - 1 :: text[k] != '\n'
  }

  lemma {:induction false} HeadIsWord(text: string, w: string, rest: string)
    requires text == w + " " + rest && w != "" && ' ' !in w && OneLine(text)
    ensures IsWord(text, w)
  {
    assert OccursAt(text, w, 0);
    forall k | 0 <= k < |w| - 1 ensures w[k] != '\n' {
      assert text[k] == w[k];
    }
    assert WordAt(text, w, 0);
  }

  /** The first run of words: it fits, or it is the first word. */
  lemma {:induction false} FirstRunBounded(b: Budget, words: seq<string>, lo: nat, text: string)
    requires lo < |words| && forall w | w in words :: ' ' !in w
    requires text == Join(" ", words, lo, |words|) && OneLine(text)
    ensures AllBounded(b, text, Emit(Join(" ", words, lo, lo + Take(b, words, lo))))
  {
    var next := lo + Take(b, words, lo);
    var chunk := Join(" ", words, lo, next);
    RunFits(b, words, lo, 0);
    if !b.Fits(chunk) && !Blank(chunk) {
      assert next == lo + 1 && chunk == words[lo] && words[lo] in words;
      if next < |words| {
        JoinAt(" ", words, lo, next, |words|);
        HeadIsWord(text, chunk, Join(" ", words, next, |words|));
      } else {
        assert WordAt(text, chunk, 0);
      }
    }
  }

  lemma {:induction false} GreedyBounded(b: Budget, words: seq<string>, lo: nat, text: string)
    requires lo <= |words| && forall w | w in words :: ' ' !in w
    requires text == Join(" ", words, lo, |words|) && OneLine(text)
    ensures AllBounded(b, text, NonBlank(Greedy(b, words, lo)))
    decreases |words| - lo, 0
  {
    if lo < |words| {
      var next := lo + Take(b, words, lo);
      var chunk := Join(" ", words, lo, next);
      FirstRunBounded(b, words, lo, text);
      NonBlankCons(chunk, Greedy(b, words, next));
      if next < |words| {
        JoinAt(" ", words, lo, next, |words|);
        GreedyRest(b, text, chunk, Join(" ", words, next, |words|), words, next);
      }
    }
  }

  lemma {:induction false} GreedyRest(b: Budget, text: string, chunk: string, rest: string, words: seq<string>, next: nat)
    requires next <= |words| && (forall w | w in words :: ' ' !in w)
    requires text == chunk + " " + rest && rest == Join(" ", words, next, |words|) && OneLine(text)
    ensures AllBounded(b, text, NonBlank(Greedy(b, words, next)))
    decreases |words| - next, 1
  {
    forall k | 0 <= k < |rest| - 1 ensures rest[k] != '\n' {
      assert text[|chunk| + 1 + k] == rest[k];
    }
    GreedyBounded(b, words, next, rest);
    assert text == (chunk + " ") + rest + "";
    BoundedInContext(b, text, chunk + " ", rest, "", NonBlank(Greedy(b, words, next)));
  }

  /** All separators end at a cut, and once the newline is no longer among them the text is a line. */
  predicate Cutting(separators: seq<string>) {
    forall s | s in separators :: s != "" && Breaks(s[|s| - 1])
  }

  predicate LineIfDone(text: string, separators: seq<string>) {
    "\n" in separators || OneLine(text)
  }

  /** All segments but the last end at a cut. */
  predicate CutSegments(segs: seq<string>) {
    forall k | 0 <= k < |segs| - 1 :: segs[k] != "" && Cut(segs[k])
  }

  predicate LinesIfDone(segs: seq<string>, separators: seq<string>) {
    forall s | s in segs :: LineIfDone(s, separators)
  }

  lemma {:induction false} SegmentsCut(parts: seq<string>, sep: string)
    requires sep != "" && Breaks(sep[|sep| - 1])
    ensures CutSegments(Segments(parts, sep))
  {
    var segs := Segments(parts, sep);
    forall k | 0 <= k < |segs| - 1 ensures segs[k] != "" && Cut(segs[k]) {
      assert segs[k][|segs[k]| - 1] == sep[|sep| - 1];
    }
  }

  /** The parts of a split on the newline hold none. */
  lemma {:induction false} LinesHaveNoNewline(text: string)
    ensures forall w | w in Split(text, "\n") :: '\n' !in w
    decreases |text|
  {
    var i := Find(text, "\n", 0);
    var head := if i < 0 then text else text[..i];
    forall k | 0 <= k < |head| ensures head[k] != '\n' {
      if text[k] == '\n' {
        assert text[k..k + 1] == "\n";
        FindIsFirst(text, "\n", 0, k);
      }
    }
    if i >= 0 {
      LinesHaveNoNewline(text[i + 1..]);
    }
  }

  lemma {:induction false} SplitIntoLines(text: string, separators: seq<string>)
    ensures LinesIfDone(Segments(Split(text, "\n"), "\n"), separators)
  {
    var parts := Split(text, "\n");
    var segs := Segments(parts, "\n");
    LinesHaveNoNewline(text);
    forall s | s in segs ensures OneLine(s) {
      var n :| 0 <= n < |segs| && segs[n] == s;
      assert parts[n] in parts;
    }
  }

  /** A segment of a line is a line. */
  lemma {:induction false} SegmentOfLine(segs: seq<string>, n: nat)
    requires n < |segs| && OneLine(Concat(segs))
    ensures OneLine(segs[n])
    decreases n
  {
    var head, rest := segs[0], Concat(segs[1..]);
    var all := head + rest;
    if n == 0 {
      forall k | 0 <= k < |head| - 1 ensures head[k] != '\n' {
        assert all[k] == head[k];
      }
    } else {
      forall k | 0 <= k < |rest| - 1 ensures rest[k] != '\n' {
        assert all[|head| + k] == rest[k];
      }
      SegmentOfLine(segs[1..], n - 1);
    }
  }

  lemma {:induction false} SegmentsWhole(text: string, sep: string)
    requires sep != ""
    ensures Concat(Segments(Split(text, sep), sep)) == text
  {
    var segs := Segments(Split(text, sep), sep);
    JoinSplit(text, sep);
    ConcatSegments(Split(text, sep), sep, 0);
    assert segs[0..] == segs;
  }

  lemma {:induction false} SegmentsAreLines(text: string, separators: seq<string>)
    requires separators != [] && Cutting(separators) && LineIfDone(text, separators)
    ensures LinesIfDone(Segments(Split(text, separators[0]), separators[0]), separators[1..])
  {
    var sep := separators[0];
    var segs := Segments(Split(text, sep), sep);
    if sep == "\n" {
      SplitIntoLines(text, separators[1..]);
    } else if "\n" !in separators {
      SegmentsWhole(text, sep);
      forall s | s in segs ensures OneLine(s) {
        var n :| 0 <= n < |segs| && segs[n] == s;
        SegmentOfLine(segs, n);
      }
    }
  }

  /** The fallback that would return the oversized text whole is never taken. */
  lemma {:induction false} NothingEmptied(b: Budget, text: string, separators: seq<string>)
    requires b.BlankIsFree() && "" !in separators && !Blank(text) && separators != []
    ensures Pack(b, Segments(Split(text, separators[0]), separators[0]), 0, "", separators[1..]) != []
  {
    var sep := separators[0];
    var segs := Segments(Split(text, sep), sep);
    PackTiles(b, segs, 0, "", separators[1..]);
    SegmentsWhole(text, sep);
    assert segs[0..] == segs;
    assert "" + text == text;
  }

  lemma {:induction false} RecurseBounded(b: Budget, text: string, separators: seq<string>)
    requires b.BlankIsFree() && Cutting(separators) && !Blank(text) && LineIfDone(text, separators)
    ensures AllBounded(b, text, Pieces(b, text, separators))
    decreases |separators|, 0, 0
  {
    if !b.Fits(text) {
      if separators == [] {
        WordsHaveNoSpace(text);
        JoinSplit(text, " ");
        GreedyBounded(b, Split(text, " "), 0, text);
      } else {
        var sep := separators[0];
        var segs := Segments(Split(text, sep), sep);
        assert sep in separators;
        SegmentsCut(Split(text, sep), sep);
        SegmentsAreLines(text, separators);
        SegmentsWhole(text, sep);
        assert segs[0..] == segs && "" + text == text;
        PackBounded(b, segs, 0, "", separators[1..], text);
        NothingEmptied(b, text, separators);
      }
    }
  }

  /** From segment `i` on; `text` is what the buffer and these segments hold. */
  lemma {:induction false} PackBounded(b: Budget, segs: seq<string>, i: nat, buf: string, finer: seq<string>, text: string)
    requires i <= |segs| && b.BlankIsFree() && Cutting(finer) && b.Fits(buf)
    requires CutSegments(segs) && LinesIfDone(segs, finer) && (i < |segs| ==> Cut(buf))
    requires text == buf + Concat(segs[i..])
    ensures AllBounded(b, text, Pack(b, segs, i, buf, finer))
    decreases |finer|, 1, |segs| - i
  {
    if i < |segs| {
      var seg, rest := segs[i], Concat(segs[i + 1..]);
      assert segs[i..][1..] == segs[i + 1..];
      assert text == buf + (seg + rest);
      if b.Fits(buf + seg) {
        Assoc(buf, seg, rest);
        CutBehind(buf, segs, i);
        PackBounded(b, segs, i + 1, buf + seg, finer, text);
      } else if b.Fits(seg) {
        PackBounded(b, segs, i + 1, seg, finer, seg + rest);
        assert text == buf + (seg + rest) + "";
        BoundedInContext(b, text, buf, seg + rest, "", Pack(b, segs, i + 1, seg, finer));
      } else {
        assert seg in segs;
        RecurseBounded(b, seg, finer);
        assert "" + rest == rest;
        PackBounded(b, segs, i + 1, "", finer, rest);
        SplitSegmentBounded(b, text, buf, segs, i, rest, Pieces(b, seg, finer), Pack(b, segs, i + 1, "", finer));
      }
    }
  }

  lemma {:induction false} CutBehind(buf: string, segs: seq<string>, i: nat)
    requires i < |segs| && CutSegments(segs)
    ensures i + 1 < |segs| ==> Cut(buf + segs[i]) && Cut(segs[i])
  {
    if i + 1 < |segs| {
      var s := buf + segs[i];
      assert s[|s| - 1] == segs[i][|segs[i]| - 1];
    }
  }

  lemma {:induction false} SplitSegmentBounded(b: Budget, text: string, buf: string, segs: seq<string>, i: nat, rest: string,
                                               sub: seq<string>, tail: seq<string>)
    requires i < |segs| && CutSegments(segs) && Cut(buf) && rest == Concat(segs[i + 1..]) && text == buf + (segs[i] + rest)
    requires AllBounded(b, segs[i], sub) && AllBounded(b, rest, tail) && (i + 1 == |segs| ==> tail == [])
    ensures AllBounded(b, text, sub + tail)
  {
    var seg := segs[i];
    CutBehind(buf, segs, i);
    assert text == buf + seg + rest;
    BoundedInContext(b, text, buf, seg, rest, sub);
    if i + 1 < |segs| {
      assert text == (buf + seg) + rest + "";
      BoundedInContext(b, text, buf + seg, rest, "", tail);
    }
  }

  lemma {:induction false} SeparatorsCut()
    ensures Cutting(SEPARATORS) && "\n" in SEPARATORS
  {
    assert SEPARATORS[1] == "\n";
  }

  /** Every raw chunk is within the token limit or a whole word of the text: no space in it, and no newline but at its end. */
  lemma {:induction false} ChunksBounded(b: Budget, text: string)
    requires b.BlankIsFree()
    ensures AllBounded(b, text, RawChunks(b, text))
  {
    if !Blank(text) {
      SeparatorsCut();
      RecurseBounded(b, text, SEPARATORS);
    }
  }

  // ---------------------------------------------------------------- every word is inside one chunk

  /** The visible text `w` is inside one of the chunks. */
  ghost predicate Held(chunks: seq<string>, w: string) {
    exists n: nat, k: nat :: n < |chunks| && OccursAt(chunks[n], w, k)
  }

  lemma {:induction false} HeldIn(chunks: seq<string>, more: seq<string>, w: string)
    ensures Held(chunks, w) ==> Held(chunks + more, w)
    ensures Held(more, w) ==> Held(chunks + more, w)
  {
    if Held(chunks, w) {
      var n: nat, k: nat :| n < |chunks| && OccursAt(chunks[n], w, k);
      assert OccursAt((chunks + more)[n], w, k);
    }
    if Held(more, w) {
      var n: nat, k: nat :| n < |more| && OccursAt(more[n], w, k);
      assert OccursAt((chunks + more)[|chunks| + n], w, k);
    }
  }

  lemma {:induction false} AcrossHasLast(a: string, b: string, w: string, k: nat)
    requires OccursAt(a + b, w, k) && k < |a| < k + |w|
    ensures w[|a| - 1 - k] == a[|a| - 1]
  {
    var all := a + b;
    assert all[|a| - 1] == all[k..k + |w|][|a| - 1 - k];
  }

  lemma {:induction false} OccursOnOneSide(a: string, b: string, w: string, k: nat)
    requires OccursAt(a + b, w, k)
    ensures k + |w| <= |a| ==> OccursAt(a, w, k)
    ensures k >= |a| ==> OccursAt(b, w, k - |a|)
  {
    var all := a + b;
    if k + |w| <= |a| {
      assert a[k..k + |w|] == all[k..k + |w|];
    }
    if k >= |a| {
      assert b[k - |a|..k - |a| + |w|] == all[k..k + |w|];
    }
  }

  /** A plain stretch does not reach across a cut. */
  lemma {:induction false} PlainSplits(a: string, b: string, w: string, k: nat)
    requires OccursAt(a + b, w, k) && Plain(w) && w != "" && (Cut(a) || b == "")
    ensures OccursAt(a, w, k) || (k >= |a| && OccursAt(b, w, k - |a|))
  {
    OccursOnOneSide(a, b, w, k);
    if k < |a| < k + |w| {
      AcrossHasLast(a, b, w, k);
    }
  }

  lemma {:induction false} VisibleInside(text: string, w: string, k: nat)
    requires OccursAt(text, w, k) && !Blank(w)
    ensures !Blank(text) && w != ""
  {
    var m :| 0 <= m < |w| && !IsSpace(w[m]);
    assert w[m] == text[k..k + |w|][m] == text[k + m];
  }

  lemma {:induction false} EmitHolds(buf: string, w: string, k: nat)
    requires OccursAt(buf, w, k) && !Blank(w)
    ensures Held(Emit(buf), w)
  {
    VisibleInside(buf, w, k);
    assert Emit(buf)[0] == buf;
  }

  /** In a run of words followed by a space, or behind it. */
  lemma {:induction false} SpaceSplits(chunk: string, rest: string, w: string, k: nat)
    requires OccursAt(chunk + " " + rest, w, k) && Plain(w) && w != ""
    ensures OccursAt(chunk, w, k) || (k >= |chunk| + 1 && OccursAt(rest, w, k - |chunk| - 1))
  {
    PlainSplits(chunk + " ", rest, w, k);
    if OccursAt(chunk + " ", w, k) {
      NotTheSpace(chunk, w, k);
    }
  }

  lemma {:induction false} GreedyHolds(b: Budget, words: seq<string>, lo: nat, w: string, k: nat)
    requires lo <= |words| && Plain(w) && !Blank(w) && OccursAt(Join(" ", words, lo, |words|), w, k)
    ensures Held(NonBlank(Greedy(b, words, lo)), w)
    decreases |words| - lo
  {
    VisibleInside(Join(" ", words, lo, |words|), w, k);
    if lo < |words| {
      var next := lo + Take(b, words, lo);
      var chunk, others := Join(" ", words, lo, next), NonBlank(Greedy(b, words, next));
      NonBlankCons(chunk, Greedy(b, words, next));
      HeldIn(Emit(chunk), others, w);
      if next == |words| {
        EmitHolds(chunk, w, k);
      } else {
        JoinAt(" ", words, lo, next, |words|);
        SpaceSplits(chunk, Join(" ", words, next, |words|), w, k);
        if OccursAt(chunk, w, k) {
          EmitHolds(chunk, w, k);
        } else {
          GreedyHolds(b, words, next, w, k - |chunk| - 1);
        }
      }
    }
  }

  lemma {:induction false} NotTheSpace(chunk: string, w: string, k: nat)
    requires OccursAt(chunk + " ", w, k) && Plain(w) && w != ""
    ensures OccursAt(chunk, w, k)
  {
    var all := chunk + " ";
    assert all[k + |w| - 1] == all[k..k + |w|][|w| - 1] == w[|w| - 1];
    assert chunk[k..k + |w|] == all[k..k + |w|];
  }

  lemma {:induction false} RecurseHolds(b: Budget, text: string, separators: seq<string>, w: string, k: nat)
    requires b.BlankIsFree() && Cutting(separators) && Plain(w) && !Blank(w) && OccursAt(text, w, k)
    ensures Held(Pieces(b, text, separators), w)
    decreases |separators|, 0, 0
  {
    VisibleInside(text, w, k);
    if b.Fits(text) {
      assert OccursAt([text][0], w, k);
    } else if separators == [] {
      JoinSplit(text, " ");
      GreedyHolds(b, Split(text, " "), 0, w, k);
    } else {
      var sep := separators[0];
      var segs := Segments(Split(text, sep), sep);
      assert sep in separators;
      SegmentsCut(Split(text, sep), sep);
      SegmentsWhole(text, sep);
      assert segs[0..] == segs && "" + text == text;
      PackHolds(b, segs, 0, "", separators[1..], text, w, k);
      NothingEmptied(b, text, separators);
    }
  }

  /** What holds of the segments from `i` on holds of what is gathered from them. */
  lemma {:induction false} PackHolds(b: Budget, segs: seq<string>, i: nat, buf: string, finer: seq<string>, text: string, w: string, k: nat)
    requires i <= |segs| && b.BlankIsFree() && Cutting(finer) && CutSegments(segs) && (i < |segs| ==> Cut(buf))
    requires text == buf + Concat(segs[i..]) && Plain(w) && !Blank(w) && OccursAt(text, w, k)
    ensures Held(Pack(b, segs, i, buf, finer), w)
    decreases |finer|, 1, |segs| - i, 0
  {
    if i == |segs| {
      assert text == buf;
      EmitHolds(buf, w, k);
    } else {
      var seg, rest := segs[i], Concat(segs[i + 1..]);
      assert segs[i..][1..] == segs[i + 1..];
      CutBehind(buf, segs, i);
      Assoc(buf, seg, rest);
      if b.Fits(buf + seg) {
        PackHolds(b, segs, i + 1, buf + seg, finer, text, w, k);
      } else {
        VisibleInside(text, w, k);
        PlainSplits(buf, seg + rest, w, k);
        if OccursAt(buf, w, k) {
          EmitHolds(buf, w, k);
          EmitFirst(b, segs, i, buf, finer, w);
        } else {
          PackRestHolds(b, segs, i, finer, seg + rest, w, k - |buf|);
          RestBehind(b, segs, i, buf, finer, w);
        }
      }
    }
  }

  /** What is gathered once the buffer has been emitted. */
  function PackRest(b: Budget, segs: seq<string>, i: nat, finer: seq<string>): seq<string>
    requires i < |segs| && "" !in finer
  {
    if b.Fits(segs[i]) then Pack(b, segs, i + 1, segs[i], finer)
    else Pieces(b, segs[i], finer) + Pack(b, segs, i + 1, "", finer)
  }

  lemma {:induction false} PackIsRest(b: Budget, segs: seq<string>, i: nat, buf: string, finer: seq<string>)
    requires i < |segs| && Cutting(finer) && !b.Fits(buf + segs[i])
    ensures Pack(b, segs, i, buf, finer) == Emit(buf) + PackRest(b, segs, i, finer)
  {
    AssocSeq(Emit(buf), Pieces(b, segs[i], finer), Pack(b, segs, i + 1, "", finer));
  }

  lemma {:induction false} EmitFirst(b: Budget, segs: seq<string>, i: nat, buf: string, finer: seq<string>, w: string)
    requires i < |segs| && Cutting(finer) && !b.Fits(buf + segs[i]) && Held(Emit(buf), w)
    ensures Held(Pack(b, segs, i, buf, finer), w)
  {
    PackIsRest(b, segs, i, buf, finer);
    HeldIn(Emit(buf), PackRest(b, segs, i, finer), w);
  }

  lemma {:induction false} RestBehind(b: Budget, segs: seq<string>, i: nat, buf: string, finer: seq<string>, w: string)
    requires i < |segs| && Cutting(finer) && !b.Fits(buf + segs[i]) && Held(PackRest(b, segs, i, finer), w)
    ensures Held(Pack(b, segs, i, buf, finer), w)
  {
    PackIsRest(b, segs, i, buf, finer);
    HeldIn(Emit(buf), PackRest(b, segs, i, finer), w);
  }

  lemma {:induction false} PackRestHolds(b: Budget, segs: seq<string>, i: nat, finer: seq<string>, text: string, w: string, k: nat)
    requires i < |segs| && b.BlankIsFree() && Cutting(finer) && CutSegments(segs)
    requires text == segs[i] + Concat(segs[i + 1..]) && Plain(w) && !Blank(w) && OccursAt(text, w, k)
    ensures Held(PackRest(b, segs, i, finer), w)
    decreases |finer|, 1, |segs| - i - 1, 1
  {
    var seg, rest := segs[i], Concat(segs[i + 1..]);
    CutBehind("", segs, i);
    if b.Fits(seg) {
      PackHolds(b, segs, i + 1, seg, finer, text, w, k);
    } else {
      var sub, tail := Pieces(b, seg, finer), Pack(b, segs, i + 1, "", finer);
      VisibleInside(text, w, k);
      PlainSplits(seg, rest, w, k);
      HeldIn(sub, tail, w);
      if OccursAt(seg, w, k) {
        RecurseHolds(b, seg, finer, w, k);
      } else {
        assert "" + rest == rest;
        PackHolds(b, segs, i + 1, "", finer, rest, w, k - |seg|);
      }
    }
  }

  /** No cut goes through a visible stretch without a space, or a newline but at its end: one chunk has it whole. */
  lemma {:induction false} PlainStretchIsHeld(b: Budget, text: string, w: string, k: nat)
    requires b.BlankIsFree() && Plain(w) && !Blank(w) && OccursAt(text, w, k)
    ensures Held(RawChunks(b, text), w)
  {
    VisibleInside(text, w, k);
    if b.Fits(text) {
      assert OccursAt([text][0], w, k);
    } else {
      SeparatorsCut();
      RecurseHolds(b, text, SEPARATORS, w, k);
    }
  }

  // ---------------------------------------------------------------- coarser units first

  /** What has entered the buffer is not divided any more. */
  lemma {:induction false} BufferIsHeld(b: Budget, segs: seq<string>, i: nat, buf: string, finer: seq<string>, s: string, k: nat)
    requires i <= |segs| && Cutting(finer) && OccursAt(buf, s, k) && !Blank(s)
    ensures Held(Pack(b, segs, i, buf, finer), s)
    decreases |segs| - i
  {
    EmitHolds(buf, s, k);
    if i < |segs| {
      if b.Fits(buf + segs[i]) {
        OccursInContext("", buf, segs[i], s, k);
        assert "" + buf + segs[i] == buf + segs[i];
        BufferIsHeld(b, segs, i + 1, buf + segs[i], finer, s, k);
      } else {
        EmitFirst(b, segs, i, buf, finer, s);
      }
    }
  }

  /** A stretch of segment `n` that is not divided if the segment is split further, or that is the segment and fits. */
  ghost predicate Unbroken(b: Budget, seg: string, finer: seq<string>, s: string)
    requires "" !in finer
  {
    !Blank(s) && (exists k: nat :: OccursAt(seg, s, k)) && (b.Fits(seg) || Held(Pieces(b, seg, finer), s))
  }

  lemma {:induction false} SegmentHereIsHeld(b: Budget, segs: seq<string>, n: nat, buf: string, finer: seq<string>, s: string)
    requires n < |segs| && Cutting(finer) && Unbroken(b, segs[n], finer, s)
    ensures Held(Pack(b, segs, n, buf, finer), s)
  {
    var k: nat :| OccursAt(segs[n], s, k);
    if b.Fits(buf + segs[n]) {
      OccursInContext(buf, segs[n], "", s, k);
      assert buf + segs[n] + "" == buf + segs[n];
      BufferIsHeld(b, segs, n + 1, buf + segs[n], finer, s, |buf| + k);
    } else {
      if b.Fits(segs[n]) {
        BufferIsHeld(b, segs, n + 1, segs[n], finer, s, k);
      } else {
        HeldIn(Pieces(b, segs[n], finer), Pack(b, segs, n + 1, "", finer), s);
      }
      RestBehind(b, segs, n, buf, finer, s);
    }
  }

  lemma {:induction false} SegmentIsHeld(b: Budget, segs: seq<string>, i: nat, buf: string, finer: seq<string>, n: nat, s: string)
    requires i <= n < |segs| && Cutting(finer) && Unbroken(b, segs[n], finer, s)
    ensures Held(Pack(b, segs, i, buf, finer), s)
    decreases n - i, 0
  {
    if i == n {
      SegmentHereIsHeld(b, segs, n, buf, finer, s);
    } else if b.Fits(buf + segs[i]) {
      SegmentIsHeld(b, segs, i + 1, buf + segs[i], finer, n, s);
    } else {
      LaterSegmentIsHeld(b, segs, i, finer, n, s);
      RestBehind(b, segs, i, buf, finer, s);
    }
  }

  lemma {:induction false} LaterSegmentIsHeld(b: Budget, segs: seq<string>, i: nat, finer: seq<string>, n: nat, s: string)
    requires i < n < |segs| && Cutting(finer) && Unbroken(b, segs[n], finer, s)
    ensures Held(PackRest(b, segs, i, finer), s)
    decreases n - i - 1, 1
  {
    if b.Fits(segs[i]) {
      SegmentIsHeld(b, segs, i + 1, segs[i], finer, n, s);
    } else {
      SegmentIsHeld(b, segs, i + 1, "", finer, n, s);
      HeldIn(Pieces(b, segs[i], finer), Pack(b, segs, i + 1, "", finer), s);
    }
  }

  lemma {:induction false} SegmentOccurs(segs: seq<string>, n: nat)
    requires n < |segs|
    ensures exists k: nat :: OccursAt(Concat(segs), segs[n], k)
    decreases n
  {
    var head, rest := segs[0], Concat(segs[1..]);
    var all := Concat(segs);
    assert all == head + rest;
    if n == 0 {
      assert all[0..|head|] == head;
      assert OccursAt(all, segs[n], 0);
    } else {
      SegmentOccurs(segs[1..], n - 1);
      var k: nat :| OccursAt(rest, segs[1..][n - 1], k);
      OccursLater(all, segs[n], |head|, k);
    }
  }

  lemma {:induction false} OccursThrough(text: string, seg: string, s: string)
    requires (exists k: nat :: OccursAt(text, seg, k)) && exists k: nat :: OccursAt(seg, s, k)
    ensures exists k: nat :: OccursAt(text, s, k)
  {
    var at: nat :| OccursAt(text, seg, at);
    var k: nat :| OccursAt(seg, s, k);
    OccursWithin(text, seg, s, at, k);
  }

  lemma {:induction false} SegmentIsInside(text: string, sep: string, n: nat, s: string)
    requires sep != "" && n < |Segments(Split(text, sep), sep)|
    requires exists k: nat :: OccursAt(Segments(Split(text, sep), sep)[n], s, k)
    ensures exists k: nat :: OccursAt(text, s, k)
  {
    var segs := Segments(Split(text, sep), sep);
    SegmentsWhole(text, sep);
    SegmentOccurs(segs, n);
    OccursThrough(text, segs[n], s);
  }

  lemma {:induction false} PiecesHold(b: Budget, text: string, separators: seq<string>, s: string)
    requires b.BlankIsFree() && separators != [] && Cutting(separators) && !b.Fits(text) && !Blank(text)
    requires Held(Pack(b, Segments(Split(text, separators[0]), separators[0]), 0, "", separators[1..]), s)
    ensures Held(Pieces(b, text, separators), s)
  {
    NothingEmptied(b, text, separators);
  }

  /** One level down: what is unbroken in a segment is unbroken in the text the segment is of. */
  lemma {:induction false} UnbrokenAbove(b: Budget, text: string, separators: seq<string>, n: nat, s: string)
    requires b.BlankIsFree() && separators != [] && Cutting(separators) && separators[0] in separators
    requires n < |Segments(Split(text, separators[0]), separators[0])|
    requires Unbroken(b, Segments(Split(text, separators[0]), separators[0])[n], separators[1..], s)
    ensures Unbroken(b, text, separators, s)
  {
    SegmentIsInside(text, separators[0], n, s);
    if !b.Fits(text) {
      var k: nat :| OccursAt(text, s, k);
      VisibleInside(text, s, k);
      SegmentIsHeld(b, Segments(Split(text, separators[0]), separators[0]), 0, "", separators[1..], n, s);
      PiecesHold(b, text, separators, s);
    }
  }

  lemma {:induction false} UnbrokenIsHeld(b: Budget, text: string, s: string)
    requires b.BlankIsFree() && Cutting(SEPARATORS) && Unbroken(b, text, SEPARATORS, s)
    ensures Held(RawChunks(b, text), s)
  {
    var k: nat :| OccursAt(text, s, k);
    VisibleInside(text, s, k);
    if b.Fits(text) {
      assert OccursAt([text][0], s, k);
    }
  }

  /** The segments of a text: what lies between two separators, each with the separator behind it. */
  predicate IsSegment(text: string, sep: string, s: string)
    requires sep != ""
  {
    s in Segments(Split(text, sep), sep)
  }

  lemma {:induction false} FittingIsUnbroken(b: Budget, s: string, finer: seq<string>)
    requires Cutting(finer) && !Blank(s) && b.Fits(s)
    ensures Unbroken(b, s, finer, s)
  {
    assert OccursAt(s, s, 0);
  }

  lemma {:induction false} UnbrokenInParagraph(b: Budget, text: string, para: string, s: string)
    requires b.BlankIsFree() && IsSegment(text, "\n\n", para) && Unbroken(b, para, ["\n", ". ", " "], s)
    ensures Held(RawChunks(b, text), s)
  {
    var segs := Segments(Split(text, "\n\n"), "\n\n");
    var n :| 0 <= n < |segs| && segs[n] == para;
    SeparatorsCut();
    assert SEPARATORS[0] == "\n\n" && SEPARATORS[1..] == ["\n", ". ", " "];
    UnbrokenAbove(b, text, SEPARATORS, n, s);
    UnbrokenIsHeld(b, text, s);
  }

  lemma {:induction false} UnbrokenInLine(b: Budget, text: string, para: string, line: string, s: string)
    requires b.BlankIsFree() && IsSegment(text, "\n\n", para) && IsSegment(para, "\n", line) && Unbroken(b, line, [". ", " "], s)
    ensures Held(RawChunks(b, text), s)
  {
    var segs := Segments(Split(para, "\n"), "\n");
    var n :| 0 <= n < |segs| && segs[n] == line;
    SeparatorsCut();
    assert SEPARATORS[1..] == ["\n", ". ", " "] && SEPARATORS[1..][0] == "\n" && SEPARATORS[1..][1..] == [". ", " "];
    UnbrokenAbove(b, para, SEPARATORS[1..], n, s);
    UnbrokenInParagraph(b, text, para, s);
  }

  lemma {:induction false} UnbrokenInSentence(b: Budget, text: string, para: string, line: string, sentence: string, s: string)
    requires b.BlankIsFree() && IsSegment(text, "\n\n", para) && IsSegment(para, "\n", line) && IsSegment(line, ". ", sentence)
    requires Unbroken(b, sentence, [" "], s)
    ensures Held(RawChunks(b, text), s)
  {
    var segs := Segments(Split(line, ". "), ". ");
    var n :| 0 <= n < |segs| && segs[n] == sentence;
    SeparatorsCut();
    assert SEPARATORS[2..] == [". ", " "] && SEPARATORS[2..][0] == ". " && SEPARATORS[2..][1..] == [" "];
    UnbrokenAbove(b, line, SEPARATORS[2..], n, s);
    UnbrokenInLine(b, text, para, line, s);
  }

  /** A visible paragraph that fits, with the blank line behind it, is in one chunk. */
  lemma {:induction false} FittingParagraphIsHeld(b: Budget, text: string, para: string)
    requires b.BlankIsFree() && IsSegment(text, "\n\n", para) && !Blank(para) && b.Fits(para)
    ensures Held(RawChunks(b, text), para)
  {
    SeparatorsCut();
    FittingIsUnbroken(b, para, SEPARATORS);
    assert OccursAt(para, para, 0);
    UnbrokenInParagraph(b, text, para, para);
  }

  /** So is a line that fits, in whatever paragraph. */
  lemma {:induction false} FittingLineIsHeld(b: Budget, text: string, para: string, line: string)
    requires b.BlankIsFree() && IsSegment(text, "\n\n", para) && IsSegment(para, "\n", line) && !Blank(line) && b.Fits(line)
    ensures Held(RawChunks(b, text), line)
  {
    assert OccursAt(line, line, 0);
    UnbrokenInLine(b, text, para, line, line);
  }

  /** So is a sentence that fits, up to and with its full stop and space. */
  lemma {:induction false} FittingSentenceIsHeld(b: Budget, text: string, para: string, line: string, sentence: string)
    requires b.BlankIsFree() && IsSegment(text, "\n\n", para) && IsSegment(para, "\n", line) && IsSegment(line, ". ", sentence)
    requires !Blank(sentence) && b.Fits(sentence)
    ensures Held(RawChunks(b, text), sentence)
  {
    assert OccursAt(sentence, sentence, 0);
    UnbrokenInSentence(b, text, para, line, sentence, sentence);
  }

  /** And so is a word that fits with the space behind it. */
  lemma {:induction false} FittingWordIsHeld(b: Budget, text: string, para: string, line: string, sentence: string, word: string)
    requires b.BlankIsFree() && IsSegment(text, "\n\n", para) && IsSegment(para, "\n", line) && IsSegment(line, ". ", sentence)
    requires IsSegment(sentence, " ", word) && !Blank(word) && b.Fits(word)
    ensures Held(RawChunks(b, text), word)
  {
    var segs := Segments(Split(sentence, " "), " ");
    var n :| 0 <= n < |segs| && segs[n] == word;
    SeparatorsCut();
    assert SEPARATORS[3..] == [" "] && SEPARATORS[3..][0] == " " && SEPARATORS[3..][1..] == [];
    FittingIsUnbroken(b, word, []);
    UnbrokenAbove(b, sentence, SEPARATORS[3..], n, word);
    UnbrokenInSentence(b, text, para, line, sentence, word);
  }

  // ---------------------------------------------------------------- chunks are as long as they can be

  /** Segments lo, ..., hi - 1 in a row fit, and with the next one they would not. */
  predicate LongestRun(b: Budget, segs: seq<string>, lo: nat, hi: nat) {
    && lo < hi <= |segs| && b.Fits(Concat(segs[lo..hi]))
    && (hi < |segs| ==> !b.Fits(Concat(segs[lo..hi + 1])))
  }

  /** From segment `lo` on: longest runs, and segments that do not fit, which are split further. */
  ghost predicate Grouped(b: Budget, segs: seq<string>, lo: nat, groups: seq<seq<string>>, finer: seq<string>)
    requires lo <= |segs| && "" !in finer
    decreases |groups|
  {
    if lo == |segs| then groups == []
    else
      && groups != []
      && (|| (!b.Fits(segs[lo]) && groups[0] == Pieces(b, segs[lo], finer) && Grouped(b, segs, lo + 1, groups[1..], finer))
          || (exists hi: nat :: LongestRun(b, segs, lo, hi) && groups[0] == Emit(Concat(segs[lo..hi]))
                                && Grouped(b, segs, hi, groups[1..], finer)))
  }

  function Flatten(groups: seq<seq<string>>): seq<string> {
    if groups == [] then [] else groups[0] + Flatten(groups[1..])
  }

  lemma {:induction false} FlattenCons(first: seq<string>, rest: seq<seq<string>>)
    ensures Flatten([first] + rest) == first + Flatten(rest)
  {
    assert ([first] + rest)[1..] == rest;
  }

  lemma {:induction false} ConcatRange(segs: seq<string>, lo: nat, hi: nat)
    requires lo <= hi < |segs|
    ensures Concat(segs[lo..hi + 1]) == Concat(segs[lo..hi]) + segs[hi]
  {
    assert segs[lo..hi + 1] == segs[lo..hi] + [segs[hi]];
    ConcatSnoc(segs[lo..hi], segs[hi]);
  }

  lemma {:induction false} RunFirst(b: Budget, segs: seq<string>, lo: nat, hi: nat, rest: seq<seq<string>>, finer: seq<string>)
    requires "" !in finer && LongestRun(b, segs, lo, hi) && Grouped(b, segs, hi, rest, finer)
    ensures Grouped(b, segs, lo, [Emit(Concat(segs[lo..hi]))] + rest, finer)
  {
    assert ([Emit(Concat(segs[lo..hi]))] + rest)[1..] == rest;
  }

  lemma {:induction false} OversizedFirst(b: Budget, segs: seq<string>, lo: nat, rest: seq<seq<string>>, finer: seq<string>)
    requires "" !in finer && lo < |segs| && !b.Fits(segs[lo]) && Grouped(b, segs, lo + 1, rest, finer)
    ensures Grouped(b, segs, lo, [Pieces(b, segs[lo], finer)] + rest, finer)
  {
    assert ([Pieces(b, segs[lo], finer)] + rest)[1..] == rest;
  }

  /** With the run from `lo` in the buffer. */
  lemma {:induction false} PackGroups(b: Budget, segs: seq<string>, lo: nat, i: nat, finer: seq<string>) returns (groups: seq<seq<string>>)
    requires lo < i <= |segs| && Cutting(finer) && b.Fits(Concat(segs[lo..i]))
    ensures Pack(b, segs, i, Concat(segs[lo..i]), finer) == Flatten(groups) && Grouped(b, segs, lo, groups, finer)
    decreases |segs| - i, 0
  {
    var buf := Concat(segs[lo..i]);
    if i == |segs| {
      groups := [Emit(buf)] + [];
      FlattenCons(Emit(buf), []);
      RunFirst(b, segs, lo, i, [], finer);
    } else {
      ConcatRange(segs, lo, i);
      if b.Fits(buf + segs[i]) {
        groups := PackGroups(b, segs, lo, i + 1, finer);
      } else {
        var rest := RestGroups(b, segs, i, finer);
        PackIsRest(b, segs, i, buf, finer);
        groups := [Emit(buf)] + rest;
        FlattenCons(Emit(buf), rest);
        RunFirst(b, segs, lo, i, rest, finer);
      }
    }
  }

  lemma {:induction false} RestGroups(b: Budget, segs: seq<string>, i: nat, finer: seq<string>) returns (groups: seq<seq<string>>)
    requires i < |segs| && Cutting(finer)
    ensures PackRest(b, segs, i, finer) == Flatten(groups) && Grouped(b, segs, i, groups, finer)
    decreases |segs| - i - 1, 1
  {
    if b.Fits(segs[i]) {
      ConcatRange(segs, i, i);
      assert segs[i..i] == [] && "" + segs[i] == segs[i];
      groups := PackGroups(b, segs, i, i + 1, finer);
    } else {
      var rest := StartGroups(b, segs, i + 1, finer);
      groups := [Pieces(b, segs[i], finer)] + rest;
      FlattenCons(Pieces(b, segs[i], finer), rest);
      OversizedFirst(b, segs, i, rest, finer);
    }
  }

  /** With nothing in the buffer. */
  lemma {:induction false} StartGroups(b: Budget, segs: seq<string>, i: nat, finer: seq<string>) returns (groups: seq<seq<string>>)
    requires i <= |segs| && Cutting(finer)
    ensures Pack(b, segs, i, "", finer) == Flatten(groups) && Grouped(b, segs, i, groups, finer)
    decreases |segs| - i, 0
  {
    if i == |segs| {
      groups := [];
      assert Blank("");
    } else {
      groups := RestGroups(b, segs, i, finer);
      assert "" + segs[i] == segs[i];
      if !b.Fits(segs[i]) {
        PackIsRest(b, segs, i, "", finer);
        assert Emit("") == [] && [] + PackRest(b, segs, i, finer) == PackRest(b, segs, i, finer);
      }
    }
  }

  /** At every level: a text that does not fit comes out in longest runs of its segments, those too long being split further. */
  lemma {:induction false} PiecesAreLongestRuns(b: Budget, text: string, separators: seq<string>) returns (groups: seq<seq<string>>)
    requires b.BlankIsFree() && Cutting(separators) && separators != [] && separators[0] in separators && !Blank(text) && !b.Fits(text)
    ensures Pieces(b, text, separators) == Flatten(groups)
    ensures Grouped(b, Segments(Split(text, separators[0]), separators[0]), 0, groups, separators[1..])
  {
    groups := StartGroups(b, Segments(Split(text, separators[0]), separators[0]), 0, separators[1..]);
    NothingEmptied(b, text, separators);
  }

  /** Words lo, ..., hi - 1 with spaces between fit, and with the next one they would not; or it is one that fits nowhere. */
  predicate LongestWords(b: Budget, words: seq<string>, lo: nat, hi: nat) {
    && lo < hi <= |words|
    && (if b.Fits(Join(" ", words, lo, hi)) then hi < |words| ==> !b.Fits(Join(" ", words, lo, hi + 1)) else hi == lo + 1)
  }

  ghost predicate WordRuns(b: Budget, words: seq<string>, lo: nat, runs: seq<string>)
    requires lo <= |words|
    decreases |runs|
  {
    if lo == |words| then runs == []
    else
      && runs != []
      && exists hi: nat :: LongestWords(b, words, lo, hi) && runs[0] == Join(" ", words, lo, hi) && WordRuns(b, words, hi, runs[1..])
  }

  lemma {:induction false} RunIsLongest(b: Budget, words: seq<string>, lo: nat, k: nat)
    requires lo + k <= |words|
    ensures var n := RunLength(b, words, lo, k); lo + n < |words| ==> !b.Fits(Join(" ", words, lo, lo + n + 1))
    decreases |words| - lo - k
  {
    if lo + k < |words| && b.Fits(Join(" ", words, lo, lo + k + 1)) {
      RunIsLongest(b, words, lo, k + 1);
    }
  }

  lemma {:induction false} TakeIsLongest(b: Budget, words: seq<string>, lo: nat)
    requires lo < |words|
    ensures LongestWords(b, words, lo, lo + Take(b, words, lo))
  {
    RunIsLongest(b, words, lo, 0);
    RunFits(b, words, lo, 0);
  }

  /** The hard split goes in longest runs of words. */
  lemma {:induction false} HardSplitTakesLongestRuns(b: Budget, words: seq<string>, lo: nat)
    requires lo <= |words|
    ensures WordRuns(b, words, lo, Greedy(b, words, lo))
    decreases |words| - lo
  {
    if lo < |words| {
      var hi := lo + Take(b, words, lo);
      TakeIsLongest(b, words, lo);
      HardSplitTakesLongestRuns(b, words, hi);
      assert Greedy(b, words, lo) == [Join(" ", words, lo, hi)] + Greedy(b, words, hi);
    }
  }

  /** A counter that does not shrink when text is added. */
  ghost predicate Grows(b: Budget) {
    forall s: string, t: string, k: nat :: OccursAt(s, t, k) ==> b.count(t) <= b.count(s)
  }

  ghost predicate AllFit(b: Budget, chunks: seq<string>) {
    forall c | c in chunks :: b.Fits(c)
  }

  ghost predicate WordsFit(b: Budget, text: string) {
    forall w | IsWord(text, w) :: b.Fits(w)
  }

  /**
   * Every chunk fits if every whole word of the text does, and, for a counter that does not shrink when text is
   * added, only then.
   */
  lemma {:induction false} AllFitIff(b: Budget, text: string)
    requires b.BlankIsFree()
    ensures WordsFit(b, text) ==> AllFit(b, RawChunks(b, text))
    ensures Grows(b) ==> (AllFit(b, RawChunks(b, text)) <==> WordsFit(b, text))
  {
    ChunksBounded(b, text);
    if Grows(b) && AllFit(b, RawChunks(b, text)) {
      forall w | IsWord(text, w) ensures b.Fits(w) {
        var i: nat :| WordAt(text, w, i);
        if !Blank(w) {
          PlainStretchIsHeld(b, text, w, i);
          HeldFits(b, RawChunks(b, text), w);
        }
      }
    }
  }

  lemma {:induction false} HeldFits(b: Budget, chunks: seq<string>, w: string)
    requires Grows(b) && AllFit(b, chunks) && Held(chunks, w)
    ensures b.Fits(w)
  {
    var n: nat, k: nat :| n < |chunks| && OccursAt(chunks[n], w, k);
    assert chunks[n] in chunks;
  }

  function DemoCount(s: string): nat {
    if Blank(s) then 0 else if |s| > 3 then 2 else 1
  }

  lemma {:induction false} DemoGrows(limit: nat)
    ensures Grows(Budget(DemoCount, limit))
  {
    forall s: string, t: string, k: nat | OccursAt(s, t, k) ensures DemoCount(t) <= DemoCount(s) {
      if !Blank(t) {
        VisibleInside(s, t, k);
      }
    }
  }

  /** A text of one word over the limit: the chunk is that word, and it does not fit. */
  lemma {:induction false} LongWordIsEmittedWhole()
    ensures var b := Budget(DemoCount, 1);
            b.BlankIsFree() && "aaaa" in RawChunks(b, "aaaa") && !b.Fits("aaaa")
  {
    var b, w := Budget(DemoCount, 1), "aaaa";
    assert w[0] == 'a' && w[..0] == "" && forall k | 0 <= k < |w| :: w[k] == 'a';
    assert WordAt(w, w, 0);
    DemoGrows(1);
    AllFitIff(b, w);
    ChunksBounded(b, w);
    var c :| c in RawChunks(b, w) && !b.Fits(c);
    OnlyWord(w, c);
  }

  lemma {:induction false} OnlyWord(text: string, c: string)
    requires IsWord(text, c) && forall k | 0 <= k < |text| :: !Breaks(text[k])
    ensures c == text
  {
    var i: nat :| WordAt(text, c, i);
    WordEnds(text, c, i);
  }

  // ---------------------------------------------------------------- recorded offsets

  ghost function FirstGap(text: string, chunks: seq<string>): (k: nat)
    requires chunks != [] && Tiles(text, chunks)
    ensures Leads(text, chunks[0], k) && Tiles(text[k + |chunks[0]|..], chunks[1..])
  {
    var k: nat :| Leads(text, chunks[0], k) && Tiles(text[k + |chunks[0]|..], chunks[1..]);
    k
  }

  /** Where chunk `i` of a tiling stands in the text. */
  ghost function StartOf(text: string, chunks: seq<string>, i: nat): (at: nat)
    requires Tiles(text, chunks) && i < |chunks|
    decreases i
  {
    var next := FirstGap(text, chunks) + |chunks[0]|;
    if i == 0 then FirstGap(text, chunks) else next + StartOf(text[next..], chunks[1..], i - 1)
  }

  lemma {:induction false} OccursLater(text: string, sub: string, from: nat, at: nat)
    requires from <= |text| && OccursAt(text[from..], sub, at)
    ensures OccursAt(text, sub, from + at)
  {
    assert text[from..][at..at + |sub|] == text[from + at..from + at + |sub|];
  }

  lemma {:induction false} OccursBehind(text: string, chunks: seq<string>, i: nat, next: nat, at: nat)
    requires 0 < i < |chunks| && next <= |text| && OccursAt(text[next..], chunks[1..][i - 1], at)
    ensures OccursAt(text, chunks[i], next + at)
  {
    OccursLater(text, chunks[i], next, at);
  }

  lemma {:induction false} StartOccurs(text: string, chunks: seq<string>, i: nat)
    requires Tiles(text, chunks) && i < |chunks|
    ensures OccursAt(text, chunks[i], StartOf(text, chunks, i))
    decreases i
  {
    var k := FirstGap(text, chunks);
    if i == 0 {
      assert OccursAt(text, chunks[0], k);
    } else {
      var next := k + |chunks[0]|;
      StartOccurs(text[next..], chunks[1..], i - 1);
      OccursBehind(text, chunks, i, next, StartOf(text[next..], chunks[1..], i - 1));
    }
  }

  /** The recorded offset is at or before the place the chunk was cut from. */
  lemma {:induction false} OffsetAtOrBefore(b: Budget, content: string, i: nat)
    requires b.BlankIsFree() && i < |RawChunks(b, content)|
    ensures Tiles(content, RawChunks(b, content))
    ensures 0 <= Find(content, RawChunks(b, content)[i], 0) <= StartOf(content, RawChunks(b, content), i)
  {
    var raw := RawChunks(b, content);
    ChunksTileText(b, content);
    StartOccurs(content, raw, i);
    FindIsFirst(content, raw[i], 0, StartOf(content, raw, i));
  }

  lemma {:induction false} FoundInText(b: Budget, content: string, i: nat)
    requires b.BlankIsFree() && i < |RawChunks(b, content)|
    ensures Find(content, RawChunks(b, content)[i], 0) >= 0
  {
    OffsetAtOrBefore(b, content, i);
  }

  /** It is that place exactly when the chunk's text occurs nowhere earlier in the document. */
  lemma {:induction false} OffsetExactness(b: Budget, content: string, i: nat)
    requires b.BlankIsFree() && i < |RawChunks(b, content)|
    ensures Tiles(content, RawChunks(b, content))
    ensures var chunk, at := RawChunks(b, content)[i], StartOf(content, RawChunks(b, content), i);
            Find(content, chunk, 0) == at <==> forall k | 0 <= k < at :: !OccursAt(content, chunk, k)
  {
    OffsetAtOrBefore(b, content, i);
    var chunk, at := RawChunks(b, content)[i], StartOf(content, RawChunks(b, content), i);
    forall k | 0 <= k < at && OccursAt(content, chunk, k) ensures Find(content, chunk, 0) < at {
      FindIsFirst(content, chunk, 0, k);
    }
  }

  /** The offset recorded for chunk `i` is where it was cut from. */
  ghost predicate OffsetRight(content: string, raw: seq<string>, i: nat)
    requires Tiles(content, raw) && i < |raw|
  {
    Find(content, raw[i], 0) == StartOf(content, raw, i)
  }

  lemma {:induction false} StartOfLater(text: string, chunks: seq<string>, i: nat)
    requires Tiles(text, chunks) && 0 < i < |chunks|
    ensures var next := FirstGap(text, chunks) + |chunks[0]|;
            Tiles(text[next..], chunks[1..]) && StartOf(text, chunks, i) == next + StartOf(text[next..], chunks[1..], i - 1)
  {
  }

  lemma {:induction false} StartOfFirst(text: string, chunks: seq<string>)
    requires Tiles(text, chunks) && chunks != []
    ensures StartOf(text, chunks, 0) == FirstGap(text, chunks)
  {
  }

  lemma {:induction false} FirstApart(text: string, chunks: seq<string>)
    requires Tiles(text, chunks) && 1 < |chunks|
    ensures StartOf(text, chunks, 0) + |chunks[0]| <= StartOf(text, chunks, 1)
  {
    StartOfFirst(text, chunks);
    StartOfLater(text, chunks, 1);
  }

  lemma {:induction false} LaterApart(text: string, chunks: seq<string>, i: nat, rest: string, later: seq<string>)
    requires Tiles(text, chunks) && 0 < i && i + 1 < |chunks|
    requires rest == text[FirstGap(text, chunks) + |chunks[0]|..] && later == chunks[1..] && Tiles(rest, later)
    ensures StartOf(text, chunks, i + 1) - StartOf(text, chunks, i) == StartOf(rest, later, i) - StartOf(rest, later, i - 1)
  {
    StartOfLater(text, chunks, i);
    StartOfLater(text, chunks, i + 1);
  }

  /** A chunk begins no earlier than where the chunk before it ends. */
  lemma {:induction false} StartsApart(text: string, chunks: seq<string>, i: nat)
    requires Tiles(text, chunks) && i + 1 < |chunks|
    ensures StartOf(text, chunks, i) + |chunks[i]| <= StartOf(text, chunks, i + 1)
    decreases i
  {
    if i == 0 {
      FirstApart(text, chunks);
    } else {
      var rest, later := text[FirstGap(text, chunks) + |chunks[0]|..], chunks[1..];
      StartsApart(rest, later, i - 1);
      LaterApart(text, chunks, i, rest, later);
    }
  }

  lemma {:induction false} ApartInOrder(starts: seq<int>, chunks: seq<string>, i: nat, j: nat)
    requires |starts| == |chunks| && i < j < |starts|
    requires forall k | 0 <= k < |starts| - 1 :: starts[k] + |chunks[k]| <= starts[k + 1]
    ensures starts[i] + |chunks[i]| <= starts[j]
  {
    if i + 1 < j {
      ApartInOrder(starts, chunks, i, j - 1);
      assert starts[j - 1] + |chunks[j - 1]| <= starts[j - 1 + 1];
    }
  }

  ghost function Starts(text: string, chunks: seq<string>): (starts: seq<int>)
    requires Tiles(text, chunks)
    ensures |starts| == |chunks|
  {
    seq(|chunks|, k requires 0 <= k < |chunks| => StartOf(text, chunks, k))
  }

  lemma {:induction false} StartsInOrder(text: string, chunks: seq<string>, k: nat)
    requires Tiles(text, chunks) && k + 1 < |chunks|
    ensures Starts(text, chunks)[k] + |chunks[k]| <= Starts(text, chunks)[k + 1]
  {
    StartsApart(text, chunks, k);
  }

  lemma {:induction false} EarlierEnds(text: string, chunks: seq<string>, i: nat, j: nat)
    requires Tiles(text, chunks) && i < j < |chunks|
    ensures StartOf(text, chunks, i) + |chunks[i]| <= StartOf(text, chunks, j)
  {
    var starts := Starts(text, chunks);
    forall k | 0 <= k < |starts| - 1 ensures starts[k] + |chunks[k]| <= starts[k + 1] {
      StartsInOrder(text, chunks, k);
    }
    ApartInOrder(starts, chunks, i, j);
  }

  /** In particular a chunk whose text is part of an earlier chunk is recorded inside that chunk. */
  lemma {:induction false} NestedChunkMisplaced(b: Budget, content: string, i: nat, j: nat, at: nat)
    requires b.BlankIsFree() && i < j < |RawChunks(b, content)|
    requires OccursAt(RawChunks(b, content)[i], RawChunks(b, content)[j], at)
    ensures Tiles(content, RawChunks(b, content))
    ensures var raw := RawChunks(b, content);
            && Find(content, raw[j], 0) <= StartOf(content, raw, i) + at
            && !OffsetRight(content, raw, j)
  {
    var raw := RawChunks(b, content);
    ChunksTileText(b, content);
    NestedIn(content, raw, i, j, at);
  }

  lemma {:induction false} NestedIn(content: string, raw: seq<string>, i: nat, j: nat, at: nat)
    requires Tiles(content, raw) && i < j < |raw| && OccursAt(raw[i], raw[j], at)
    ensures Find(content, raw[j], 0) <= StartOf(content, raw, i) + at < StartOf(content, raw, j)
  {
    StartOccurs(content, raw, i);
    EarlierEnds(content, raw, i, j);
    ChunkNotEmpty(content, raw, j);
    var start := StartOf(content, raw, i);
    OccursWithin(content, raw[i], raw[j], start, at);
    FindIsFirst(content, raw[j], 0, start + at);
  }

  lemma {:induction false} OccursWithin(text: string, chunk: string, sub: string, start: nat, at: nat)
    requires OccursAt(text, chunk, start) && OccursAt(chunk, sub, at)
    ensures OccursAt(text, sub, start + at)
  {
    var from, to := start + at, start + at + |sub|;
    assert text[start..start + |chunk|] == chunk && chunk[at..at + |sub|] == sub;
    forall k | 0 <= k < |sub| ensures text[from..to][k] == sub[k] {
      assert text[from..to][k] == text[from + k] == chunk[at + k] == chunk[at..at + |sub|][k];
    }
  }

  lemma {:induction false} ChunkNotEmpty(text: string, chunks: seq<string>, i: nat)
    requires Tiles(text, chunks) && i < |chunks|
    ensures chunks[i] != ""
    decreases i
  {
    var k := FirstGap(text, chunks);
    if i > 0 {
      ChunkNotEmpty(text[k + |chunks[0]|..], chunks[1..], i - 1);
    }
  }

  lemma {:induction false} DemoSplit(content: string, sep: string)
    requires content == "a\n\na" && sep == "\n\n"
    ensures Split(content, sep) == ["a", "a"]
    ensures content[..1] == "a" && content[3..] == "a" && content[0] == 'a'
  {
    assert content[0..2][0] == 'a' && content[1..3] == sep;
    assert !OccursAt(content, sep, 0) && OccursAt(content, sep, 1);
    assert Find(content, sep, 0) == 1;
    var rest := content[3..];
    assert rest == "a" && content[..1] == "a";
    assert !OccursAt(rest, sep, 0) && Find(rest, sep, 0) == -1 && Split(rest, sep) == ["a"];
  }

  /** A repeated line is recorded at its first occurrence, not where its second chunk was cut. */
  lemma {:induction false} RepeatedChunkMisplaced()
    ensures var b, content := Budget(DemoCount, 1), "a\n\na";
            && b.BlankIsFree()
            && RawChunks(b, content) == ["a\n\n", "a"]
            && Find(content, "a", 0) == 0 && !Blank(content[1..]) && content[3..] == "a"
  {
    var b, content, sep := Budget(DemoCount, 1), "a\n\na", "\n\n";
    DemoSplit(content, sep);
    var segs := Segments(["a", "a"], sep);
    assert segs[0] == "a\n\n" && segs[1] == "a";
    DemoPack(segs);
    assert SEPARATORS[0] == sep && content[0..1] == "a" && content[1..][2] == 'a';
  }

  lemma {:induction false} DemoPack(segs: seq<string>)
    requires |segs| == 2 && segs[0] == "a\n\n" && segs[1] == "a"
    ensures Pack(Budget(DemoCount, 1), segs, 0, "", SEPARATORS[1..]) == ["a\n\n", "a"]
  {
    var b, finer := Budget(DemoCount, 1), SEPARATORS[1..];
    assert "" + segs[0] == segs[0] && segs[0][0] == 'a' && segs[1][0] == 'a';
    assert |segs[0] + segs[1]| == 4 && (segs[0] + segs[1])[0] == 'a';
    assert Pack(b, segs, 2, segs[1], finer) == [segs[1]];
    assert Pack(b, segs, 1, segs[0], finer) == [segs[0]] + [segs[1]];
  }
}
