/**
 * services/rag-service/src/pipelines/answer_guard.py: the trailing-refusal guard.
 *
 * The specification looks at the whole text received so far and at `base`, the length of the text
 * already emitted; the class works on the held buffer alone, as the source does.
 */
module AnswerGuard {
  import opened Text

  /** In two pieces, because the verifier does not see the first character of so long a literal. */
  const REFUSAL_SENTENCE := "I" + " don't have that information in the available documents."

  /** The rest of `text` from `j` on is a prefix of the sentence. */
  predicate Matches(sentence: string, text: string, j: int) {
    0 <= j <= |text| && |text| - j <= |sentence| && forall i | j <= i < |text| :: text[i] == sentence[i - j]
  }

  predicate EndsWith(sentence: string, text: string) {
    Matches(sentence, text, |text| - |sentence|)
  }

  /** A tail that may still grow into the sentence starts at `j` of a buffer that begins at `base`. */
  predicate TailAt(sentence: string, text: string, base: nat, j: int) {
    base <= j < |text| && (j == base || IsSpace(text[j - 1])) && Matches(sentence, text, j)
  }

  /** The earliest tail at or after `from`, or the end of the text. */
  function FirstTail(sentence: string, text: string, base: nat, from: nat): (j: nat)
    requires base <= from <= |text|
    ensures from <= j <= |text|
    decreases |text| - from
  {
    if from == |text| || TailAt(sentence, text, base, from) then from
    else FirstTail(sentence, text, base, from + 1)
  }

  /** Hold back from the white space before the earliest tail. */
  function Cut(sentence: string, text: string, base: nat): (cut: nat)
    requires base <= |text|
    ensures base <= cut <= |text|
  {
    SpaceStart(text, base, FirstTail(sentence, text, base, base))
  }

  /** What has been received and how much of it has been emitted. */
  datatype Progress = Progress(text: string, base: nat) {
    predicate Valid() {
      base <= |text|
    }

    function Feed(sentence: string, piece: string): (p: Progress)
      requires Valid()
      ensures p.Valid()
    {
      Progress(text + piece, Cut(sentence, text + piece, base))
    }

    function Emitted(): string
      requires Valid()
    {
      text[..base]
    }

    function Held(): string
      requires Valid()
    {
      text[base..]
    }

    /** `finish` drops the held text. */
    predicate Drops(sentence: string)
      requires Valid()
    {
      !AllSpace(text, 0, base) && Strip(Held()) == sentence
    }

    /** All that reaches the user once the stream has ended here. */
    function Shown(sentence: string): string
      requires Valid()
    {
      if Drops(sentence) then Emitted() else text
    }
  }

  function Feeds(sentence: string, pieces: seq<string>): (p: Progress)
    ensures p.Valid()
  {
    if pieces == [] then Progress("", 0)
    else Feeds(sentence, pieces[..|pieces| - 1]).Feed(sentence, pieces[|pieces| - 1])
  }

  /** Everything the user sees of a stream cut into `pieces`. */
  function Output(sentence: string, pieces: seq<string>): string {
    Feeds(sentence, pieces).Shown(sentence)
  }

  class TrailingRefusalGuard {
    const sentence: string
    var held: string
    var releasedContent: bool
    ghost var seen: Progress

    ghost predicate Valid()
      reads this
    {
      seen.Valid() && held == seen.Held() && (releasedContent <==> !AllSpace(seen.text, 0, seen.base))
    }

    constructor (sentence: string)
      ensures Valid() && this.sentence == sentence && seen == Progress("", 0)
    {
      this.sentence := sentence;
      held := "";
      releasedContent := false;
      seen := Progress("", 0);
    }

    method Feed(text: string) returns (out: string)
      requires Valid()
      modifies this
      ensures Valid() && seen == old(seen).Feed(sentence, text)
      ensures seen.Emitted() == old(seen).Emitted() + out
    {
      var buf := held + text;
      ghost var all, base := seen.text + text, seen.base;
      assert buf == all[base..];
      var cut := HoldFrom(buf, all, base);
      out, held := buf[..cut], buf[cut..];
      EmitMore(seen.text, text, base, base + cut);
      if !Blank(out) {
        releasedContent := true;
      }
      seen := seen.Feed(sentence, text);
      assert held == all[base + cut..];
    }

    method Finish() returns (out: string)
      requires Valid()
      modifies this
      ensures out == if old(seen).Drops(sentence) then "" else old(seen).Held()
      ensures held == "" && releasedContent == old(releasedContent) && seen == old(seen)
    {
      var tail := held;
      held := "";
      if releasedContent && Strip(tail) == sentence {
        return "";
      }
      return tail;
    }

    /** The scan skips tails longer than the sentence, which cannot be prefixes of it. */
    method HoldFrom(buf: string, ghost all: string, ghost base: nat) returns (cut: nat)
      requires base <= |all| && buf == all[base..]
      ensures base + cut == Cut(sentence, all, base)
    {
      var j := if |buf| > |sentence| then |buf| - |sentence| else 0;
      SkipLongTails(sentence, all, base, base + j);
      while j < |buf|
        invariant 0 <= j <= |buf|
        invariant FirstTail(sentence, all, base, base + j) == FirstTail(sentence, all, base, base)
      {
        MatchesRelative(sentence, buf, j, all, base);
        if (j == 0 || IsSpace(buf[j - 1])) && buf[j..] <= sentence {
          cut := WhitespaceStart(buf, j, all, base);
          return;
        }
        j := j + 1;
      }
      cut := WhitespaceStart(buf, |buf|, all, base);
    }

    static method WhitespaceStart(buf: string, end: nat, ghost all: string, ghost base: nat) returns (j: nat)
      requires base <= |all| && buf == all[base..] && end <= |buf|
      ensures base + j == SpaceStart(all, base, base + end)
    {
      j := end;
      while j > 0 && IsSpace(buf[j - 1])
        invariant j <= end && SpaceStart(all, base, base + end) == SpaceStart(all, base, base + j)
      {
        j := j - 1;
      }
    }
  }

  lemma {:induction false} SkipLongTails(sentence: string, text: string, base: nat, from: nat)
    requires base <= from <= |text|
    requires base < from ==> |text| - from >= |sentence|
    ensures FirstTail(sentence, text, base, from) == FirstTail(sentence, text, base, base)
    decreases from
  {
    if base < from {
      SkipLongTails(sentence, text, base, from - 1);
    }
  }

  lemma EmitMore(text: string, piece: string, base: nat, cut: nat)
    requires base <= |text| && base <= cut <= |text| + |piece|
    ensures var all := text + piece;
            && all[..cut] == text[..base] + all[base..][..cut - base]
            && (AllSpace(all, 0, cut) <==> AllSpace(text, 0, base) && Blank(all[base..][..cut - base]))
  {
    var all := text + piece;
    var out := all[base..][..cut - base];
    assert forall i | base <= i < cut :: all[i] == out[i - base];
    assert forall i | 0 <= i < base :: all[i] == text[i];
  }

  lemma {:induction false} MatchesRelative(sentence: string, buf: string, j: nat, all: string, base: nat)
    requires base <= |all| && buf == all[base..] && j <= |buf|
    ensures buf[j..] <= sentence <==> Matches(sentence, all, base + j)
  {
    var tail := buf[j..];
    assert forall i | 0 <= i < |tail| :: tail[i] == all[base + j + i];
    if Matches(sentence, all, base + j) {
      assert forall i | 0 <= i < |tail| :: tail[i] == sentence[i];
    }
  }

  /** The answer loop of services/rag-service/src/pipelines/query.py: feed every piece, then finish. */
  method StreamAnswer(pieces: seq<string>, sentence: string := REFUSAL_SENTENCE) returns (parts: seq<string>)
    ensures Concat(parts) == Output(sentence, pieces)
    ensures "" !in parts
  {
    var guard := new TrailingRefusalGuard(sentence);
    parts := [];
    for i := 0 to |pieces|
      invariant fresh(guard) && guard.Valid() && guard.sentence == sentence
      invariant guard.seen == Feeds(sentence, pieces[..i])
      invariant Concat(parts) == guard.seen.Emitted() && "" !in parts
    {
      assert pieces[..i + 1][..i] == pieces[..i];
      var released := guard.Feed(pieces[i]);
      if released != "" {
        ConcatSnoc(parts, released);
        parts := parts + [released];
      }
    }
    assert pieces[..|pieces|] == pieces;
    var tail := guard.Finish();
    if tail != "" {
      ConcatSnoc(parts, tail);
      parts := parts + [tail];
    }
    ShownIs(guard.seen, sentence);
  }

  lemma {:induction false} ShownIs(p: Progress, sentence: string)
    requires p.Valid()
    ensures p.Shown(sentence) == p.Emitted() + if p.Drops(sentence) then "" else p.Held()
  {
  }

  // ---------------------------------------------------------------- every cut of every stream

  predicate Trimmed(sentence: string) {
    sentence != "" && !IsSpace(sentence[0]) && !IsSpace(sentence[|sentence| - 1])
  }

  /** The held text is white space up to `w` and then a (possibly empty) prefix of the sentence. */
  predicate HoldableAt(sentence: string, text: string, base: nat, w: nat) {
    base <= w <= |text| && AllSpace(text, base, w) && Matches(sentence, text, w)
  }

  /** Text is emitted up to a visible character and what is held may still become the sentence. */
  ghost predicate Sound(sentence: string, p: Progress) {
    p.Valid() && (p.base == 0 || !IsSpace(p.text[p.base - 1]))
    && exists w :: HoldableAt(sentence, p.text, p.base, w)
  }

  lemma {:induction false} FirstTailFacts(sentence: string, text: string, base: nat, from: nat)
    requires base <= from <= |text|
    ensures var j := FirstTail(sentence, text, base, from);
            && (j < |text| ==> TailAt(sentence, text, base, j))
            && forall i | from <= i < j :: !TailAt(sentence, text, base, i)
    decreases |text| - from
  {
    if from != |text| && !TailAt(sentence, text, base, from) {
      FirstTailFacts(sentence, text, base, from + 1);
    }
  }

  lemma {:induction false} FeedIsSound(sentence: string, p: Progress, piece: string)
    requires Sound(sentence, p)
    ensures Sound(sentence, p.Feed(sentence, piece))
  {
    var text := p.text + piece;
    var j := FirstTail(sentence, text, p.base, p.base);
    assert p.base > 0 ==> text[p.base - 1] == p.text[p.base - 1];
    FirstTailFacts(sentence, text, p.base, p.base);
    SpaceStartFacts(text, p.base, j);
    assert HoldableAt(sentence, text, Cut(sentence, text, p.base), j);
  }

  lemma {:induction false} FeedsSound(sentence: string, pieces: seq<string>)
    ensures Sound(sentence, Feeds(sentence, pieces))
  {
    if pieces == [] {
      assert HoldableAt(sentence, "", 0, 0);
    } else {
      FeedsSound(sentence, pieces[..|pieces| - 1]);
      FeedIsSound(sentence, Feeds(sentence, pieces[..|pieces| - 1]), pieces[|pieces| - 1]);
    }
  }

  lemma {:induction false} FeedsText(sentence: string, pieces: seq<string>)
    ensures Feeds(sentence, pieces).text == Concat(pieces)
  {
    if pieces != [] {
      var before, piece := pieces[..|pieces| - 1], pieces[|pieces| - 1];
      FeedsText(sentence, before);
      ConcatSnoc(before, piece);
      assert before + [piece] == pieces;
    }
  }

  /** Whatever the cuts, nothing is lost or reordered and only a holdable tail is held. */
  lemma {:induction false} FeedsInvariant(sentence: string, pieces: seq<string>)
    ensures var p := Feeds(sentence, pieces);
            p.Emitted() + p.Held() == Concat(pieces) == p.text && Sound(sentence, p)
  {
    FeedsText(sentence, pieces);
    FeedsSound(sentence, pieces);
  }

  lemma {:induction false} StripPadded(sentence: string, text: string, base: nat, w: nat)
    requires Trimmed(sentence) && HoldableAt(sentence, text, base, w)
    ensures Strip(text[base..]) == sentence <==> w == |text| - |sentence|
  {
    var held := text[base..];
    assert forall i | 0 <= i < |held| :: held[i] == text[base + i];
    var lo := SpaceEnd(held, 0);
    SpaceEndFacts(held, 0);
    if w < |text| {
      assert text[w] == sentence[0];
      assert lo == w - base;
    }
    if w == |text| - |sentence| {
      assert held[|held| - 1] == sentence[|sentence| - 1];
      assert SpaceStart(held, lo, |held|) == |held|;
      assert held[lo..|held|] == sentence;
    }
  }

  /** White space and then exactly the sentence is held. */
  predicate HoldsSentence(sentence: string, p: Progress) {
    var start := |p.text| - |sentence|;
    p.base <= start && EndsWith(sentence, p.text) && AllSpace(p.text, p.base, start)
  }

  /** The only thing `finish` can discard is white space and the whole sentence, after visible output. */
  lemma {:induction false} DropIsSentence(sentence: string, p: Progress)
    requires Trimmed(sentence) && Sound(sentence, p)
    ensures p.Drops(sentence) <==> !AllSpace(p.text, 0, p.base) && HoldsSentence(sentence, p)
  {
    var w :| HoldableAt(sentence, p.text, p.base, w);
    StripPadded(sentence, p.text, p.base, w);
    if HoldsSentence(sentence, p) {
      var start := |p.text| - |sentence|;
      assert HoldableAt(sentence, p.text, p.base, start);
      StripPadded(sentence, p.text, p.base, start);
    }
  }

  // ---------------------------------------------------------------- online equals offline

  /** The sentence ends the stream and stands directly behind a visible character. */
  predicate Glued(sentence: string, text: string) {
    EndsWith(sentence, text) && |text| > |sentence| && !IsSpace(text[|text| - |sentence| - 1])
  }

  /** The offline meaning: drop a final sentence that stands apart from earlier visible text. */
  function Batch(sentence: string, text: string): string {
    if EndsWith(sentence, text) && !Glued(sentence, text) && !Blank(text[..|text| - |sentence|])
    then RStrip(text[..|text| - |sentence|])
    else text
  }

  /** One step never emits past `stop` when the sentence starts at `start` behind white space. */
  lemma {:induction false} StepHoldsBack(sentence: string, text: string, base: nat, all: string, stop: nat, start: nat)
    requires Trimmed(sentence) && text <= all && base <= |text| && base <= stop
    requires stop <= start <= |all| && AllSpace(all, stop, start) && Matches(sentence, all, start)
    requires start == 0 || stop < start
    ensures Cut(sentence, text, base) <= stop
  {
    var j := FirstTail(sentence, text, base, base);
    FirstTailFacts(sentence, text, base, base);
    assert forall i | 0 <= i < |text| :: text[i] == all[i];
    assert start < |text| ==> TailAt(sentence, text, base, start);
    assert j <= start;
    SpaceStartFacts(text, base, j);
  }

  /** Nothing of a final sentence that follows white space, nor of that white space, is emitted early. */
  lemma {:induction false} HoldsBack(sentence: string, pieces: seq<string>, all: string, stop: nat, start: nat)
    requires Trimmed(sentence)
    requires Feeds(sentence, pieces).text <= all
    requires stop <= start <= |all| && AllSpace(all, stop, start) && Matches(sentence, all, start)
    requires start == 0 || stop < start
    ensures Feeds(sentence, pieces).base <= stop
  {
    if pieces != [] {
      var before := pieces[..|pieces| - 1];
      HoldsBack(sentence, before, all, stop, start);
      StepHoldsBack(sentence, Feeds(sentence, pieces).text, Feeds(sentence, before).base, all, stop, start);
    }
  }

  lemma {:induction false} LeadOf(all: string, start: nat)
    requires start <= |all|
    ensures var stop := SpaceStart(all, 0, start);
            RStrip(all[..start]) == all[..stop] && (Blank(all[..start]) <==> AllSpace(all, 0, stop))
  {
    var lead, stop := all[..start], SpaceStart(all, 0, start);
    assert forall i | 0 <= i < start :: lead[i] == all[i];
    SpaceStartFacts(all, 0, start);
    SpaceStartIs(lead, 0, start, stop);
    assert lead[..stop] == all[..stop];
  }

  /** Holding back no later than `stop` leaves exactly the white space and the sentence held. */
  lemma {:induction false} RestsAtStop(sentence: string, p: Progress)
    requires Trimmed(sentence) && Sound(sentence, p) && EndsWith(sentence, p.text)
    requires p.base <= SpaceStart(p.text, 0, |p.text| - |sentence|)
    ensures p.base == SpaceStart(p.text, 0, |p.text| - |sentence|) && HoldsSentence(sentence, p)
  {
    SpaceStartFacts(p.text, 0, |p.text| - |sentence|);
    var w :| HoldableAt(sentence, p.text, p.base, w);
  }

  lemma {:induction false} SeparateOutcome(sentence: string, p: Progress)
    requires Trimmed(sentence) && Sound(sentence, p) && !Glued(sentence, p.text)
    requires EndsWith(sentence, p.text) ==> p.base <= SpaceStart(p.text, 0, |p.text| - |sentence|)
    ensures p.Shown(sentence) == Batch(sentence, p.text)
  {
    DropIsSentence(sentence, p);
    if EndsWith(sentence, p.text) {
      RestsAtStop(sentence, p);
      LeadOf(p.text, |p.text| - |sentence|);
    }
  }

  /** Online filtering of any cut of a stream equals the offline definition, unless the sentence is glued. */
  lemma {:induction false} GuardEqualsBatch(sentence: string, pieces: seq<string>)
    requires Trimmed(sentence)
    requires !Glued(sentence, Concat(pieces))
    ensures Output(sentence, pieces) == Batch(sentence, Concat(pieces))
  {
    FeedsInvariant(sentence, pieces);
    var p := Feeds(sentence, pieces);
    if EndsWith(sentence, p.text) {
      var start := |p.text| - |sentence|;
      SpaceStartFacts(p.text, 0, start);
      HoldsBack(sentence, pieces, p.text, SpaceStart(p.text, 0, start), start);
    }
    SeparateOutcome(sentence, p);
  }

  /** A stream with nothing visible before the sentence reaches the user whole. */
  lemma {:induction false} BareRefusalIsReleased(sentence: string, pieces: seq<string>, lead: string)
    requires Trimmed(sentence) && Blank(lead)
    requires Concat(pieces) == lead + sentence
    ensures Output(sentence, pieces) == lead + sentence
  {
    var all := lead + sentence;
    assert all[..|all| - |sentence|] == lead;
    assert |lead| > 0 ==> all[|lead| - 1] == lead[|lead| - 1];
    GuardEqualsBatch(sentence, pieces);
  }

  // ---------------------------------------------------------------- exactly when it holds

  predicate HeldNothingAt(sentence: string, pieces: seq<string>, k: nat, start: int) {
    k <= |pieces| && var p := Feeds(sentence, pieces[..k]); |p.text| == start == p.base
  }

  /** A piece boundary lies exactly where the final sentence starts, and the guard then holds nothing. */
  ghost predicate FreshCut(sentence: string, pieces: seq<string>, start: int) {
    exists k: nat :: HeldNothingAt(sentence, pieces, k, start)
  }

  /** One step stays at a glued start, and comes to it from before only by emitting all there is. */
  lemma {:induction false} RestStep(sentence: string, text: string, base: nat, all: string, start: nat)
    requires Trimmed(sentence) && base <= |text| && text <= all
    requires 0 < start < |all| && Matches(sentence, all, start) && !IsSpace(all[start - 1])
    ensures base == start ==> Cut(sentence, text, base) == start
    ensures Cut(sentence, text, base) == start && start < |text| ==> base == start
  {
    var j := FirstTail(sentence, text, base, base);
    FirstTailFacts(sentence, text, base, base);
    SpaceStartFacts(text, base, j);
    assert forall i | 0 <= i < |text| :: text[i] == all[i];
    if start < |text| {
      assert text[start] == sentence[0];
      assert Matches(sentence, text, start);
    }
  }

  lemma {:induction false} FreshCutSnoc(sentence: string, pieces: seq<string>, start: nat)
    requires pieces != []
    ensures FreshCut(sentence, pieces, start)
            <==> FreshCut(sentence, pieces[..|pieces| - 1], start) || HeldNothingAt(sentence, pieces, |pieces|, start)
  {
    var before := pieces[..|pieces| - 1];
    forall k: nat | k <= |before|
      ensures HeldNothingAt(sentence, pieces, k, start) == HeldNothingAt(sentence, before, k, start)
    {
      assert pieces[..k] == before[..k];
    }
  }

  /** `base` comes to rest right before a glued start of the sentence iff a cut lies there with nothing held. */
  lemma {:induction false} RestsAtCut(sentence: string, pieces: seq<string>, all: string, start: nat)
    requires Trimmed(sentence)
    requires Feeds(sentence, pieces).text <= all
    requires 0 < start < |all| && Matches(sentence, all, start) && !IsSpace(all[start - 1])
    ensures Feeds(sentence, pieces).base == start <==> FreshCut(sentence, pieces, start)
  {
    if pieces != [] {
      var before := pieces[..|pieces| - 1];
      RestsAtCut(sentence, before, all, start);
      RestStep(sentence, Feeds(sentence, pieces).text, Feeds(sentence, before).base, all, start);
      FreshCutSnoc(sentence, pieces, start);
      assert pieces[..|pieces|] == pieces;
    }
  }

  /** A glued sentence is dropped exactly when a piece starts with it while nothing is held. */
  lemma {:induction false} GluedOutcome(sentence: string, pieces: seq<string>)
    requires Trimmed(sentence) && Glued(sentence, Concat(pieces))
    ensures var all := Concat(pieces);
            Output(sentence, pieces)
            == if FreshCut(sentence, pieces, |all| - |sentence|) then all[..|all| - |sentence|] else all
  {
    FeedsInvariant(sentence, pieces);
    var p := Feeds(sentence, pieces);
    DropIsSentence(sentence, p);
    RestsAtCut(sentence, pieces, p.text, |p.text| - |sentence|);
  }

  /** The guard meets its offline meaning exactly when no piece starts with a glued final sentence out of nothing held. */
  lemma {:induction false} GuardExactness(sentence: string, pieces: seq<string>)
    requires Trimmed(sentence)
    ensures var all := Concat(pieces);
            Output(sentence, pieces) == Batch(sentence, all)
            <==> !(Glued(sentence, all) && FreshCut(sentence, pieces, |all| - |sentence|))
  {
    if Glued(sentence, Concat(pieces)) {
      GluedOutcome(sentence, pieces);
    } else {
      GuardEqualsBatch(sentence, pieces);
    }
  }

  /** The sentence the service uses meets the one demand made of it. */
  lemma RefusalSentenceIsTrimmed()
    ensures Trimmed(REFUSAL_SENTENCE)
  {
    assert REFUSAL_SENTENCE[0] == 'I' && REFUSAL_SENTENCE[|REFUSAL_SENTENCE| - 1] == '.';
  }

  /** The same glued text: dropped when cut before the sentence, shown when not cut at all. */
  lemma {:induction false} GluedDependsOnCuts(sentence: string, lead: string, apart: seq<string>, whole: seq<string>)
    requires Trimmed(sentence) && lead == "K" && sentence[0] != 'K'
    requires apart == [lead, sentence] && whole == [lead + sentence]
    ensures Concat(apart) == Concat(whole) == lead + sentence
    ensures Output(sentence, apart) == lead && Output(sentence, whole) == lead + sentence
  {
    ConcatSnoc([], lead + sentence);
    ConcatSnoc([], lead);
    ConcatSnoc([lead], sentence);
    assert [lead] + [sentence] == apart && [] + [lead] == [lead] && [] + [lead + sentence] == whole;
    assert "" + lead == lead && "" + (lead + sentence) == lead + sentence;
    assert Glued(sentence, lead + sentence);
    assert (lead + sentence)[..1] == lead;
    CutAfterLead(sentence, lead, apart);
    NoCutInside(sentence, lead, whole);
    GluedOutcome(sentence, apart);
    GluedOutcome(sentence, whole);
  }

  lemma {:induction false} CutAfterLead(sentence: string, lead: string, apart: seq<string>)
    requires Trimmed(sentence) && lead == "K" && sentence[0] != 'K'
    requires |apart| >= 1 && apart[0] == lead
    ensures HeldNothingAt(sentence, apart, 1, 1)
  {
    var one := apart[..1];
    assert one[..0] == [] && "" + lead == lead;
    assert !Matches(sentence, lead, 0) by { assert lead[0] == 'K'; }
    assert FirstTail(sentence, lead, 0, 0) == 1;
  }

  lemma {:induction false} NoCutInside(sentence: string, lead: string, whole: seq<string>)
    requires Trimmed(sentence) && |lead| == 1 && whole == [lead + sentence]
    ensures !FreshCut(sentence, whole, 1)
  {
    assert whole[..0] == [] && whole[..1] == whole && "" + (lead + sentence) == lead + sentence;
  }
}
