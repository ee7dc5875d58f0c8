/**
 * services/rag-service/src/pipelines/query.py (history loading and compression), with the stored conversation
 * of db.py: old turns are folded into a rolling summary, the last few stay verbatim. One compression at a time.
 */
module Compression {
  import opened Wrappers

  datatype Message = Message(role: string, content: string)

  /** One call of the summariser whose answer was stored: the summary it was given, the turns, the new summary. */
  datatype Fold = Fold(existing: Option<string>, span: seq<Message>, result: string)

  /** The settings: compress when more messages than this; always keep this many verbatim. */
  datatype Settings = Settings(threshold: int, verbatim: nat)

  const DEFAULTS := Settings(8, 4)

  /** A conversation: its user and assistant messages, the stored summary and how many messages it covers. */
  datatype Conversation = Conversation(messages: seq<Message>, summary: Option<string>, upto: nat, folds: seq<Fold>)

  const EMPTY := Conversation([], None, 0, [])

  /** What happens to one compression: the summariser's stripped answer, and whether storing it raises. */
  datatype Fate = Fate(answer: Option<string>, updateRaises: bool, noticeRaises: bool)

  datatype Event =
    | Arrive(message: Message)
    | Compress(fate: Fate, meanwhile: seq<Message>)  // messages stored while the summariser is working

  predicate Answered(fate: Fate) {
    fate.answer.Some? && fate.answer.value != ""
  }

  predicate Stored(fate: Fate) {
    Answered(fate) && !fate.updateRaises
  }

  predicate Due(g: Settings, c: Conversation) {
    |c.messages| > g.threshold && |c.messages| - g.verbatim - c.upto >= 2
  }

  /** The messages up to `end` enter the summary. */
  function Absorb(c: Conversation, end: nat, result: string): Conversation
    requires c.upto <= end <= |c.messages|
  {
    Conversation(c.messages, Some(result), end, c.folds + [Fold(c.summary, c.messages[c.upto..end], result)])
  }

  function Fated(g: Settings, c: Conversation, fate: Fate): Conversation
    requires Due(g, c)
  {
    if Stored(fate) then Absorb(c, |c.messages| - g.verbatim, fate.answer.value) else c
  }

  function Step(g: Settings, c: Conversation, e: Event): Conversation {
    match e
    case Arrive(m) => c.(messages := c.messages + [m])
    case Compress(fate, meanwhile) =>
      if !Due(g, c) then c
      else
        var d := Fated(g, c, fate);
        d.(messages := d.messages + meanwhile)
  }

  function Exec(g: Settings, c: Conversation, run: seq<Event>): Conversation
    decreases |run|
  {
    if run == [] then c else Step(g, Exec(g, c, run[..|run| - 1]), run[|run| - 1])
  }

  // ---------------------------------------------------------------- what every run keeps

  /** Everything the summariser was given, in order. */
  function Absorbed(folds: seq<Fold>): seq<Message> {
    if folds == [] then [] else Absorbed(folds[..|folds| - 1]) + folds[|folds| - 1].span
  }

  function LastResult(folds: seq<Fold>): Option<string> {
    if folds == [] then None else Some(folds[|folds| - 1].result)
  }

  /** Each summary extends the one before it, by at least one exchange. */
  predicate Anchored(folds: seq<Fold>) {
    forall k | 0 <= k < |folds| ::
      && folds[k].existing == (if k == 0 then None else Some(folds[k - 1].result))
      && |folds[k].span| >= 2 && folds[k].result != ""
  }

  predicate Sound(g: Settings, c: Conversation) {
    && c.upto <= |c.messages|
    && (c.upto == 0 || c.upto + g.verbatim <= |c.messages|)
    && Absorbed(c.folds) == c.messages[..c.upto]
    && Anchored(c.folds)
    && c.summary == LastResult(c.folds)
  }

  lemma {:induction false} AnchoredSnoc(folds: seq<Fold>, fold: Fold)
    requires Anchored(folds) && fold.existing == LastResult(folds) && |fold.span| >= 2 && fold.result != ""
    ensures Anchored(folds + [fold])
  {
  }

  lemma {:induction false} AbsorbedSnoc(folds: seq<Fold>, fold: Fold)
    ensures Absorbed(folds + [fold]) == Absorbed(folds) + fold.span && LastResult(folds + [fold]) == Some(fold.result)
  {
    assert (folds + [fold])[..|folds|] == folds;
  }

  lemma {:induction false} AbsorbKeeps(g: Settings, c: Conversation, result: string)
    requires Sound(g, c) && |c.messages| - g.verbatim - c.upto >= 2 && result != ""
    ensures Sound(g, Absorb(c, |c.messages| - g.verbatim, result))
  {
    var end := |c.messages| - g.verbatim;
    var fold := Fold(c.summary, c.messages[c.upto..end], result);
    AnchoredSnoc(c.folds, fold);
    AbsorbedSnoc(c.folds, fold);
    PrefixGrows(c.messages, c.upto, end);
  }

  lemma PrefixGrows(messages: seq<Message>, upto: nat, end: nat)
    requires upto <= end <= |messages|
    ensures messages[..upto] + messages[upto..end] == messages[..end]
  {
  }

  lemma {:induction false} GrowKeeps(g: Settings, c: Conversation, more: seq<Message>)
    requires Sound(g, c)
    ensures Sound(g, c.(messages := c.messages + more))
  {
    assert (c.messages + more)[..c.upto] == c.messages[..c.upto];
  }

  lemma {:induction false} CompressKeeps(g: Settings, c: Conversation, fate: Fate)
    requires Sound(g, c) && Due(g, c)
    ensures Sound(g, Fated(g, c, fate))
  {
    if Stored(fate) {
      assert Fated(g, c, fate) == Absorb(c, |c.messages| - g.verbatim, fate.answer.value);
      AbsorbKeeps(g, c, fate.answer.value);
    }
  }

  lemma {:induction false} StepKeeps(g: Settings, c: Conversation, e: Event)
    requires Sound(g, c)
    ensures Sound(g, Step(g, c, e))
  {
    match e {
      case Arrive(m) => GrowKeeps(g, c, [m]);
      case Compress(fate, meanwhile) =>
        if Due(g, c) {
          CompressKeeps(g, c, fate);
          GrowKeeps(g, Fated(g, c, fate), meanwhile);
        }
    }
  }

  lemma {:induction false} StepGrows(g: Settings, c: Conversation, e: Event)
    requires c.upto <= |c.messages|
    ensures var d := Step(g, c, e); c.messages <= d.messages && c.upto <= d.upto && c.folds <= d.folds
  {
  }

  /**
   * After any run the turns given to the summariser are exactly the first `upto` messages, each once and in
   * order, every summary extends the one before, and the verbatim messages are never summarised.
   */
  lemma {:induction false} RunsStaySound(g: Settings, run: seq<Event>)
    ensures Sound(g, Exec(g, EMPTY, run))
    decreases |run|
  {
    if run != [] {
      RunsStaySound(g, run[..|run| - 1]);
      StepKeeps(g, Exec(g, EMPTY, run[..|run| - 1]), run[|run| - 1]);
    }
  }

  /** As a run goes on, messages and folds are only added and the summarised count never decreases. */
  lemma {:induction false} CountNeverDecreases(g: Settings, run: seq<Event>, n: nat)
    requires n <= |run|
    ensures var c, d := Exec(g, EMPTY, run[..n]), Exec(g, EMPTY, run);
            c.upto <= d.upto && c.messages <= d.messages && c.folds <= d.folds
    decreases |run|
  {
    if n == |run| {
      assert run[..n] == run;
    } else {
      var init := run[..|run| - 1];
      assert init[..n] == run[..n];
      CountNeverDecreases(g, init, n);
      RunsStaySound(g, init);
      StepGrows(g, Exec(g, EMPTY, init), run[|run| - 1]);
    }
  }

  // ---------------------------------------------------------------- what the model is shown

  datatype Turn = Earlier(summary: string) | Verbatim(message: Message)

  datatype ContextState = ContextState(hasSummary: bool, summarizedTurns: nat, verbatimTurns: nat)

  function Recent(messages: seq<Message>, limit: nat): seq<Message> {
    if |messages| <= limit then messages else messages[|messages| - limit..]
  }

  function Turns(messages: seq<Message>): seq<Turn> {
    seq(|messages|, i requires 0 <= i < |messages| => Verbatim(messages[i]))
  }

  function History(g: Settings, c: Conversation): seq<Turn> {
    (if c.summary.Some? && c.summary.value != "" then [Earlier(c.summary.value)] else []) + Turns(Recent(c.messages, g.verbatim))
  }

  /** The model is shown the summary, if there is one, and the last messages, as many as are kept verbatim, oldest first. */
  lemma {:induction false} HistoryMeaning(g: Settings, c: Conversation)
    ensures var h, m, told := History(g, c), if |c.messages| < g.verbatim then |c.messages| else g.verbatim,
                              c.summary.Some? && c.summary.value != "";
            && |h| == (if told then 1 else 0) + m
            && (told ==> h[0] == Earlier(c.summary.value))
            && forall i | |h| - m <= i < |h| :: h[i] == Verbatim(c.messages[|c.messages| - |h| + i])
  {
    var h, recent := History(g, c), Recent(c.messages, g.verbatim);
    var m, turns := |recent|, Turns(recent);
    assert |h| - |turns| == if c.summary.Some? && c.summary.value != "" then 1 else 0;
    forall i | |h| - m <= i < |h| ensures h[i] == Verbatim(c.messages[|c.messages| - |h| + i]) {
      assert h[i] == turns[i - (|h| - m)];
      assert recent[i - (|h| - m)] == c.messages[|c.messages| - |h| + i];
    }
  }

  /** How many messages are in neither the summary nor the verbatim tail. */
  function Gap(g: Settings, c: Conversation): nat {
    if |c.messages| <= g.verbatim + c.upto then 0 else |c.messages| - g.verbatim - c.upto
  }

  /** No message is missing from what the model is shown, and none is there twice, exactly when the gap is zero and something was evicted. */
  lemma {:induction false} NothingForgotten(g: Settings, c: Conversation)
    requires Sound(g, c)
    ensures Gap(g, c) == 0 <==> Absorbed(c.folds) + Recent(c.messages, g.verbatim) == c.messages
    ensures c.folds != [] <==> |History(g, c)| > 0 && History(g, c)[0].Earlier?
    ensures c.folds != [] ==> History(g, c)[0] == Earlier(c.folds[|c.folds| - 1].result)
  {
    var shown := Absorbed(c.folds) + Recent(c.messages, g.verbatim);
    if Gap(g, c) == 0 {
      if |c.messages| <= g.verbatim {
        assert c.upto == 0;
        assert shown == c.messages;
      } else {
        assert c.upto + g.verbatim == |c.messages| || c.upto == 0;
        assert c.messages[..c.upto] + c.messages[c.upto..] == c.messages;
      }
    } else {
      assert |shown| < |c.messages|;
    }
    if c.folds != [] {
      var last := |c.folds| - 1;
      assert c.folds[last].result != "";
    }
  }

  /**
   * After a stored compression only what arrived while the summariser worked can be missing, whatever failed
   * before; if nothing arrived, every message is in the summary or shown verbatim.
   */
  lemma {:induction false} CompressionClosesGap(g: Settings, c: Conversation, fate: Fate, meanwhile: seq<Message>)
    requires Sound(g, c) && Due(g, c) && Stored(fate)
    ensures var d := Step(g, c, Compress(fate, meanwhile));
            && Gap(g, d) == |meanwhile|
            && (meanwhile == [] ==> Absorbed(d.folds) + Recent(d.messages, g.verbatim) == d.messages)
  {
    var d := Step(g, c, Compress(fate, meanwhile));
    StepKeeps(g, c, Compress(fate, meanwhile));
    NothingForgotten(g, d);
  }

  /** A summariser that raises or says nothing, or a summary that cannot be stored, leaves the summary as it was and loses no message. */
  lemma {:induction false} FailureLeavesSummary(g: Settings, c: Conversation, fate: Fate, meanwhile: seq<Message>)
    requires Due(g, c) && (fate.answer == None || fate.answer == Some("") || fate.updateRaises)
    ensures Step(g, c, Compress(fate, meanwhile)) == c.(messages := c.messages + meanwhile)
  {
  }

  /** The run of a conversation whose every exchange is followed by a compression that does not fail. */
  function Faultless(exchanges: seq<(Message, Message)>, answers: seq<string>): seq<Event>
    requires |answers| == |exchanges|
    decreases |exchanges|
  {
    if exchanges == [] then []
    else
      var n := |exchanges| - 1;
      Faultless(exchanges[..n], answers[..n])
      + [Arrive(exchanges[n].0), Arrive(exchanges[n].1), Compress(Fate(Some(answers[n]), false, false), [])]
  }

  lemma {:induction false} ExecSnoc(g: Settings, c: Conversation, run: seq<Event>, e: Event)
    ensures Exec(g, c, run + [e]) == Step(g, Exec(g, c, run), e)
  {
    assert (run + [e])[..|run|] == run;
  }

  lemma {:induction false} ExecThree(g: Settings, run: seq<Event>, a: Event, b: Event, e: Event)
    ensures Exec(g, EMPTY, run + [a, b, e]) == Step(g, Step(g, Step(g, Exec(g, EMPTY, run), a), b), e)
  {
    assert run + [a, b, e] == run + [a] + [b] + [e];
    ExecSnoc(g, EMPTY, run, a);
    ExecSnoc(g, EMPTY, run + [a], b);
    ExecSnoc(g, EMPTY, run + [a] + [b], e);
  }

  /**
   * Even when nothing fails, a conversation of more than `verbatim` and at most `threshold` messages is shown
   * with its oldest messages missing; beyond the threshold nothing is.
   */
  lemma {:induction false} FaultlessGap(g: Settings, exchanges: seq<(Message, Message)>, answers: seq<string>)
    requires |answers| == |exchanges| && forall k | 0 <= k < |answers| :: answers[k] != ""
    requires g.verbatim % 2 == 0
    ensures var c := Exec(g, EMPTY, Faultless(exchanges, answers));
            && |c.messages| == 2 * |exchanges| && c.upto % 2 == 0
            && (|c.messages| <= g.threshold ==> c.upto == 0)
            && (Gap(g, c) == 0 <==> |c.messages| > g.threshold || |c.messages| <= g.verbatim)
    decreases |exchanges|
  {
    if exchanges != [] {
      var n := |exchanges| - 1;
      var before := Faultless(exchanges[..n], answers[..n]);
      FaultlessGap(g, exchanges[..n], answers[..n]);
      RunsStaySound(g, before);
      var fate := Fate(Some(answers[n]), false, false);
      ExecThree(g, before, Arrive(exchanges[n].0), Arrive(exchanges[n].1), Compress(fate, []));
      ExchangeGap(g, Exec(g, EMPTY, before), exchanges[n].0, exchanges[n].1, fate);
    }
  }

  /** With the default settings that is a conversation of six or eight messages. */
  lemma {:induction false} DefaultsForgetThreeOrFour(exchanges: seq<(Message, Message)>, answers: seq<string>)
    requires |answers| == |exchanges| && forall k | 0 <= k < |answers| :: answers[k] != ""
    ensures Gap(DEFAULTS, Exec(DEFAULTS, EMPTY, Faultless(exchanges, answers))) > 0 <==> |exchanges| == 3 || |exchanges| == 4
  {
    FaultlessGap(DEFAULTS, exchanges, answers);
  }

  lemma {:induction false} ExchangeGap(g: Settings, c: Conversation, q: Message, a: Message, fate: Fate)
    requires Sound(g, c) && Stored(fate) && g.verbatim % 2 == 0 && |c.messages| % 2 == 0 && c.upto % 2 == 0
    requires |c.messages| <= g.threshold ==> c.upto == 0
    requires |c.messages| > g.threshold ==> Gap(g, c) == 0
    ensures var d := Step(g, Step(g, Step(g, c, Arrive(q)), Arrive(a)), Compress(fate, []));
            && |d.messages| == |c.messages| + 2 && d.upto % 2 == 0
            && (|d.messages| <= g.threshold ==> d.upto == 0)
            && (Gap(g, d) == 0 <==> |d.messages| > g.threshold || |d.messages| <= g.verbatim)
  {
    var b := Step(g, Step(g, c, Arrive(q)), Arrive(a));
    var d := Step(g, b, Compress(fate, []));
    assert |b.messages| == |c.messages| + 2 && b.upto == c.upto;
    assert |d.messages| == |b.messages|;
  }

  // ---------------------------------------------------------------- the service

  class ConversationService {
    const settings: Settings

    // the conversation's rows in the database
    var messages: seq<Message>
    var notices: seq<string>  // the `context_summary` messages, which nothing counts
    var sessionSummary: Option<string>
    var summaryUptoCount: nat
    ghost var folds: seq<Fold>

    ghost function View(): Conversation
      reads this
    {
      Conversation(messages, sessionSummary, summaryUptoCount, folds)
    }

    constructor (settings: Settings)
      ensures this.settings == settings && View() == EMPTY && notices == []
    {
      this.settings := settings;
      messages, notices, sessionSummary, summaryUptoCount, folds := [], [], None, 0, [];
    }

    method AddMessage(m: Message)
      modifies this`messages
      ensures View() == Step(settings, old(View()), Arrive(m))
    {
      messages := messages + [m];
    }

    /** Appends what arrives while another task holds the loop. */
    method Suspend(arriving: seq<Message>)
      modifies this`messages
      ensures messages == old(messages) + arriving
    {
      for i := 0 to |arriving|
        invariant messages == old(messages) + arriving[..i]
      {
        AddMessage(arriving[i]);
      }
    }

    method GetMessagesSlice(offset: nat, limit: nat) returns (span: seq<Message>)
      ensures span == if offset >= |messages| then [] else if offset + limit <= |messages| then messages[offset..offset + limit] else messages[offset..]
    {
      span := if offset >= |messages| then []
      else if offset + limit <= |messages| then messages[offset..offset + limit] else messages[offset..];
    }

    /** `_maybe_compress_history`: any failure leaves the conversation as it is. */
    method MaybeCompress(fate: Fate, meanwhile: seq<Message>)
      modifies this
      ensures View() == Step(settings, old(View()), Compress(fate, meanwhile))
      ensures notices == if old(Due(settings, View())) && Stored(fate) && !fate.noticeRaises
                         then old(notices) + [fate.answer.value] else old(notices)
    {
      var existing := sessionSummary;
      var total := |messages|;
      if total <= settings.threshold { return; }
      var summaryUpto := summaryUptoCount;
      var evictableEnd := total - settings.verbatim;
      if evictableEnd <= summaryUpto { return; }
      var evictableCount := evictableEnd - summaryUpto;
      if evictableCount < 2 { return; }
      var newSpan := GetMessagesSlice(summaryUpto, evictableCount);
      if newSpan == [] { return; }

      Suspend(meanwhile);
      if fate.answer.None? || fate.answer.value == "" { return; }
      var newUpto := summaryUpto + |newSpan|;
      if fate.updateRaises { return; }
      sessionSummary, summaryUptoCount := Some(fate.answer.value), newUpto;
      folds := folds + [Fold(existing, newSpan, fate.answer.value)];
      if fate.noticeRaises { return; }
      notices := notices + [fate.answer.value];
    }

    /** `_load_conversation_history`: a failing read shows nothing. */
    method LoadHistory(ok: bool) returns (history: seq<Turn>, state: ContextState)
      ensures history == if ok then History(settings, View()) else []
      ensures state == if ok then ContextState(sessionSummary.Some? && sessionSummary.value != "", summaryUptoCount / 2,
                                               |Recent(messages, settings.verbatim)| / 2)
                       else ContextState(false, 0, 0)
    {
      if !ok {
        return [], ContextState(false, 0, 0);
      }
      var recent := Recent(messages, settings.verbatim);
      history := [];
      if sessionSummary.Some? && sessionSummary.value != "" {
        history := [Earlier(sessionSummary.value)];
      }
      history := history + Turns(recent);
      state := ContextState(sessionSummary.Some? && sessionSummary.value != "", summaryUptoCount / 2, |recent| / 2);
    }
  }
}
