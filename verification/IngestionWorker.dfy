/**
 * services/ingestion-service/src/stream_worker.py: handlers that ingest documents.ready messages, with
 * redelivery through XAUTOCLAIM and a dead-letter exit. Each action is what runs between two awaits.
 * Pending counts are truthful: the error path of `delivery_count` that answers 1 is not taken.
 */
module IngestionWorker {
  import opened StreamBus

  const MAX_DELIVERY_COUNT := 3

  datatype Status = COMPLETED | FAILED
  /** A terminal event, and the message whose handler published it. */
  datatype Event = Event(msg: MsgId, documentId: string, status: Status)

  /** Where a handler is once it has read the delivery count. */
  datatype Phase =
    | Exceeded            // over the limit: about to publish FAILED
    | Fetching
    | SourceMissing       // about to publish FAILED
    | Ingesting
    | Persisting
    | Completing          // about to publish COMPLETED
    | Failing             // in the exception handler: about to publish FAILED
    | Acking(guarded: bool)  // guarded: an exception still reaches the handler's exception branch
    | Over

  datatype Handler = Handler(msg: MsgId, foundPending: bool, phase: Phase)
  datatype Fetch = Fetched | NotFound | FetchRaises

  datatype State = State(
    group: Group,
    staged: seq<MsgId>,        // read or claimed, not yet decoded
    copies: multiset<MsgId>,   // queued per tenant or waiting for a worker slot
    handlers: seq<Handler>,
    published: seq<Event>,     // ingestion.complete
    ran: multiset<MsgId>,      // ingestions run by handlers that found their message pending
    ingested: multiset<MsgId>, // all ingestions
    succeeded: set<MsgId>,     // messages some ingestion of which went through
    persisted: set<MsgId>,     // and of which the chunks were persisted
    checked: multiset<MsgId>,  // delivery counts read
    passed: multiset<MsgId>,   // of these: found pending and within the limit
    skipped: multiset<MsgId>,
    lost: multiset<MsgId>,
    handed: multiset<MsgId>)

  datatype Action =
    | Publish
    | Deliver(n: nat)
    | Claim(ids: seq<MsgId>)
    | Decode
    | Check(m: MsgId)
    | Fetch(h: nat, result: Fetch)
    | Ingest(h: nat, ok: bool)
    | Persist(h: nat, ok: bool)
    | Announce(h: nat, ok: bool)
    | Ack(h: nat, ok: bool, applied: bool)
    | Crash

  /** What the stream carries. */
  datatype Stream = Stream(decodable: MsgId -> bool, documentId: MsgId -> string)

  function Read(s: State, n: nat): State {
    if !s.group.CanDeliver(n) then s
    else
      var ids := Range(s.group.next, n);
      s.(group := s.group.Deliver(n), staged := s.staged + ids, handed := s.handed + multiset(ids))
  }

  function Reclaim(s: State, ids: seq<MsgId>): State {
    if !s.group.CanClaim(ids) then s
    else s.(group := s.group.Claim(ids), staged := s.staged + ids, handed := s.handed + multiset(ids))
  }

  function DecodeNext(st: Stream, s: State): State {
    if s.staged == [] then s
    else
      var m, rest := s.staged[0], s.staged[1..];
      if st.decodable(m) then s.(staged := rest, copies := s.copies + multiset{m})
      else s.(staged := rest, group := s.group.Ack(m), skipped := s.skipped + multiset{m})
  }

  /** A handler gets its slot and reads the delivery count. */
  function CheckCount(s: State, m: MsgId): State {
    if m !in s.copies then s
    else
      var found := m in s.group.pending;
      var over := s.group.DeliveryCount(m) > MAX_DELIVERY_COUNT;
      s.(copies := s.copies - multiset{m},
         checked := s.checked + multiset{m},
         passed := if found && !over then s.passed + multiset{m} else s.passed,
         handlers := s.handlers + [Handler(m, found, if over then Exceeded else Fetching)])
  }

  predicate At(s: State, h: nat, phase: Phase) {
    h < |s.handlers| && s.handlers[h].phase == phase
  }

  function Go(s: State, h: nat, phase: Phase): State
    requires h < |s.handlers|
  {
    s.(handlers := s.handlers[h := s.handlers[h].(phase := phase)])
  }

  function FetchSource(s: State, h: nat, result: Fetch): State {
    if !At(s, h, Fetching) then s
    else Go(s, h, match result case Fetched => Ingesting case NotFound => SourceMissing case FetchRaises => Failing)
  }

  function RunIngestion(s: State, h: nat, ok: bool): State {
    if !At(s, h, Ingesting) then s
    else
      var t, m := Go(s, h, if ok then Persisting else Failing), s.handlers[h].msg;
      t.(ran := if s.handlers[h].foundPending then t.ran + multiset{m} else t.ran, ingested := t.ingested + multiset{m},
         succeeded := if ok then t.succeeded + {m} else t.succeeded)
  }

  function PersistChunks(s: State, h: nat, ok: bool): State {
    if !At(s, h, Persisting) then s
    else
      var t := Go(s, h, if ok then Completing else Failing);
      if ok then t.(persisted := t.persisted + {s.handlers[h].msg}) else t
  }

  /** The terminal status a phase is about to publish. */
  function ToPublish(p: Phase): (status: Status) {
    if p == Completing then COMPLETED else FAILED
  }

  predicate Announces(p: Phase) {
    p == Exceeded || p == SourceMissing || p == Completing || p == Failing
  }

  /** Publishing leads to the acknowledgement, except from the exception handler; a failed publish leads there. */
  function AfterAnnounce(p: Phase, ok: bool): Phase {
    if p == Failing then Over
    else if p == Exceeded then (if ok then Acking(false) else Over)
    else if ok then Acking(true) else Failing
  }

  function PublishTerminal(st: Stream, s: State, h: nat, ok: bool): State {
    if h < |s.handlers| && Announces(s.handlers[h].phase) then
      var p, m := s.handlers[h].phase, s.handlers[h].msg;
      var t := Go(s, h, AfterAnnounce(p, ok));
      if ok then t.(published := t.published + [Event(m, st.documentId(m), ToPublish(p))]) else t
    else s
  }

  /** A raising XACK may or may not have been applied. */
  function AckMessage(s: State, h: nat, ok: bool, applied: bool): State {
    if h < |s.handlers| && s.handlers[h].phase.Acking? then
      var t := Go(s, h, if ok || !s.handlers[h].phase.guarded then Over else Failing);
      if ok || applied then t.(group := s.group.Ack(s.handlers[h].msg)) else t
    else s
  }

  function Crashed(s: State): State {
    s.(staged := [], copies := multiset{}, handlers := [], lost := s.lost + multiset(s.staged) + s.copies)
  }

  function Step(st: Stream, s: State, a: Action): State {
    match a
    case Publish => s.(group := s.group.Publish())
    case Deliver(n) => Read(s, n)
    case Claim(ids) => Reclaim(s, ids)
    case Decode => DecodeNext(st, s)
    case Check(m) => CheckCount(s, m)
    case Fetch(h, result) => FetchSource(s, h, result)
    case Ingest(h, ok) => RunIngestion(s, h, ok)
    case Persist(h, ok) => PersistChunks(s, h, ok)
    case Announce(h, ok) => PublishTerminal(st, s, h, ok)
    case Ack(h, ok, applied) => AckMessage(s, h, ok, applied)
    case Crash => Crashed(s)
  }

  const INIT := State(Group(0, 0, 0, map[], {}), [], multiset{}, [], [], multiset{}, multiset{}, {}, {}, multiset{}, multiset{},
                      multiset{}, multiset{}, multiset{})

  function Exec(st: Stream, actions: seq<Action>): State {
    if actions == [] then INIT
    else Step(st, Exec(st, actions[..|actions| - 1]), actions[|actions| - 1])
  }

  // ---------------------------------------------------------------- at most three ingestions

  /** This handler is for `m`, within the limit, and may still run its ingestion; `any` counts those that did not find it pending too. */
  function Ready(h: Handler, m: MsgId, any: bool): nat {
    if h.msg == m && (any || h.foundPending) && (h.phase == Fetching || h.phase == Ingesting) then 1 else 0
  }

  function ReadyCount(handlers: seq<Handler>, m: MsgId, any: bool): nat {
    if handlers == [] then 0 else ReadyCount(handlers[..|handlers| - 1], m, any) + Ready(handlers[|handlers| - 1], m, any)
  }

  /** Copies are conserved, each check uses one up, and only checks that passed lead to an ingestion. */
  predicate Tallied(s: State, m: MsgId) {
    && s.handed[m] == Copies(s.staged, m) + s.copies[m] + s.checked[m] + s.skipped[m] + s.lost[m]
    && s.ran[m] + ReadyCount(s.handlers, m, false) <= s.passed[m] <= s.checked[m]
    && s.ran[m] <= s.ingested[m] && s.ingested[m] + ReadyCount(s.handlers, m, true) <= s.checked[m]
    && s.passed[m] <= MAX_DELIVERY_COUNT
    && (m in s.group.pending ==> s.group.pending[m] == s.handed[m])
    && (m in s.group.pending || m in s.group.acked ==> m < s.group.next)
    && (m >= s.group.next ==> s.handed[m] == 0)
  }

  lemma {:induction false} ReadyUpdate(handlers: seq<Handler>, i: nat, h: Handler, m: MsgId, any: bool)
    requires i < |handlers|
    ensures ReadyCount(handlers[i := h], m, any) + Ready(handlers[i], m, any) == ReadyCount(handlers, m, any) + Ready(h, m, any)
  {
    var last := |handlers| - 1;
    if i < last {
      ReadyUpdate(handlers[..last], i, h, m, any);
      assert handlers[i := h][..last] == handlers[..last][i := h];
    } else {
      assert handlers[i := h][..last] == handlers[..last];
    }
  }

  lemma {:induction false} ReadTallies(s: State, n: nat, m: MsgId)
    requires Tallied(s, m)
    ensures Tallied(Read(s, n), m)
  {
    RangeCounts(s.group.next, n, m);
  }

  lemma {:induction false} ClaimTallies(s: State, ids: seq<MsgId>, m: MsgId)
    requires Tallied(s, m)
    ensures Tallied(Reclaim(s, ids), m)
  {
    if s.group.CanClaim(ids) {
      DistinctCounts(ids, m);
    }
  }

  lemma {:induction false} QueueTallies(s: State, x: MsgId, rest: seq<MsgId>, m: MsgId)
    requires Tallied(s, m) && s.staged == [x] + rest
    ensures Tallied(s.(staged := rest, copies := s.copies + multiset{x}), m)
  {
    CopiesHead(s.staged, m);
  }

  lemma {:induction false} SkipTallies(s: State, x: MsgId, rest: seq<MsgId>, m: MsgId)
    requires Tallied(s, m) && s.staged == [x] + rest
    ensures Tallied(s.(staged := rest, group := s.group.Ack(x), skipped := s.skipped + multiset{x}), m)
  {
    CopiesHead(s.staged, m);
  }

  lemma {:induction false} DecodeTallies(st: Stream, s: State, m: MsgId)
    requires Tallied(s, m)
    ensures Tallied(DecodeNext(st, s), m)
  {
    if s.staged != [] {
      QueueTallies(s, s.staged[0], s.staged[1..], m);
      SkipTallies(s, s.staged[0], s.staged[1..], m);
    }
  }

  /** The check that lets a handler through is one of at most as many as Redis has counted deliveries. */
  lemma {:induction false} CheckTallies(s: State, x: MsgId, m: MsgId)
    requires Tallied(s, m)
    ensures Tallied(CheckCount(s, x), m)
  {
    if x in s.copies {
      var t := CheckCount(s, x);
      assert t.handlers[..|s.handlers|] == s.handlers;
    }
  }

  lemma {:induction false} GoTallies(s: State, h: nat, phase: Phase, m: MsgId, any: bool)
    requires h < |s.handlers| && phase != Fetching
    requires phase == Ingesting ==> s.handlers[h].phase == Fetching
    ensures ReadyCount(Go(s, h, phase).handlers, m, any) + Ready(s.handlers[h], m, any)
            == ReadyCount(s.handlers, m, any) + if phase == Ingesting then Ready(s.handlers[h], m, any) else 0
  {
    ReadyUpdate(s.handlers, h, s.handlers[h].(phase := phase), m, any);
  }

  /** Going on to a phase that is not `Ingesting` never adds a handler that may still run its ingestion. */
  lemma {:induction false} LeaveTallies(s: State, h: nat, phase: Phase, m: MsgId)
    requires h < |s.handlers| && phase != Fetching && phase != Ingesting && Tallied(s, m)
    ensures Tallied(Go(s, h, phase), m)
    ensures ReadyCount(Go(s, h, phase).handlers, m, false) + Ready(s.handlers[h], m, false) == ReadyCount(s.handlers, m, false)
    ensures ReadyCount(Go(s, h, phase).handlers, m, true) + Ready(s.handlers[h], m, true) == ReadyCount(s.handlers, m, true)
  {
    GoTallies(s, h, phase, m, false);
    GoTallies(s, h, phase, m, true);
  }

  lemma {:induction false} FetchTallies(s: State, h: nat, result: Fetch, m: MsgId)
    requires Tallied(s, m)
    ensures Tallied(FetchSource(s, h, result), m)
  {
    if At(s, h, Fetching) {
      GoTallies(s, h, Ingesting, m, false);
      GoTallies(s, h, Ingesting, m, true);
      LeaveTallies(s, h, SourceMissing, m);
      LeaveTallies(s, h, Failing, m);
    }
  }

  lemma {:induction false} IngestTallies(s: State, h: nat, ok: bool, m: MsgId)
    requires Tallied(s, m)
    ensures Tallied(RunIngestion(s, h, ok), m)
  {
    if At(s, h, Ingesting) {
      LeaveTallies(s, h, if ok then Persisting else Failing, m);
    }
  }

  lemma {:induction false} PersistTallies(s: State, h: nat, ok: bool, m: MsgId)
    requires Tallied(s, m)
    ensures Tallied(PersistChunks(s, h, ok), m)
  {
    if At(s, h, Persisting) {
      LeaveTallies(s, h, if ok then Completing else Failing, m);
    }
  }

  lemma {:induction false} AnnounceTallies(st: Stream, s: State, h: nat, ok: bool, m: MsgId)
    requires Tallied(s, m)
    ensures Tallied(PublishTerminal(st, s, h, ok), m)
  {
    if h < |s.handlers| {
      LeaveTallies(s, h, AfterAnnounce(s.handlers[h].phase, ok), m);
    }
  }

  lemma {:induction false} AckTallies(s: State, h: nat, ok: bool, applied: bool, m: MsgId)
    requires Tallied(s, m)
    ensures Tallied(AckMessage(s, h, ok, applied), m)
  {
    if h < |s.handlers| {
      LeaveTallies(s, h, Over, m);
      LeaveTallies(s, h, Failing, m);
    }
  }

  lemma {:induction false} StepTallies(st: Stream, s: State, a: Action, m: MsgId)
    requires Tallied(s, m)
    ensures Tallied(Step(st, s, a), m)
  {
    match a
    case Publish =>
    case Deliver(n) => ReadTallies(s, n, m);
    case Claim(ids) => ClaimTallies(s, ids, m);
    case Decode => DecodeTallies(st, s, m);
    case Check(x) => CheckTallies(s, x, m);
    case Fetch(h, result) => FetchTallies(s, h, result, m);
    case Ingest(h, ok) => IngestTallies(s, h, ok, m);
    case Persist(h, ok) => PersistTallies(s, h, ok, m);
    case Announce(h, ok) => AnnounceTallies(st, s, h, ok, m);
    case Ack(h, ok, applied) => AckTallies(s, h, ok, applied, m);
    case Crash =>
  }

  /**
   * However often a message is reclaimed and queued, at most three handlers that find it pending ingest it, and
   * with those that find it acknowledged already there are no more ingestions than it was handed over.
   */
  lemma {:induction false} AtMostThreeIngestions(st: Stream, actions: seq<Action>, m: MsgId)
    ensures var s := Exec(st, actions); Tallied(s, m) && s.ran[m] <= 3 && s.ran[m] <= s.ingested[m] <= s.handed[m]
  {
    if actions != [] {
      AtMostThreeIngestions(st, actions[..|actions| - 1], m);
      StepTallies(st, Exec(st, actions[..|actions| - 1]), actions[|actions| - 1], m);
    }
  }

  // ---------------------------------------------------------------- no ack without a terminal event

  /** A handler of message `m` has published a terminal event for this document. */
  predicate Announced(s: State, m: MsgId, documentId: string) {
    exists i :: 0 <= i < |s.published| && s.published[i].msg == m && s.published[i].documentId == documentId
  }

  /** Acknowledged decodable messages, and those about to be, have a terminal event published by a handler of their own. */
  predicate Accountable(st: Stream, s: State) {
    && (forall m | m in s.group.acked && st.decodable(m) :: Announced(s, m, st.documentId(m)))
    && (forall h | 0 <= h < |s.handlers| && s.handlers[h].phase.Acking? ::
          Announced(s, s.handlers[h].msg, st.documentId(s.handlers[h].msg)))
  }

  lemma {:induction false} MoreEventsMoreAnnounced(s: State, t: State, more: seq<Event>)
    requires t.published == s.published + more
    ensures forall m: MsgId, d: string | Announced(s, m, d) :: Announced(t, m, d)
  {
    forall m: MsgId, d: string | Announced(s, m, d) ensures Announced(t, m, d) {
      var i :| 0 <= i < |s.published| && s.published[i].msg == m && s.published[i].documentId == d;
      assert t.published[i] == s.published[i];
    }
  }

  lemma {:induction false} PublishAccountable(st: Stream, s: State, h: nat, ok: bool)
    requires Accountable(st, s)
    ensures Accountable(st, PublishTerminal(st, s, h, ok))
  {
    if h < |s.handlers| && Announces(s.handlers[h].phase) {
      var t, m := PublishTerminal(st, s, h, ok), s.handlers[h].msg;
      MoreEventsMoreAnnounced(s, t, EventIf(ok, m, st.documentId(m), ToPublish(s.handlers[h].phase)));
      if ok {
        assert t.published[|s.published|].msg == m;
      }
    }
  }

  lemma {:induction false} DecodeAccountable(st: Stream, s: State)
    requires Accountable(st, s)
    ensures Accountable(st, DecodeNext(st, s))
  {
    SameEventsSameAnnounced(s, DecodeNext(st, s));
  }

  lemma {:induction false} AckAccountable(st: Stream, s: State, h: nat, ok: bool, applied: bool)
    requires Accountable(st, s)
    ensures Accountable(st, AckMessage(s, h, ok, applied))
  {
    SameEventsSameAnnounced(s, AckMessage(s, h, ok, applied));
  }

  lemma {:induction false} SameEventsSameAnnounced(s: State, t: State)
    requires s.published == t.published
    ensures forall m: MsgId, d: string :: Announced(s, m, d) == Announced(t, m, d)
  {
  }

  /** The other actions acknowledge nothing and bring no handler to its acknowledgement. */
  lemma {:induction false} QuietAccountable(st: Stream, s: State, t: State)
    requires Accountable(st, s) && t.published == s.published && t.group.acked == s.group.acked
    requires forall h | 0 <= h < |t.handlers| && t.handlers[h].phase.Acking? :: h < |s.handlers| && s.handlers[h] == t.handlers[h]
    ensures Accountable(st, t)
  {
    SameEventsSameAnnounced(s, t);
  }

  lemma {:induction false} ReadingAccountable(st: Stream, s: State, a: Action)
    requires Accountable(st, s) && (a.Publish? || a.Deliver? || a.Claim? || a.Check? || a.Crash?)
    ensures Accountable(st, Step(st, s, a))
  {
    match a
    case Publish => QuietAccountable(st, s, s.(group := s.group.Publish()));
    case Deliver(n) => QuietAccountable(st, s, Read(s, n));
    case Claim(ids) => QuietAccountable(st, s, Reclaim(s, ids));
    case Check(m) => QuietAccountable(st, s, CheckCount(s, m));
    case Crash => QuietAccountable(st, s, Crashed(s));
  }

  lemma {:induction false} FetchAccountable(st: Stream, s: State, h: nat, result: Fetch)
    requires Accountable(st, s)
    ensures Accountable(st, FetchSource(s, h, result))
  {
    QuietAccountable(st, s, FetchSource(s, h, result));
  }

  lemma {:induction false} IngestAccountable(st: Stream, s: State, h: nat, ok: bool)
    requires Accountable(st, s)
    ensures Accountable(st, RunIngestion(s, h, ok)) && Accountable(st, PersistChunks(s, h, ok))
  {
    QuietAccountable(st, s, RunIngestion(s, h, ok));
    QuietAccountable(st, s, PersistChunks(s, h, ok));
  }

  lemma {:induction false} WorkingAccountable(st: Stream, s: State, a: Action)
    requires Accountable(st, s) && (a.Fetch? || a.Ingest? || a.Persist?)
    ensures Accountable(st, Step(st, s, a))
  {
    match a
    case Fetch(h, result) => FetchAccountable(st, s, h, result);
    case Ingest(h, ok) => IngestAccountable(st, s, h, ok);
    case Persist(h, ok) => IngestAccountable(st, s, h, ok);
  }

  lemma {:induction false} StepAccountable(st: Stream, s: State, a: Action)
    requires Accountable(st, s)
    ensures Accountable(st, Step(st, s, a))
  {
    match a
    case Decode => DecodeAccountable(st, s);
    case Announce(h, ok) => PublishAccountable(st, s, h, ok);
    case Ack(h, ok, applied) => AckAccountable(st, s, h, ok, applied);
    case Fetch(_, _) => WorkingAccountable(st, s, a);
    case Ingest(_, _) => WorkingAccountable(st, s, a);
    case Persist(_, _) => WorkingAccountable(st, s, a);
    case _ => ReadingAccountable(st, s, a);
  }

  /** In every run an acknowledged message is malformed or a handler of its own has published a terminal event for its document. */
  lemma {:induction false} AckFollowsTerminalEvent(st: Stream, actions: seq<Action>)
    ensures Accountable(st, Exec(st, actions))
  {
    if actions != [] {
      AckFollowsTerminalEvent(st, actions[..|actions| - 1]);
      StepAccountable(st, Exec(st, actions[..|actions| - 1]), actions[|actions| - 1]);
    }
  }

  function DecodeAll(st: Stream, s: State): State
    decreases |s.staged|
  {
    if s.staged == [] then s else DecodeAll(st, DecodeNext(st, s))
  }

  lemma {:induction false} HeadDecoded(st: Stream, s: State)
    requires s.staged != []
    ensures var t := DecodeNext(st, s);
            && t.copies + multiset(Decoded(st.decodable, t.staged)) == s.copies + multiset(Decoded(st.decodable, s.staged))
            && t.group.AckAll(Malformed(st.decodable, t.staged)) == s.group.AckAll(Malformed(st.decodable, s.staged))
  {
    var m, rest := s.staged[0], s.staged[1..];
    DecodedHead(st.decodable, s.staged);
    MalformedHead(st.decodable, s.staged);
    var good, bad := Decoded(st.decodable, rest), Malformed(st.decodable, rest);
    if st.decodable(m) {
      assert multiset([m] + good) == multiset{m} + multiset(good);
      assert [] + bad == bad;
    } else {
      AckAllHead(s.group, [m] + bad);
      assert ([m] + bad)[1..] == bad && [] + good == good;
    }
  }

  /** Of what was read or claimed the decodable messages are queued, each as often as it was there, and the malformed ones acknowledged. */
  lemma {:induction false} StagedAreQueued(st: Stream, s: State)
    ensures var t := DecodeAll(st, s);
            && t.staged == [] && t.copies == s.copies + multiset(Decoded(st.decodable, s.staged))
            && t.group == s.group.AckAll(Malformed(st.decodable, s.staged))
            && t.handlers == s.handlers && t.published == s.published
    decreases |s.staged|
  {
    if s.staged != [] {
      HeadDecoded(st, s);
      StagedAreQueued(st, DecodeNext(st, s));
    }
  }

  /** A crash leaves the stream and the topic, and no copy and no handler: nothing more is published until a message is handed over anew. */
  lemma {:induction false} CrashEndsHandlers(st: Stream, s: State, h: nat, ok: bool, m: MsgId)
    ensures var t := Step(st, s, Crash);
            && t.group == s.group && t.published == s.published && t.ran == s.ran
            && Step(st, t, Announce(h, ok)) == t && Step(st, t, Ingest(h, ok)) == t && Step(st, t, Check(m)) == t && Step(st, t, Decode) == t
  {
  }

  // ---------------------------------------------------------------- COMPLETED means ingested and persisted

  /** How far a handler's phase shows its message to have come. */
  predicate Backed(s: State, h: Handler) {
    && (h.phase == Persisting ==> h.msg in s.succeeded)
    && (h.phase == Completing ==> h.msg in s.succeeded && h.msg in s.persisted)
  }

  predicate Earned(s: State, e: Event) {
    e.status == COMPLETED ==> e.msg in s.succeeded && e.msg in s.persisted
  }

  predicate Truthful(s: State) {
    && (forall m | m in s.succeeded :: m in s.ingested)
    && (forall h | 0 <= h < |s.handlers| :: Backed(s, s.handlers[h]))
    && (forall i | 0 <= i < |s.published| :: Earned(s, s.published[i]))
  }

  lemma {:induction false} PublishTruthful(st: Stream, s: State, h: nat, ok: bool)
    requires Truthful(s)
    ensures Truthful(PublishTerminal(st, s, h, ok))
  {
  }

  /** Handlers that went on to a phase that shows nothing, or are new, and the same events. */
  lemma {:induction false} QuietTruthful(s: State, t: State)
    requires Truthful(s) && t.published == s.published
    requires t.ingested == s.ingested && t.succeeded == s.succeeded && t.persisted == s.persisted
    requires forall h | 0 <= h < |t.handlers| && (t.handlers[h].phase == Persisting || t.handlers[h].phase == Completing) ::
               h < |s.handlers| && s.handlers[h] == t.handlers[h]
    ensures Truthful(t)
  {
  }

  lemma {:induction false} IngestTruthful(s: State, h: nat, ok: bool)
    requires Truthful(s)
    ensures Truthful(RunIngestion(s, h, ok))
  {
  }

  lemma {:induction false} PersistTruthful(s: State, h: nat, ok: bool)
    requires Truthful(s)
    ensures Truthful(PersistChunks(s, h, ok))
  {
  }

  lemma {:induction false} ReadingTruthful(st: Stream, s: State, a: Action)
    requires Truthful(s) && (a.Publish? || a.Deliver? || a.Claim? || a.Decode? || a.Check? || a.Crash?)
    ensures Truthful(Step(st, s, a))
  {
    match a
    case Publish => QuietTruthful(s, s.(group := s.group.Publish()));
    case Deliver(n) => QuietTruthful(s, Read(s, n));
    case Claim(ids) => QuietTruthful(s, Reclaim(s, ids));
    case Decode => QuietTruthful(s, DecodeNext(st, s));
    case Check(m) => QuietTruthful(s, CheckCount(s, m));
    case Crash => QuietTruthful(s, Crashed(s));
  }

  lemma {:induction false} FetchTruthful(s: State, h: nat, result: Fetch)
    requires Truthful(s)
    ensures Truthful(FetchSource(s, h, result))
  {
    QuietTruthful(s, FetchSource(s, h, result));
  }

  lemma {:induction false} AckTruthful(s: State, h: nat, ok: bool, applied: bool)
    requires Truthful(s)
    ensures Truthful(AckMessage(s, h, ok, applied))
  {
    QuietTruthful(s, AckMessage(s, h, ok, applied));
  }

  lemma {:induction false} StepTruthful(st: Stream, s: State, a: Action)
    requires Truthful(s)
    ensures Truthful(Step(st, s, a))
  {
    match a
    case Fetch(h, result) => FetchTruthful(s, h, result);
    case Ingest(h, ok) => IngestTruthful(s, h, ok);
    case Persist(h, ok) => PersistTruthful(s, h, ok);
    case Announce(h, ok) => PublishTruthful(st, s, h, ok);
    case Ack(h, ok, applied) => AckTruthful(s, h, ok, applied);
    case _ => ReadingTruthful(st, s, a);
  }

  /** In every run a COMPLETED event of a message means that an ingestion of it went through and was persisted. */
  lemma {:induction false} CompletedWasIngested(st: Stream, actions: seq<Action>)
    ensures Truthful(Exec(st, actions))
    ensures var s := Exec(st, actions);
            forall e | e in s.published && e.status == COMPLETED :: e.msg in s.succeeded && e.msg in s.persisted && s.ingested[e.msg] > 0
  {
    if actions != [] {
      CompletedWasIngested(st, actions[..|actions| - 1]);
      StepTruthful(st, Exec(st, actions[..|actions| - 1]), actions[|actions| - 1]);
    }
    var s := Exec(st, actions);
    forall e | e in s.published && e.status == COMPLETED ensures e.msg in s.succeeded && e.msg in s.persisted && s.ingested[e.msg] > 0 {
      var i :| 0 <= i < |s.published| && s.published[i] == e;
      assert Earned(s, s.published[i]);
    }
  }

  // ---------------------------------------------------------------- one handler, uninterrupted

  /** How the calls of one handler turn out: its first and second publish, its acknowledgement. */
  datatype Fates = Fates(fetch: Fetch, ingests: bool, persists: bool, publishes: bool, acks: bool, publishesAgain: bool)

  /** Fetch, ingest and persist in a row; those the handler's phase does not call for change nothing. */
  function Work(s: State, h: nat, f: Fates): State {
    PersistChunks(RunIngestion(FetchSource(s, h, f.fetch), h, f.ingests), h, f.persists)
  }

  /** Publish, acknowledge, and publish again if the exception branch is reached. */
  function Settle(st: Stream, s: State, h: nat, f: Fates): State {
    PublishTerminal(st, AckMessage(PublishTerminal(st, s, h, f.publishes), h, f.acks, false), h, f.publishesAgain)
  }

  function HandlerRun(st: Stream, s: State, m: MsgId, f: Fates): State {
    Settle(st, Work(CheckCount(s, m), |s.handlers|, f), |s.handlers|, f)
  }

  function WorkPhase(f: Fates): Phase {
    match f.fetch
    case NotFound => SourceMissing
    case FetchRaises => Failing
    case Fetched => if f.ingests && f.persists then Completing else Failing
  }

  lemma {:induction false} WorkReaches(s: State, h: nat, f: Fates)
    requires At(s, h, Fetching)
    ensures var t := Work(s, h, f);
            && |t.handlers| == |s.handlers| && t.handlers[h] == s.handlers[h].(phase := WorkPhase(f))
            && t.group == s.group && t.published == s.published
  {
    var fetched := FetchSource(s, h, f.fetch);
    if f.fetch == Fetched {
      assert At(fetched, h, Ingesting);
      assert At(RunIngestion(fetched, h, f.ingests), h, if f.ingests then Persisting else Failing);
    } else {
      assert RunIngestion(fetched, h, f.ingests) == fetched;
    }
  }

  lemma {:induction false} ExceededDoesNoWork(s: State, h: nat, f: Fates)
    requires At(s, h, Exceeded)
    ensures Work(s, h, f) == s
  {
  }

  function EventIf(publishes: bool, m: MsgId, documentId: string, status: Status): seq<Event> {
    if publishes then [Event(m, documentId, status)] else []
  }

  predicate Acknowledges(p: Phase, f: Fates) {
    p != Failing && f.publishes && f.acks
  }

  /** The terminal events of a handler: its phase's, and FAILED if the exception branch follows. */
  function HandlerEvents(p: Phase, f: Fates, m: MsgId, documentId: string): seq<Event> {
    EventIf(f.publishes, m, documentId, ToPublish(p))
    + EventIf((p == SourceMissing || p == Completing) && !Acknowledges(p, f) && f.publishesAgain, m, documentId, FAILED)
  }

  /** The handler at `h` and what it has published; the stream and the tallies of ingestions are untouched. */
  predicate Moved(s: State, t: State, h: nat, phase: Phase, events: seq<Event>) {
    && h < |s.handlers| == |t.handlers| && t.handlers[h] == s.handlers[h].(phase := phase)
    && t.published == s.published + events && t.ran == s.ran
  }

  lemma {:induction false} PublishMoves(st: Stream, s: State, h: nat, ok: bool)
    requires h < |s.handlers|
    ensures var t, p := PublishTerminal(st, s, h, ok), s.handlers[h].phase;
            t.group == s.group &&
            if Announces(p) then
              Moved(s, t, h, AfterAnnounce(p, ok), EventIf(ok, s.handlers[h].msg, st.documentId(s.handlers[h].msg), ToPublish(p)))
            else t == s
  {
  }

  lemma {:induction false} AckMoves(s: State, h: nat, ok: bool)
    requires h < |s.handlers|
    ensures var t, p := AckMessage(s, h, ok, false), s.handlers[h].phase;
            if p.Acking? then
              && Moved(s, t, h, if ok || !p.guarded then Over else Failing, [])
              && t.group == (if ok then s.group.Ack(s.handlers[h].msg) else s.group)
            else t == s
  {
  }

  /** Where a handler is once it has published and tried to acknowledge. */
  function AfterAck(p: Phase, f: Fates): Phase {
    var q := AfterAnnounce(p, f.publishes);
    if q.Acking? then (if f.acks || !q.guarded then Over else Failing) else q
  }

  lemma {:induction false} AnnounceThenAck(st: Stream, s: State, h: nat, f: Fates)
    requires h < |s.handlers| && Announces(s.handlers[h].phase)
    ensures var t, p, m := AckMessage(PublishTerminal(st, s, h, f.publishes), h, f.acks, false), s.handlers[h].phase, s.handlers[h].msg;
            && t.group == (if Acknowledges(p, f) then s.group.Ack(m) else s.group)
            && Moved(s, t, h, AfterAck(p, f), EventIf(f.publishes, m, st.documentId(m), ToPublish(p)))
  {
    var first := PublishTerminal(st, s, h, f.publishes);
    PublishMoves(st, s, h, f.publishes);
    AckMoves(first, h, f.acks);
    assert first.published + [] == first.published;
  }

  lemma {:induction false} SettleEffects(st: Stream, s: State, h: nat, f: Fates)
    requires h < |s.handlers| && Announces(s.handlers[h].phase)
    ensures var t, p, m := Settle(st, s, h, f), s.handlers[h].phase, s.handlers[h].msg;
            && t.group == (if Acknowledges(p, f) then s.group.Ack(m) else s.group)
            && t.published == s.published + HandlerEvents(p, f, m, st.documentId(m))
            && t.ran == s.ran
  {
    var acked := AckMessage(PublishTerminal(st, s, h, f.publishes), h, f.acks, false);
    AnnounceThenAck(st, s, h, f);
    PublishMoves(st, acked, h, f.publishesAgain);
  }

  function EndPhase(count: nat, f: Fates): Phase {
    if count > MAX_DELIVERY_COUNT then Exceeded else WorkPhase(f)
  }

  /** What an uninterrupted handler does to the stream and the topic. */
  lemma {:induction false} HandlerEffects(st: Stream, s: State, m: MsgId, f: Fates)
    requires m in s.copies
    ensures var t, p := HandlerRun(st, s, m, f), EndPhase(s.group.DeliveryCount(m), f);
            && t.group == (if Acknowledges(p, f) then s.group.Ack(m) else s.group)
            && t.published == s.published + HandlerEvents(p, f, m, st.documentId(m))
            && (p == Exceeded ==> t.ran == s.ran)
  {
    var h, checked := |s.handlers|, CheckCount(s, m);
    if s.group.DeliveryCount(m) > MAX_DELIVERY_COUNT {
      ExceededDoesNoWork(checked, h, f);
    } else {
      WorkReaches(checked, h, f);
    }
    SettleEffects(st, Work(checked, h, f), h, f);
  }

  class StreamWorker {
    const bus: RedisStreamBus
    const documentId: MsgId -> string
    var published: seq<Event>

    constructor (bus: RedisStreamBus, documentId: MsgId -> string)
      ensures this.bus == bus && this.documentId == documentId && published == []
    {
      this.bus := bus;
      this.documentId := documentId;
      published := [];
    }

    method PublishComplete(m: MsgId, status: Status, ok: bool)
      modifies this
      ensures published == if ok then old(published) + [Event(m, documentId(m), status)] else old(published)
    {
      if ok {
        published := published + [Event(m, documentId(m), status)];
      }
    }

    /** `_handle_message`: its effects are those of the protocol's handler (see HandlerEffects). */
    method HandleMessage(m: MsgId, f: Fates)
      requires bus as object != this
      modifies this, bus
      ensures var p := EndPhase(old(bus.group).DeliveryCount(m), f);
              && bus.group == (if Acknowledges(p, f) then old(bus.group).Ack(m) else old(bus.group))
              && published == old(published) + HandlerEvents(p, f, m, documentId(m))
    {
      var count := bus.DeliveryCount(m);
      if count > MAX_DELIVERY_COUNT {
        PublishComplete(m, FAILED, f.publishes);
        if f.publishes && f.acks {
          bus.Ack(m);
        }
        return;
      }
      var acked := false;
      var raised := f.fetch == FetchRaises || (f.fetch == Fetched && !(f.ingests && f.persists));
      if !raised {
        PublishComplete(m, if f.fetch == NotFound then FAILED else COMPLETED, f.publishes);
        if f.publishes && f.acks {
          bus.Ack(m);
          acked := true;
        }
        if !acked {
          PublishComplete(m, FAILED, f.publishesAgain);
        }
      } else {
        PublishComplete(m, FAILED, f.publishes);
      }
    }
  }

  /** The handler leaves the message acknowledged or not, and has added these events, written out. */
  predicate Leaves(s: State, t: State, m: MsgId, acked: bool, events: seq<Event>) {
    && t.published == s.published + events
    && (if acked then m !in t.group.pending && (m in s.group.pending ==> m in t.group.acked) else t.group == s.group)
  }

  lemma {:induction false} LeavesAsSettled(st: Stream, s: State, m: MsgId, f: Fates, p: Phase, acked: bool, events: seq<Event>)
    requires m in s.copies && p == EndPhase(s.group.DeliveryCount(m), f)
    requires acked == Acknowledges(p, f) && events == HandlerEvents(p, f, m, st.documentId(m))
    ensures Leaves(s, HandlerRun(st, s, m, f), m, acked, events)
  {
    HandlerEffects(st, s, m, f);
  }

  /**
   * Within the limit, when the ingestion goes through and is persisted: COMPLETED, and the acknowledgement. If either
   * of the two calls raises, the exception handler publishes FAILED and the message stays.
   */
  lemma {:induction false} SuccessCompletes(st: Stream, s: State, m: MsgId, f: Fates)
    requires m in s.copies && s.group.DeliveryCount(m) <= 3
    requires f.fetch == Fetched && f.ingests && f.persists
    ensures var completed, failed := Event(m, st.documentId(m), COMPLETED), Event(m, st.documentId(m), FAILED);
            Leaves(s, HandlerRun(st, s, m, f), m, f.publishes && f.acks,
                   (if f.publishes then [completed] else []) + (if (!f.publishes || !f.acks) && f.publishesAgain then [failed] else []))
  {
    LeavesAsSettled(st, s, m, f, Completing, f.publishes && f.acks, HandlerEvents(Completing, f, m, st.documentId(m)));
  }

  /** The same for a source that is missing for good, with FAILED in place of COMPLETED. */
  lemma {:induction false} MissingSourceFails(st: Stream, s: State, m: MsgId, f: Fates)
    requires m in s.copies && s.group.DeliveryCount(m) <= 3 && f.fetch == NotFound
    ensures var failed := Event(m, st.documentId(m), FAILED);
            Leaves(s, HandlerRun(st, s, m, f), m, f.publishes && f.acks,
                   (if f.publishes then [failed] else []) + (if (!f.publishes || !f.acks) && f.publishesAgain then [failed] else []))
  {
    LeavesAsSettled(st, s, m, f, SourceMissing, f.publishes && f.acks, HandlerEvents(SourceMissing, f, m, st.documentId(m)));
  }

  /** Past the limit nothing is ingested: FAILED is published and the message leaves the pending list, unless one of the two raises. */
  lemma {:induction false} DeadLetter(st: Stream, s: State, m: MsgId, f: Fates)
    requires m in s.copies && m in s.group.pending && s.group.pending[m] > 3
    ensures HandlerRun(st, s, m, f).ran == s.ran
    ensures Leaves(s, HandlerRun(st, s, m, f), m, f.publishes && f.acks,
                   if f.publishes then [Event(m, st.documentId(m), FAILED)] else [])
  {
    HandlerEffects(st, s, m, f);
    LeavesAsSettled(st, s, m, f, Exceeded, f.publishes && f.acks, HandlerEvents(Exceeded, f, m, st.documentId(m)));
  }

  lemma {:induction false} FailingEvents(f: Fates, m: MsgId, documentId: string)
    ensures HandlerEvents(Failing, f, m, documentId) == if f.publishes then [Event(m, documentId, FAILED)] else []
  {
  }

  /** Within the limit a failing ingestion publishes FAILED and leaves the message for redelivery. */
  lemma {:induction false} FailureLeavesPending(st: Stream, s: State, m: MsgId, f: Fates)
    requires m in s.copies && s.group.DeliveryCount(m) <= 3
    requires f.fetch == FetchRaises || (f.fetch == Fetched && !(f.ingests && f.persists))
    ensures Leaves(s, HandlerRun(st, s, m, f), m, false, if f.publishes then [Event(m, st.documentId(m), FAILED)] else [])
  {
    assert WorkPhase(f) == Failing && !Acknowledges(Failing, f);
    FailingEvents(f, m, st.documentId(m));
    LeavesAsSettled(st, s, m, f, Failing, false, if f.publishes then [Event(m, st.documentId(m), FAILED)] else []);
  }

  lemma {:induction false} ExecSnoc(st: Stream, actions: seq<Action>, a: Action)
    ensures Exec(st, actions + [a]) == Step(st, Exec(st, actions), a)
  {
    assert (actions + [a])[..|actions|] == actions;
  }

  lemma {:induction false} WorkIsARun(st: Stream, actions: seq<Action>, h: nat, f: Fates) returns (run: seq<Action>)
    ensures actions <= run && Exec(st, run) == Work(Exec(st, actions), h, f)
  {
    run := actions + [Fetch(h, f.fetch)] + [Ingest(h, f.ingests)] + [Persist(h, f.persists)];
    ExecSnoc(st, actions, Fetch(h, f.fetch));
    ExecSnoc(st, actions + [Fetch(h, f.fetch)], Ingest(h, f.ingests));
    ExecSnoc(st, actions + [Fetch(h, f.fetch)] + [Ingest(h, f.ingests)], Persist(h, f.persists));
  }

  lemma {:induction false} SettleIsARun(st: Stream, actions: seq<Action>, h: nat, f: Fates) returns (run: seq<Action>)
    ensures actions <= run && Exec(st, run) == Settle(st, Exec(st, actions), h, f)
  {
    run := actions + [Announce(h, f.publishes)] + [Ack(h, f.acks, false)] + [Announce(h, f.publishesAgain)];
    ExecSnoc(st, actions, Announce(h, f.publishes));
    ExecSnoc(st, actions + [Announce(h, f.publishes)], Ack(h, f.acks, false));
    ExecSnoc(st, actions + [Announce(h, f.publishes)] + [Ack(h, f.acks, false)], Announce(h, f.publishesAgain));
  }

  /** The stages of `HandlerRun` are runs of the protocol, one behind the other. */
  lemma {:induction false} HandlerIsARun(st: Stream, actions: seq<Action>, m: MsgId, f: Fates)
    returns (checked: seq<Action>, worked: seq<Action>, settled: seq<Action>)
    ensures actions <= checked <= worked <= settled
    ensures Exec(st, checked) == CheckCount(Exec(st, actions), m)
    ensures Exec(st, worked) == Work(Exec(st, checked), |Exec(st, actions).handlers|, f)
    ensures Exec(st, settled) == Settle(st, Exec(st, worked), |Exec(st, actions).handlers|, f)
  {
    var h := |Exec(st, actions).handlers|;
    checked := actions + [Check(m)];
    ExecSnoc(st, actions, Check(m));
    worked := WorkIsARun(st, checked, h, f);
    settled := SettleIsARun(st, worked, h, f);
  }
}
