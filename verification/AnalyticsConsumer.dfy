/**
 * services/analytics-service-py/src/stream_consumer.py: query events are buffered and flushed to
 * ClickHouse in batches. Each action is what one task does between two awaits, so a sequence of
 * actions is an interleaving of the consume loop, the claim loop, any number of flushes and crashes.
 */
module AnalyticsConsumer {
  import opened StreamBus

  /** What the payloads are like: a JSON decoder accepts them, and every field converts to its column. */
  datatype Payloads = Payloads(decodable: MsgId -> bool, convertible: MsgId -> bool)

  /** A flush in progress: waiting for the insert, acknowledging one by one, or over. */
  datatype Flush = Inserting(ids: seq<MsgId>) | Acking(ids: seq<MsgId>, done: nat) | Ended

  datatype State = State(
    group: Group,
    fetched: seq<MsgId>,     // read from the stream, not yet yielded to the consume loop
    claiming: seq<MsgId>,    // claimed, not yet decoded
    claimed: seq<MsgId>,     // claimed and decoded, not yet in the buffer
    buffer: seq<MsgId>,
    flushes: seq<Flush>,
    rows: multiset<MsgId>,   // ClickHouse
    skipped: multiset<MsgId>,  // malformed copies, acknowledged without a row
    lost: multiset<MsgId>,   // copies that went with a failed flush, an abandoned claim or the end of the consumer
    handed: multiset<MsgId>)  // one count per delivery or claim

  datatype Action =
    | Publish
    | Deliver(n: nat)
    | TakeFetched
    | Trim(upTo: nat)
    | Claim(ids: seq<MsgId>, gone: set<MsgId>)
    | SiftClaimed
    | AbandonClaim
    | ExtendClaimed
    | Swap(inConsumeLoop: bool)
    | InsertOk(flush: nat)
    | InsertFails(flush: nat, stored: bool)
    | AckNext(flush: nat)
    | AckRaises(flush: nat)
    | Crash

  function Waiting(f: Flush): multiset<MsgId> {
    if f.Inserting? then multiset(f.ids) else multiset{}
  }

  /** The copies that wait for the inserts under way. */
  function InFlight(flushes: seq<Flush>): multiset<MsgId> {
    if flushes == [] then multiset{} else InFlight(flushes[..|flushes| - 1]) + Waiting(flushes[|flushes| - 1])
  }

  /** XREADGROUP hands the next `n` messages to the consume loop. */
  function Read(s: State, n: nat): State {
    if !s.group.CanDeliver(n) then s
    else
      var ids := Range(s.group.next, n);
      s.(group := s.group.Deliver(n), fetched := s.fetched + ids, handed := s.handed + multiset(ids))
  }

  /** The consume loop takes a fetched message: decodable ones are buffered, the others acknowledged. */
  function Take(load: Payloads, s: State): State {
    if s.fetched == [] then s
    else
      var m, rest := s.fetched[0], s.fetched[1..];
      if load.decodable(m) then s.(fetched := rest, buffer := s.buffer + [m])
      else s.(fetched := rest, group := s.group.Ack(m), skipped := s.skipped + multiset{m})
  }

  /** XAUTOCLAIM, once the claim loop is through with what it claimed before. */
  function ClaimIdle(s: State, ids: seq<MsgId>, gone: set<MsgId>): State {
    if !s.group.CanClaim(ids) || s.claiming != [] || s.claimed != [] then s
    else s.(group := s.group.Purge(gone).Claim(ids), claiming := ids, handed := s.handed + multiset(ids))
  }

  function Sift(load: Payloads, s: State): State {
    if s.claiming == [] then s
    else
      var m, rest := s.claiming[0], s.claiming[1..];
      if load.decodable(m) then s.(claiming := rest, claimed := s.claimed + [m])
      else s.(claiming := rest, group := s.group.Ack(m), skipped := s.skipped + multiset{m})
  }

  function Extended(s: State): State {
    if s.claiming != [] then s else s.(buffer := s.buffer + s.claimed, claimed := [])
  }

  predicate AllConvertible(load: Payloads, ids: seq<MsgId>) {
    forall m | m in ids :: load.convertible(m)
  }

  /**
   * A flush takes the buffer and converts it before it inserts anything. One payload that does not convert
   * takes the whole batch with it, and from the consume loop the exception ends the consumer.
   */
  function Swapped(load: Payloads, s: State, inConsumeLoop: bool): State {
    if s.buffer == [] then s
    else if AllConvertible(load, s.buffer) then s.(buffer := [], flushes := s.flushes + [Inserting(s.buffer)])
    else
      var t := s.(buffer := [], lost := s.lost + multiset(s.buffer));
      if inConsumeLoop then Crashed(t) else t
  }

  function WithFlush(s: State, i: nat, f: Flush): State
    requires i < |s.flushes|
  {
    s.(flushes := s.flushes[i := f])
  }

  function Inserted(s: State, i: nat): State {
    if i < |s.flushes| && s.flushes[i].Inserting? then
      var ids := s.flushes[i].ids;
      WithFlush(s, i, Acking(ids, 0)).(rows := s.rows + multiset(ids))
    else s
  }

  /** The insert raised; the rows may be there nonetheless. Nothing is acknowledged. */
  function InsertRaised(s: State, i: nat, stored: bool): State {
    if i < |s.flushes| && s.flushes[i].Inserting? then
      var ids, t := s.flushes[i].ids, WithFlush(s, i, Ended);
      if stored then t.(rows := s.rows + multiset(ids)) else t.(lost := s.lost + multiset(ids))
    else s
  }

  function Acked(s: State, i: nat): State {
    if i < |s.flushes| && s.flushes[i].Acking? then
      var f := s.flushes[i];
      if f.done < |f.ids| then WithFlush(s, i, Acking(f.ids, f.done + 1)).(group := s.group.Ack(f.ids[f.done]))
      else WithFlush(s, i, Ended)
    else s
  }

  function Crashed(s: State): State {
    s.(fetched := [], claiming := [], claimed := [], buffer := [], flushes := [],
       lost := s.lost + multiset(s.fetched) + multiset(s.claiming) + multiset(s.claimed) + multiset(s.buffer)
               + InFlight(s.flushes))
  }

  /** The effect of an action; one that is not possible changes nothing. */
  function Step(load: Payloads, s: State, a: Action): State {
    match a
    case Publish => s.(group := s.group.Publish())
    case Deliver(n) => Read(s, n)
    case TakeFetched => Take(load, s)
    case Trim(upTo) => s.(group := s.group.Trim(upTo))
    case Claim(ids, gone) => ClaimIdle(s, ids, gone)
    case SiftClaimed => Sift(load, s)
    case AbandonClaim => s.(claiming := [], claimed := [], lost := s.lost + multiset(s.claiming) + multiset(s.claimed))
    case ExtendClaimed => Extended(s)
    case Swap(inConsumeLoop) => Swapped(load, s, inConsumeLoop)
    case InsertOk(i) => Inserted(s, i)
    case InsertFails(i, stored) => InsertRaised(s, i, stored)
    case AckNext(i) => Acked(s, i)
    case AckRaises(i) => if i < |s.flushes| && s.flushes[i].Acking? then WithFlush(s, i, Ended) else s
    case Crash => Crashed(s)
  }

  const INIT := State(Group(0, 0, 0, map[], {}), [], [], [], [], [], multiset{}, multiset{}, multiset{}, multiset{})

  function Exec(load: Payloads, actions: seq<Action>): State {
    if actions == [] then INIT
    else Step(load, Exec(load, actions[..|actions| - 1]), actions[|actions| - 1])
  }

  // ---------------------------------------------------------------- copies are conserved

  function InFlightOf(flushes: seq<Flush>, m: MsgId): nat {
    if flushes == [] then 0 else InFlightOf(flushes[..|flushes| - 1], m) + Waiting(flushes[|flushes| - 1])[m]
  }

  /** Each copy of `m` handed over is in exactly one place. */
  predicate Conserved(s: State, m: MsgId) {
    s.handed[m] == Copies(s.fetched, m) + Copies(s.claiming, m) + Copies(s.claimed, m) + Copies(s.buffer, m)
                   + InFlightOf(s.flushes, m) + s.rows[m] + s.skipped[m] + s.lost[m]
  }

  lemma {:induction false} InFlightCounts(flushes: seq<Flush>, m: MsgId)
    ensures InFlight(flushes)[m] == InFlightOf(flushes, m)
  {
    if flushes != [] {
      InFlightCounts(flushes[..|flushes| - 1], m);
    }
  }

  lemma {:induction false} InFlightUpdate(flushes: seq<Flush>, i: nat, f: Flush, m: MsgId)
    requires i < |flushes|
    ensures InFlightOf(flushes[i := f], m) + Waiting(flushes[i])[m] == InFlightOf(flushes, m) + Waiting(f)[m]
  {
    var last := |flushes| - 1;
    if i < last {
      InFlightUpdate(flushes[..last], i, f, m);
      assert flushes[i := f][..last] == flushes[..last][i := f];
    } else {
      assert flushes[i := f][..last] == flushes[..last];
    }
  }

  lemma {:induction false} HeadMoves(from: seq<MsgId>, to: seq<MsgId>, skipped: multiset<MsgId>, m: MsgId)
    requires from != []
    ensures Copies(from, m) == One(from[0], m) + Copies(from[1..], m)
    ensures Copies(to + [from[0]], m) == Copies(to, m) + One(from[0], m)
    ensures (skipped + multiset{from[0]})[m] == skipped[m] + One(from[0], m)
  {
    CopiesHead(from, m);
    CopiesSnoc(to, from[0], m);
  }

  lemma {:induction false} TakeConserves(load: Payloads, s: State, m: MsgId)
    requires Conserved(s, m)
    ensures Conserved(Take(load, s), m)
  {
    if s.fetched != [] {
      HeadMoves(s.fetched, s.buffer, s.skipped, m);
    }
  }

  lemma {:induction false} SiftConserves(load: Payloads, s: State, m: MsgId)
    requires Conserved(s, m)
    ensures Conserved(Sift(load, s), m)
  {
    if s.claiming != [] {
      HeadMoves(s.claiming, s.claimed, s.skipped, m);
    }
  }

  lemma {:induction false} FlushConserves(s: State, i: nat, f: Flush, m: MsgId)
    requires i < |s.flushes|
    ensures InFlightOf(WithFlush(s, i, f).flushes, m) == InFlightOf(s.flushes, m) + Waiting(f)[m] - Waiting(s.flushes[i])[m]
  {
    InFlightUpdate(s.flushes, i, f, m);
  }

  lemma {:induction false} InsertConserves(s: State, i: nat, stored: bool, m: MsgId)
    requires Conserved(s, m)
    ensures Conserved(Inserted(s, i), m) && Conserved(InsertRaised(s, i, stored), m)
  {
    if i < |s.flushes| && s.flushes[i].Inserting? {
      FlushConserves(s, i, Acking(s.flushes[i].ids, 0), m);
      FlushConserves(s, i, Ended, m);
    }
  }

  lemma {:induction false} AckConserves(s: State, i: nat, m: MsgId)
    requires Conserved(s, m)
    ensures Conserved(Acked(s, i), m)
    ensures i < |s.flushes| && s.flushes[i].Acking? ==> Conserved(WithFlush(s, i, Ended), m)
  {
    if i < |s.flushes| && s.flushes[i].Acking? {
      FlushConserves(s, i, Acking(s.flushes[i].ids, s.flushes[i].done + 1), m);
      FlushConserves(s, i, Ended, m);
    }
  }

  lemma {:induction false} CrashConserves(s: State, m: MsgId)
    requires Conserved(s, m)
    ensures Conserved(Crashed(s), m)
  {
    InFlightCounts(s.flushes, m);
  }

  lemma {:induction false} SwapConserves(load: Payloads, s: State, inConsumeLoop: bool, m: MsgId)
    requires Conserved(s, m)
    ensures Conserved(Swapped(load, s, inConsumeLoop), m)
  {
    if AllConvertible(load, s.buffer) {
      assert (s.flushes + [Inserting(s.buffer)])[..|s.flushes|] == s.flushes;
    } else {
      CrashConserves(s.(buffer := [], lost := s.lost + multiset(s.buffer)), m);
    }
  }

  lemma {:induction false} ReadConserves(s: State, n: nat, m: MsgId)
    requires Conserved(s, m)
    ensures Conserved(Read(s, n), m)
  {
  }

  lemma {:induction false} ClaimConserves(s: State, ids: seq<MsgId>, gone: set<MsgId>, m: MsgId)
    requires Conserved(s, m)
    ensures Conserved(ClaimIdle(s, ids, gone), m) && Conserved(Extended(s), m)
  {
  }

  lemma {:induction false} StepConserves(load: Payloads, s: State, a: Action, m: MsgId)
    requires Conserved(s, m)
    ensures Conserved(Step(load, s, a), m)
  {
    match a
    case Deliver(n) => ReadConserves(s, n, m);
    case Claim(ids, gone) => ClaimConserves(s, ids, gone, m);
    case ExtendClaimed => ClaimConserves(s, [], {}, m);
    case TakeFetched => TakeConserves(load, s, m);
    case SiftClaimed => SiftConserves(load, s, m);
    case Swap(inConsumeLoop) => SwapConserves(load, s, inConsumeLoop, m);
    case InsertOk(i) => InsertConserves(s, i, true, m);
    case InsertFails(i, stored) => InsertConserves(s, i, stored, m);
    case AckNext(i) => AckConserves(s, i, m);
    case AckRaises(i) => AckConserves(s, i, m);
    case Crash => CrashConserves(s, m);
    case _ =>
  }

  /** In every interleaving each copy is accounted for once, so a message has no more rows than deliveries. */
  lemma {:induction false} CopiesConserved(load: Payloads, actions: seq<Action>, m: MsgId)
    ensures var s := Exec(load, actions); Conserved(s, m) && s.rows[m] <= s.handed[m]
  {
    if actions != [] {
      CopiesConserved(load, actions[..|actions| - 1], m);
      StepConserves(load, Exec(load, actions[..|actions| - 1]), actions[|actions| - 1], m);
    }
  }

  // ---------------------------------------------------------------- at least once

  /**
   * A delivered message is acknowledged, pending, or trimmed from the stream. Its pending count is true, and
   * a decodable one is acknowledged only once it has its row.
   */
  predicate Safe(load: Payloads, s: State, m: MsgId) {
    && (m in s.group.pending || m in s.group.acked ==> m < s.group.next)
    && (s.handed[m] > 0 ==> m in s.group.pending || m in s.group.acked || m < s.group.trimmed)
    && (s.group.trimmed <= m < s.group.next ==> s.handed[m] > 0)
    && (m >= s.group.next ==> s.handed[m] == 0)
    && !(m in s.group.pending && m in s.group.acked)
    && (m in s.group.pending ==> s.group.pending[m] == s.handed[m])
    && (m in s.group.acked && load.decodable(m) ==> s.rows[m] > 0)
    && (forall i | 0 <= i < |s.flushes| && s.flushes[i].Acking? :: m in s.flushes[i].ids ==> s.rows[m] > 0)
    && s.group.trimmed <= s.group.next <= s.group.published
  }

  lemma {:induction false} ReadSafe(load: Payloads, s: State, n: nat, m: MsgId)
    requires Safe(load, s, m)
    ensures Safe(load, Read(s, n), m)
  {
    RangeCounts(s.group.next, n, m);
  }

  lemma {:induction false} ClaimSafe(load: Payloads, s: State, ids: seq<MsgId>, gone: set<MsgId>, m: MsgId)
    requires Safe(load, s, m)
    ensures Safe(load, ClaimIdle(s, ids, gone), m)
  {
    if s.group.CanClaim(ids) {
      DistinctCounts(ids, m);
    }
  }

  lemma {:induction false} InsertSafe(load: Payloads, s: State, i: nat, stored: bool, m: MsgId)
    requires Safe(load, s, m)
    ensures Safe(load, Inserted(s, i), m) && Safe(load, InsertRaised(s, i, stored), m)
  {
  }

  lemma {:induction false} AckSafe(load: Payloads, s: State, i: nat, m: MsgId)
    requires Safe(load, s, m)
    ensures Safe(load, Acked(s, i), m)
  {
    if i < |s.flushes| && s.flushes[i].Acking? && s.flushes[i].done < |s.flushes[i].ids| {
      assert s.flushes[i].ids[s.flushes[i].done] in s.flushes[i].ids;
    }
  }

  lemma {:induction false} SwapSafe(load: Payloads, s: State, inConsumeLoop: bool, m: MsgId)
    requires Safe(load, s, m)
    ensures Safe(load, Swapped(load, s, inConsumeLoop), m)
  {
  }

  /** Acknowledging a malformed message. */
  lemma {:induction false} SkipSafe(load: Payloads, s: State, x: MsgId, m: MsgId)
    requires Safe(load, s, m) && !load.decodable(x)
    ensures Safe(load, s.(group := s.group.Ack(x)), m)
  {
  }

  lemma {:induction false} TakeSafe(load: Payloads, s: State, m: MsgId)
    requires Safe(load, s, m)
    ensures Safe(load, Take(load, s), m)
  {
    if s.fetched != [] && !load.decodable(s.fetched[0]) {
      SkipSafe(load, s, s.fetched[0], m);
    }
  }

  lemma {:induction false} SiftSafe(load: Payloads, s: State, m: MsgId)
    requires Safe(load, s, m)
    ensures Safe(load, Sift(load, s), m)
  {
    if s.claiming != [] && !load.decodable(s.claiming[0]) {
      SkipSafe(load, s, s.claiming[0], m);
    }
  }

  lemma {:induction false} StepSafe(load: Payloads, s: State, a: Action, m: MsgId)
    requires Safe(load, s, m)
    ensures Safe(load, Step(load, s, a), m)
  {
    match a
    case Deliver(n) => ReadSafe(load, s, n, m);
    case Claim(ids, gone) => ClaimSafe(load, s, ids, gone, m);
    case InsertOk(i) => InsertSafe(load, s, i, true, m);
    case InsertFails(i, stored) => InsertSafe(load, s, i, stored, m);
    case AckNext(i) => AckSafe(load, s, i, m);
    case Swap(inConsumeLoop) => SwapSafe(load, s, inConsumeLoop, m);
    case TakeFetched => TakeSafe(load, s, m);
    case SiftClaimed => SiftSafe(load, s, m);
    case _ =>
  }

  /** Whatever flushes overlap, whatever is trimmed and wherever crashes fall. */
  lemma {:induction false} AtLeastOnce(load: Payloads, actions: seq<Action>, m: MsgId)
    ensures Safe(load, Exec(load, actions), m)
  {
    if actions != [] {
      AtLeastOnce(load, actions[..|actions| - 1], m);
      StepSafe(load, Exec(load, actions[..|actions| - 1]), actions[|actions| - 1], m);
    }
  }

  /** So a message has at most as many rows as Redis counts deliveries for it while it is pending. */
  lemma {:induction false} RowsWithinDeliveries(load: Payloads, actions: seq<Action>, m: MsgId)
    ensures var s := Exec(load, actions);
            m in s.group.pending ==> s.rows[m] <= s.group.DeliveryCount(m)
  {
    CopiesConserved(load, actions, m);
    AtLeastOnce(load, actions, m);
  }

  // ---------------------------------------------------------------- nothing is ever out of reach

  lemma {:induction false} ExecSnoc(load: Payloads, actions: seq<Action>, a: Action)
    ensures Exec(load, actions + [a]) == Step(load, Exec(load, actions), a)
  {
    assert (actions + [a])[..|actions|] == actions;
  }

  lemma {:induction false} ClaimOne(load: Payloads, s: State, m: MsgId)
    requires load.decodable(m) && m in s.group.pending && m >= s.group.trimmed
    requires s.claiming == [] && s.claimed == [] && s.buffer == []
    ensures var t := Extended(Sift(load, ClaimIdle(s, [m], {})));
            t.buffer == [m] && t.flushes == s.flushes && m in t.group.pending
  {
    assert s.group.CanClaim([m]);
    var c := ClaimIdle(s, [m], {});
    assert c.claiming == [m] && [m][1..] == [];
    assert [] + [m] == [m];
  }

  lemma {:induction false} ThenTwo(load: Payloads, actions: seq<Action>, s: State, a: Action, b: Action, t: State)
    requires Exec(load, actions) == s && t == Step(load, Step(load, s, a), b)
    ensures Exec(load, actions + [a] + [b]) == t
  {
    ExecSnoc(load, actions, a);
    ExecSnoc(load, actions + [a], b);
  }

  lemma {:induction false} ThenOne(load: Payloads, actions: seq<Action>, s: State, a: Action, t: State)
    requires Exec(load, actions) == s && t == Step(load, s, a)
    ensures Exec(load, actions + [a]) == t
  {
    ExecSnoc(load, actions, a);
  }

  lemma {:induction false} RunToBuffer(load: Payloads, actions: seq<Action>, s: State, ids: seq<MsgId>) returns (more: seq<Action>)
    requires Exec(load, actions) == s
    ensures actions + [Crash] <= more && Exec(load, more) == Extended(Sift(load, ClaimIdle(Crashed(s), ids, {})))
  {
    var crashed := Crashed(s);
    ThenOne(load, actions, s, Crash, crashed);
    more := Claimed(load, actions + [Crash], crashed, ids);
  }

  lemma {:induction false} Claimed(load: Payloads, actions: seq<Action>, s: State, ids: seq<MsgId>) returns (more: seq<Action>)
    requires Exec(load, actions) == s
    ensures actions <= more && Exec(load, more) == Extended(Sift(load, ClaimIdle(s, ids, {})))
  {
    var claimed := ClaimIdle(s, ids, {});
    ThenOne(load, actions, s, Claim(ids, {}), claimed);
    more := Sifted(load, actions + [Claim(ids, {})], claimed);
  }

  lemma {:induction false} Sifted(load: Payloads, actions: seq<Action>, s: State) returns (more: seq<Action>)
    requires Exec(load, actions) == s
    ensures actions <= more && Exec(load, more) == Extended(Sift(load, s))
  {
    var sifted := Sift(load, s);
    ThenOne(load, actions, s, SiftClaimed, sifted);
    ThenOne(load, actions + [SiftClaimed], sifted, ExtendClaimed, Extended(sifted));
    more := actions + [SiftClaimed] + [ExtendClaimed];
  }

  /** After a crash a pending message still in the stream can be claimed, and comes to the front of the buffer. */
  lemma {:induction false} ClaimedAgain(load: Payloads, actions: seq<Action>, s: State, m: MsgId) returns (more: seq<Action>, t: State)
    requires Exec(load, actions) == s
    requires load.decodable(m) && m in s.group.pending && m >= s.group.trimmed
    ensures actions + [Crash] <= more && Exec(load, more) == t
    ensures t.buffer == [m] && t.flushes == [] && m in t.group.pending
  {
    more := RunToBuffer(load, actions, s, [m]);
    t := Extended(Sift(load, ClaimIdle(Crashed(s), [m], {})));
    ClaimOne(load, Crashed(s), m);
  }

  lemma {:induction false} FlushOne(load: Payloads, s: State, m: MsgId)
    requires s.buffer == [m] && s.flushes == [] && m in s.group.pending && load.convertible(m)
    ensures var t := Step(load, Step(load, Step(load, s, Swap(false)), InsertOk(0)), AckNext(0));
            m in t.group.acked && t.rows[m] > 0
  {
    assert AllConvertible(load, s.buffer);
    assert Swapped(load, s, false).flushes == [Inserting([m])];
  }

  /** From every reachable state such a message can still get its row and its acknowledgement, if its fields convert. */
  lemma {:induction false} PendingIsRecoverable(load: Payloads, actions: seq<Action>, m: MsgId) returns (more: seq<Action>)
    requires load.decodable(m) && load.convertible(m)
    requires m in Exec(load, actions).group.pending && m >= Exec(load, actions).group.trimmed
    ensures actions + [Crash] <= more
    ensures var s := Exec(load, more); m in s.group.acked && s.rows[m] > 0
  {
    var claimed, s := ClaimedAgain(load, actions, Exec(load, actions), m);
    var inserted := claimed + [Swap(false)] + [InsertOk(0)];
    more := inserted + [AckNext(0)];
    ThenTwo(load, claimed, s, Swap(false), InsertOk(0), Step(load, Step(load, s, Swap(false)), InsertOk(0)));
    ExecSnoc(load, inserted, AckNext(0));
    FlushOne(load, s, m);
  }

  /** Copies of `m` are in no flush and it has no row. */
  predicate NeverFlushed(s: State, m: MsgId) {
    s.rows[m] == 0 && forall i | 0 <= i < |s.flushes| && !s.flushes[i].Ended? :: m !in s.flushes[i].ids
  }

  lemma {:induction false} FlushesNeverGain(s: State, i: nat, stored: bool, m: MsgId)
    requires NeverFlushed(s, m)
    ensures NeverFlushed(Inserted(s, i), m) && NeverFlushed(InsertRaised(s, i, stored), m) && NeverFlushed(Acked(s, i), m)
  {
  }

  lemma {:induction false} SwapNeverFlushes(load: Payloads, s: State, inConsumeLoop: bool, m: MsgId)
    requires !load.convertible(m) && NeverFlushed(s, m)
    ensures NeverFlushed(Swapped(load, s, inConsumeLoop), m)
  {
  }

  lemma {:induction false} StepNeverFlushes(load: Payloads, s: State, a: Action, m: MsgId)
    requires !load.convertible(m) && NeverFlushed(s, m)
    ensures NeverFlushed(Step(load, s, a), m)
  {
    match a
    case Swap(inConsumeLoop) => SwapNeverFlushes(load, s, inConsumeLoop, m);
    case InsertOk(i) => FlushesNeverGain(s, i, true, m);
    case InsertFails(i, stored) => FlushesNeverGain(s, i, stored, m);
    case AckNext(i) => FlushesNeverGain(s, i, true, m);
    case _ =>
  }

  /** A message that does not convert never gets a row, and if it decodes it is never acknowledged. */
  lemma {:induction false} UnconvertibleStays(load: Payloads, actions: seq<Action>, m: MsgId)
    requires load.decodable(m) && !load.convertible(m)
    ensures var s := Exec(load, actions); NeverFlushed(s, m) && m !in s.group.acked
  {
    if actions != [] {
      UnconvertibleStays(load, actions[..|actions| - 1], m);
      StepNeverFlushes(load, Exec(load, actions[..|actions| - 1]), actions[|actions| - 1], m);
      AtLeastOnce(load, actions, m);
    }
  }

  /** Trimmed from the stream, with no copy left in the consumer. */
  predicate OutOfReach(s: State, m: MsgId) {
    && m < s.group.trimmed <= s.group.next && m !in s.group.acked
    && m !in s.fetched && m !in s.claiming && m !in s.claimed && m !in s.buffer
    && forall i | 0 <= i < |s.flushes| && !s.flushes[i].Ended? :: m !in s.flushes[i].ids
  }

  lemma {:induction false} FlushOutOfReach(s: State, i: nat, stored: bool, m: MsgId)
    requires OutOfReach(s, m)
    ensures OutOfReach(Inserted(s, i), m) && OutOfReach(InsertRaised(s, i, stored), m)
  {
  }

  lemma {:induction false} AckOutOfReach(s: State, i: nat, m: MsgId)
    requires OutOfReach(s, m)
    ensures OutOfReach(Acked(s, i), m)
  {
    if i < |s.flushes| && s.flushes[i].Acking? && s.flushes[i].done < |s.flushes[i].ids| {
      assert s.flushes[i].ids[s.flushes[i].done] in s.flushes[i].ids;
    }
  }

  lemma {:induction false} ClaimOutOfReach(s: State, ids: seq<MsgId>, gone: set<MsgId>, m: MsgId)
    requires OutOfReach(s, m)
    ensures OutOfReach(ClaimIdle(s, ids, gone), m)
  {
    if s.group.CanClaim(ids) {
      assert forall i | 0 <= i < |ids| :: ids[i] != m;
    }
  }

  lemma {:induction false} SwapOutOfReach(load: Payloads, s: State, inConsumeLoop: bool, m: MsgId)
    requires OutOfReach(s, m)
    ensures OutOfReach(Swapped(load, s, inConsumeLoop), m)
  {
  }

  lemma {:induction false} StepOutOfReach(load: Payloads, s: State, a: Action, m: MsgId)
    requires OutOfReach(s, m)
    ensures OutOfReach(Step(load, s, a), m)
  {
    match a
    case Deliver(n) => NotInRange(s.group.next, n, m);
    case Claim(ids, gone) => ClaimOutOfReach(s, ids, gone, m);
    case Swap(inConsumeLoop) => SwapOutOfReach(load, s, inConsumeLoop, m);
    case InsertOk(i) => FlushOutOfReach(s, i, true, m);
    case InsertFails(i, stored) => FlushOutOfReach(s, i, stored, m);
    case AckNext(i) => AckOutOfReach(s, i, m);
    case TakeFetched => HeadIn(s.fetched);
    case SiftClaimed => HeadIn(s.claiming);
    case _ =>
  }

  lemma NotInRange(lo: nat, n: nat, m: MsgId)
    requires m < lo
    ensures m !in Range(lo, n)
  {
  }

  lemma HeadIn(s: seq<MsgId>)
    ensures s != [] ==> s[0] in s
  {
  }

  lemma {:induction false} StaysOutOfReach(load: Payloads, from: seq<Action>, more: seq<Action>, m: MsgId)
    requires from <= more && OutOfReach(Exec(load, from), m)
    ensures OutOfReach(Exec(load, more), m)
    decreases |more|
  {
    if more != from {
      StaysOutOfReach(load, from, more[..|more| - 1], m);
      StepOutOfReach(load, Exec(load, more[..|more| - 1]), more[|more| - 1], m);
    }
  }

  /** Some continuation of the run acknowledges the message. */
  ghost predicate CanBeAcked(load: Payloads, from: seq<Action>, m: MsgId) {
    exists more: seq<Action> :: from <= more && m in Exec(load, more).group.acked
  }

  /**
   * After a crash at any point of any run, a pending decodable message can still be acknowledged, and so get
   * its row, if and only if its fields convert and it has not been trimmed from the stream.
   */
  lemma {:induction false} RecoverableIff(load: Payloads, actions: seq<Action>, m: MsgId)
    requires load.decodable(m) && m in Exec(load, actions).group.pending
    ensures CanBeAcked(load, actions + [Crash], m)
            <==> load.convertible(m) && m >= Exec(load, actions).group.trimmed
  {
    if load.convertible(m) && m >= Exec(load, actions).group.trimmed {
      var more := PendingIsRecoverable(load, actions, m);
    } else {
      forall more: seq<Action> | actions + [Crash] <= more ensures m !in Exec(load, more).group.acked {
        LostForGood(load, actions, more, m);
      }
    }
  }

  lemma {:induction false} LostForGood(load: Payloads, actions: seq<Action>, more: seq<Action>, m: MsgId)
    requires load.decodable(m) && m in Exec(load, actions).group.pending && actions + [Crash] <= more
    requires !load.convertible(m) || m < Exec(load, actions).group.trimmed
    ensures m !in Exec(load, more).group.acked
  {
    if !load.convertible(m) {
      UnconvertibleStays(load, more, m);
    } else {
      AtLeastOnce(load, actions, m);
      ExecSnoc(load, actions, Crash);
      assert OutOfReach(Crashed(Exec(load, actions)), m);
      StaysOutOfReach(load, actions + [Crash], more, m);
    }
  }

  // ---------------------------------------------------------------- in order, and a batch that does not convert

  function TakeAll(load: Payloads, s: State): State
    decreases |s.fetched|
  {
    if s.fetched == [] then s else TakeAll(load, Take(load, s))
  }

  function SiftAll(load: Payloads, s: State): State
    decreases |s.claiming|
  {
    if s.claiming == [] then s else SiftAll(load, Sift(load, s))
  }

  lemma {:induction false} HeadDecoded(load: Payloads, g: Group, ids: seq<MsgId>)
    requires ids != []
    ensures Decoded(load.decodable, ids) == (if load.decodable(ids[0]) then [ids[0]] else []) + Decoded(load.decodable, ids[1..])
    ensures g.AckAll(Malformed(load.decodable, ids))
            == (if load.decodable(ids[0]) then g else g.Ack(ids[0])).AckAll(Malformed(load.decodable, ids[1..]))
  {
    DecodedHead(load.decodable, ids);
    MalformedHead(load.decodable, ids);
    var rest := Malformed(load.decodable, ids[1..]);
    if load.decodable(ids[0]) {
      assert [] + rest == rest;
    } else {
      AckAllHead(g, [ids[0]] + rest);
      assert ([ids[0]] + rest)[1..] == rest;
    }
  }

  /** Moving the head of `from` to the end of `to`, if it decodes. */
  lemma {:induction false} MovesInOrder(load: Payloads, to: seq<MsgId>, from: seq<MsgId>)
    requires from != []
    ensures (if load.decodable(from[0]) then to + [from[0]] else to) + Decoded(load.decodable, from[1..])
            == to + Decoded(load.decodable, from)
  {
    DecodedHead(load.decodable, from);
    Regroup(to, if load.decodable(from[0]) then [from[0]] else [], Decoded(load.decodable, from[1..]));
  }

  lemma Regroup(a: seq<MsgId>, b: seq<MsgId>, c: seq<MsgId>)
    ensures (a + b) + c == a + (b + c) && a + [] == a
  {
  }

  /** What was fetched goes to the end of the buffer in the order of the stream, but for what is malformed, which is acknowledged. */
  lemma {:induction false} TakenInOrder(load: Payloads, s: State)
    ensures var t := TakeAll(load, s);
            && t.buffer == s.buffer + Decoded(load.decodable, s.fetched)
            && t.group == s.group.AckAll(Malformed(load.decodable, s.fetched))
            && t.fetched == [] && t.claiming == s.claiming && t.claimed == s.claimed && t.flushes == s.flushes && t.rows == s.rows
    decreases |s.fetched|
  {
    if s.fetched == [] {
      assert s.buffer + [] == s.buffer;
    } else {
      MovesInOrder(load, s.buffer, s.fetched);
      HeadDecoded(load, s.group, s.fetched);
      TakenInOrder(load, Take(load, s));
    }
  }

  lemma {:induction false} SiftedInOrder(load: Payloads, s: State)
    ensures var t := SiftAll(load, s);
            && t.claimed == s.claimed + Decoded(load.decodable, s.claiming)
            && t.group == s.group.AckAll(Malformed(load.decodable, s.claiming))
            && t.claiming == [] && t.fetched == s.fetched && t.buffer == s.buffer && t.flushes == s.flushes && t.rows == s.rows
    decreases |s.claiming|
  {
    if s.claiming == [] {
      assert s.claimed + [] == s.claimed;
    } else {
      MovesInOrder(load, s.claimed, s.claiming);
      HeadDecoded(load, s.group, s.claiming);
      SiftedInOrder(load, Sift(load, s));
    }
  }

  lemma {:induction false} ExtendsInOrder(load: Payloads, c: State)
    requires c.claimed == []
    ensures var t := Extended(SiftAll(load, c));
            && t.buffer == c.buffer + Decoded(load.decodable, c.claiming)
            && t.group == c.group.AckAll(Malformed(load.decodable, c.claiming))
            && t.claiming == [] && t.claimed == []
  {
    SiftedInOrder(load, c);
    assert [] + Decoded(load.decodable, c.claiming) == Decoded(load.decodable, c.claiming);
  }

  /** So a claim that is not disturbed has the effect of the consumer's own `Reclaim`. */
  lemma {:induction false} ReclaimedInOrder(load: Payloads, s: State, ids: seq<MsgId>, gone: set<MsgId>)
    requires s.group.CanClaim(ids) && s.claiming == [] && s.claimed == []
    ensures var t := Extended(SiftAll(load, ClaimIdle(s, ids, gone)));
            && t.buffer == s.buffer + Decoded(load.decodable, ids)
            && t.group == s.group.Purge(gone).Claim(ids).AckAll(Malformed(load.decodable, ids))
            && t.claiming == [] && t.claimed == []
  {
    ExtendsInOrder(load, ClaimIdle(s, ids, gone));
  }

  lemma {:induction false} SiftAllIsARun(load: Payloads, actions: seq<Action>, s: State) returns (run: seq<Action>)
    requires Exec(load, actions) == s
    ensures actions <= run && Exec(load, run) == SiftAll(load, s)
    decreases |s.claiming|
  {
    if s.claiming == [] {
      run := actions;
    } else {
      ExecSnoc(load, actions, SiftClaimed);
      run := SiftAllIsARun(load, actions + [SiftClaimed], Sift(load, s));
    }
  }

  lemma {:induction false} TakeAllIsARun(load: Payloads, actions: seq<Action>, s: State) returns (run: seq<Action>)
    requires Exec(load, actions) == s
    ensures actions <= run && Exec(load, run) == TakeAll(load, s)
    decreases |s.fetched|
  {
    if s.fetched == [] {
      run := actions;
    } else {
      ExecSnoc(load, actions, TakeFetched);
      run := TakeAllIsARun(load, actions + [TakeFetched], Take(load, s));
    }
  }

  /**
   * One payload that does not convert: no row, no acknowledgement, and the batch is gone from memory; from the consume loop
   * all the consumer holds is gone with it, from the claim loop nothing else.
   */
  lemma {:induction false} PoisonedBatch(load: Payloads, s: State, m: MsgId, inConsumeLoop: bool)
    requires m in s.buffer && !load.convertible(m)
    ensures var t := Step(load, s, Swap(inConsumeLoop));
            && t.rows == s.rows && t.group == s.group && t.buffer == []
            && if inConsumeLoop then t.fetched == [] && t.claiming == [] && t.claimed == [] && t.flushes == []
               else t == s.(buffer := [], lost := s.lost + multiset(s.buffer))
  {
  }

  /** A flush whose insert raised is over: its rows are there or not, and nothing of it is acknowledged any more. */
  lemma {:induction false} FailedInsertEndsFlush(load: Payloads, s: State, i: nat, stored: bool)
    requires i < |s.flushes| && s.flushes[i].Inserting?
    ensures var t := Step(load, s, InsertFails(i, stored));
            && t.group == s.group && t.rows == (if stored then s.rows + multiset(s.flushes[i].ids) else s.rows)
            && Step(load, t, InsertOk(i)) == t && Step(load, t, AckNext(i)) == t
  {
  }

  /** So is one whose acknowledgement raised: the messages behind it stay pending, with their rows. */
  lemma {:induction false} RaisedAckEndsFlush(load: Payloads, s: State, i: nat)
    requires i < |s.flushes| && s.flushes[i].Acking?
    ensures var t := Step(load, s, AckRaises(i));
            t.group == s.group && t.rows == s.rows && Step(load, t, AckNext(i)) == t
  {
  }

  /** What an abandoned claim had claimed is in no hand, and can be claimed again. */
  lemma {:induction false} AbandonedClaimIsRetried(load: Payloads, s: State, ids: seq<MsgId>)
    requires s.group.CanClaim(ids)
    ensures var t := Step(load, Step(load, s, AbandonClaim), Claim(ids, {}));
            t.claiming == ids && t.claimed == [] && forall m | m in ids :: m in t.group.pending && t.group.pending[m] == s.group.pending[m] + 1
  {
    forall m | m in ids ensures m in s.group.pending {
      var j :| 0 <= j < |ids| && ids[j] == m;
    }
  }

  // ---------------------------------------------------------------- the consumer's own code

  class AnalyticsStreamConsumer {
    const bus: RedisStreamBus
    const convertible: MsgId -> bool
    const batchSize: nat
    var buffer: seq<MsgId>
    var table: multiset<MsgId>
    var batchesFlushed: nat
    var eventsFlushed: nat

    constructor (bus: RedisStreamBus, convertible: MsgId -> bool, batchSize: nat)
      ensures this.bus == bus && this.convertible == convertible && this.batchSize == batchSize
      ensures buffer == [] && table == multiset{} && batchesFlushed == 0 && eventsFlushed == 0
    {
      this.bus, this.convertible, this.batchSize := bus, convertible, batchSize;
      buffer, table, batchesFlushed, eventsFlushed := [], multiset{}, 0, 0;
    }

    function Load(): Payloads {
      Payloads(bus.decodable, convertible)
    }

    /** The append of the consume loop, under the lock. */
    method Append(m: MsgId) returns (full: bool)
      modifies this`buffer
      ensures buffer == old(buffer) + [m] && full == (|buffer| >= batchSize)
    {
      buffer := buffer + [m];
      full := |buffer| >= batchSize;
    }

    /** The reclaim of idle entries: what the claim hands over joins the buffer. */
    method Reclaim(idle: seq<MsgId>, gone: set<MsgId>, claims: bool, acks: nat) returns (full: bool)
      requires bus.group.CanClaim(idle) && bus as object != this
      modifies this`buffer, bus
      ensures var bad := Malformed(bus.decodable, idle);
              var through := claims && acks >= |bad|;
              && buffer == (if through then old(buffer) + Decoded(bus.decodable, idle) else old(buffer))
              && full == (through && Decoded(bus.decodable, idle) != [] && |buffer| >= batchSize)
              && bus.group == if !claims then old(bus.group)
                              else old(bus.group).Purge(gone).Claim(idle).AckAll(if acks < |bad| then bad[..acks] else bad)
    {
      var claimed := bus.ClaimIdle(idle, gone, claims, acks);
      if claimed == [] {
        assert buffer + claimed == buffer;
        return false;
      }
      buffer := buffer + claimed;
      full := |buffer| >= batchSize;
    }

    /** Builds the rows; the first payload that does not convert raises. */
    method Convert(batch: seq<MsgId>) returns (ok: bool)
      ensures ok <==> AllConvertible(Load(), batch)
    {
      for i := 0 to |batch|
        invariant forall m | m in batch[..i] :: convertible(m)
      {
        if !convertible(batch[i]) {
          assert batch[i] in batch;
          return false;
        }
      }
      assert batch[..|batch|] == batch;
      return true;
    }

    /**
     * The batch leaves the buffer in any case. It is inserted only if all of it converts, and acknowledged
     * only once inserted, up to an acknowledgement that raises; only a flush that gets through is counted.
     */
    method Flush(inserts: bool, acks: nat) returns (raised: bool)
      requires bus as object != this
      modifies this, bus
      ensures var batch := old(buffer);
              var stored := batch != [] && AllConvertible(Load(), batch) && inserts;
              && buffer == []
              && raised == (batch != [] && (!AllConvertible(Load(), batch) || (inserts && acks < |batch|)))
              && table == (if stored then old(table) + multiset(batch) else old(table))
              && bus.group == (if stored then old(bus.group).AckAll(if acks < |batch| then batch[..acks] else batch) else old(bus.group))
              && batchesFlushed == old(batchesFlushed) + (if stored && !raised then 1 else 0)
              && eventsFlushed == old(eventsFlushed) + (if stored && !raised then |batch| else 0)
    {
      if buffer == [] {
        return false;
      }
      var batch := buffer;
      buffer := [];
      var converts := Convert(batch);
      if !converts {
        return true;
      }
      if !inserts {
        return false;
      }
      table := table + multiset(batch);
      raised := AckBatch(batch, acks);
      if !raised {
        batchesFlushed := batchesFlushed + 1;
        eventsFlushed := eventsFlushed + |batch|;
      }
    }

    method AckBatch(batch: seq<MsgId>, acks: nat) returns (raised: bool)
      requires bus as object != this
      modifies bus
      ensures raised == (acks < |batch|)
      ensures bus.group == old(bus.group).AckAll(if acks < |batch| then batch[..acks] else batch)
    {
      for i := 0 to |batch|
        invariant i <= acks && bus.group == old(bus.group).AckAll(batch[..i])
      {
        if i == acks {
          return true;
        }
        assert batch[..i + 1][..i] == batch[..i];
        bus.Ack(batch[i]);
      }
      assert batch[..|batch|] == batch;
      return false;
    }
  }

  lemma {:induction false} SwapAndInsert(load: Payloads, actions: seq<Action>)
    requires Exec(load, actions).buffer != [] && AllConvertible(load, Exec(load, actions).buffer)
    ensures var s, at := Exec(load, actions), |Exec(load, actions).flushes|;
            var t := Exec(load, actions + [Swap(false)] + [InsertOk(at)]);
            && t.buffer == [] && t.rows == s.rows + multiset(s.buffer) && t.group == s.group
            && t.flushes == s.flushes + [Acking(s.buffer, 0)]
  {
    var s, at := Exec(load, actions), |Exec(load, actions).flushes|;
    ThenTwo(load, actions, s, Swap(false), InsertOk(at), Step(load, Step(load, s, Swap(false)), InsertOk(at)));
  }

  function AckRun(at: nat, k: nat): seq<Action> {
    seq(k, _ => AckNext(at))
  }

  lemma {:induction false} AckOne(s: State, at: nat, k: nat, t: State)
    requires at < |s.flushes| && s.flushes[at].Acking? && s.flushes[at].done == 0 && k < |s.flushes[at].ids|
    requires t == WithFlush(s, at, Acking(s.flushes[at].ids, k)).(group := s.group.AckAll(s.flushes[at].ids[..k]))
    ensures Acked(t, at)
            == WithFlush(s, at, Acking(s.flushes[at].ids, k + 1)).(group := s.group.AckAll(s.flushes[at].ids[..k + 1]))
  {
    var ids := s.flushes[at].ids;
    assert ids[..k + 1][..k] == ids[..k];
  }

  lemma {:induction false} AckFollows(load: Payloads, actions: seq<Action>, at: nat, k: nat, t: State)
    requires k > 0 && Exec(load, actions + AckRun(at, k - 1)) == t
    ensures Exec(load, actions + AckRun(at, k)) == Acked(t, at)
  {
    assert actions + AckRun(at, k) == (actions + AckRun(at, k - 1)) + [AckNext(at)];
    ExecSnoc(load, actions + AckRun(at, k - 1), AckNext(at));
  }

  lemma {:induction false} AcksInOrder(load: Payloads, actions: seq<Action>, s: State, at: nat, k: nat)
    requires s == Exec(load, actions)
    requires at < |s.flushes| && s.flushes[at].Acking? && s.flushes[at].done == 0 && k <= |s.flushes[at].ids|
    ensures Exec(load, actions + AckRun(at, k))
            == WithFlush(s, at, Acking(s.flushes[at].ids, k)).(group := s.group.AckAll(s.flushes[at].ids[..k]))
  {
    if k == 0 {
      assert actions + AckRun(at, 0) == actions;
    } else {
      AcksInOrder(load, actions, s, at, k - 1);
      AckFollows(load, actions, at, k, Exec(load, actions + AckRun(at, k - 1)));
      AckOne(s, at, k - 1, Exec(load, actions + AckRun(at, k - 1)));
    }
  }

  /** A flush that nothing interrupts is a run of the protocol: swap, insert, then one acknowledgement per message. */
  lemma {:induction false} FlushIsARun(load: Payloads, actions: seq<Action>) returns (run: seq<Action>)
    requires Exec(load, actions).buffer != [] && AllConvertible(load, Exec(load, actions).buffer)
    ensures actions <= run
    ensures var s, t := Exec(load, actions), Exec(load, run);
            t.buffer == [] && t.rows == s.rows + multiset(s.buffer) && t.group == s.group.AckAll(s.buffer)
  {
    var s, at := Exec(load, actions), |Exec(load, actions).flushes|;
    SwapAndInsert(load, actions);
    var started := actions + [Swap(false)] + [InsertOk(at)];
    AcksInOrder(load, started, Exec(load, started), at, |s.buffer|);
    run := started + AckRun(at, |s.buffer|);
    assert s.buffer[..|s.buffer|] == s.buffer;
  }
}
