/**
 * lib/docintel-common/docintel_common/messaging.py: a Redis stream read through one consumer group.
 * Messages are numbered in log order; Redis itself is the transition rules of `Group`.
 */
module StreamBus {

  type MsgId = nat

  /**
   * `pending` maps a delivered, unacknowledged message to the number of its deliveries; the messages below
   * `trimmed` are no longer in the stream.
   */
  datatype Group = Group(published: nat, next: nat, trimmed: nat, pending: map<MsgId, nat>, acked: set<MsgId>) {
    /** XADD */
    function Publish(): Group {
      this.(published := published + 1)
    }

    /** The trimming that comes with XADD MAXLEN: what had not been delivered never is. */
    function Trim(upTo: nat): Group {
      if trimmed < upTo <= published then this.(trimmed := upTo, next := if next < upTo then upTo else next) else this
    }

    predicate CanDeliver(n: nat) {
      next + n <= published
    }

    /** XREADGROUP with ">": the next `n` undelivered messages. */
    function Deliver(n: nat): Group {
      this.(next := next + n, pending := pending + map m: MsgId | next <= m < next + n :: First(m))
    }

    static function First(m: MsgId): nat {
      1
    }

    predicate CanClaim(ids: seq<MsgId>) {
      && (forall i | 0 <= i < |ids| :: ids[i] in pending && ids[i] >= trimmed)
      && forall i, j | 0 <= i < j < |ids| :: ids[i] != ids[j]
    }

    /** XAUTOCLAIM drops the idle pending entries whose message has been trimmed. */
    function Purge(gone: set<MsgId>): Group {
      this.(pending := pending - set m | m in gone && m < trimmed)
    }

    /** XAUTOCLAIM of some idle pending messages. */
    function Claim(ids: seq<MsgId>): Group {
      this.(pending := map m | m in pending :: if m in ids then pending[m] + 1 else pending[m])
    }

    /** XACK: a message that is not pending is left alone. */
    function Ack(m: MsgId): Group {
      if m in pending then this.(pending := pending - {m}, acked := acked + {m}) else this
    }

    function AckAll(ids: seq<MsgId>): Group
      decreases |ids|
    {
      if ids == [] then this else AckAll(ids[..|ids| - 1]).Ack(ids[|ids| - 1])
    }

    /** `delivery_count`: from XPENDING, 1 for a message that is no longer pending. */
    function DeliveryCount(m: MsgId): nat {
      if m in pending then pending[m] else 1
    }
  }

  /** The messages of `ids` a JSON decoder accepts, in order. */
  function Decoded(decodable: MsgId -> bool, ids: seq<MsgId>): seq<MsgId> {
    if ids == [] then []
    else Decoded(decodable, ids[..|ids| - 1]) + if decodable(ids[|ids| - 1]) then [ids[|ids| - 1]] else []
  }

  function Malformed(decodable: MsgId -> bool, ids: seq<MsgId>): seq<MsgId> {
    Decoded((m: MsgId) => !decodable(m), ids)
  }

  /** Of several runs of entries the decodable ones are those of each, in order; of one it is that one or none. */
  lemma {:induction false} DecodedAppend(decodable: MsgId -> bool, a: seq<MsgId>, b: seq<MsgId>)
    ensures Decoded(decodable, a + b) == Decoded(decodable, a) + Decoded(decodable, b)
    ensures |b| == 1 ==> Decoded(decodable, b) == if decodable(b[0]) then b else []
  {
    if b == [] {
      assert a + b == a;
    } else {
      var init := b[..|b| - 1];
      assert (a + b)[..|a + b| - 1] == a + init;
      DecodedAppend(decodable, a, init);
    }
  }

  class RedisStreamBus {
    var group: Group
    const decodable: MsgId -> bool

    constructor (group: Group, decodable: MsgId -> bool)
      ensures this.group == group && this.decodable == decodable
    {
      this.group := group;
      this.decodable := decodable;
    }

    method Ack(m: MsgId)
      modifies this
      ensures group == old(group).Ack(m)
    {
      group := group.Ack(m);
    }

    method DeliveryCount(m: MsgId) returns (n: nat)
      ensures n == group.DeliveryCount(m)
    {
      n := if m in group.pending then group.pending[m] else 1;
    }

    /**
     * Drop what was trimmed, claim the other idle entries, hand the decodable ones to the caller and
     * acknowledge the malformed ones. If the claim raises, or an acknowledgement after `acks` that went
     * through, the caller gets nothing.
     */
    method ClaimIdle(idle: seq<MsgId>, gone: set<MsgId>, claims: bool, acks: nat) returns (claimed: seq<MsgId>)
      requires group.CanClaim(idle)
      modifies this
      ensures !claims ==> claimed == [] && group == old(group)
      ensures var bad := Malformed(decodable, idle);
              claims ==>
                && claimed == (if acks < |bad| then [] else Decoded(decodable, idle))
                && group == old(group).Purge(gone).Claim(idle).AckAll(if acks < |bad| then bad[..acks] else bad)
    {
      claimed := [];
      if !claims {
        return;
      }
      group := group.Purge(gone).Claim(idle);
      ghost var claimedGroup := group;
      var raised, done := false, 0;
      for i := 0 to |idle|
        invariant claimed == Decoded(decodable, idle[..i]) && !raised
        invariant done == |Malformed(decodable, idle[..i])| <= acks
        invariant group == claimedGroup.AckAll(Malformed(decodable, idle[..i]))
      {
        var m := idle[i];
        assert idle[..i + 1][..i] == idle[..i];
        if decodable(m) {
          claimed := claimed + [m];
          assert Malformed(decodable, idle[..i + 1]) == Malformed(decodable, idle[..i]);
        } else {
          MalformedNext(decodable, idle, i);
          if done == acks {
            return [];
          }
          ghost var skipped := Malformed(decodable, idle[..i]);
          assert (skipped + [m])[..|skipped|] == skipped;
          Ack(m);
          done := done + 1;
        }
      }
      assert idle[..|idle|] == idle;
    }
  }

  /** The malformed entries of a prefix come first among all. */
  lemma {:induction false} MalformedPrefix(decodable: MsgId -> bool, ids: seq<MsgId>, i: nat)
    requires i <= |ids|
    ensures Malformed(decodable, ids[..i]) <= Malformed(decodable, ids)
    decreases |ids|
  {
    if i == |ids| {
      assert ids[..i] == ids;
    } else {
      var init := ids[..|ids| - 1];
      assert init[..i] == ids[..i];
      MalformedPrefix(decodable, init, i);
    }
  }

  lemma {:induction false} MalformedNext(decodable: MsgId -> bool, ids: seq<MsgId>, i: nat)
    requires i < |ids| && !decodable(ids[i])
    ensures var skipped, bad := Malformed(decodable, ids[..i]), Malformed(decodable, ids);
            && Malformed(decodable, ids[..i + 1]) == skipped + [ids[i]]
            && |skipped| < |bad| && bad[..|skipped|] == skipped
  {
    var skipped := Malformed(decodable, ids[..i]);
    assert ids[..i + 1][..i] == ids[..i];
    MalformedPrefix(decodable, ids, i + 1);
    assert (skipped + [ids[i]])[..|skipped|] == skipped;
  }

  /** Acknowledging takes exactly those messages off the pending list, and marks those that were on it. */
  lemma {:induction false} AckAllSettles(g: Group, ids: seq<MsgId>, m: MsgId)
    ensures var h := g.AckAll(ids);
            && (m in h.pending <==> m in g.pending && m !in ids)
            && (m in h.pending ==> h.pending[m] == g.pending[m])
            && (m in h.acked <==> m in g.acked || (m in g.pending && m in ids))
            && h.published == g.published && h.next == g.next && h.trimmed == g.trimmed
    decreases |ids|
  {
    if ids != [] {
      AckAllSettles(g, ids[..|ids| - 1], m);
      AckAllSettles(g, ids[..|ids| - 1], ids[|ids| - 1]);
      assert ids == ids[..|ids| - 1] + [ids[|ids| - 1]];
    }
  }

  lemma {:induction false} AckAllHead(g: Group, ids: seq<MsgId>)
    requires ids != []
    ensures g.AckAll(ids) == g.Ack(ids[0]).AckAll(ids[1..])
    decreases |ids|
  {
    if |ids| == 1 {
      assert ids[..0] == [] && ids[1..] == [];
    } else {
      var init := ids[..|ids| - 1];
      AckAllHead(g, init);
      assert init[1..] == ids[1..][..|ids[1..]| - 1];
    }
  }

  lemma {:induction false} DecodedHead(decodable: MsgId -> bool, ids: seq<MsgId>)
    requires ids != []
    ensures Decoded(decodable, ids) == (if decodable(ids[0]) then [ids[0]] else []) + Decoded(decodable, ids[1..])
  {
    assert [ids[0]] + ids[1..] == ids;
    DecodedAppend(decodable, [ids[0]], ids[1..]);
    DecodedAppend(decodable, [], [ids[0]]);
  }

  lemma {:induction false} MalformedHead(decodable: MsgId -> bool, ids: seq<MsgId>)
    requires ids != []
    ensures Malformed(decodable, ids) == (if decodable(ids[0]) then [] else [ids[0]]) + Malformed(decodable, ids[1..])
    decreases |ids|
  {
    if |ids| == 1 {
      assert ids[..0] == [] && ids[1..] == [];
    } else {
      var init := ids[..|ids| - 1];
      MalformedHead(decodable, init);
      assert init[1..] == ids[1..][..|ids[1..]| - 1];
    }
  }

  /** The idle entries found trimmed are pending no more; every other one is as it was. */
  lemma {:induction false} PurgeDropsTrimmed(g: Group, gone: set<MsgId>, m: MsgId)
    ensures var h := g.Purge(gone);
            if m in gone && m < g.trimmed then m !in h.pending
            else (m in h.pending <==> m in g.pending) && (m in g.pending ==> h.pending[m] == g.pending[m])
    ensures g.Purge(gone).acked == g.acked
  {
  }

  /** While a message is pending its count goes up by one with every claim, and with the acknowledgement it is 1 again. */
  lemma {:induction false} CountFollowsClaims(g: Group, ids: seq<MsgId>, m: MsgId)
    requires g.CanClaim(ids) && m in g.pending
    ensures g.Claim(ids).DeliveryCount(m) == g.DeliveryCount(m) + Copies(ids, m)
    ensures g.Claim(ids).Ack(m).DeliveryCount(m) == 1
  {
    DistinctCounts(ids, m);
  }

  // ---------------------------------------------------------------- counting copies

  /** The `n` messages from `lo` on. */
  function Range(lo: nat, n: nat): seq<MsgId> {
    seq(n, i requires 0 <= i < n => lo + i)
  }

  function Copies(s: seq<MsgId>, m: MsgId): nat {
    multiset(s)[m]
  }

  function One(x: MsgId, m: MsgId): nat {
    if x == m then 1 else 0
  }

  lemma {:induction false} CopiesSnoc(s: seq<MsgId>, x: MsgId, m: MsgId)
    ensures Copies(s + [x], m) == Copies(s, m) + One(x, m)
  {
  }

  lemma {:induction false} CopiesHead(s: seq<MsgId>, m: MsgId)
    requires s != []
    ensures Copies(s, m) == One(s[0], m) + Copies(s[1..], m)
  {
    assert s == [s[0]] + s[1..];
  }

  lemma {:induction false} RangeCounts(lo: nat, n: nat, m: MsgId)
    ensures Copies(Range(lo, n), m) == if lo <= m < lo + n then 1 else 0
  {
    if n > 0 {
      RangeCounts(lo, n - 1, m);
      CopiesSnoc(Range(lo, n - 1), lo + n - 1, m);
      assert Range(lo, n) == Range(lo, n - 1) + [lo + n - 1];
    }
  }

  lemma {:induction false} DistinctCounts(ids: seq<MsgId>, m: MsgId)
    requires forall i, j | 0 <= i < j < |ids| :: ids[i] != ids[j]
    ensures Copies(ids, m) == if m in ids then 1 else 0
  {
    if ids != [] {
      var init, last := ids[..|ids| - 1], ids[|ids| - 1];
      DistinctCounts(init, m);
      CopiesSnoc(init, last, m);
      assert init + [last] == ids;
    }
  }
}
