/**
 * services/ingestion-service/src/stream_worker.py: per-tenant queues in a Python dict, which keeps its
 * keys in insertion order, and the round-robin dispatch over them.
 */
module TenantDispatch {

  datatype Msg = Msg(id: nat, tenant: string)

  /** The dict: its keys in insertion order and its values; `started` lists the tasks created so far. */
  datatype Queues = Queues(order: seq<string>, queues: map<string, seq<Msg>>, started: seq<Msg>) {
    ghost predicate Valid() {
      && (forall i, j | 0 <= i < j < |order| :: order[i] != order[j])
      && (forall t :: t in order <==> t in queues)
      && (forall t | t in queues :: queues[t] != [] && forall i | 0 <= i < |queues[t]| :: queues[t][i].tenant == t)
    }

    function Queue(t: string): seq<Msg> {
      if t in queues then queues[t] else []
    }

    function Arrive(m: Msg): Queues {
      this.(order := if m.tenant in queues then order else order + [m.tenant],
            queues := queues[m.tenant := Queue(m.tenant) + [m]])
    }

    /** Start the head of one tenant's queue; an emptied queue leaves the dict. */
    function Pop(t: string): Queues {
      if Queue(t) == [] then this
      else if |Queue(t)| == 1 then
        Queues(Without(order, t), queues - {t}, started + [Queue(t)[0]])
      else this.(queues := queues[t := Queue(t)[1..]], started := started + [Queue(t)[0]])
    }

    /** One call of `_dispatch_queued`: over a snapshot of the keys. */
    function Dispatch(): Queues {
      PopAll(this, order, 0)
    }
  }

  function Without(order: seq<string>, t: string): seq<string> {
    if order == [] then [] else (if order[0] == t then [] else [order[0]]) + Without(order[1..], t)
  }

  function PopAll(q: Queues, keys: seq<string>, from: nat): Queues
    requires from <= |keys|
    decreases |keys| - from
  {
    if from == |keys| then q else PopAll(q.Pop(keys[from]), keys, from + 1)
  }

  function Of(msgs: seq<Msg>, t: string): seq<Msg> {
    if msgs == [] then [] else Of(msgs[..|msgs| - 1], t) + if msgs[|msgs| - 1].tenant == t then [msgs[|msgs| - 1]] else []
  }

  lemma {:induction false} OfSnoc(msgs: seq<Msg>, m: Msg, t: string)
    ensures Of(msgs + [m], t) == Of(msgs, t) + if m.tenant == t then [m] else []
  {
    assert (msgs + [m])[..|msgs|] == msgs;
  }

  lemma {:induction false} WithoutFacts(order: seq<string>, t: string)
    requires forall i, j | 0 <= i < j < |order| :: order[i] != order[j]
    ensures var rest := Without(order, t);
            && (forall i, j | 0 <= i < j < |rest| :: rest[i] != rest[j])
            && (forall x :: x in rest <==> x in order && x != t)
  {
    if order != [] {
      WithoutFacts(order[1..], t);
      assert forall x :: x in order <==> x == order[0] || x in order[1..];
      assert order[0] !in order[1..];
    }
  }

  lemma {:induction false} ArriveKeeps(q: Queues, m: Msg)
    requires q.Valid()
    ensures q.Arrive(m).Valid()
  {
  }

  lemma {:induction false} PopKeeps(q: Queues, t: string)
    requires q.Valid()
    ensures q.Pop(t).Valid()
  {
    WithoutFacts(q.order, t);
  }

  /** A pop moves the tenant's head from its queue to the started tasks and touches no other tenant. */
  lemma {:induction false} PopMovesHead(q: Queues, t: string, u: string)
    requires q.Valid()
    ensures HeadMoved(q, q.Pop(t), u, t == u)
  {
    if q.Queue(t) != [] {
      OfSnoc(q.started, q.Queue(t)[0], u);
    }
  }

  predicate Among(keys: seq<string>, from: nat, u: string)
    decreases |keys| - from
  {
    from < |keys| && (keys[from] == u || Among(keys, from + 1, u))
  }

  lemma {:induction false} AmongIsIn(keys: seq<string>, from: nat, u: string)
    requires from <= |keys|
    ensures Among(keys, from, u) <==> exists i :: from <= i < |keys| && keys[i] == u
    decreases |keys| - from
  {
    if from < |keys| {
      AmongIsIn(keys, from + 1, u);
    }
  }

  /** The tenant's head has moved from its queue to the started tasks, if there was one to move. */
  predicate HeadMoved(q: Queues, p: Queues, u: string, served: bool) {
    if served && q.Queue(u) != []
    then p.Queue(u) == q.Queue(u)[1..] && Of(p.started, u) == Of(q.started, u) + [q.Queue(u)[0]]
    else p.Queue(u) == q.Queue(u) && Of(p.started, u) == Of(q.started, u)
  }

  lemma {:induction false} PopAllMovesHeads(q: Queues, keys: seq<string>, from: nat, u: string)
    requires q.Valid() && from <= |keys|
    requires forall i, j | 0 <= i < j < |keys| :: keys[i] != keys[j]
    ensures PopAll(q, keys, from).Valid()
    ensures HeadMoved(q, PopAll(q, keys, from), u, Among(keys, from, u))
    decreases |keys| - from
  {
    if from < |keys| {
      PopKeeps(q, keys[from]);
      PopMovesHead(q, keys[from], u);
      PopAllMovesHeads(q.Pop(keys[from]), keys, from + 1, u);
      AmongIsIn(keys, from + 1, u);
    }
  }

  /** One call starts exactly the head of every tenant's queue and leaves no empty queue. */
  lemma {:induction false} DispatchStartsEveryHead(q: Queues, t: string)
    requires q.Valid()
    ensures var p := q.Dispatch();
            && p.Valid()
            && p.Queue(t) == (if q.Queue(t) == [] then [] else q.Queue(t)[1..])
            && Of(p.started, t) == Of(q.started, t) + if q.Queue(t) == [] then [] else [q.Queue(t)[0]]
  {
    PopAllMovesHeads(q, q.order, 0, t);
    AmongIsIn(q.order, 0, t);
  }

  /** From key `from` on, the heads of these tenants' queues in the order of the keys. */
  predicate HeadsOf(q: Queues, keys: seq<string>, from: nat, heads: seq<Msg>) {
    |heads| == |keys| && forall k | from <= k < |keys| :: q.Queue(keys[k]) != [] && heads[k] == q.Queue(keys[k])[0]
  }

  lemma {:induction false} PopSparesOthers(q: Queues, t: string, keys: seq<string>, from: nat, heads: seq<Msg>)
    requires HeadsOf(q, keys, from, heads) && forall k | from <= k < |keys| :: keys[k] != t
    ensures HeadsOf(q.Pop(t), keys, from, heads)
  {
    forall k | from <= k < |keys| ensures q.Pop(t).Queue(keys[k]) == q.Queue(keys[k]) {
    }
  }

  lemma {:induction false} PopAllInOrder(q: Queues, keys: seq<string>, from: nat, heads: seq<Msg>)
    requires from <= |keys| && HeadsOf(q, keys, from, heads)
    requires forall i, j | 0 <= i < j < |keys| :: keys[i] != keys[j]
    ensures PopAll(q, keys, from).started == q.started + heads[from..]
    decreases |keys| - from
  {
    if from < |keys| {
      PopSparesOthers(q, keys[from], keys, from + 1, heads);
      PopAllInOrder(q.Pop(keys[from]), keys, from + 1, heads);
      assert q.Pop(keys[from]).started == q.started + [heads[from]];
      assert (q.started + [heads[from]]) + heads[from + 1..] == q.started + heads[from..];
    }
  }

  /** One call goes round the tenants in the order in which their queues were opened. */
  lemma {:induction false} DispatchGoesRound(q: Queues, heads: seq<Msg>)
    requires q.Valid() && |heads| == |q.order|
    requires forall k | 0 <= k < |heads| :: q.Queue(q.order[k]) != [] && heads[k] == q.Queue(q.order[k])[0]
    ensures q.Dispatch().started == q.started + heads
  {
    PopAllInOrder(q, q.order, 0, heads);
    assert heads[0..] == heads;
  }

  /** A queue that is opened goes last; those that are not emptied keep their places. */
  lemma {:induction false} OrderIsOfOpening(q: Queues, m: Msg, t: string)
    requires q.Valid()
    ensures q.Queue(m.tenant) == [] ==> q.Arrive(m).order == q.order + [m.tenant]
    ensures q.Queue(m.tenant) != [] ==> q.Arrive(m).order == q.order
    ensures |q.Queue(t)| != 1 ==> q.Pop(t).order == q.order
    ensures forall a, b | |q.Queue(t)| == 1 && q.order == a + [t] + b :: q.Pop(t).order == a + b
  {
    forall a, b | |q.Queue(t)| == 1 && q.order == a + [t] + b ensures q.Pop(t).order == a + b {
      WithoutSplit(a, t, b, q.order);
    }
  }

  lemma {:induction false} WithoutSplit(a: seq<string>, t: string, b: seq<string>, order: seq<string>)
    requires order == a + [t] + b && forall i, j | 0 <= i < j < |order| :: order[i] != order[j]
    ensures Without(order, t) == a + b
  {
    if a == [] {
      assert order[1..] == b;
      WithoutNone(b, t);
    } else {
      assert order[0] == a[0] && order[|a|] == t && order[0] != order[|a|];
      assert order[1..] == a[1..] + [t] + b;
      WithoutSplit(a[1..], t, b, order[1..]);
      assert a == [a[0]] + a[1..];
    }
  }

  lemma {:induction false} WithoutNone(order: seq<string>, t: string)
    requires t !in order
    ensures Without(order, t) == order
  {
    if order != [] {
      WithoutNone(order[1..], t);
    }
  }

  /** So it starts all that is queued iff no tenant had more than one message waiting. */
  lemma {:induction false} DispatchDrainsIffSingles(q: Queues)
    requires q.Valid()
    ensures q.Dispatch().queues == map[] <==> forall t | t in q.queues :: |q.queues[t]| == 1
  {
    var p := q.Dispatch();
    forall t ensures t in p.queues <==> |q.Queue(t)| > 1 {
      DispatchStartsEveryHead(q, t);
    }
    if forall t | t in q.queues :: |q.queues[t]| == 1 {
      assert forall t :: t !in p.queues;
    } else {
      var t :| t in q.queues && |q.queues[t]| != 1;
      assert t in p.queues;
    }
  }

  // ---------------------------------------------------------------- runs

  datatype Op = Arrival(m: Msg) | Call

  function Apply(q: Queues, op: Op): Queues {
    match op
    case Arrival(m) => q.Arrive(m)
    case Call => q.Dispatch()
  }

  function Run(q: Queues, ops: seq<Op>): Queues {
    if ops == [] then q else Apply(Run(q, ops[..|ops| - 1]), ops[|ops| - 1])
  }

  function Arrivals(ops: seq<Op>): seq<Msg> {
    if ops == [] then []
    else Arrivals(ops[..|ops| - 1]) + if ops[|ops| - 1].Arrival? then [ops[|ops| - 1].m] else []
  }

  function Calls(ops: seq<Op>): nat {
    if ops == [] then 0 else Calls(ops[..|ops| - 1]) + if ops[|ops| - 1].Call? then 1 else 0
  }

  /** What one operation adds to a tenant's messages. */
  function Added(op: Op, t: string): seq<Msg> {
    if op.Arrival? && op.m.tenant == t then [op.m] else []
  }

  lemma {:induction false} ArriveAdds(q: Queues, m: Msg, t: string)
    requires q.Valid()
    ensures q.Arrive(m).Queue(t) == q.Queue(t) + Added(Arrival(m), t) && q.Arrive(m).started == q.started
  {
  }

  /** What a call takes off the queue it puts behind the started tasks. */
  lemma {:induction false} HeadAcross(started: seq<Msg>, queue: seq<Msg>)
    requires queue != []
    ensures (started + [queue[0]]) + queue[1..] == started + queue
  {
  }

  lemma {:induction false} DispatchMoves(q: Queues, t: string)
    requires q.Valid()
    ensures q.Dispatch().Valid()
    ensures Of(q.Dispatch().started, t) + q.Dispatch().Queue(t) == Of(q.started, t) + q.Queue(t)
  {
    DispatchStartsEveryHead(q, t);
    if q.Queue(t) != [] {
      HeadAcross(Of(q.started, t), q.Queue(t));
    } else {
      assert Of(q.started, t) + [] == Of(q.started, t);
    }
  }

  lemma {:induction false} ApplyKeeps(q: Queues, op: Op, t: string)
    requires q.Valid()
    ensures var p := Apply(q, op);
            && p.Valid()
            && Of(p.started, t) + p.Queue(t)
               == (Of(q.started, t) + q.Queue(t)) + Added(op, t)
  {
    match op {
      case Arrival(m) =>
        ArriveKeeps(q, m);
        ArriveAdds(q, m, t);
        Assoc(Of(q.started, t), q.Queue(t), Added(op, t));
      case Call =>
        DispatchMoves(q, t);
        assert (Of(q.started, t) + q.Queue(t)) + [] == Of(q.started, t) + q.Queue(t);
    }
  }

  lemma {:induction false} ArrivalsSnoc(ops: seq<Op>, t: string)
    requires ops != []
    ensures Of(Arrivals(ops), t) == Of(Arrivals(ops[..|ops| - 1]), t) + Added(ops[|ops| - 1], t)
  {
    var before, op := ops[..|ops| - 1], ops[|ops| - 1];
    if op.Arrival? {
      OfSnoc(Arrivals(before), op.m, t);
    } else {
      assert Arrivals(before) + [] == Arrivals(before);
    }
  }

  lemma Assoc(a: seq<Msg>, b: seq<Msg>, c: seq<Msg>)
    ensures (a + b) + c == a + (b + c)
  {
  }

  /** Over any mix of arrivals and calls each tenant's messages are started in arrival order, the rest being queued. */
  lemma {:induction false} TenantOrderKept(q: Queues, ops: seq<Op>, t: string)
    requires q.Valid()
    ensures var p := Run(q, ops);
            p.Valid() && Of(p.started, t) + p.Queue(t) == (Of(q.started, t) + q.Queue(t)) + Of(Arrivals(ops), t)
  {
    if ops == [] {
      assert (Of(q.started, t) + q.Queue(t)) + [] == Of(q.started, t) + q.Queue(t);
    } else {
      var before, op := ops[..|ops| - 1], ops[|ops| - 1];
      TenantOrderKept(q, before, t);
      ApplyKeeps(Run(q, before), op, t);
      ArrivalsSnoc(ops, t);
      Assoc(Of(q.started, t) + q.Queue(t), Of(Arrivals(before), t), Added(op, t));
    }
  }

  /** How many of the calls found a message of the tenant queued. */
  function Served(q: Queues, ops: seq<Op>, t: string): nat {
    if ops == [] then 0
    else
      var before := ops[..|ops| - 1];
      Served(q, before, t) + if ops[|ops| - 1].Call? && Run(q, before).Queue(t) != [] then 1 else 0
  }

  /** Exactly one of the tenant's messages is started by every call that finds one queued, and by no other step. */
  lemma {:induction false} CallsServe(q: Queues, ops: seq<Op>, t: string)
    requires q.Valid()
    ensures |Of(Run(q, ops).started, t)| == |Of(q.started, t)| + Served(q, ops, t)
  {
    if ops != [] {
      var before, op := ops[..|ops| - 1], ops[|ops| - 1];
      CallsServe(q, before, t);
      TenantOrderKept(q, before, t);
      if op.Call? {
        DispatchStartsEveryHead(Run(q, before), t);
      }
    }
  }

  /** As long as a message of those queued at the start is waiting, no call goes by without serving its tenant. */
  lemma {:induction false} ServedInTime(q: Queues, ops: seq<Op>, t: string)
    requires q.Valid()
    ensures Served(q, ops, t) >= if Calls(ops) < |q.Queue(t)| then Calls(ops) else |q.Queue(t)|
  {
    if ops != [] {
      var before := ops[..|ops| - 1];
      ServedInTime(q, before, t);
      CallsServe(q, before, t);
      TenantOrderKept(q, before, t);
    }
  }

  lemma {:induction false} InFront(started: seq<Msg>, queue: seq<Msg>, first: seq<Msg>, waiting: seq<Msg>, later: seq<Msg>, k: nat)
    requires started + queue == (first + waiting) + later && k < |waiting| && |first| + k < |started|
    ensures started[|first| + k] == waiting[k]
  {
    assert (started + queue)[|first| + k] == started[|first| + k];
    assert ((first + waiting) + later)[|first| + k] == waiting[k];
  }

  lemma {:induction false} StartedEnough(q: Queues, ops: seq<Op>, t: string, k: nat)
    requires q.Valid() && k < |q.Queue(t)| && Calls(ops) > k
    ensures |Of(q.started, t)| + k < |Of(Run(q, ops).started, t)|
  {
    CallsServe(q, ops, t);
    ServedInTime(q, ops, t);
  }

  /** The message in position `k` of its tenant's queue is started within `k + 1` calls, whatever other tenants queue. */
  lemma {:induction false} NoStarvation(q: Queues, ops: seq<Op>, t: string, k: nat)
    requires q.Valid() && k < |q.Queue(t)| && Calls(ops) > k
    ensures var done := Of(Run(q, ops).started, t);
            |Of(q.started, t)| + k < |done| && done[|Of(q.started, t)| + k] == q.Queue(t)[k]
  {
    var done, rest, first, waiting, later := Of(Run(q, ops).started, t), Run(q, ops).Queue(t), Of(q.started, t), q.Queue(t), Of(Arrivals(ops), t);
    StartedEnough(q, ops, t, k);
    assert done + rest == (first + waiting) + later by { TenantOrderKept(q, ops, t); }
    InFront(done, rest, first, waiting, later, k);
  }

  // ---------------------------------------------------------------- the worker's own code

  class TenantDispatcher {
    var order: seq<string>
    var queues: map<string, seq<Msg>>
    var started: seq<Msg>

    constructor ()
      ensures Value() == Queues([], map[], [])
    {
      order, queues, started := [], map[], [];
    }

    function Value(): Queues
      reads this
    {
      Queues(order, queues, started)
    }

    method Arrive(m: Msg)
      modifies this
      ensures Value() == old(Value()).Arrive(m)
    {
      if m.tenant !in queues {
        order := order + [m.tenant];
        queues := queues[m.tenant := []];
      }
      queues := queues[m.tenant := queues[m.tenant] + [m]];
    }

    method DispatchQueued()
      modifies this
      ensures Value() == old(Value()).Dispatch()
    {
      var keys := order;
      for i := 0 to |keys|
        invariant PopAll(Value(), keys, i) == old(Value()).Dispatch()
      {
        PopOne(keys[i]);
      }
    }

    method PopOne(t: string)
      modifies this
      ensures Value() == old(Value()).Pop(t)
    {
      if t in queues && queues[t] != [] {
        var head, rest := queues[t][0], queues[t][1..];
        queues := queues[t := rest];
        if rest == [] {
          queues := queues - {t};
          order := Without(order, t);
        }
        started := started + [head];
      }
    }

    /** The reclaim loop: every claimed message joins its tenant's queue, then one dispatch. */
    method Reclaim(claimed: seq<Msg>)
      requires Value().Valid()
      modifies this
      ensures Value() == if claimed == [] then old(Value()) else Run(old(Value()), seq(|claimed|, i requires 0 <= i < |claimed| => Arrival(claimed[i]))).Dispatch()
    {
      ghost var ops := seq(|claimed|, i requires 0 <= i < |claimed| => Arrival(claimed[i]));
      for i := 0 to |claimed|
        invariant Value() == Run(old(Value()), ops[..i])
      {
        assert ops[..i + 1][..i] == ops[..i];
        Arrive(claimed[i]);
      }
      assert ops[..|claimed|] == ops;
      if claimed != [] {
        DispatchQueued();
      }
    }
  }
}
