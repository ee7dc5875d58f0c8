/**
 * services/data-loader/src/job_registry.py: progress events of a job, replayed to any number of subscribers
 * that may be suspended between any two lines they yield, while other tasks push.
 */
module JobRegistry {
  import opened Wrappers

  datatype Event =
    | Total(total: nat)
    | Progress(processed: nat, total: nat, filename: string, domain: string, deduplicated: bool)
    | Done(processed: nat, registered: nat, skipped: nat)
    | Error(reason: string)

  const MAX_EVENTS_KEPT: nat := 2000

  datatype Line = Sse(event: Event) | Keepalive

  /** Where a subscriber's loop stands: about to snapshot, yielding what it read, waiting, or out of the loop. */
  datatype Phase = Reading | Yielding(left: seq<Event>) | Waiting | Ended | Gone

  /** `flag` is the subscriber's wake-up; `snapshots` counts how often it has read the events. */
  datatype Subscriber = Subscriber(pos: nat, phase: Phase, flag: bool, output: seq<Line>, snapshots: nat)

  datatype State = State(events: seq<Event>, pushed: seq<Event>, done: bool, subs: seq<Subscriber>)

  const START := State([], [], false, [])

  datatype Action =
    | Push(event: Event)
    | Close(event: Event)  // `finish` or `fail`
    | Subscribe
    | Move(i: nat)         // subscriber `i` runs to its next suspension
    | Timeout(i: nat)
    | Leave(i: nat)        // the client disconnects

  function Retain(events: seq<Event>, e: Event): seq<Event> {
    if |events| < MAX_EVENTS_KEPT then events + [e] else events
  }

  function Woken(subs: seq<Subscriber>): seq<Subscriber> {
    seq(|subs|, i requires 0 <= i < |subs| => Wake(subs[i]))
  }

  function Wake(b: Subscriber): Subscriber {
    if b.phase.Ended? || b.phase.Gone? then b else b.(flag := true)
  }

  function Pushed(s: State, e: Event): State {
    s.(events := Retain(s.events, e), pushed := s.pushed + [e], subs := Woken(s.subs))
  }

  /** One stretch of the subscriber's loop; waiting without a wake-up it cannot move. */
  function Moved(b: Subscriber, events: seq<Event>, done: bool): Subscriber {
    match b.phase
    case Reading => b.(pos := |events|, phase := Yielding(if b.pos <= |events| then events[b.pos..] else []), snapshots := b.snapshots + 1)
    case Yielding(left) =>
      if left != [] then b.(phase := Yielding(left[1..]), output := b.output + [Sse(left[0])])
      else if done && b.pos >= |events| then b.(phase := Ended)
      else b.(phase := Waiting, flag := false)
    case Waiting => if b.flag then b.(phase := Reading) else b
    case Ended => b
    case Gone => b
  }

  function TimedOut(b: Subscriber): Subscriber {
    if b.phase.Waiting? then b.(phase := Reading, output := b.output + [Keepalive]) else b
  }

  function Left(b: Subscriber): Subscriber {
    if b.phase.Ended? then b else b.(phase := Gone)
  }

  function Step(s: State, a: Action): State {
    match a
    case Push(e) => Pushed(s, e)
    case Close(e) => Pushed(s.(done := true), e)
    case Subscribe => s.(subs := s.subs + [Subscriber(0, Reading, false, [], 0)])
    case Move(i) => if i < |s.subs| then s.(subs := s.subs[i := Moved(s.subs[i], s.events, s.done)]) else s
    case Timeout(i) => if i < |s.subs| then s.(subs := s.subs[i := TimedOut(s.subs[i])]) else s
    case Leave(i) => if i < |s.subs| then s.(subs := s.subs[i := Left(s.subs[i])]) else s
  }

  function Exec(s: State, run: seq<Action>): State
    decreases |run|
  {
    if run == [] then s else Step(Exec(s, run[..|run| - 1]), run[|run| - 1])
  }

  // ---------------------------------------------------------------- exact replay

  /** The events among the lines, in order. */
  function Replayed(lines: seq<Line>): seq<Event> {
    if lines == [] then []
    else
      var before := Replayed(lines[..|lines| - 1]);
      match lines[|lines| - 1]
      case Sse(e) => before + [e]
      case Keepalive => before
  }

  function Unyielded(p: Phase): seq<Event> {
    if p.Yielding? then p.left else []
  }

  /** What was yielded and what is still to be yielded are the first `pos` events. */
  predicate InStep(b: Subscriber, events: seq<Event>, done: bool) {
    && b.pos <= |events|
    && (!b.phase.Gone? ==> Replayed(b.output) + Unyielded(b.phase) == events[..b.pos])
    && Replayed(b.output) <= events
    && (b.phase.Ended? ==> done)
  }

  predicate Retained(s: State) {
    s.events == if |s.pushed| <= MAX_EVENTS_KEPT then s.pushed else s.pushed[..MAX_EVENTS_KEPT]
  }

  predicate Sound(s: State) {
    && Retained(s)
    && forall i | 0 <= i < |s.subs| :: InStep(s.subs[i], s.events, s.done)
  }

  lemma {:induction false} ReplayedSnoc(lines: seq<Line>, l: Line)
    ensures Replayed(lines + [l]) == if l.Sse? then Replayed(lines) + [l.event] else Replayed(lines)
  {
    assert (lines + [l])[..|lines|] == lines;
  }

  lemma {:induction false} YieldOne(output: seq<Line>, left: seq<Event>, prefix: seq<Event>)
    requires left != [] && Replayed(output) + left == prefix
    ensures Replayed(output + [Sse(left[0])]) + left[1..] == prefix
    ensures Replayed(output + [Sse(left[0])]) <= prefix
  {
    ReplayedSnoc(output, Sse(left[0]));
    assert left == [left[0]] + left[1..];
  }

  lemma {:induction false} MovedInStep(b: Subscriber, events: seq<Event>, done: bool)
    requires InStep(b, events, done)
    ensures InStep(Moved(b, events, done), events, done)
  {
    match b.phase {
      case Reading =>
        assert events[..b.pos] + events[b.pos..] == events == events[..|events|];
      case Yielding(left) =>
        if left != [] {
          YieldOne(b.output, left, events[..b.pos]);
        }
      case Waiting =>
      case Ended =>
      case Gone =>
    }
  }

  lemma {:induction false} TimedOutInStep(b: Subscriber, events: seq<Event>, done: bool)
    requires InStep(b, events, done)
    ensures InStep(TimedOut(b), events, done)
  {
    ReplayedSnoc(b.output, Keepalive);
  }

  lemma {:induction false} WokenInStep(b: Subscriber, events: seq<Event>, more: seq<Event>, done: bool, done': bool)
    requires InStep(b, events, done) && events <= more && (done ==> done')
    ensures InStep(Wake(b), more, done')
  {
    assert more[..b.pos] == events[..b.pos];
  }

  lemma {:induction false} PushedSound(s: State, e: Event, done: bool)
    requires Sound(s) && (s.done ==> done)
    ensures Sound(Pushed(s.(done := done), e))
  {
    var t := Pushed(s.(done := done), e);
    forall i | 0 <= i < |t.subs| ensures InStep(t.subs[i], t.events, t.done) {
      WokenInStep(s.subs[i], s.events, t.events, s.done, done);
    }
  }

  lemma {:induction false} StepSound(s: State, a: Action)
    requires Sound(s)
    ensures Sound(Step(s, a))
  {
    match a {
      case Push(e) => PushedSound(s, e, s.done);
      case Close(e) => PushedSound(s, e, true);
      case Subscribe => assert s.events[..0] == [];
      case Move(i) => if i < |s.subs| { MovedInStep(s.subs[i], s.events, s.done); }
      case Timeout(i) => if i < |s.subs| { TimedOutInStep(s.subs[i], s.events, s.done); }
      case Leave(i) =>
    }
  }

  /**
   * In every interleaving of pushes and of subscribers suspended anywhere, the retained events are the first
   * 2000 pushed, and every subscriber has yielded, keepalives aside, exactly a prefix of them: none lost,
   * none twice, none out of order.
   */
  lemma {:induction false} ReplayExact(run: seq<Action>)
    ensures Sound(Exec(START, run))
    decreases |run|
  {
    if run != [] {
      ReplayExact(run[..|run| - 1]);
      StepSound(Exec(START, run[..|run| - 1]), run[|run| - 1]);
    }
  }

  /** The closing event is among the retained ones exactly when fewer than 2000 events came before it. */
  lemma {:induction false} ClosingEventRetained(run: seq<Action>, e: Event)
    ensures var s, t := Exec(START, run), Step(Exec(START, run), Close(e));
            t.done && (t.events == s.events + [e] <==> |s.pushed| < 2000)
  {
    ReplayExact(run);
  }

  // ---------------------------------------------------------------- a finished job ends its streams

  predicate Quiet(run: seq<Action>) {
    forall k | 0 <= k < |run| :: !run[k].Push? && !run[k].Close?
  }

  /** How many more moves the subscriber can make once the job is done and nothing is pushed. */
  function Rank(b: Subscriber, n: nat): nat {
    var unread := if b.pos <= n then n - b.pos else 0;
    match b.phase
    case Reading => unread + 2
    case Waiting => unread + 3
    case Yielding(left) => |left| + 1 + if unread == 0 then 0 else unread + 3
    case Ended => 0
    case Gone => 0
  }

  /** How many more snapshots it can take. */
  function SnapshotsLeft(b: Subscriber, n: nat): nat {
    if b.phase.Reading? || b.phase.Waiting? || (b.phase.Yielding? && b.pos < n) then 1 else 0
  }

  /** How many of the run's actions change subscriber `i`. */
  function Effective(s: State, run: seq<Action>, i: nat): nat
    decreases |run|
  {
    if run == [] then 0
    else
      var t := Exec(s, run[..|run| - 1]);
      var u := Step(t, run[|run| - 1]);
      Effective(s, run[..|run| - 1], i) + if i < |t.subs| && i < |u.subs| && t.subs[i] != u.subs[i] then 1 else 0
  }

  predicate Progressed(b: Subscriber, c: Subscriber, n: nat) {
    && Rank(c, n) < Rank(b, n)
    && c.snapshots + SnapshotsLeft(c, n) <= b.snapshots + SnapshotsLeft(b, n)
    && (c.phase.Ended? ==> c.pos == n)
  }

  lemma {:induction false} OwnStepProgresses(b: Subscriber, events: seq<Event>)
    requires b.pos <= |events|
    ensures Moved(b, events, true) == b || Progressed(b, Moved(b, events, true), |events|)
    ensures TimedOut(b) == b || Progressed(b, TimedOut(b), |events|)
    ensures Left(b) == b || Progressed(b, Left(b), |events|)
    ensures !b.phase.Ended? && !b.phase.Gone? ==> Moved(b, events, true) != b || TimedOut(b) != b
  {
    if b.phase.Waiting? && b.flag {
      assert Moved(b, events, true).phase == Reading;
    }
    if b.phase.Yielding? && b.phase.left != [] {
      assert |Moved(b, events, true).output| == |b.output| + 1;
    }
  }

  lemma {:induction false} QuietStep(s: State, a: Action, i: nat)
    requires Sound(s) && s.done && i < |s.subs| && !a.Push? && !a.Close?
    ensures var t := Step(s, a);
            && t.events == s.events && t.done && i < |t.subs|
            && (t.subs[i] == s.subs[i] || Progressed(s.subs[i], t.subs[i], |s.events|))
  {
    OwnStepProgresses(s.subs[i], s.events);
  }

  lemma {:induction false} QuietRun(s: State, run: seq<Action>, i: nat)
    requires Sound(s) && s.done && i < |s.subs| && Quiet(run) && !s.subs[i].phase.Ended?
    ensures var t := Exec(s, run);
            && Sound(t) && t.events == s.events && t.done && i < |t.subs|
            && Effective(s, run, i) + Rank(t.subs[i], |s.events|) <= Rank(s.subs[i], |s.events|)
            && t.subs[i].snapshots + SnapshotsLeft(t.subs[i], |s.events|) <= s.subs[i].snapshots + SnapshotsLeft(s.subs[i], |s.events|)
            && (t.subs[i].phase.Ended? ==> t.subs[i].pos == |s.events|)
    decreases |run|
  {
    if run != [] {
      var init := run[..|run| - 1];
      assert forall k | 0 <= k < |init| :: init[k] == run[k];
      QuietRun(s, init, i);
      StepSound(Exec(s, init), run[|run| - 1]);
      QuietStep(Exec(s, init), run[|run| - 1], i);
    }
  }

  /**
   * Once the job is done and nothing more is pushed, a subscriber takes at most one more snapshot and makes
   * at most `Rank` more moves, whatever the others do, and can always make one until it ends. When it has
   * made them it has ended, and unless its client left it has delivered every retained event. This holds
   * although the closing event may not have been retained and a wake-up may have been cleared unseen.
   */
  lemma {:induction false} FinishedJobEndsStreams(s: State, run: seq<Action>, i: nat)
    requires Sound(s) && s.done && i < |s.subs| && Quiet(run) && !s.subs[i].phase.Ended?
    ensures i < |Exec(s, run).subs|
    ensures var b, c := s.subs[i], Exec(s, run).subs[i];
            && c.snapshots <= b.snapshots + 1
            && Effective(s, run, i) <= Rank(b, |s.events|)
            && (Effective(s, run, i) == Rank(b, |s.events|) ==> c.phase.Ended? || c.phase.Gone?)
            && (c.phase.Ended? ==> Replayed(c.output) == s.events)
            && (!c.phase.Ended? && !c.phase.Gone? ==> Moved(c, s.events, true) != c || TimedOut(c) != c)
  {
    QuietRun(s, run, i);
    var t := Exec(s, run);
    var c := t.subs[i];
    assert InStep(c, t.events, t.done);
    OwnStepProgresses(c, s.events);
    assert s.events[..|s.events|] == s.events;
    assert Replayed(c.output) + [] == Replayed(c.output);
  }

  /** How many moves until the subscriber next comes to wait, if the job is not done and nothing is pushed. */
  function MovesToWait(b: Subscriber, n: nat): nat {
    match b.phase
    case Reading => (if b.pos <= n then n - b.pos else 0) + 2
    case Yielding(left) => |left| + 1
    case Waiting => if b.flag then (if b.pos <= n then n - b.pos else 0) + 3 else 0
    case Ended => 0
    case Gone => 0
  }

  /** The subscriber after its own moves up to its next wait. */
  function RunToWait(b: Subscriber, events: seq<Event>): Subscriber
    requires b.pos <= |events|
    decreases MovesToWait(b, |events|)
  {
    if b.phase.Ended? || b.phase.Gone? || (b.phase.Waiting? && !b.flag) then b
    else RunToWait(Moved(b, events, false), events)
  }

  /** Waiting, with something unread and nothing to wake it but the timeout. */
  predicate Stranded(b: Subscriber, events: seq<Event>) {
    b.phase == Waiting && !b.flag && b.pos < |events|
  }

  lemma {:induction false} YieldsThenWaits(b: Subscriber, events: seq<Event>)
    requires b.pos <= |events| && b.phase.Yielding?
    ensures var c := RunToWait(b, events); c.phase == Waiting && !c.flag && c.pos == b.pos
    decreases MovesToWait(b, |events|)
  {
    var c := Moved(b, events, false);
    if c.phase.Yielding? {
      YieldsThenWaits(c, events);
    }
  }

  lemma {:induction false} ReadsThenWaits(b: Subscriber, events: seq<Event>)
    requires b.pos <= |events| && (b.phase.Reading? || (b.phase.Waiting? && b.flag))
    ensures var c := RunToWait(b, events); c.phase == Waiting && !c.flag && c.pos == |events|
  {
    var r := if b.phase.Waiting? then Moved(b, events, false) else b;
    assert r.phase == Reading && RunToWait(b, events) == RunToWait(r, events);
    YieldsThenWaits(Moved(r, events, false), events);
  }

  /**
   * In every sound state of a job that is not done: an event pushed and retained is left unread at the
   * subscriber's next wait, without a wake-up, if and only if it was pushed while the subscriber was yielding.
   */
  lemma {:induction false} WakeupLostIff(s: State, i: nat, e: Event)
    requires Sound(s) && i < |s.subs| && !s.done && |s.events| < 2000
    requires !s.subs[i].phase.Ended? && !s.subs[i].phase.Gone?
    ensures var t := Step(s, Push(e));
            && t.events == s.events + [e] && i < |t.subs| && t.subs[i].pos <= |t.events|
            && RunToWait(t.subs[i], t.events).phase == Waiting
            && (Stranded(RunToWait(t.subs[i], t.events), t.events) <==> s.subs[i].phase.Yielding?)
  {
    var t := Step(s, Push(e));
    assert InStep(s.subs[i], s.events, s.done);
    var b := t.subs[i];
    assert b == s.subs[i].(flag := true);
    if b.phase.Yielding? {
      YieldsThenWaits(b, t.events);
    } else {
      ReadsThenWaits(b, t.events);
    }
  }

  /** The timeout makes up for it: a stranded subscriber yields a keepalive and then reads everything it had missed. */
  lemma {:induction false} TimeoutDelivers(b: Subscriber, events: seq<Event>)
    requires Stranded(b, events)
    ensures Moved(b, events, false) == b && TimedOut(b).output == b.output + [Keepalive]
    ensures Moved(TimedOut(b), events, false).phase == Yielding(events[b.pos..])
    ensures !Stranded(RunToWait(TimedOut(b), events), events)
  {
    ReadsThenWaits(TimedOut(b), events);
  }

  /** A client that has disconnected gets nothing more, whatever happens. */
  lemma {:induction false} LeaverGetsNothing(s: State, i: nat, run: seq<Action>)
    requires i < |s.subs| && !s.subs[i].phase.Ended?
    ensures var t := Exec(Step(s, Leave(i)), run); i < |t.subs| && t.subs[i] == s.subs[i].(phase := Gone)
    decreases |run|
  {
    if run != [] {
      LeaverGetsNothing(s, i, run[..|run| - 1]);
    }
  }

  // ---------------------------------------------------------------- the job and its subscriptions

  class Waiter {
    var isSet: bool

    constructor ()
      ensures !isSet
    {
      isSet := false;
    }
  }

  class Job {
    var events: seq<Event>
    var waiters: seq<Waiter>
    var totalFiles: nat
    var processedFiles: nat
    var done: bool
    var error: Option<string>

    constructor ()
      ensures events == [] && waiters == [] && totalFiles == 0 && processedFiles == 0 && !done && error == None
    {
      events, waiters, totalFiles, processedFiles, done, error := [], [], 0, 0, false, None;
    }

    /** Retains the event unless the job is full, and wakes every waiter in either case. */
    method PushEvent(e: Event)
      modifies this`events, set w | w in waiters
      ensures events == Retain(old(events), e)
      ensures forall w | w in waiters :: w.isSet
    {
      if |events| < MAX_EVENTS_KEPT {
        events := events + [e];
      }
      for i := 0 to |waiters|
        invariant waiters == old(waiters) && events == Retain(old(events), e)
        invariant forall k | 0 <= k < i :: waiters[k].isSet
      {
        waiters[i].isSet := true;
      }
    }

    method SnapshotFrom(pos: nat) returns (unread: seq<Event>, end: nat)
      ensures unread == (if pos <= |events| then events[pos..] else []) && end == |events|
    {
      unread := if pos <= |events| then events[pos..] else [];
      end := |events|;
    }

    method SetTotal(total: nat)
      modifies this`totalFiles, this`events, set w | w in waiters
      ensures totalFiles == total && events == Retain(old(events), Total(total))
      ensures forall w | w in waiters :: w.isSet
    {
      totalFiles := total;
      PushEvent(Total(total));
    }

    method FileDone(filename: string, domain: string, deduplicated: bool)
      modifies this`processedFiles, this`events, set w | w in waiters
      ensures processedFiles == old(processedFiles) + 1
      ensures events == Retain(old(events), Progress(processedFiles, totalFiles, filename, domain, deduplicated))
      ensures forall w | w in waiters :: w.isSet
    {
      processedFiles := processedFiles + 1;
      PushEvent(Progress(processedFiles, totalFiles, filename, domain, deduplicated));
    }

    method Finish(registered: nat, deduplicated: nat)
      modifies this`done, this`events, set w | w in waiters
      ensures done && events == Retain(old(events), Done(processedFiles, registered, deduplicated))
      ensures forall w | w in waiters :: w.isSet
    {
      done := true;
      PushEvent(Done(processedFiles, registered, deduplicated));
    }

    method Fail(reason: string)
      modifies this`done, this`error, this`events, set w | w in waiters
      ensures done && error == Some(reason) && events == Retain(old(events), Error(reason))
      ensures forall w | w in waiters :: w.isSet
    {
      done, error := true, Some(reason);
      PushEvent(Error(reason));
    }

    method AddWaiter() returns (w: Waiter)
      modifies this`waiters
      ensures fresh(w) && !w.isSet && waiters == old(waiters) + [w]
    {
      w := new Waiter();
      waiters := waiters + [w];
    }

    /** Removes the waiter's first occurrence; one that is not there is ignored. */
    method RemoveWaiter(w: Waiter)
      modifies this`waiters
      ensures w !in old(waiters) ==> waiters == old(waiters)
      ensures w in old(waiters) ==> exists k | 0 <= k < |old(waiters)| ::
                old(waiters)[k] == w && w !in old(waiters)[..k] && waiters == old(waiters)[..k] + old(waiters)[k + 1..]
    {
      for k := 0 to |waiters|
        invariant waiters == old(waiters) && w !in waiters[..k]
      {
        if waiters[k] == w {
          waiters := waiters[..k] + waiters[k + 1..];
          return;
        }
      }
    }
  }

  /** One run of `stream`, suspended wherever its caller may be. */
  class Subscription {
    const job: Job
    const waiter: Waiter
    var pos: nat
    var phase: Phase
    var output: seq<Line>
    ghost var snapshots: nat

    ghost function View(): Subscriber
      reads this, waiter
    {
      Subscriber(pos, phase, waiter.isSet, output, snapshots)
    }

    constructor (job: Job)
      modifies job`waiters
      ensures this.job == job && fresh(waiter) && job.waiters == old(job.waiters) + [waiter]
      ensures View() == Subscriber(0, Reading, false, [], 0)
    {
      var w := job.AddWaiter();
      this.job, this.waiter := job, w;
      pos, phase, output, snapshots := 0, Reading, [], 0;
    }

    method Advance()
      modifies this, waiter, job`waiters
      ensures View() == Moved(old(View()), job.events, job.done)
    {
      match phase {
        case Reading =>
          var unread, end := job.SnapshotFrom(pos);
          pos, phase, snapshots := end, Yielding(unread), snapshots + 1;
        case Yielding(left) =>
          if left != [] {
            output, phase := output + [Sse(left[0])], Yielding(left[1..]);
          } else {
            var rest, end := job.SnapshotFrom(pos);
            if job.done && rest == [] {
              phase := Ended;
              job.RemoveWaiter(waiter);
            } else {
              waiter.isSet := false;
              phase := Waiting;
            }
          }
        case Waiting =>
          if waiter.isSet {
            phase := Reading;
          }
        case Ended =>
        case Gone =>
      }
    }

    method WaitTimesOut()
      modifies this`phase, this`output
      ensures View() == TimedOut(old(View()))
    {
      if phase.Waiting? {
        output, phase := output + [Keepalive], Reading;
      }
    }

    method Disconnect()
      modifies this`phase, job`waiters
      ensures View() == Left(old(View()))
    {
      if !phase.Ended? {
        phase := Gone;
        job.RemoveWaiter(waiter);
      }
    }
  }
}
