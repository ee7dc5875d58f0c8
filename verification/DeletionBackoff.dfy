/** DeletionTaskWorker.kt, `isReadyForRetry` and `recordAttempt` over whole runs: back-off, DEAD, and progress. */
module DeletionBackoff {
  import opened Wrappers
  import opened DeletionWorker
  import opened DeletionRuns

  // ---------------------------------------------------------------- attempts

  /** What one `processTask` does to its row's attempts: nothing, one more, or, if recording raised, two more. */
  predicate Counts(t: Task, u: Task, now: int, raised: bool) {
    || (u.attempts == t.attempts && u.lastAttemptAt == t.lastAttemptAt && (u.status != t.status ==> u.status == DONE || u.status == CANCELLED))
    || (u.lastAttemptAt == Some(now)
        && (u.attempts == t.attempts + 1 || (raised && u.attempts == t.attempts + 2))
        && (u.status == DEAD <==> u.attempts >= MAX_ATTEMPTS))
  }

  predicate RecordingRaises(c: Script) {
    c.record == Raises || c.record == RaisesAfter
  }

  /** Row and memory while the body runs: not yet recorded, or recorded once at `now`. */
  predicate Counted(t: Task, s: Session, i: nat, n: nat, now: int, c: Script) {
    && i < n == |s.w.tasks| && Counts(t, s.w.tasks[i], now, false)
    && t.attempts <= s.task.attempts <= t.attempts + 1
    && (s.task.attempts == t.attempts + 1 && s.control == Caught ==> RecordingRaises(c))
    && (s.task.status == DEAD ==> s.task.attempts >= MAX_ATTEMPTS)
  }

  /** Nothing has been recorded yet. */
  predicate Uncounted(t: Task, s: Session, i: nat, n: nat) {
    && i < n == |s.w.tasks| && s.w.tasks[i] == t && s.task.status == PENDING
    && s.task.attempts == t.attempts && s.task.lastAttemptAt == t.lastAttemptAt
  }

  lemma {:induction false} CompleteCounts(t: Task, s: Session, i: nat, n: nat, now: int, c: Script)
    requires t.status == PENDING && Uncounted(t, s, i, n)
    ensures Counted(t, CompleteTask(s, i, c), i, n, now, c)
  {
  }

  lemma {:induction false} RecordCounts(t: Task, s: Session, i: nat, n: nat, now: int, c: Script)
    requires t.status == PENDING && Uncounted(t, s, i, n)
    ensures Counted(t, RecordAttempt(s, i, now, c.record), i, n, now, c)
  {
  }

  lemma {:induction false} BodyCounts(w: World, i: nat, now: int, c: Script)
    requires i < |w.tasks| && w.tasks[i].status == PENDING && w.tasks[i].attempts < MAX_ATTEMPTS
    ensures Counted(w.tasks[i], Body(Begin(w, i), i, now, c), i, |w.tasks|, now, c)
  {
    var s, task := Begin(w, i), w.tasks[i];
    if c.read == Ok && !w.doc.Alive() {
      var t := DeleteFiles(DeleteVectors(s, c.vector), c.file);
      assert Uncounted(task, t, i, |w.tasks|);
      CompleteCounts(task, t, i, |w.tasks|, now, c);
      RecordCounts(task, t, i, |w.tasks|, now, c);
    }
  }

  lemma {:induction false} CatchCounts(t: Task, s: Session, i: nat, n: nat, now: int, c: Script)
    requires Counted(t, s, i, n, now, c)
    ensures |Catch(s, i, now, c.recordAgain).tasks| == n
    ensures Counts(t, Catch(s, i, now, c.recordAgain).tasks[i], now, RecordingRaises(c))
  {
  }

  lemma {:induction false} ProcessCounts(w: World, i: nat, c: Script)
    requires i < |w.tasks| && w.tasks[i].status == PENDING && w.tasks[i].attempts < MAX_ATTEMPTS
    ensures |Process(w, i, c).tasks| == |w.tasks|
    ensures Counts(w.tasks[i], Process(w, i, c).tasks[i], w.clock + c.delay, RecordingRaises(c))
  {
    var now := w.clock + c.delay;
    var b := Body(Begin(w, i), i, now, c);
    BodyCounts(w, i, now, c);
    CatchCounts(w.tasks[i], b, i, |w.tasks|, now, c);
    ProcessIs(w, i, c, b, Catch(b, i, now, c.recordAgain));
  }

  /** The run comes to record a failure: it is not cut off, and some store is left. */
  predicate ReachesRecord(t: Task, c: Script) {
    && (t.qdrantDone || !c.vector.Kills()) && (t.objectStoreDone || !c.file.Kills())
    && !((t.qdrantDone || c.vector == Ok) && (t.objectStoreDone || c.file == Ok))
  }

  lemma {:induction false} StoresCleaned(w: World, i: nat, c: Script)
    requires i < |w.tasks|
    ensures var s, t := DeleteFiles(DeleteVectors(Begin(w, i), c.vector), c.file), w.tasks[i];
            && s.w.tasks == w.tasks && s.task.attempts == t.attempts
            && (ReachesRecord(t, c) <==> s.control == GoesOn && !(s.task.qdrantDone && s.task.objectStoreDone))
  {
  }

  lemma {:induction false} RecordTwice(s: Session, i: nat, now: int, c: Script)
    requires i < |s.w.tasks| && s.control == GoesOn
    ensures var b := RecordAttempt(s, i, now, c.record);
            && |b.w.tasks| == |s.w.tasks| && i < |Catch(b, i, now, c.recordAgain).tasks|
            && (s.w.tasks[i].attempts == s.task.attempts ==>
                  (Catch(b, i, now, c.recordAgain).tasks[i].attempts == s.task.attempts + 2
                   <==> RecordingRaises(c) && c.recordAgain.TakesEffect()))
  {
  }

  lemma {:induction false} RecordOnce(b: Session, i: nat, now: int, fate: Fate)
    requires i < |b.w.tasks| && b.w.tasks[i].attempts == b.task.attempts
    ensures i < |Catch(b, i, now, fate).tasks| && Catch(b, i, now, fate).tasks[i].attempts <= b.task.attempts + 1
  {
  }

  lemma {:induction false} CompleteUncounted(s: Session, i: nat, c: Script)
    requires i < |s.w.tasks| && s.w.tasks[i].attempts == s.task.attempts
    ensures var b := CompleteTask(s, i, c);
            i < |b.w.tasks| && b.w.tasks[i].attempts == b.task.attempts == s.task.attempts
  {
  }

  /** A failure counts twice exactly when recording it raises and the catch block's second recording is saved. */
  lemma {:induction false} CountsTwiceIff(w: World, i: nat, c: Script)
    requires i < |w.tasks| && w.tasks[i].status == PENDING && !w.doc.Alive()
    ensures i < |Process(w, i, c).tasks|
    ensures Process(w, i, c).tasks[i].attempts == w.tasks[i].attempts + 2
            <==> c.read == Ok && ReachesRecord(w.tasks[i], c) && RecordingRaises(c) && c.recordAgain.TakesEffect()
  {
    var now := w.clock + c.delay;
    var s := DeleteFiles(DeleteVectors(Begin(w, i), c.vector), c.file);
    StoresCleaned(w, i, c);
    var b := Body(Begin(w, i), i, now, c);
    if c.read == Ok && ReachesRecord(w.tasks[i], c) {
      assert b == RecordAttempt(s, i, now, c.record);
      RecordTwice(s, i, now, c);
    } else {
      CompleteUncounted(s, i, c);
      RecordOnce(b, i, now, c.recordAgain);
    }
    assert Process(w, i, c) == Catch(b, i, now, c.recordAgain).(clock := now);
  }

  /** What a run does to the count of a row that was cancelled since the batch was loaded. */
  lemma {:induction false} CancelledCounts(w: World, i: nat, c: Script)
    requires i < |w.tasks| && w.tasks[i].status == CANCELLED && w.tasks[i].attempts < MAX_ATTEMPTS
    ensures |Process(w, i, c).tasks| == |w.tasks|
    ensures var t, u := w.tasks[i], Process(w, i, c).tasks[i];
            || u == t
            || (u.attempts == t.attempts + 1 && u.lastAttemptAt == Some(w.clock + c.delay)
                && u.status == if u.attempts >= MAX_ATTEMPTS then DEAD else PENDING)
  {
  }

  // ---------------------------------------------------------------- how long until DEAD

  /** The recorded attempts of a task, in order: whether each counted twice. */
  type Pattern = seq<bool>

  function CountOf(pattern: Pattern): nat {
    if pattern == [] then 0 else CountOf(pattern[..|pattern| - 1]) + if pattern[|pattern| - 1] then 2 else 1
  }

  /** Minutes of back-off at each count visited between the first and the last of these attempts. */
  function MinutesOf(pattern: Pattern): nat {
    if |pattern| <= 1 then 0
    else
      var init := pattern[..|pattern| - 1];
      MinutesOf(init) + BackoffMinutes(CountOf(init))
  }

  /** The shortest time, in ticks, from the first to the last: each wait outlasts its back-off. */
  function TicksOf(pattern: Pattern): nat {
    if pattern == [] then 0 else MinutesOf(pattern) * MINUTE + |pattern| - 1
  }

  lemma {:induction false} MinutesAdd(a: nat, b: nat)
    ensures (a + b) * MINUTE == a * MINUTE + b * MINUTE
  {
  }

  lemma {:induction false} MinutesGrow(a: nat, b: nat)
    requires a <= b
    ensures a * MINUTE <= b * MINUTE
  {
    MinutesAdd(a, b - a);
  }

  /** The task was not DEAD before its last attempt. */
  predicate Unspent(pattern: Pattern) {
    pattern != [] ==> CountOf(pattern[..|pattern| - 1]) < MAX_ATTEMPTS && Unspent(pattern[..|pattern| - 1])
  }

  predicate Paced(t: Task, first: Option<int>, pattern: Pattern) {
    && t.attempts == CountOf(pattern) && Unspent(pattern)
    && if pattern == [] then t.lastAttemptAt == None && first == None
       else first.Some? && t.lastAttemptAt.Some? && t.lastAttemptAt.value >= first.value + TicksOf(pattern)
  }

  /** The world together with the attempts task `i` has recorded and the time of the first. */
  datatype Followed = Followed(w: World, first: Option<int>, pattern: Pattern)

  function Recorded(f: Followed, t: Task, u: Task, v: World): Followed {
    if u.attempts > t.attempts
    then Followed(v, if f.pattern == [] then u.lastAttemptAt else f.first, f.pattern + [u.attempts == t.attempts + 2])
    else f.(w := v)
  }

  function Follow(f: Followed, i: nat, a: Action): Followed {
    var v := Apply(f.w, a);
    if i < |f.w.tasks| && i < |v.tasks| then Recorded(f, f.w.tasks[i], v.tasks[i], v) else f.(w := v)
  }

  function FollowAll(w: World, i: nat, actions: seq<Action>): Followed {
    if actions == [] then Followed(w, None, [])
    else Follow(FollowAll(w, i, actions[..|actions| - 1]), i, actions[|actions| - 1])
  }

  predicate Timed(f: Followed, i: nat) {
    && i < |f.w.tasks| && Paced(f.w.tasks[i], f.first, f.pattern)
    && (f.w.tasks[i].status == PENDING || f.w.tasks[i].status == CANCELLED ==> f.w.tasks[i].attempts < MAX_ATTEMPTS)
    && (f.w.tasks[i].status == DEAD ==> f.w.tasks[i].attempts >= MAX_ATTEMPTS)
  }

  lemma {:induction false} PatternSnoc(pattern: Pattern, double: bool)
    ensures CountOf(pattern + [double]) == CountOf(pattern) + if double then 2 else 1
    ensures pattern != [] ==> MinutesOf(pattern + [double]) == MinutesOf(pattern) + BackoffMinutes(CountOf(pattern))
    ensures pattern != [] ==> TicksOf(pattern + [double]) == TicksOf(pattern) + BackoffMinutes(CountOf(pattern)) * MINUTE + 1
    ensures pattern == [] ==> TicksOf(pattern + [double]) == 0 && MinutesOf(pattern + [double]) == 0
    ensures Unspent(pattern + [double]) <==> CountOf(pattern) < MAX_ATTEMPTS && Unspent(pattern)
  {
    assert (pattern + [double])[..|pattern|] == pattern;
    MinutesAdd(MinutesOf(pattern), BackoffMinutes(CountOf(pattern)));
  }

  /** An attempt recorded by a run that found the task ready. */
  lemma {:induction false} AttemptPaced(f: Followed, t: Task, u: Task, now: int, v: World)
    requires Paced(t, f.first, f.pattern) && IsReadyForRetry(t, f.w.clock) && f.w.clock <= now && t.attempts < MAX_ATTEMPTS
    requires u.attempts == t.attempts + 1 || u.attempts == t.attempts + 2
    requires u.lastAttemptAt == Some(now)
    ensures var g := Recorded(f, t, u, v); Paced(u, g.first, g.pattern)
  {
    PatternSnoc(f.pattern, u.attempts == t.attempts + 2);
  }

  lemma {:induction false} ProcessOtherRows(w: World, i: nat, c: Script, j: nat)
    requires i < |w.tasks| && j < |w.tasks| && i != j
    ensures var v := Process(w, i, c); |v.tasks| == |w.tasks| && v.tasks[j] == w.tasks[j]
  {
    if w.tasks[i].status == PENDING && !w.doc.Alive() {
      ProcessLeaves(w, i, c);
    } else {
      RunSpares(w, i, c);
    }
  }

  /** What a run made of the row: nothing counted, or an attempt recorded now. */
  lemma {:induction false} RecordedTimed(f: Followed, i: nat, v: World, now: int)
    requires Timed(f, i) && IsReadyForRetry(f.w.tasks[i], f.w.clock) && f.w.clock <= now && f.w.tasks[i].attempts < MAX_ATTEMPTS
    requires i < |v.tasks|
    requires var t, u := f.w.tasks[i], v.tasks[i];
             || (u.attempts == t.attempts && u.lastAttemptAt == t.lastAttemptAt && u.status != DEAD)
             || (u.lastAttemptAt == Some(now) && (u.attempts == t.attempts + 1 || u.attempts == t.attempts + 2)
                 && (u.status == DEAD <==> u.attempts >= MAX_ATTEMPTS))
    requires v.tasks[i].status == PENDING || v.tasks[i].status == CANCELLED ==> v.tasks[i].attempts < MAX_ATTEMPTS
    ensures Timed(Recorded(f, f.w.tasks[i], v.tasks[i], v), i)
  {
    var t, u := f.w.tasks[i], v.tasks[i];
    if u.attempts > t.attempts {
      AttemptPaced(f, t, u, now, v);
    }
  }

  lemma {:induction false} OwnRunTimed(f: Followed, i: nat, c: Script)
    requires Timed(f, i) && Loaded(f.w, i)
    ensures var v := Process(f.w, i, c);
            i < |v.tasks| && Timed(Recorded(f, f.w.tasks[i], v.tasks[i], v), i)
  {
    if f.w.tasks[i].status == PENDING {
      ProcessCounts(f.w, i, c);
    } else {
      CancelledCounts(f.w, i, c);
    }
    RecordedTimed(f, i, Process(f.w, i, c), f.w.clock + c.delay);
  }

  /** Every other step leaves a row as it is, or cancels it. */
  lemma {:induction false} OtherStepsKeepRows(w: World, a: Action, i: nat)
    requires i < |w.tasks| && !a.Run?
    ensures var v := Apply(w, a); i < |v.tasks| && (v.tasks[i] == w.tasks[i] || v.tasks[i] == Cancelled(w.tasks[i]))
  {
  }

  lemma {:induction false} FollowTimed(f: Followed, i: nat, a: Action)
    requires Timed(f, i)
    ensures Timed(Follow(f, i, a), i)
  {
    if a.Run? {
      if Loaded(f.w, a.i) {
        if a.i == i {
          OwnRunTimed(f, i, a.c);
        } else {
          ProcessOtherRows(f.w, a.i, a.c, i);
        }
      }
    } else {
      OtherStepsKeepRows(f.w, a, i);
    }
  }

  predicate Untried(w: World, i: nat) {
    i < |w.tasks| && w.tasks[i].status == PENDING && w.tasks[i].attempts == 0 && w.tasks[i].lastAttemptAt == None
  }

  lemma {:induction false} RunsTimed(w: World, i: nat, actions: seq<Action>)
    requires Untried(w, i)
    ensures Timed(FollowAll(w, i, actions), i)
  {
    if actions != [] {
      RunsTimed(w, i, actions[..|actions| - 1]);
      FollowTimed(FollowAll(w, i, actions[..|actions| - 1]), i, actions[|actions| - 1]);
    }
  }

  // ---------------------------------------------------------------- 302 minutes

  /** Minutes of back-off from the first recorded failure to attempt `k`, one attempt at a time. */
  function Gaps(k: nat): nat {
    if k <= 1 then 0 else Gaps(k - 1) + BackoffMinutes(k - 1)
  }

  /** The back-offs at the counts that were jumped over. */
  function Skipped(pattern: Pattern): nat {
    if pattern == [] then 0
    else
      var init := pattern[..|pattern| - 1];
      Skipped(init) + if pattern[|pattern| - 1] then BackoffMinutes(CountOf(init) + 1) else 0
  }

  lemma {:induction false} BackoffPositive(k: nat)
    ensures Pow2(k) >= 1 && (k >= 1 ==> BackoffMinutes(k) >= 2)
  {
    if k > 0 {
      BackoffPositive(k - 1);
    }
  }

  /** What was waited is what ten single attempts wait, less the gaps that were jumped. */
  lemma {:induction false} MinutesFromGaps(pattern: Pattern)
    requires pattern != []
    ensures MinutesOf(pattern) == Gaps(CountOf(pattern)) - Skipped(pattern)
  {
    var init := pattern[..|pattern| - 1];
    if |pattern| == 1 {
      assert init == [] && CountOf(init) == 0;
      assert Gaps(2) == BackoffMinutes(1);
    } else {
      MinutesFromGaps(init);
      CountGrows(init);
    }
  }

  lemma {:induction false} CountGrows(pattern: Pattern)
    ensures CountOf(pattern) >= |pattern|
    ensures CountOf(pattern) > |pattern| ==> Skipped(pattern) >= 2
    ensures CountOf(pattern) == |pattern| ==> Skipped(pattern) == 0
  {
    if pattern != [] {
      var init := pattern[..|pattern| - 1];
      CountGrows(init);
      BackoffPositive(CountOf(init) + 1);
    }
  }

  lemma {:induction false} GapTotal()
    ensures Gaps(9) == 242 && Gaps(10) == 302 && Gaps(11) == 362
    ensures BackoffMinutes(9) == 60 && BackoffMinutes(10) == 60
  {
    assert Pow2(1) == 2 && Pow2(2) == 4 && Pow2(3) == 8 && Pow2(4) == 16 && Pow2(5) == 32;
    assert Pow2(6) == 64;
    assert Pow2(7) == 128 && Pow2(8) == 256;
    assert Pow2(9) == 512 && Pow2(10) == 1024;
    assert Gaps(4) == 14 && Gaps(6) == 62;
    assert Gaps(8) == 182;
  }

  /** A task that has just become DEAD has waited more than 302 minutes exactly if it took ten recorded attempts. */
  lemma {:induction false} TenAttemptsIff(pattern: Pattern)
    requires CountOf(pattern) >= MAX_ATTEMPTS && Unspent(pattern)
    ensures |pattern| <= MAX_ATTEMPTS
    ensures TicksOf(pattern) > 302 * MINUTE <==> |pattern| == MAX_ATTEMPTS
  {
    MinutesUntilDead(pattern);
    if |pattern| == MAX_ATTEMPTS {
      MinutesGrow(302, MinutesOf(pattern));
    } else {
      MinutesGrow(MinutesOf(pattern), 300);
      MinutesAdd(300, 2);
    }
  }

  lemma {:induction false} MinutesUntilDead(pattern: Pattern)
    requires CountOf(pattern) >= MAX_ATTEMPTS && Unspent(pattern)
    ensures 1 < |pattern| <= MAX_ATTEMPTS
    ensures if |pattern| == MAX_ATTEMPTS then MinutesOf(pattern) == 302 else MinutesOf(pattern) <= 300
  {
    var init, double := pattern[..|pattern| - 1], pattern[|pattern| - 1];
    CountGrows(init);
    GapTotal();
    MinutesFromGaps(pattern);
    assert CountOf(init) == 9 || (CountOf(init) == 8 && double);
  }

  /** The least possible when every attempt may count twice. */
  function LeastGaps(k: nat): nat {
    if k <= 2 then 0 else LeastGaps(k - 2) + BackoffMinutes(k - 2)
  }

  lemma {:induction false} BackoffGrows(k: nat)
    ensures BackoffMinutes(k) <= BackoffMinutes(k + 1)
  {
  }

  lemma {:induction false} LeastGapsGrow(k: nat)
    ensures LeastGaps(k) <= LeastGaps(k + 1)
  {
    if k >= 2 {
      LeastGapsGrow(k - 2);
      LeastGapsGrow(k - 1);
      BackoffGrows(k - 2);
    }
  }

  lemma {:induction false} LeastGapsStep(k: nat)
    requires k >= 1
    ensures LeastGaps(k + 1) <= LeastGaps(k) + BackoffMinutes(k)
  {
    if k >= 2 {
      LeastGapsGrow(k - 1);
      BackoffGrows(k - 1);
    }
  }

  lemma {:induction false} MinutesAtLeast(pattern: Pattern)
    ensures MinutesOf(pattern) >= LeastGaps(CountOf(pattern))
  {
    if |pattern| > 1 {
      var init := pattern[..|pattern| - 1];
      MinutesAtLeast(init);
      CountGrows(init);
      LeastGapsStep(CountOf(init));
    }
  }

  lemma {:induction false} LeastTotal()
    ensures LeastGaps(10) == 140 && LeastGaps(11) >= 140
  {
    assert Pow2(2) == 4 && Pow2(4) == 16 && Pow2(6) == 64;
    assert Pow2(8) == 256;
    assert LeastGaps(4) == 4 && LeastGaps(6) == 20;
    LeastGapsGrow(10);
  }

  /**
   * In every run, whatever happens in it: a task is DEAD only with ten or more attempts counted, at least the
   * back-offs of the counts it visited after its first recorded failure, and more than 140 minutes after it;
   * and more than 302 minutes are certain exactly if no recorded failure before the tenth counted twice.
   */
  lemma {:induction false} DeadIsLate(w: World, i: nat, actions: seq<Action>)
    requires Untried(w, i)
    ensures var f := FollowAll(w, i, actions);
            i < |f.w.tasks| && (f.w.tasks[i].status == DEAD ==>
              && f.w.tasks[i].attempts == CountOf(f.pattern) >= 10
              && f.first.Some? && f.w.tasks[i].lastAttemptAt.Some?
              && f.w.tasks[i].lastAttemptAt.value >= f.first.value + TicksOf(f.pattern)
              && TicksOf(f.pattern) > 140 * MINUTE
              && (TicksOf(f.pattern) > 302 * MINUTE <==> |f.pattern| == 10))
  {
    RunsTimed(w, i, actions);
    var f := FollowAll(w, i, actions);
    if f.w.tasks[i].status == DEAD {
      TenAttemptsIff(f.pattern);
      TicksAbove140(f.pattern);
    }
  }

  lemma {:induction false} TicksAbove140(pattern: Pattern)
    requires CountOf(pattern) >= MAX_ATTEMPTS && Unspent(pattern)
    ensures TicksOf(pattern) > 140 * MINUTE
  {
    MinutesUntilDead(pattern);
    MinutesAtLeast(pattern);
    LeastTotal();
    assert CountOf(pattern) == 10 || CountOf(pattern) == 11;
    MinutesGrow(140, MinutesOf(pattern));
  }

  // ---------------------------------------------------------------- the bound is attained

  /** The file store is down; recording the failure raises or not. */
  predicate IsDown(c: Script, double: bool) {
    c.read == Ok && c.file == Raises && c.record == (if double then Raises else Ok) && c.recordAgain == Ok && c.delay == 0
  }

  /** One way of failing once, and one of failing twice. */
  datatype Failures = Failures(single: Script, double: Script) {
    predicate Valid() {
      IsDown(single, false) && IsDown(double, true)
    }

    function Pick(twice: bool): Script {
      if twice then double else single
    }
  }

  /** A document whose files cannot be deleted, its one task last attempted at `clock`. */
  function Stuck(clock: int, attempts: nat): World {
    Under(Deleting, true, false, true,
          [Task(true, false, attempts, if attempts == 0 then None else Some(clock), if attempts >= MAX_ATTEMPTS then DEAD else PENDING)],
          clock, 0)
  }

  lemma {:induction false} Ingested(upload: seq<Action>, begin: Action) returns (actions: seq<Action>)
    requires upload == UPLOAD && begin == BeginIngest(true)
    ensures actions == upload + [begin] + [AppendChunks] + [Announce(true, false)] + [Consume(false)]
    ensures Exec(actions) == Under(Active, true, false, true, [], 0, 0)
  {
    var w1 := Under(Active, false, false, true, [], 0, 0);
    var w3 := Under(Active, true, false, true, [], 0, 1);
    Uploaded(upload);
    Then(upload, w1, begin, w1.(jobs := 1));
    Then(upload + [begin], w1.(jobs := 1), AppendChunks, w3);
    var written := upload + [begin] + [AppendChunks];
    EndArrives(written, w3, true);
    actions := written + [Announce(true, false)] + [Consume(false)];
  }

  lemma {:induction false} DroppedAndMarked(actions: seq<Action>, w: World, clock: nat)
    requires Exec(actions) == w && w == Under(Active, true, false, true, [], 0, 0)
    ensures Exec(actions + [DropCollection(true)] + [DeleteAll(true)] + [Tick(clock)]) == Stuck(clock, 0)
  {
    assert [] + [NewTask(true)] == [NewTask(true)];
    Then(actions, w, DropCollection(true), w.(drops := 1));
    var dropped := actions + [DropCollection(true)];
    Then(dropped, w.(drops := 1), DeleteAll(true), Stuck(0, 0));
    Then(dropped + [DeleteAll(true)], Stuck(0, 0), Tick(clock), Stuck(clock, 0));
  }

  /** A bulk deletion of an ingested document leads there from nothing. */
  lemma {:induction false} StuckIsReached(clock: nat) returns (actions: seq<Action>)
    ensures Exec(actions) == Stuck(clock, 0)
  {
    var ingested := Ingested(UPLOAD, BeginIngest(true));
    DroppedAndMarked(ingested, Exec(ingested), clock);
    actions := ingested + [DropCollection(true)] + [DeleteAll(true)] + [Tick(clock)];
  }

  function Wait(pattern: Pattern): nat {
    if pattern == [] then 0 else BackoffMinutes(CountOf(pattern)) * MINUTE + 1
  }

  /** The task is tried as soon as the back-off allows, each time with the failure counting as the pattern says. */
  function Trials(x: Failures, pattern: Pattern): seq<Action> {
    if pattern == [] then []
    else
      var init := pattern[..|pattern| - 1];
      Trials(x, init) + [Tick(Wait(init)), Run(0, x.Pick(pattern[|pattern| - 1]))]
  }

  lemma {:induction false} DownOnce(clock: int, attempts: nat, wait: nat, c: Script, double: bool)
    requires IsDown(c, double) && attempts < MAX_ATTEMPTS && (attempts > 0 ==> wait > BackoffMinutes(attempts) * MINUTE)
    ensures Apply(Apply(Stuck(clock, attempts), Tick(wait)), Run(0, c))
            == Stuck(clock + wait, attempts + if double then 2 else 1)
  {
    var w := Apply(Stuck(clock, attempts), Tick(wait));
    assert Loaded(w, 0);
    var b := Body(Begin(w, 0), 0, w.clock, c);
    assert b.task.attempts == attempts + 1;
    assert double ==> b.control == Caught && b.w == w;
  }

  lemma {:induction false} FollowTwo(w: World, i: nat, actions: seq<Action>, a: Action, b: Action)
    ensures FollowAll(w, i, actions + [a, b]) == Follow(Follow(FollowAll(w, i, actions), i, a), i, b)
  {
    assert (actions + [a, b])[..|actions| + 1] == actions + [a];
    assert (actions + [a])[..|actions|] == actions;
  }

  lemma {:induction false} TrialRecords(f: Followed, g: Followed, at: int, n: nat, c: Script, double: bool, wait: nat, first: int)
    requires IsDown(c, double) && f.w == Stuck(at, n) && n < MAX_ATTEMPTS && (n > 0 ==> wait > BackoffMinutes(n) * MINUTE)
    requires if f.pattern == [] then first == at + wait else f.first == Some(first)
    requires g == Follow(Follow(f, 0, Tick(wait)), 0, Run(0, c))
    ensures g == Followed(Stuck(at + wait, n + if double then 2 else 1), Some(first), f.pattern + [double])
  {
    var waited := Follow(f, 0, Tick(wait));
    assert waited == f.(w := Apply(f.w, Tick(wait)));
    DownOnce(at, n, wait, c, double);
  }

  /** Where the trials of a pattern are to end. */
  function Tried(clock: int, pattern: Pattern): Followed {
    Followed(Stuck(clock + TicksOf(pattern), CountOf(pattern)), if pattern == [] then None else Some(clock), pattern)
  }

  /** The next trial of those that end so: when the last was, how many count, and how long to wait. */
  predicate Next(clock: int, init: Pattern, at: int, n: nat, wait: nat) {
    at == clock + TicksOf(init) && n == CountOf(init) && wait == Wait(init)
  }

  lemma {:induction false} TriedNow(f: Followed, clock: int, init: Pattern, at: int, n: nat, wait: nat)
    requires f == Tried(clock, init) && Next(clock, init, at, n, wait)
    ensures f.w == Stuck(at, n) && f.pattern == init
    ensures if init == [] then clock == at + wait else f.first == Some(clock)
  {
  }

  lemma {:induction false} TriedNext(clock: int, init: Pattern, double: bool, at: int, n: nat, wait: nat)
    requires Next(clock, init, at, n, wait)
    ensures Tried(clock, init + [double]) == Followed(Stuck(at + wait, n + if double then 2 else 1), Some(clock), init + [double])
  {
    PatternSnoc(init, double);
  }

  lemma {:induction false} TrialDue(clock: int, init: Pattern, double: bool, at: int, n: nat, wait: nat)
    requires Unspent(init + [double]) && Next(clock, init, at, n, wait)
    ensures n < MAX_ATTEMPTS && (n > 0 ==> wait > BackoffMinutes(n) * MINUTE)
  {
    PatternSnoc(init, double);
  }

  lemma {:induction false} TriedOnce(f: Followed, g: Followed, clock: int, init: Pattern, c: Script, double: bool, at: int, n: nat, wait: nat)
    requires IsDown(c, double) && f == Tried(clock, init) && Next(clock, init, at, n, wait) && Unspent(init + [double])
    requires g == Follow(Follow(f, 0, Tick(wait)), 0, Run(0, c))
    ensures g == Tried(clock, init + [double])
  {
    TriedNow(f, clock, init, at, n, wait);
    TrialDue(clock, init, double, at, n, wait);
    TriedNext(clock, init, double, at, n, wait);
    TrialRecords(f, g, at, n, c, double, wait, clock);
  }

  lemma {:induction false} TrialsFollowed(x: Failures, w: World, init: Pattern, double: bool, wait: nat)
    requires wait == Wait(init)
    ensures FollowAll(w, 0, Trials(x, init + [double]))
            == Follow(Follow(FollowAll(w, 0, Trials(x, init)), 0, Tick(wait)), 0, Run(0, x.Pick(double)))
  {
    assert (init + [double])[..|init|] == init;
    FollowTwo(w, 0, Trials(x, init), Tick(wait), Run(0, x.Pick(double)));
  }

  lemma {:induction false} TriedSnoc(x: Failures, w: World, clock: int, init: Pattern, double: bool)
    requires x.Valid() && Unspent(init + [double]) && FollowAll(w, 0, Trials(x, init)) == Tried(clock, init)
    ensures FollowAll(w, 0, Trials(x, init + [double])) == Tried(clock, init + [double])
  {
    var f, g := FollowAll(w, 0, Trials(x, init)), FollowAll(w, 0, Trials(x, init + [double]));
    TrialsFollowed(x, w, init, double, Wait(init));
    TriedOnce(f, g, clock, init, x.Pick(double), double, clock + TicksOf(init), CountOf(init), Wait(init));
  }

  /**
   * For every pattern of failures that count once or twice there is a run that records just these, and whose
   * last attempt comes exactly the visited back-offs after its first.
   */
  lemma {:induction false} BoundIsAttained(x: Failures, w: World, clock: int, pattern: Pattern)
    requires x.Valid() && Unspent(pattern) && w == Stuck(clock, 0)
    ensures FollowAll(w, 0, Trials(x, pattern)) == Tried(clock, pattern)
  {
    if pattern != [] {
      var init, double := pattern[..|pattern| - 1], pattern[|pattern| - 1];
      assert pattern == init + [double];
      BoundIsAttained(x, w, clock, init);
      TriedSnoc(x, w, clock, init, double);
    }
  }

  lemma {:induction false} FiveDoubles() returns (pattern: Pattern)
    ensures |pattern| == 5 && forall k | 0 <= k < 5 :: pattern[k]
    ensures CountOf(pattern) == 10 && Unspent(pattern) && MinutesOf(pattern) == 140
  {
    var p1 := [true];
    var p2 := p1 + [true];
    var p3 := p2 + [true];
    var p4 := p3 + [true];
    pattern := p4 + [true];
    assert [] + [true] == p1;
    PatternSnoc([], true);
    PatternSnoc(p1, true);
    PatternSnoc(p2, true);
    PatternSnoc(p3, true);
    PatternSnoc(p4, true);
    assert Pow2(2) == 4 && Pow2(4) == 16 && Pow2(6) == 64;
    assert Pow2(8) == 256;
  }

  /** In particular, when every recording raises, the fifth failure makes the task DEAD 140 minutes and four ticks after the first. */
  lemma {:induction false} DeadAfterFiveRuns(x: Failures, w: World, clock: int) returns (pattern: Pattern)
    requires x.Valid() && w == Stuck(clock, 0)
    ensures |pattern| == 5 && forall k | 0 <= k < 5 :: pattern[k]
    ensures var v := FollowAll(w, 0, Trials(x, pattern)).w;
            v == Stuck(clock + 140 * MINUTE + 4, MAX_ATTEMPTS) && |v.tasks| == 1 && v.tasks[0].status == DEAD
  {
    pattern := FiveDoubles();
    BoundIsAttained(x, w, clock, pattern);
  }

  // ---------------------------------------------------------------- how many attempts

  /** The process survives the run, up to the catch block's save. */
  predicate Survives(c: Script) {
    && !c.read.Kills() && !c.vector.Kills() && !c.file.Kills() && !c.chunk.Kills() && !c.row.Kills()
    && !c.save.Kills() && !c.record.Kills()
  }

  /** The row has been settled or its count raised. */
  predicate Advanced(t: Task, u: Task) {
    u.status != PENDING || u.attempts > t.attempts
  }

  lemma {:induction false} BodyAdvances(w: World, i: nat, now: int, c: Script)
    requires i < |w.tasks| && w.tasks[i].status == PENDING && Survives(c)
    ensures var s := Body(Begin(w, i), i, now, c);
            && i < |s.w.tasks| && s.control != Stopped && s.task.attempts >= w.tasks[i].attempts
            && (s.control == GoesOn ==> Advanced(w.tasks[i], s.w.tasks[i]))
  {
    var t := DeleteFiles(DeleteVectors(Begin(w, i), c.vector), c.file);
    assert t.control == GoesOn || w.doc.Alive() || c.read != Ok;
  }

  lemma {:induction false} CatchAdvances(t: Task, b: Session, i: nat, now: int, fate: Fate)
    requires i < |b.w.tasks| && b.control != Stopped && b.task.attempts >= t.attempts
    requires b.control == GoesOn ==> Advanced(t, b.w.tasks[i])
    ensures i < |Catch(b, i, now, fate).tasks|
    ensures Advanced(t, Catch(b, i, now, fate).tasks[i]) <==> Advanced(t, b.w.tasks[i]) || fate.TakesEffect()
  {
  }

  /**
   * A run the process survives settles the task or raises its count, exactly if the try block had done so by
   * the time it raised or the catch block's save takes effect; a catch-block save that raises before it does
   * stops the progress.
   */
  lemma {:induction false} AttemptAdvancesIff(w: World, i: nat, c: Script)
    requires i < |w.tasks| && w.tasks[i].status == PENDING && Survives(c)
    ensures var v, b := Process(w, i, c), Body(Begin(w, i), i, w.clock + c.delay, c);
            && i < |v.tasks| && i < |b.w.tasks|
            && (Advanced(w.tasks[i], v.tasks[i]) <==> Advanced(w.tasks[i], b.w.tasks[i]) || c.recordAgain.TakesEffect())
  {
    var now := w.clock + c.delay;
    BodyAdvances(w, i, now, c);
    var b := Body(Begin(w, i), i, now, c);
    CatchAdvances(w.tasks[i], b, i, now, c.recordAgain);
    ProcessIs(w, i, c, b, Catch(b, i, now, c.recordAgain));
  }

  /** The worker's attempts at task `i` for as long as it is pending. */
  function AttemptsAt(w: World, i: nat, scripts: seq<Script>): World {
    if scripts == [] then w
    else
      var v := AttemptsAt(w, i, scripts[..|scripts| - 1]);
      if i < |v.tasks| && v.tasks[i].status == PENDING then Process(v, i, scripts[|scripts| - 1]) else v
  }

  lemma {:induction false} AttemptsAdvance(w: World, i: nat, scripts: seq<Script>)
    requires i < |w.tasks| && (w.tasks[i].status == PENDING ==> w.tasks[i].attempts < MAX_ATTEMPTS)
    requires forall c | c in scripts :: Survives(c) && c.recordAgain.TakesEffect()
    ensures var v := AttemptsAt(w, i, scripts);
            i < |v.tasks| && (v.tasks[i].status == PENDING ==> |scripts| <= v.tasks[i].attempts < MAX_ATTEMPTS)
  {
    if scripts != [] {
      var before, c := scripts[..|scripts| - 1], scripts[|scripts| - 1];
      AttemptsAdvance(w, i, before);
      var v := AttemptsAt(w, i, before);
      if v.tasks[i].status == PENDING {
        AttemptAdvancesIff(v, i, c);
        ProcessCounts(v, i, c);
      }
    }
  }

  /** A task whose attempts the process survives and whose catch-block saves take effect is settled after ten. */
  lemma {:induction false} SettledWithinTenAttempts(w: World, i: nat, scripts: seq<Script>)
    requires i < |w.tasks| && (w.tasks[i].status == PENDING ==> w.tasks[i].attempts < MAX_ATTEMPTS)
    requires |scripts| >= MAX_ATTEMPTS && forall c | c in scripts :: Survives(c) && c.recordAgain.TakesEffect()
    ensures var v := AttemptsAt(w, i, scripts); i < |v.tasks| && v.tasks[i].status != PENDING
  {
    AttemptsAdvance(w, i, scripts);
  }
}
