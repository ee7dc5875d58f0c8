/**
 * services/document-service/src/main/kotlin/com/docintel/document/scheduler/DeletionTaskWorker.kt: the
 * outbox of document deletions, one document with its stores and its task rows. This file is one `processTask`.
 */
module DeletionWorker {
  import opened Wrappers

  const MAX_ATTEMPTS := 10
  /** Times are in ticks of whatever length, a second at the most. */
  type Ticks = n: int | n >= 60 witness 60

  const MINUTE: Ticks

  datatype Status = PENDING | DONE | DEAD | CANCELLED
  datatype Task = Task(qdrantDone: bool, objectStoreDone: bool, attempts: nat, lastAttemptAt: Option<int>, status: Status)

  /** The row: none, one that is not being deleted (FAILED or any other status), or one that is. */
  datatype Document = Gone | Active | Failed | Deleting {
    predicate Alive() {
      Active? || Failed?
    }
  }

  /**
   * `jobs` are ingestions begun and not yet announced, `events` the completion events on their way, `drops` the
   * bulk deletions that have dropped the tenant's collection and not yet marked the documents, `uploads` those
   * that have stored the file and whose row is still to be saved.
   */
  datatype World = World(doc: Document, chunks: bool, vectors: bool, files: bool, tasks: seq<Task>, clock: int,
                         jobs: nat, events: seq<bool>, drops: nat, uploads: nat)

  /** How a call turns out: it may raise or the process may die, each before or after the effect. */
  datatype Fate = Ok | Raises | RaisesAfter | Dies | DiesAfter {
    predicate TakesEffect() {
      Ok? || RaisesAfter? || DiesAfter?
    }

    predicate Kills() {
      Dies? || DiesAfter?
    }
  }

  /** The calls of one `processTask`: both reads, the two store deletions, the two row deletions, the saves. */
  datatype Script = Script(read: Fate, vector: Fate, file: Fate, chunk: Fate, row: Fate, save: Fate,
                           record: Fate, recordAgain: Fate, delay: nat)

  // ---------------------------------------------------------------- back-off

  function Pow2(k: nat): nat {
    if k == 0 then 1 else 2 * Pow2(k - 1)
  }

  function BackoffMinutes(attempts: nat): nat {
    if Pow2(attempts) < 60 then Pow2(attempts) else 60
  }

  predicate IsReadyForRetry(task: Task, now: int) {
    match task.lastAttemptAt
    case None => true
    case Some(last) => last < now - BackoffMinutes(task.attempts) * MINUTE
  }

  // ---------------------------------------------------------------- one processTask

  datatype Control = GoesOn | Caught | Stopped

  /** The world, the task as held in memory, and whether control goes on, is in the catch block or is gone. */
  datatype Session = Session(w: World, task: Task, control: Control)

  function ControlOf(fate: Fate): Control {
    if fate == Ok then GoesOn else if fate.Kills() then Stopped else Caught
  }

  function Save(s: Session, i: nat, fate: Fate): Session
    requires i < |s.w.tasks|
  {
    var w := if fate.TakesEffect() then s.w.(tasks := s.w.tasks[i := s.task]) else s.w;
    Session(w, s.task, ControlOf(fate))
  }

  /** The vector service answers false for any error of its own. */
  function DeleteVectors(s: Session, fate: Fate): Session {
    if s.control != GoesOn || s.task.qdrantDone then s
    else Session(if fate.TakesEffect() then s.w.(vectors := false) else s.w, s.task.(qdrantDone := fate == Ok),
                 if fate.Kills() then Stopped else GoesOn)
  }

  /** A raising object store is caught where it is called. */
  function DeleteFiles(s: Session, fate: Fate): Session {
    if s.control != GoesOn || s.task.objectStoreDone then s
    else Session(if fate.TakesEffect() then s.w.(files := false) else s.w, s.task.(objectStoreDone := fate == Ok),
                 if fate.Kills() then Stopped else GoesOn)
  }

  function DeleteChunks(s: Session, fate: Fate): Session {
    Session(if fate.TakesEffect() then s.w.(chunks := false) else s.w, s.task, ControlOf(fate))
  }

  /** The chunk table's foreign key cascades. */
  function DeleteRow(s: Session, fate: Fate): Session {
    if s.control != GoesOn then s
    else Session(if fate.TakesEffect() then s.w.(doc := Gone, chunks := false) else s.w, s.task, ControlOf(fate))
  }

  function CompleteTask(s: Session, i: nat, c: Script): Session
    requires i < |s.w.tasks|
  {
    var t := DeleteRow(DeleteChunks(s, c.chunk), c.row);
    if t.control != GoesOn then t else Save(t.(task := t.task.(status := DONE)), i, c.save)
  }

  function RecordAttempt(s: Session, i: nat, now: int, fate: Fate): Session
    requires i < |s.w.tasks|
  {
    var attempts := s.task.attempts + 1;
    var task := s.task.(attempts := attempts, lastAttemptAt := Some(now),
                        status := if attempts >= MAX_ATTEMPTS then DEAD else s.task.status);
    Save(s.(task := task), i, fate)
  }

  /** The catch block records the attempt, also when it was the recording that raised. */
  function Catch(s: Session, i: nat, now: int, fate: Fate): World
    requires i < |s.w.tasks|
  {
    if s.control == Caught then RecordAttempt(s, i, now, fate).w else s.w
  }

  /** What follows once both stores have been dealt with. */
  function Finish(s: Session, i: nat, now: int, c: Script): Session
    requires i < |s.w.tasks|
  {
    if s.control != GoesOn then s
    else if s.task.qdrantDone && s.task.objectStoreDone then CompleteTask(s, i, c)
    else RecordAttempt(s, i, now, c.record)
  }

  /** What follows the vectors' deletion. */
  function Rest(s: Session, i: nat, now: int, c: Script): Session
    requires i < |s.w.tasks|
  {
    Finish(DeleteFiles(s, c.file), i, now, c)
  }

  /** The body of the try block. */
  function Body(s: Session, i: nat, now: int, c: Script): Session
    requires i < |s.w.tasks|
  {
    if c.read != Ok then s.(control := ControlOf(c.read))
    else if s.w.tasks[i].status != PENDING then s
    else if s.w.doc.Alive() then Save(s.(task := s.task.(status := CANCELLED)), i, c.save)
    else Rest(DeleteVectors(s, c.vector), i, now, c)
  }

  function Begin(w: World, i: nat): Session
    requires i < |w.tasks|
  {
    Session(w, w.tasks[i].(status := PENDING), GoesOn)
  }

  /** The task was loaded as PENDING; the row may have been cancelled since, but nothing else of it changed. */
  function Process(w: World, i: nat, c: Script): World
    requires i < |w.tasks|
  {
    var now := w.clock + c.delay;
    Catch(Body(Begin(w, i), i, now, c), i, now, c.recordAgain).(clock := now)
  }

  // ---------------------------------------------------------------- the worker's own code

  class DeletionTask {
    var qdrantDone: bool
    var objectStoreDone: bool
    var attempts: nat
    var lastAttemptAt: Option<int>
    var taskStatus: Status

    constructor (row: Task)
      ensures Value() == row
    {
      qdrantDone, objectStoreDone, attempts := row.qdrantDone, row.objectStoreDone, row.attempts;
      lastAttemptAt, taskStatus := row.lastAttemptAt, row.status;
    }

    function Value(): Task
      reads this
    {
      Task(qdrantDone, objectStoreDone, attempts, lastAttemptAt, taskStatus)
    }
  }

  lemma {:induction false} ProcessIs(w: World, i: nat, c: Script, body: Session, v: World)
    requires i < |w.tasks| && body == Body(Begin(w, i), i, w.clock + c.delay, c) && i < |body.w.tasks|
    requires v == Catch(body, i, w.clock + c.delay, c.recordAgain)
    ensures Process(w, i, c) == v.(clock := w.clock + c.delay)
  {
  }

  class DeletionTaskWorker {
    var world: World

    constructor (world: World)
      ensures this.world == world
    {
      this.world := world;
    }

    function Now(task: DeletionTask, control: Control): Session
      reads this, task
    {
      Session(world, task.Value(), control)
    }

    method SaveTask(task: DeletionTask, i: nat, fate: Fate) returns (control: Control)
      requires i < |world.tasks|
      modifies this
      ensures Now(task, control) == Save(old(Now(task, GoesOn)), i, fate)
    {
      if fate.TakesEffect() {
        world := world.(tasks := world.tasks[i := task.Value()]);
      }
      control := ControlOf(fate);
    }

    method Complete(task: DeletionTask, i: nat, c: Script) returns (control: Control)
      requires i < |world.tasks|
      modifies this, task
      ensures Now(task, control) == CompleteTask(old(Now(task, GoesOn)), i, c)
    {
      if c.chunk.TakesEffect() {
        world := world.(chunks := false);
      }
      control := ControlOf(c.chunk);
      if control == GoesOn {
        if c.row.TakesEffect() {
          world := world.(doc := Gone, chunks := false);
        }
        control := ControlOf(c.row);
      }
      if control == GoesOn {
        task.taskStatus := DONE;
        control := SaveTask(task, i, c.save);
      }
    }

    method Record(task: DeletionTask, i: nat, now: int, fate: Fate) returns (control: Control)
      requires i < |world.tasks|
      modifies this, task
      ensures Now(task, control) == RecordAttempt(old(Now(task, GoesOn)), i, now, fate)
    {
      task.attempts := task.attempts + 1;
      task.lastAttemptAt := Some(now);
      if task.attempts >= MAX_ATTEMPTS {
        task.taskStatus := DEAD;
      }
      control := SaveTask(task, i, fate);
    }

    method CleanStores(task: DeletionTask, c: Script) returns (control: Control)
      modifies this, task
      ensures Now(task, control) == DeleteFiles(DeleteVectors(old(Now(task, GoesOn)), c.vector), c.file)
    {
      if !task.qdrantDone {
        if c.vector.TakesEffect() {
          world := world.(vectors := false);
        }
        if c.vector.Kills() {
          return Stopped;
        }
        task.qdrantDone := c.vector == Ok;
      }
      if !task.objectStoreDone {
        if c.file.TakesEffect() {
          world := world.(files := false);
        }
        if c.file.Kills() {
          return Stopped;
        }
        task.objectStoreDone := c.file == Ok;
      }
      return GoesOn;
    }

    method Try(task: DeletionTask, i: nat, now: int, c: Script) returns (control: Control)
      requires i < |world.tasks|
      modifies this, task
      ensures Now(task, control) == Body(old(Now(task, GoesOn)), i, now, c)
    {
      if c.read != Ok {
        return ControlOf(c.read);
      }
      if world.tasks[i].status != PENDING {
        return GoesOn;
      }
      if world.doc.Alive() {
        task.taskStatus := CANCELLED;
        control := SaveTask(task, i, c.save);
        return;
      }
      control := CleanStores(task, c);
      if control != GoesOn {
        return;
      }
      if task.qdrantDone && task.objectStoreDone {
        control := Complete(task, i, c);
      } else {
        control := Record(task, i, now, c.record);
      }
    }

    /** The catch block. */
    method RecordCaught(task: DeletionTask, i: nat, now: int, c: Script, before: Control) returns (control: Control)
      requires i < |world.tasks|
      modifies this, task
      ensures world == Catch(old(Now(task, before)), i, now, c.recordAgain)
    {
      control := before;
      if control == Caught {
        control := Record(task, i, now, c.recordAgain);
      }
    }

    method ProcessTask(task: DeletionTask, i: nat, c: Script)
      requires i < |world.tasks| && Now(task, GoesOn) == Begin(world, i)
      modifies this, task
      ensures world == Process(old(world), i, c)
    {
      var now := world.clock + c.delay;
      ghost var before := world;
      var control := Try(task, i, now, c);
      ghost var body := Now(task, control);
      control := RecordCaught(task, i, now, c, control);
      ProcessIs(before, i, c, body, world);
      world := world.(clock := now);
    }
  }

  // ---------------------------------------------------------------- what a done-flag says

  /** A done-flag that is set says the truth about its store. */
  predicate Truthful(w: World, t: Task) {
    (t.qdrantDone ==> !w.vectors) && (t.objectStoreDone ==> !w.files)
  }

  predicate NoOrphans(w: World) {
    w.doc == Gone ==> !w.vectors && !w.files && !w.chunks
  }

  /** What a session in progress has done to the world it began in: it has only removed, and only its own row changed. */
  predicate Removes(w: World, v: World, i: nat) {
    && (v.vectors ==> w.vectors) && (v.files ==> w.files) && (v.chunks ==> w.chunks)
    && (v.doc == w.doc || (v.doc == Gone && w.doc == Deleting))
    && v.jobs == w.jobs && v.events == w.events && v.drops == w.drops && v.uploads == w.uploads
    && |v.tasks| == |w.tasks| && forall j | 0 <= j < |w.tasks| && j != i :: v.tasks[j] == w.tasks[j]
  }

  /** A task still owes its stores' cleaning, unless it is DONE with both flags up. */
  predicate Settling(u: Task) {
    u.status == PENDING || u.status == DEAD || (u.status == DONE && u.qdrantDone && u.objectStoreDone)
  }

  /** A store goes clean, or its flag comes on, only together with the deletion; a flag set at the start skips it. */
  predicate Follows(w: World, t: Task, v: World, u: Task) {
    && (if t.qdrantDone then u.qdrantDone && v.vectors == w.vectors else u.qdrantDone ==> !v.vectors)
    && (if t.objectStoreDone then u.objectStoreDone && v.files == w.files else u.objectStoreDone ==> !v.files)
  }

  /** The row can only go with the chunks gone and both flags up. */
  predicate RowGoneLast(w: World, v: World, u: Task) {
    v.doc != w.doc ==> !v.chunks && u.qdrantDone && u.objectStoreDone
  }

  predicate Keeps(w: World, i: nat, s: Session)
    requires i < |w.tasks|
  {
    var t := w.tasks[i];
    && Removes(w, s.w, i) && i < |s.w.tasks|
    && Follows(w, t, s.w, s.task) && RowGoneLast(w, s.w, s.task) && Settling(s.task)
    && (s.w.tasks[i] == t || (Follows(w, t, s.w, s.w.tasks[i]) && Settling(s.w.tasks[i])))
  }

  lemma {:induction false} StoresKeep(w: World, i: nat, c: Script)
    requires i < |w.tasks| && !w.doc.Alive() && w.tasks[i].status == PENDING
    ensures Keeps(w, i, DeleteFiles(DeleteVectors(Begin(w, i), c.vector), c.file))
    ensures var s := DeleteFiles(DeleteVectors(Begin(w, i), c.vector), c.file);
            s.w.doc == w.doc && s.w.tasks == w.tasks && s.control != Caught
  {
  }

  lemma {:induction false} SaveKeeps(w: World, i: nat, s: Session, fate: Fate)
    requires i < |w.tasks| && Keeps(w, i, s)
    ensures Keeps(w, i, Save(s, i, fate))
  {
  }

  lemma {:induction false} SameFlagsKeep(w: World, i: nat, s: Session, u: Task)
    requires i < |w.tasks| && Keeps(w, i, s)
    requires u.qdrantDone == s.task.qdrantDone && u.objectStoreDone == s.task.objectStoreDone && Settling(u)
    ensures Keeps(w, i, s.(task := u))
  {
  }

  lemma {:induction false} RecordKeeps(w: World, i: nat, s: Session, now: int, fate: Fate)
    requires i < |w.tasks| && Keeps(w, i, s)
    ensures Keeps(w, i, RecordAttempt(s, i, now, fate))
  {
    var attempts := s.task.attempts + 1;
    var task := s.task.(attempts := attempts, lastAttemptAt := Some(now),
                        status := if attempts >= MAX_ATTEMPTS then DEAD else s.task.status);
    SameFlagsKeep(w, i, s, task);
    SaveKeeps(w, i, s.(task := task), fate);
  }

  lemma {:induction false} CompleteKeeps(w: World, i: nat, s: Session, c: Script)
    requires i < |w.tasks| && Keeps(w, i, s) && !w.doc.Alive() && s.w.doc == w.doc
    requires s.task.qdrantDone && s.task.objectStoreDone
    ensures Keeps(w, i, CompleteTask(s, i, c))
  {
    var t := DeleteRow(DeleteChunks(s, c.chunk), c.row);
    assert Keeps(w, i, t);
    SaveKeeps(w, i, t.(task := t.task.(status := DONE)), c.save);
  }

  lemma {:induction false} BodyKeeps(w: World, i: nat, now: int, c: Script)
    requires i < |w.tasks| && !w.doc.Alive() && w.tasks[i].status == PENDING
    ensures Keeps(w, i, Body(Begin(w, i), i, now, c))
  {
    var s := Begin(w, i);
    if c.read == Ok {
      var t := DeleteFiles(DeleteVectors(s, c.vector), c.file);
      StoresKeep(w, i, c);
      if t.task.qdrantDone && t.task.objectStoreDone {
        CompleteKeeps(w, i, t, c);
      } else {
        RecordKeeps(w, i, t, now, c.record);
      }
    }
  }

  /** The chunks go first, and the row only if that went through; a row deletion that fails leaves the row without its chunks. */
  lemma {:induction false} ChunksGoFirst(s: Session, i: nat, c: Script)
    requires i < |s.w.tasks|
    ensures var t := CompleteTask(s, i, c);
            && (c.chunk.TakesEffect() ==> !t.w.chunks)
            && (c.chunk != Ok ==> t.w.doc == s.w.doc && t.w.tasks == s.w.tasks)
            && (c.chunk == Ok && !c.row.TakesEffect() ==> t.w.doc == s.w.doc && t.w.tasks == s.w.tasks)
            && (c.chunk == Ok && c.row == Ok && c.save.TakesEffect() ==> t.w.doc == Gone && t.w.tasks[i].status == DONE)
  {
  }

  /** What a run may leave of the world it began in. */
  predicate Leaves(w: World, i: nat, v: World)
    requires i < |w.tasks|
  {
    var t := w.tasks[i];
    && Removes(w, v, i)
    && (v.tasks[i] == t || (Follows(w, t, v, v.tasks[i]) && Settling(v.tasks[i])))
    && (v.doc != w.doc ==> !v.chunks
                           && (if t.qdrantDone then v.vectors == w.vectors else !v.vectors)
                           && (if t.objectStoreDone then v.files == w.files else !v.files))
  }

  lemma {:induction false} KeepsLeaves(w: World, i: nat, s: Session, now: int)
    requires i < |w.tasks| && Keeps(w, i, s)
    ensures Leaves(w, i, s.w.(clock := now))
  {
  }

  lemma {:induction false} CatchLeaves(w: World, i: nat, s: Session, now: int, fate: Fate)
    requires i < |w.tasks| && Keeps(w, i, s)
    ensures Leaves(w, i, Catch(s, i, now, fate).(clock := now))
  {
    RecordKeeps(w, i, s, now, fate);
    KeepsLeaves(w, i, RecordAttempt(s, i, now, fate), now);
    KeepsLeaves(w, i, s, now);
  }

  /** One `processTask`, wherever it is cut off: stores and row only go, and never before their time. */
  lemma {:induction false} ProcessLeaves(w: World, i: nat, c: Script)
    requires i < |w.tasks| && !w.doc.Alive() && w.tasks[i].status == PENDING
    ensures Leaves(w, i, Process(w, i, c))
  {
    var now := w.clock + c.delay;
    BodyKeeps(w, i, now, c);
    var b := Body(Begin(w, i), i, now, c);
    CatchLeaves(w, i, b, now, c.recordAgain);
    var v := Catch(b, i, now, c.recordAgain).(clock := now);
    assert Leaves(w, i, v);
    assert Process(w, i, c) == v;
  }

  /** When a run removes the document row, nothing is orphaned iff the task's persisted flags told the truth. */
  lemma {:induction false} OrphanFreeIffTruthful(w: World, i: nat, c: Script)
    requires i < |w.tasks| && w.tasks[i].status == PENDING && w.doc == Deleting
    requires Process(w, i, c).doc == Gone
    ensures NoOrphans(Process(w, i, c)) <==> Truthful(w, w.tasks[i])
  {
    ProcessLeaves(w, i, c);
  }

  /** A row saved once or not at all, its flags as they were. */
  predicate OwnRowOnly(w: World, i: nat, v: World) {
    && i < |w.tasks| == |v.tasks|
    && v == w.(tasks := w.tasks[i := v.tasks[i]])
    && v.tasks[i].qdrantDone == w.tasks[i].qdrantDone && v.tasks[i].objectStoreDone == w.tasks[i].objectStoreDone
  }

  lemma {:induction false} SaveSpares(w: World, i: nat, s: Session, fate: Fate)
    requires OwnRowOnly(w, i, s.w)
    requires s.task.qdrantDone == w.tasks[i].qdrantDone && s.task.objectStoreDone == w.tasks[i].objectStoreDone
    ensures OwnRowOnly(w, i, Save(s, i, fate).w)
  {
    assert s.w.tasks[i := s.task] == w.tasks[i := s.task];
  }

  lemma {:induction false} RecordSpares(w: World, i: nat, s: Session, now: int, fate: Fate)
    requires OwnRowOnly(w, i, s.w)
    requires s.task.qdrantDone == w.tasks[i].qdrantDone && s.task.objectStoreDone == w.tasks[i].objectStoreDone
    ensures OwnRowOnly(w, i, RecordAttempt(s, i, now, fate).w)
  {
    var attempts := s.task.attempts + 1;
    var task := s.task.(attempts := attempts, lastAttemptAt := Some(now),
                        status := if attempts >= MAX_ATTEMPTS then DEAD else s.task.status);
    SaveSpares(w, i, s.(task := task), fate);
  }

  lemma {:induction false} BodySpares(w: World, i: nat, now: int, c: Script)
    requires i < |w.tasks| && (w.doc.Alive() || w.tasks[i].status != PENDING)
    ensures var b := Body(Begin(w, i), i, now, c);
            && OwnRowOnly(w, i, b.w)
            && b.task.qdrantDone == w.tasks[i].qdrantDone && b.task.objectStoreDone == w.tasks[i].objectStoreDone
  {
    var s := Begin(w, i);
    assert w.tasks[i := w.tasks[i]] == w.tasks;
    SaveSpares(w, i, s.(task := s.task.(status := CANCELLED)), c.save);
  }

  /** A run on a living document, or on a task that is not pending, touches its own row at most, and not its flags. */
  lemma {:induction false} RunSpares(w: World, i: nat, c: Script)
    requires i < |w.tasks| && (w.doc.Alive() || w.tasks[i].status != PENDING)
    ensures OwnRowOnly(w.(clock := w.clock + c.delay), i, Process(w, i, c))
  {
    var now := w.clock + c.delay;
    var b := Body(Begin(w, i), i, now, c);
    BodySpares(w, i, now, c);
    RecordSpares(w, i, b, now, c.recordAgain);
    var v := Catch(b, i, now, c.recordAgain);
    assert OwnRowOnly(w, i, v);
    assert Process(w, i, c) == v.(clock := now);
  }

  /**
   * A task cancelled since the batch was loaded comes back as PENDING exactly when re-reading it raises:
   * the catch block saves the stale copy over the cancelled row, if that save works and the task is not DEAD by it.
   */
  predicate Revives(t: Task, c: Script) {
    c.read != Ok && !c.read.Kills() && c.recordAgain.TakesEffect() && t.attempts + 1 < MAX_ATTEMPTS
  }

  lemma {:induction false} CancelledTaskRevived(w: World, i: nat, c: Script)
    requires i < |w.tasks| && w.tasks[i].status == CANCELLED
    ensures i < |Process(w, i, c).tasks|
    ensures Process(w, i, c).tasks[i].status == PENDING <==> Revives(w.tasks[i], c)
  {
  }

  /** What others do while the session is in progress: an ingestion writes vectors, uploads store the file. */
  function Joined(w: World, vectors: bool, stored: nat): World {
    w.(vectors := w.vectors || vectors, files := w.files || stored > 0, uploads := w.uploads + stored)
  }

  function Written(s: Session, vectors: bool, stored: nat): Session {
    s.(w := Joined(s.w, vectors, stored))
  }

  lemma {:induction false} SaveWritten(s: Session, i: nat, fate: Fate, vectors: bool, stored: nat)
    requires i < |s.w.tasks|
    ensures Save(Written(s, vectors, stored), i, fate) == Written(Save(s, i, fate), vectors, stored)
    ensures |Save(s, i, fate).w.tasks| == |s.w.tasks|
  {
  }

  lemma {:induction false} RecordWritten(s: Session, i: nat, now: int, fate: Fate, vectors: bool, stored: nat)
    requires i < |s.w.tasks|
    ensures RecordAttempt(Written(s, vectors, stored), i, now, fate) == Written(RecordAttempt(s, i, now, fate), vectors, stored)
    ensures |RecordAttempt(s, i, now, fate).w.tasks| == |s.w.tasks|
  {
    var attempts := s.task.attempts + 1;
    var task := s.task.(attempts := attempts, lastAttemptAt := Some(now),
                        status := if attempts >= MAX_ATTEMPTS then DEAD else s.task.status);
    SaveWritten(s.(task := task), i, fate, vectors, stored);
  }

  lemma {:induction false} CompleteWritten(s: Session, i: nat, c: Script, vectors: bool, stored: nat)
    requires i < |s.w.tasks|
    ensures CompleteTask(Written(s, vectors, stored), i, c) == Written(CompleteTask(s, i, c), vectors, stored)
    ensures |CompleteTask(s, i, c).w.tasks| == |s.w.tasks|
  {
    var t := DeleteRow(DeleteChunks(s, c.chunk), c.row);
    assert DeleteRow(DeleteChunks(Written(s, vectors, stored), c.chunk), c.row) == Written(t, vectors, stored);
    SaveWritten(t.(task := t.task.(status := DONE)), i, c.save, vectors, stored);
  }

  /** What is stored or written once both stores have been dealt with stays, and changes nothing else: it might as well come after the run. */
  lemma {:induction false} StoreInsideIsStoreAfter(s: Session, i: nat, now: int, c: Script, vectors: bool, stored: nat)
    requires i < |s.w.tasks|
    ensures var b := Finish(s, i, now, c);
            && Finish(Written(s, vectors, stored), i, now, c) == Written(b, vectors, stored)
            && i < |b.w.tasks|
            && Catch(Written(b, vectors, stored), i, now, c.recordAgain) == Joined(Catch(b, i, now, c.recordAgain), vectors, stored)
  {
    CompleteWritten(s, i, c, vectors, stored);
    RecordWritten(s, i, now, c.record, vectors, stored);
    RecordWritten(Finish(s, i, now, c), i, now, c.recordAgain, vectors, stored);
  }

  /** So are the vectors that are written once the vectors have been dealt with. */
  lemma {:induction false} WriteInsideIsWriteAfter(s: Session, i: nat, now: int, c: Script)
    requires i < |s.w.tasks|
    ensures var b := Rest(s, i, now, c);
            && Rest(Written(s, true, 0), i, now, c) == Written(b, true, 0)
            && i < |b.w.tasks|
            && Catch(Written(b, true, 0), i, now, c.recordAgain) == Joined(Catch(b, i, now, c.recordAgain), true, 0)
  {
    var t := DeleteFiles(s, c.file);
    assert DeleteFiles(Written(s, true, 0), c.file) == Written(t, true, 0);
    StoreInsideIsStoreAfter(t, i, now, c, true, 0);
  }
}
