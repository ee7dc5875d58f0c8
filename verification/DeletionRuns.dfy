/**
 * What acts on a document between two runs of the deletion worker (DocumentService.kt, FilesAvailableConsumer.kt,
 * IngestionCompleteConsumer.kt, ReconciliationSweeper.kt, the ingestion pipeline): uploads and registrations, which
 * store the file first and save the row later or never, ingestions that write in any state, their completion
 * events, single and bulk deletions, the collection drop and the reconciliation sweep. A `processTask` is one
 * step; a write or a stored file that falls inside one, behind the deletion it survives, counts as right after it
 * (WriteInsideIsWriteAfter, StoreInsideIsStoreAfter).
 */
module DeletionRuns {
  import opened Wrappers
  import opened DeletionWorker

  // ---------------------------------------------------------------- runs

  datatype Action =
    | StoreFile                  // of an upload, or of the data loader
    | SaveRow(found: Document, known: nat, again: bool)  // its transaction commits, having found such a row and as many tasks
    | AbandonUpload              // saving or committing raises, or the process dies before
    | BeginIngest(queued: bool)  // `processDocument`, whatever the row's status
    | QueueIngest                // the event of a registration, whatever has become of the row since
    | WriteVectors               // an ingestion under way, whatever the row's status
    | AppendChunks
    | Announce(ok: bool, again: bool)  // an ingestion publishes its end; a failed one may be redelivered
    | Consume(again: bool)       // the completion event overwrites the row's status, and may be redelivered
    | Delete
    | DropCollection(told: bool)  // a bulk deletion drops the tenant's vectors, and is told so or not
    | AbandonDrop                // the process dies before it marks the documents
    | DeleteAll(dropped: bool)   // a bulk deletion marks the documents
    | Reconcile                  // the daily sweep, if the tenant has some other document that is not being deleted
    | Tick(d: nat)
    | Run(i: nat, c: Script)     // the worker reaches task i of a batch loaded as PENDING

  function Cancelled(t: Task): Task {
    if t.status == PENDING then t.(status := CANCELLED) else t
  }

  function CancelFirst(tasks: seq<Task>, n: nat): (r: seq<Task>)
    ensures |r| == |tasks| && forall j | 0 <= j < |tasks| :: r[j] == if j < n then Cancelled(tasks[j]) else tasks[j]
  {
    seq(|tasks|, j requires 0 <= j < |tasks| => if j < n then Cancelled(tasks[j]) else tasks[j])
  }

  /** Nothing is saved if the row was a duplicate, or was there and has gone. */
  predicate Saves(w: World, found: Document) {
    found != Active && (found != Gone ==> w.doc != Gone)
  }

  function Saved(w: World, found: Document, known: nat): World {
    if Saves(w, found)
    then w.(doc := Active, tasks := if found == Deleting then CancelFirst(w.tasks, known) else w.tasks)
    else w
  }

  predicate Loaded(w: World, i: nat) {
    i < |w.tasks| && (w.tasks[i].status == PENDING || w.tasks[i].status == CANCELLED)
    && IsReadyForRetry(w.tasks[i], w.clock)
  }

  function NewTask(dropped: bool): Task {
    Task(dropped, false, 0, None, PENDING)
  }

  function Marked(w: World, dropped: bool): World {
    if w.doc.Alive() then w.(doc := Deleting, tasks := w.tasks + [NewTask(dropped)]) else w
  }

  function Apply(w: World, a: Action): World {
    match a
    case StoreFile => w.(files := true, uploads := w.uploads + 1)
    case SaveRow(found, known, again) =>
      if w.uploads == 0 then w
      else Saved(w, found, known).(uploads := if again then w.uploads else w.uploads - 1)
    case AbandonUpload => if w.uploads == 0 then w else w.(uploads := w.uploads - 1)
    case BeginIngest(queued) =>
      if w.doc == Gone then w
      else if queued then w.(doc := Active, jobs := w.jobs + 1)
      else w.(doc := Failed)
    case QueueIngest => w.(jobs := w.jobs + 1)
    case WriteVectors => if w.jobs > 0 then w.(vectors := true) else w
    case AppendChunks => if w.jobs > 0 && w.doc != Gone then w.(chunks := true) else w
    case Announce(ok, again) =>
      if w.jobs == 0 then w
      else w.(jobs := if again && !ok then w.jobs else w.jobs - 1, events := w.events + [ok])
    case Consume(again) =>
      if w.events == [] then w
      else w.(events := if again then w.events else w.events[1..],
              doc := if w.doc == Gone then Gone else if w.events[0] then Active else Failed)
    case Delete => Marked(w, false)
    case DropCollection(told) => w.(vectors := false, drops := if told then w.drops + 1 else w.drops)
    case AbandonDrop => if w.drops > 0 then w.(drops := w.drops - 1) else w
    case DeleteAll(dropped) =>
      if !dropped then Marked(w, false)
      else if w.drops == 0 then w
      else Marked(w, true).(drops := w.drops - 1)
    case Reconcile => if w.doc.Alive() then w else w.(vectors := false)
    case Tick(d) => w.(clock := w.clock + d)
    case Run(i, c) => if Loaded(w, i) then Process(w, i, c) else w
  }

  const EMPTY := World(Gone, false, false, false, [], 0, 0, [], 0, 0)

  function Exec(actions: seq<Action>): World {
    if actions == [] then EMPTY else Apply(Exec(actions[..|actions| - 1]), actions[|actions| - 1])
  }

  lemma {:induction false} Then(actions: seq<Action>, w: World, a: Action, v: World)
    requires Exec(actions) == w && Apply(w, a) == v
    ensures Exec(actions + [a]) == v
  {
    assert (actions + [a])[..|actions|] == actions;
  }

  // ---------------------------------------------------------------- nothing is left when the row goes

  predicate PendingWith(w: World, vectorsDone: bool, filesDone: bool) {
    exists j | 0 <= j < |w.tasks| ::
      w.tasks[j].status == PENDING && (vectorsDone ==> w.tasks[j].qdrantDone) && (filesDone ==> w.tasks[j].objectStoreDone)
  }

  /** The file of an upload that has not come to its end is not counted against anyone. */
  function Awaited(w: World): World {
    if w.uploads > 0 then w.(files := false) else w
  }

  /** No orphan, and every flag that a coming run will rely on is true: those of pending tasks, and those of a drop not yet marked. */
  predicate Sound(w: World) {
    && NoOrphans(Awaited(w))
    && (forall j | 0 <= j < |w.tasks| && w.tasks[j].status == PENDING :: Truthful(Awaited(w), w.tasks[j]))
    && (w.drops > 0 ==> !w.vectors)
  }

  /** The last upload under way ends, its file still in the store. */
  predicate Ends(w: World, a: Action) {
    w.uploads == 1 && w.files && (a.AbandonUpload? || (a.SaveRow? && !a.again))
  }

  /**
   * A step that comes too late: a write after the row went, after a pending task's vectors were flagged or
   * between drop and mark; an upload that ends without a row or under a pending task that has flagged the file
   * and that it does not cancel; and the revival of a cancelled task whose flags are no longer true.
   */
  predicate Late(w: World, a: Action) {
    match a
    case WriteVectors => w.jobs > 0 && (w.doc == Gone || w.drops > 0 || PendingWith(w, true, false))
    case AbandonUpload => Ends(w, a) && (w.doc == Gone || PendingWith(w, false, true))
    case SaveRow(found, known, again) =>
      Ends(w, a) && (if Saves(w, found) then PendingWith(Saved(w, found, known), false, true)
                     else w.doc == Gone || PendingWith(w, false, true))
    case Run(i, c) =>
      Loaded(w, i) && w.tasks[i].status == CANCELLED && Revives(w.tasks[i], c) && !Truthful(Awaited(w), w.tasks[i])
    case _ => false
  }

  lemma {:induction false} RunSoundIff(w: World, i: nat, c: Script)
    requires Sound(w) && Loaded(w, i)
    ensures Sound(Process(w, i, c)) <==> !Late(w, Run(i, c))
  {
    if w.tasks[i].status == PENDING && !w.doc.Alive() {
      ProcessLeaves(w, i, c);
    } else {
      RunSpares(w, i, c);
      if w.tasks[i].status == CANCELLED {
        CancelledTaskRevived(w, i, c);
      }
    }
  }

  lemma {:induction false} MarkSound(w: World, dropped: bool)
    requires Sound(w) && (dropped ==> !w.vectors)
    ensures Sound(Marked(w, dropped))
  {
  }

  lemma {:induction false} SaveSoundIff(w: World, found: Document, known: nat, again: bool)
    requires Sound(w)
    ensures Sound(Apply(w, SaveRow(found, known, again))) <==> !Late(w, SaveRow(found, known, again))
  {
  }

  lemma {:induction false} AbandonSoundIff(w: World)
    requires Sound(w)
    ensures Sound(Apply(w, AbandonUpload)) <==> !Late(w, AbandonUpload)
  {
  }

  lemma {:induction false} WriteSoundIff(w: World)
    requires Sound(w)
    ensures Sound(Apply(w, WriteVectors)) <==> !Late(w, WriteVectors)
  {
  }

  /** In a sound state a step keeps the state sound exactly if it does not come too late. */
  lemma {:induction false} StepSoundIff(w: World, a: Action)
    requires Sound(w)
    ensures Sound(Apply(w, a)) <==> !Late(w, a)
  {
    match a
    case Run(i, c) => if Loaded(w, i) { RunSoundIff(w, i, c); }
    case SaveRow(found, known, again) => SaveSoundIff(w, found, known, again);
    case AbandonUpload => AbandonSoundIff(w);
    case WriteVectors => WriteSoundIff(w);
    case Delete => MarkSound(w, false);
    case DeleteAll(dropped) => MarkSound(w, dropped && w.drops > 0);
    case _ =>
  }

  /** Every state on the way is sound. */
  predicate AlwaysSound(actions: seq<Action>) {
    Sound(Exec(actions)) && (actions != [] ==> AlwaysSound(actions[..|actions| - 1]))
  }

  predicate NeverLate(actions: seq<Action>) {
    actions != [] ==>
      NeverLate(actions[..|actions| - 1]) && !Late(Exec(actions[..|actions| - 1]), actions[|actions| - 1])
  }

  /**
   * For every run, crashes and all: in every state on the way a document whose row is gone has left nothing
   * behind and the flags relied on are true, if and only if no step comes too late.
   */
  lemma {:induction false} NoOrphansIff(actions: seq<Action>)
    ensures AlwaysSound(actions) <==> NeverLate(actions)
  {
    if actions != [] {
      var init, a := actions[..|actions| - 1], actions[|actions| - 1];
      NoOrphansIff(init);
      if AlwaysSound(init) {
        StepSoundIff(Exec(init), a);
      }
    }
  }

  predicate EndsUpload(w: World, a: Action) {
    w.uploads > 0 && (a.AbandonUpload? || (a.SaveRow? && !a.again))
  }

  predicate EndsDrop(w: World, a: Action) {
    w.drops > 0 && (a.AbandonDrop? || (a.DeleteAll? && a.dropped))
  }

  predicate EndsJob(w: World, a: Action) {
    w.jobs > 0 && a.Announce? && (a.ok || !a.again)
  }

  lemma {:induction false} RunBeginsNothing(w: World, i: nat, c: Script)
    requires Loaded(w, i)
    ensures var v := Process(w, i, c);
            v.uploads == w.uploads && v.drops == w.drops && v.jobs == w.jobs && v.events == w.events
  {
    if w.tasks[i].status == PENDING && !w.doc.Alive() {
      ProcessLeaves(w, i, c);
    } else {
      RunSpares(w, i, c);
    }
  }

  /** What is under way is what was begun and has not ended: uploads, bulk deletions, ingestions and completion events. */
  lemma {:induction false} UnderWay(w: World, a: Action)
    ensures var v := Apply(w, a);
            && v.uploads == w.uploads + (if a.StoreFile? then 1 else 0) - (if EndsUpload(w, a) then 1 else 0)
            && v.drops == w.drops + (if a.DropCollection? && a.told then 1 else 0) - (if EndsDrop(w, a) then 1 else 0)
            && v.jobs == w.jobs + (if a.QueueIngest? || (a.BeginIngest? && a.queued && w.doc != Gone) then 1 else 0)
                         - (if EndsJob(w, a) then 1 else 0)
            && |v.events| == |w.events| + (if a.Announce? && w.jobs > 0 then 1 else 0)
                             - (if a.Consume? && w.events != [] && !a.again then 1 else 0)
  {
    if a.Run? && Loaded(w, a.i) {
      RunBeginsNothing(w, a.i, a.c);
    }
  }

  /** A row is saved unless the upload was a duplicate, or had found a row that has gone since. */
  lemma {:induction false} SavedIff(w: World, found: Document, known: nat, again: bool)
    requires w.uploads > 0 && w.doc != Active
    ensures var v := Apply(w, SaveRow(found, known, again));
            if found == Gone || (found != Active && w.doc != Gone) then v.doc == Active
            else v.doc == w.doc && v.tasks == w.tasks
  {
  }

  /**
   * A row saved over one that was found DELETING voids the deletion: none of the tasks known then is pending any more,
   * those that were are CANCELLED with their flags and attempts, and nothing else of any task has changed.
   */
  lemma {:induction false} SavedRowCancels(w: World, known: nat, again: bool, j: nat)
    requires w.uploads > 0 && w.doc != Gone && j < |w.tasks|
    ensures var v := Apply(w, SaveRow(Deleting, known, again));
            && v.doc == Active && |v.tasks| == |w.tasks|
            && (j < known ==> v.tasks[j].status != PENDING)
            && (j >= known || w.tasks[j].status != PENDING ==> v.tasks[j] == w.tasks[j])
            && (j < known && w.tasks[j].status == PENDING ==> v.tasks[j] == w.tasks[j].(status := CANCELLED))
  {
  }

  // ---------------------------------------------------------------- nothing is left once the tasks are settled

  /** A task that has not finished: pending, or DEAD and waiting for an operator. */
  predicate Owes(t: Task) {
    t.status == PENDING || t.status == DEAD
  }

  predicate VectorsOwed(w: World) {
    exists j | 0 <= j < |w.tasks| :: Owes(w.tasks[j]) && !w.tasks[j].qdrantDone
  }

  predicate FilesOwed(w: World) {
    exists j | 0 <= j < |w.tasks| :: Owes(w.tasks[j]) && !w.tasks[j].objectStoreDone
  }

  predicate FilesCovered(w: World) {
    !w.doc.Alive() && w.files && w.uploads == 0 ==> FilesOwed(w)
  }

  predicate VectorsCovered(w: World) {
    !w.doc.Alive() && w.vectors ==> VectorsOwed(w)
  }

  /** A write that no task will ever clean: for a document not alive, or about to be marked as if its vectors were gone. */
  predicate Unattended(w: World, a: Action) {
    match a
    case WriteVectors => w.jobs > 0 && !w.doc.Alive() && !VectorsOwed(w)
    case DeleteAll(dropped) => dropped && w.drops > 0 && w.doc.Alive() && w.vectors && !VectorsOwed(w)
    case _ => false
  }

  /** An upload that leaves its file to nobody: it ends without saving a row, there is none or it is being deleted, and no task owes the file. */
  predicate Strays(w: World, a: Action) {
    Ends(w, a) && (a.SaveRow? ==> !Saves(w, a.found)) && !w.doc.Alive() && !FilesOwed(w)
  }

  lemma {:induction false} OwedStays(w: World, v: World, i: nat)
    requires i < |w.tasks| == |v.tasks| && forall j | 0 <= j < |w.tasks| && j != i :: v.tasks[j] == w.tasks[j]
    ensures VectorsOwed(w) ==> VectorsOwed(v) || (Owes(w.tasks[i]) && !w.tasks[i].qdrantDone)
    ensures FilesOwed(w) ==> FilesOwed(v) || (Owes(w.tasks[i]) && !w.tasks[i].objectStoreDone)
  {
    if VectorsOwed(w) && !(Owes(w.tasks[i]) && !w.tasks[i].qdrantDone) {
      var j :| 0 <= j < |w.tasks| && Owes(w.tasks[j]) && !w.tasks[j].qdrantDone;
      assert v.tasks[j] == w.tasks[j];
    }
    if FilesOwed(w) && !(Owes(w.tasks[i]) && !w.tasks[i].objectStoreDone) {
      var j :| 0 <= j < |w.tasks| && Owes(w.tasks[j]) && !w.tasks[j].objectStoreDone;
      assert v.tasks[j] == w.tasks[j];
    }
  }

  lemma {:induction false} RunCovers(w: World, i: nat, c: Script)
    requires Loaded(w, i)
    ensures VectorsCovered(w) ==> VectorsCovered(Process(w, i, c))
    ensures FilesCovered(w) ==> FilesCovered(Process(w, i, c))
    ensures (w.doc == Gone ==> !w.chunks) ==> (Process(w, i, c).doc == Gone ==> !Process(w, i, c).chunks)
  {
    var v := Process(w, i, c);
    if w.tasks[i].status == PENDING && !w.doc.Alive() {
      ProcessLeaves(w, i, c);
      OwedStays(w, v, i);
    } else {
      RunSpares(w, i, c);
      OwedStays(w, v, i);
    }
  }

  lemma {:induction false} MarkCovers(w: World, dropped: bool)
    ensures FilesCovered(w) ==> FilesCovered(Marked(w, dropped))
    ensures VectorsCovered(w) && !dropped ==> VectorsCovered(Marked(w, dropped))
    ensures VectorsCovered(w) && dropped ==>
              (VectorsCovered(Marked(w, dropped)) <==> !(w.doc.Alive() && w.vectors && !VectorsOwed(w)))
  {
    var v := Marked(w, dropped);
    if w.doc.Alive() {
      assert v.tasks[|w.tasks|] == NewTask(dropped);
      assert forall j | 0 <= j < |w.tasks| :: v.tasks[j] == w.tasks[j];
    }
  }

  lemma {:induction false} StepCoversFilesIff(w: World, a: Action)
    requires FilesCovered(w)
    ensures FilesCovered(Apply(w, a)) <==> !Strays(w, a)
  {
    match a
    case Run(i, c) => if Loaded(w, i) { RunCovers(w, i, c); }
    case Delete => MarkCovers(w, false);
    case DeleteAll(dropped) => MarkCovers(w, dropped);
    case _ =>
  }

  lemma {:induction false} StepCoversIff(w: World, a: Action)
    requires VectorsCovered(w)
    ensures VectorsCovered(Apply(w, a)) <==> !Unattended(w, a)
  {
    match a
    case Run(i, c) => if Loaded(w, i) { RunCovers(w, i, c); }
    case Delete => MarkCovers(w, false);
    case DeleteAll(dropped) => MarkCovers(w, dropped);
    case _ =>
  }

  predicate AlwaysFilesCovered(actions: seq<Action>) {
    FilesCovered(Exec(actions)) && (actions != [] ==> AlwaysFilesCovered(actions[..|actions| - 1]))
  }

  predicate NeverStrays(actions: seq<Action>) {
    actions != [] ==>
      NeverStrays(actions[..|actions| - 1]) && !Strays(Exec(actions[..|actions| - 1]), actions[|actions| - 1])
  }

  /**
   * For every run: in every state on the way without an upload under way, the file of a document that is not
   * alive is owed by a task that has not finished, if and only if no upload leaves its file to nobody.
   */
  lemma {:induction false} FilesOwedIff(actions: seq<Action>)
    ensures AlwaysFilesCovered(actions) <==> NeverStrays(actions)
  {
    if actions != [] {
      var init, a := actions[..|actions| - 1], actions[|actions| - 1];
      FilesOwedIff(init);
      if AlwaysFilesCovered(init) {
        StepCoversFilesIff(Exec(init), a);
      }
    }
  }

  lemma {:induction false} StepTakesChunks(w: World, a: Action)
    requires w.doc == Gone ==> !w.chunks
    ensures Apply(w, a).doc == Gone ==> !Apply(w, a).chunks
  {
    if a.Run? && Loaded(w, a.i) {
      RunCovers(w, a.i, a.c);
    }
  }

  /** In every run whatsoever no chunk outlives the row. */
  lemma {:induction false} ChunksGoWithRow(actions: seq<Action>)
    ensures Exec(actions).doc == Gone ==> !Exec(actions).chunks
  {
    if actions != [] {
      ChunksGoWithRow(actions[..|actions| - 1]);
      StepTakesChunks(Exec(actions[..|actions| - 1]), actions[|actions| - 1]);
    }
  }

  predicate AlwaysCovered(actions: seq<Action>) {
    VectorsCovered(Exec(actions)) && (actions != [] ==> AlwaysCovered(actions[..|actions| - 1]))
  }

  predicate NeverUnattended(actions: seq<Action>) {
    actions != [] ==>
      NeverUnattended(actions[..|actions| - 1]) && !Unattended(Exec(actions[..|actions| - 1]), actions[|actions| - 1])
  }

  /**
   * For every run: in every state on the way the vectors of a document that is not alive are owed by a task
   * that has not finished, if and only if no write is unattended. Neither uploads over a pending task nor
   * revived tasks break this: what they leave is left for a time.
   */
  lemma {:induction false} VectorsOwedIff(actions: seq<Action>)
    ensures AlwaysCovered(actions) <==> NeverUnattended(actions)
  {
    if actions != [] {
      var init, a := actions[..|actions| - 1], actions[|actions| - 1];
      VectorsOwedIff(init);
      if AlwaysCovered(init) {
        StepCoversIff(Exec(init), a);
      }
    }
  }

  /** So, once every task is DONE or CANCELLED and no upload is under way, a document that is not alive has left nothing in either store. */
  lemma {:induction false} NothingLeftOnceSettled(actions: seq<Action>)
    requires NeverUnattended(actions) && NeverStrays(actions)
    ensures var w := Exec(actions);
            !w.doc.Alive() && w.uploads == 0 && (forall j | 0 <= j < |w.tasks| :: !Owes(w.tasks[j])) ==> !w.vectors && !w.files
  {
    VectorsOwedIff(actions);
    FilesOwedIff(actions);
  }

  // ---------------------------------------------------------------- the way back to life

  /** What brings a document under deletion back: the row of an upload, or `processDocument`, or a completion event. */
  predicate Resurrects(w: World, a: Action) {
    (a.SaveRow? && w.uploads > 0 && a.found != Active) || a.BeginIngest? || (a.Consume? && w.events != [])
  }

  lemma {:induction false} RunStaysDeleting(w: World, i: nat, c: Script)
    requires Loaded(w, i) && w.doc == Deleting
    ensures !Process(w, i, c).doc.Alive()
  {
    if w.tasks[i].status == PENDING {
      ProcessLeaves(w, i, c);
    } else {
      RunSpares(w, i, c);
    }
  }

  /** A document under deletion comes back to life exactly by such a step. */
  lemma {:induction false} DeletionUndoneIff(w: World, a: Action)
    requires w.doc == Deleting
    ensures Apply(w, a).doc.Alive() <==> Resurrects(w, a)
  {
    match a
    case Run(i, c) => if Loaded(w, i) { RunStaysDeleting(w, i, c); }
    case _ =>
  }

  /** The worker then gives the deletion up: on a living document a run without faults cancels its task. */
  lemma {:induction false} LivingDocumentCancels(w: World, i: nat, c: Script)
    requires i < |w.tasks| && w.doc.Alive() && w.tasks[i].status == PENDING && c.read == Ok && c.save == Ok
    ensures Process(w, i, c) == w.(tasks := w.tasks[i := w.tasks[i].(status := CANCELLED)], clock := w.clock + c.delay)
  {
  }

  // ---------------------------------------------------------------- a run without faults

  predicate Faultless(c: Script) {
    c.read == c.vector == c.file == c.chunk == c.row == c.save == Ok
  }

  /** What such a run leaves: it trusts the flags it finds. */
  function Completed(w: World, i: nat, delay: nat): World
    requires i < |w.tasks|
  {
    var t := w.tasks[i];
    w.(doc := Gone, chunks := false, vectors := w.vectors && t.qdrantDone, files := w.files && t.objectStoreDone,
       tasks := w.tasks[i := t.(qdrantDone := true, objectStoreDone := true, status := DONE)], clock := w.clock + delay)
  }

  /** From wherever a crash left a pending task, one run without faults completes it. */
  lemma {:induction false} RerunReachesDone(w: World, i: nat, c: Script)
    requires i < |w.tasks| && w.tasks[i].status == PENDING && !w.doc.Alive() && Faultless(c)
    ensures Process(w, i, c) == Completed(w, i, c.delay)
    ensures Truthful(w, w.tasks[i]) ==> NoOrphans(Process(w, i, c))
  {
    var s := DeleteVectors(Begin(w, i), c.vector);
    var t := DeleteFiles(s, c.file);
    assert t.task.qdrantDone && t.task.objectStoreDone && t.control == GoesOn;
  }

  // ---------------------------------------------------------------- runs that go wrong, from nothing

  /** A document under deletion, its first task as given. */
  function Under(doc: Document, chunks: bool, vectors: bool, files: bool, tasks: seq<Task>, clock: int, jobs: nat): World {
    World(doc, chunks, vectors, files, tasks, clock, jobs, [], 0, 0)
  }

  const DELETED := Task(true, true, 0, None, DONE)

  /** The shortest wait after a first recorded failure. */
  const RETRY: nat := 2 * MINUTE + 1

  lemma {:induction false} FaultlessStep(actions: seq<Action>, w: World, i: nat, c: Script, v: World)
    requires Exec(actions) == w && Loaded(w, i) && w.tasks[i].status == PENDING && !w.doc.Alive() && Faultless(c)
    requires v == Completed(w, i, c.delay)
    ensures Exec(actions + [Run(i, c)]) == v
  {
    RerunReachesDone(w, i, c);
    RunStep(actions, w, i, c, v);
  }

  lemma {:induction false} CancelStep(actions: seq<Action>, w: World, i: nat, c: Script, v: World)
    requires Exec(actions) == w && Loaded(w, i) && w.tasks[i].status == PENDING && w.doc.Alive() && c.read == Ok && c.save == Ok
    requires v == w.(tasks := w.tasks[i := w.tasks[i].(status := CANCELLED)], clock := w.clock + c.delay)
    ensures Exec(actions + [Run(i, c)]) == v
  {
    LivingDocumentCancels(w, i, c);
    RunStep(actions, w, i, c, v);
  }

  /** An upload that finds no row and comes to its end. */
  const UPLOAD := [StoreFile, SaveRow(Gone, 0, false)]

  lemma {:induction false} UploadStep(actions: seq<Action>, w: World, upload: seq<Action>, v: World)
    requires Exec(actions) == w && w.uploads == 0 && upload == UPLOAD && v == w.(doc := Active, files := true)
    ensures Exec(actions + upload) == v
  {
    var stored := w.(files := true, uploads := 1);
    Then(actions, w, StoreFile, stored);
    Then(actions + [StoreFile], stored, SaveRow(Gone, 0, false), v);
    assert actions + upload == actions + [StoreFile] + [SaveRow(Gone, 0, false)];
  }

  /** An ingestion's end arrives: the row is what the event says, COMPLETED or FAILED. */
  lemma {:induction false} EndArrives(actions: seq<Action>, w: World, ok: bool)
    requires Exec(actions) == w && w.doc != Gone && w.jobs == 1 && w.events == []
    ensures Exec(actions + [Announce(ok, false)] + [Consume(false)]) == w.(jobs := 0, doc := if ok then Active else Failed)
  {
    var v := w.(jobs := 0, events := [ok]);
    assert [] + [ok] == [ok] && [ok][1..] == [];
    Then(actions, w, Announce(ok, false), v);
    Then(actions + [Announce(ok, false)], v, Consume(false), w.(jobs := 0, doc := if ok then Active else Failed));
  }

  lemma {:induction false} Uploaded(upload: seq<Action>)
    requires upload == UPLOAD
    ensures Exec(upload) == Under(Active, false, false, true, [], 0, 0)
  {
    assert [] + upload == upload;
    UploadStep([], EMPTY, upload, Under(Active, false, false, true, [], 0, 0));
  }

  lemma {:induction false} UploadedAndDeleted(upload: seq<Action>, begin: Action, delete: Action) returns (actions: seq<Action>)
    requires upload == UPLOAD && begin == BeginIngest(true) && delete == Delete
    ensures actions == upload + [begin] + [delete]
    ensures Exec(actions) == Under(Deleting, false, false, true, [NewTask(false)], 0, 1)
  {
    var w1 := Under(Active, false, false, true, [], 0, 0);
    assert [] + [NewTask(false)] == [NewTask(false)];
    Uploaded(upload);
    Then(upload, w1, begin, w1.(jobs := 1));
    Then(upload + [begin], w1.(jobs := 1), delete, Under(Deleting, false, false, true, [NewTask(false)], 0, 1));
    actions := upload + [begin] + [delete];
  }

  lemma {:induction false} WriteOnceGone(actions: seq<Action>, w: World, c: Script, v: World)
    requires Exec(actions) == w && w == Under(Deleting, false, false, true, [NewTask(false)], 0, 1) && Faultless(c) && c.delay == 0
    requires v == Under(Gone, false, true, false, [DELETED], 0, 1)
    ensures Exec(actions + [Run(0, c)] + [WriteVectors]) == v
  {
    FaultlessStep(actions, w, 0, c, v.(vectors := false));
    Then(actions + [Run(0, c)], v.(vectors := false), WriteVectors, v);
  }

  /** An ingestion that was under way writes when all is done: the vectors are left and no task owes them, until the sweep. */
  lemma {:induction false} LateWriteOrphans(c: Script) returns (actions: seq<Action>, w: World)
    requires Faultless(c) && c.delay == 0
    ensures actions == UPLOAD + [BeginIngest(true)] + [Delete] + [Run(0, c)] + [WriteVectors] && Exec(actions) == w
    ensures w.doc == Gone && w.vectors && !VectorsOwed(w) && NoOrphans(Apply(w, Reconcile))
  {
    var deleted := UploadedAndDeleted(UPLOAD, BeginIngest(true), Delete);
    w := Under(Gone, false, true, false, [DELETED], 0, 1);
    WriteOnceGone(deleted, Exec(deleted), c, w);
    actions := deleted + [Run(0, c)] + [WriteVectors];
  }

  lemma {:induction false} QueuedThenWrites(actions: seq<Action>, w: World, v: World)
    requires Exec(actions) == w && w == Under(Gone, false, false, false, [DELETED], 0, 0)
    requires v == Under(Gone, false, true, false, [DELETED], 0, 1)
    ensures Exec(actions + [QueueIngest] + [WriteVectors]) == v
  {
    Then(actions, w, QueueIngest, w.(jobs := 1));
    Then(actions + [QueueIngest], w.(jobs := 1), WriteVectors, v);
  }

  lemma {:induction false} DeletedInFull(upload: seq<Action>, delete: Action, c: Script) returns (actions: seq<Action>)
    requires upload == UPLOAD && delete == Delete && Faultless(c) && c.delay == 0
    ensures actions == upload + [delete] + [Run(0, c)] && Exec(actions) == Under(Gone, false, false, false, [DELETED], 0, 0)
  {
    DeletedBefore(upload, delete);
    FaultlessStep(upload + [delete], Under(Deleting, false, false, true, [NewTask(false)], 0, 0), 0, c, Under(Gone, false, false, false, [DELETED], 0, 0));
    actions := upload + [delete] + [Run(0, c)];
  }

  /** A registration queues its ingestion after its row was saved: a deletion that came and went in between is not noticed. */
  lemma {:induction false} QueuedIngestionOrphans(c: Script) returns (actions: seq<Action>, w: World)
    requires Faultless(c) && c.delay == 0
    ensures actions == UPLOAD + [Delete] + [Run(0, c)] + [QueueIngest] + [WriteVectors] && Exec(actions) == w
    ensures w.doc == Gone && w.vectors && !VectorsOwed(w)
  {
    var deleted := DeletedInFull(UPLOAD, Delete, c);
    w := Under(Gone, false, true, false, [DELETED], 0, 1);
    QueuedThenWrites(deleted, Exec(deleted), w);
    actions := deleted + [QueueIngest] + [WriteVectors];
  }

  /** A completion event brings the document back, and the worker cancels a deletion nobody has withdrawn. */
  lemma {:induction false} CompletionLosesDeletion(c: Script) returns (actions: seq<Action>)
    requires c.read == Ok && c.save == Ok
    ensures actions == UPLOAD + [BeginIngest(true)] + [Delete] + [Announce(true, false)] + [Consume(false)] + [Run(0, c)]
    ensures var w := Exec(actions); w.doc == Active && w.files && |w.tasks| == 1 && w.tasks[0].status == CANCELLED
  {
    var deleted := UploadedAndDeleted(UPLOAD, BeginIngest(true), Delete);
    var w5 := Under(Active, false, false, true, [NewTask(false)], 0, 0);
    EndArrives(deleted, Exec(deleted), true);
    var revived := deleted + [Announce(true, false)] + [Consume(false)];
    CancelStep(revived, w5, 0, c, w5.(tasks := w5.tasks[0 := w5.tasks[0].(status := CANCELLED)], clock := w5.clock + c.delay));
    actions := revived + [Run(0, c)];
  }

  /** The vectors are cleaned, the file store is down, the failure is recorded. */
  predicate FilesDown(c: Script) {
    c.read == Ok && c.vector == Ok && c.file == Raises && c.record == Ok && c.delay == 0
  }

  /** The process dies after the row is gone, before the task is saved. */
  predicate DiesAtSave(c: Script) {
    c.read == Ok && c.file == Ok && c.chunk == Ok && c.row == Ok && c.save == Dies && c.delay == 0
  }

  /** What is left pending with its vectors flagged when the process dies between row and save. */
  const FLAGGED := Task(true, false, 1, Some(0), PENDING)

  lemma {:induction false} FilesDownRecords(w: World, c: Script)
    requires w.doc == Deleting && w.tasks == [NewTask(false)] && w.clock == 0 && FilesDown(c)
    ensures Process(w, 0, c) == w.(vectors := false, tasks := [FLAGGED])
  {
    var s := DeleteVectors(Begin(w, 0), Ok);
    var t := DeleteFiles(s, Raises);
    assert t.task == Task(true, false, 0, None, PENDING) && t.control == GoesOn;
    assert w.tasks[0 := FLAGGED] == [FLAGGED];
  }

  lemma {:induction false} DiesWithRowGone(w: World, c: Script)
    requires w.doc == Deleting && w.tasks == [FLAGGED] && DiesAtSave(c)
    ensures Process(w, 0, c) == w.(doc := Gone, chunks := false, files := false)
  {
    var s := DeleteVectors(Begin(w, 0), c.vector);
    var t := DeleteFiles(s, Ok);
    assert t.task.qdrantDone && t.task.objectStoreDone && t.control == GoesOn;
    assert w.tasks[0 := w.tasks[0]] == w.tasks;
  }

  lemma {:induction false} RunStep(actions: seq<Action>, w: World, i: nat, c: Script, v: World)
    requires Exec(actions) == w && Loaded(w, i) && Process(w, i, c) == v
    ensures Exec(actions + [Run(i, c)]) == v
  {
    Then(actions, w, Run(i, c), v);
  }

  lemma {:induction false} DeletedBefore(upload: seq<Action>, delete: Action)
    requires upload == UPLOAD && delete == Delete
    ensures Exec(upload + [delete]) == Under(Deleting, false, false, true, [NewTask(false)], 0, 0)
  {
    var w1 := Under(Active, false, false, true, [], 0, 0);
    assert [] + [NewTask(false)] == [NewTask(false)];
    Uploaded(upload);
    Then(upload, w1, delete, Under(Deleting, false, false, true, [NewTask(false)], 0, 0));
  }

  /** A run from nothing to the row gone and the task still pending, its vectors flagged. */
  lemma {:induction false} FlaggedIsReached(upload: seq<Action>, delete: Action, down: Script, dies: Script) returns (actions: seq<Action>)
    requires upload == UPLOAD && delete == Delete && FilesDown(down) && DiesAtSave(dies)
    ensures actions == upload + [delete] + [Run(0, down)] + [Tick(RETRY)] + [Run(0, dies)]
    ensures Exec(actions) == Under(Gone, false, false, false, [FLAGGED], RETRY, 0)
  {
    var w2 := Under(Deleting, false, false, true, [NewTask(false)], 0, 0);
    var w3 := Under(Deleting, false, false, true, [FLAGGED], 0, 0);
    var w4 := w3.(clock := RETRY);
    var a2 := upload + [delete];
    DeletedBefore(upload, delete);
    FilesDownRecords(w2, down);
    RunStep(a2, w2, 0, down, w3);
    var a3 := a2 + [Run(0, down)];
    Then(a3, w3, Tick(RETRY), w4);
    DiesWithRowGone(w4, dies);
    assert Pow2(1) == 2;
    RunStep(a3 + [Tick(RETRY)], w4, 0, dies, Under(Gone, false, false, false, [FLAGGED], RETRY, 0));
    actions := a3 + [Tick(RETRY)] + [Run(0, dies)];
  }

  lemma {:induction false} UploadedAgain(actions: seq<Action>, w: World, upload: seq<Action>) returns (more: seq<Action>)
    requires Exec(actions) == w && w == Under(Gone, false, false, false, [FLAGGED], RETRY, 0) && upload == UPLOAD
    ensures more == actions + upload + [BeginIngest(true)] + [WriteVectors] + [Delete]
    ensures Exec(more) == Under(Deleting, false, true, true, [FLAGGED, NewTask(false)], RETRY, 1)
  {
    var w1 := Under(Active, false, false, true, [FLAGGED], RETRY, 0);
    var w3 := Under(Active, false, true, true, [FLAGGED], RETRY, 1);
    assert [FLAGGED] + [NewTask(false)] == [FLAGGED, NewTask(false)];
    UploadStep(actions, w, upload, w1);
    var a1 := actions + upload;
    Then(a1, w1, BeginIngest(true), w1.(jobs := 1));
    var a2 := a1 + [BeginIngest(true)];
    Then(a2, w1.(jobs := 1), WriteVectors, w3);
    var a3 := a2 + [WriteVectors];
    Then(a3, w3, Delete, Under(Deleting, false, true, true, [FLAGGED, NewTask(false)], RETRY, 1));
    more := a3 + [Delete];
  }

  /**
   * The row goes and the process dies before the task is saved; the content is uploaded and ingested again and
   * deleted again. The old task then removes the row on its old flag and leaves the new vectors, until the new
   * task cleans them up.
   */
  lemma {:induction false} UploadOverPendingTaskOrphans(down: Script, dies: Script, calm: Script) returns (actions: seq<Action>)
    requires FilesDown(down) && DiesAtSave(dies) && Faultless(calm) && calm.delay == 0
    ensures actions == UPLOAD + [Delete] + [Run(0, down)] + [Tick(RETRY)] + [Run(0, dies)]
                       + UPLOAD + [BeginIngest(true)] + [WriteVectors] + [Delete] + [Run(0, calm)]
    ensures var w := Exec(actions); w.doc == Gone && w.vectors && !Sound(w) && VectorsOwed(w)
    ensures var v := Exec(actions + [Run(1, calm)]);
            NoOrphans(v) && v.doc == Gone && forall j | 0 <= j < |v.tasks| :: v.tasks[j].status == DONE
  {
    var flagged := FlaggedIsReached(UPLOAD, Delete, down, dies);
    var again := UploadedAgain(flagged, Exec(flagged), UPLOAD);
    var w4 := Under(Deleting, false, true, true, [FLAGGED, NewTask(false)], RETRY, 1);
    var settled := Task(true, true, 1, Some(0), DONE);
    var w5 := Under(Gone, false, true, false, [settled, NewTask(false)], RETRY, 1);
    assert Pow2(1) == 2;
    FaultlessStep(again, w4, 0, calm, w5);
    actions := again + [Run(0, calm)];
    assert w5.tasks[1] == NewTask(false);
    FaultlessStep(actions, w5, 1, calm, Under(Gone, false, false, false, [settled, DELETED], RETRY, 1));
  }

  // ---------------------------------------------------------------- uploads that are cut off

  /** No row, no task, and the file in the store. */
  predicate Abandoned(w: World) {
    w.doc == Gone && w.tasks == [] && w.files
  }

  lemma {:induction false} StepLeavesAbandoned(w: World, a: Action)
    requires Abandoned(w) && !a.SaveRow?
    ensures Abandoned(Apply(w, a))
  {
  }

  lemma {:induction false} AbandonedStays(actions: seq<Action>, more: seq<Action>)
    requires Abandoned(Exec(actions)) && forall a | a in more :: !a.SaveRow?
    ensures Abandoned(Exec(actions + more))
  {
    if more == [] {
      assert actions + more == actions;
    } else {
      var init, a := more[..|more| - 1], more[|more| - 1];
      AbandonedStays(actions, init);
      var w := Exec(actions + init);
      StepLeavesAbandoned(w, a);
      Then(actions + init, w, a, Apply(w, a));
      assert actions + init + [a] == actions + more;
    }
  }

  lemma {:induction false} CutOff(actions: seq<Action>, w: World)
    requires Exec(actions) == w && w.uploads == 0
    ensures Exec(actions + [StoreFile] + [AbandonUpload]) == w.(files := true)
  {
    var stored := w.(files := true, uploads := 1);
    Then(actions, w, StoreFile, stored);
    Then(actions + [StoreFile], stored, AbandonUpload, w.(files := true));
  }

  /**
   * An upload, or the data loader, stores the file and gets no further: the file is left without a row and
   * without a task, and until the same content is registered no run of whatever steps removes it.
   */
  lemma {:induction false} CutOffUploadLeavesFile(more: seq<Action>) returns (actions: seq<Action>)
    requires forall a | a in more :: !a.SaveRow?
    ensures actions == [StoreFile] + [AbandonUpload]
    ensures var w := Exec(actions + more); w.doc == Gone && w.files && w.tasks == []
  {
    var nothing: seq<Action> := [];
    CutOff(nothing, EMPTY);
    actions := nothing + [StoreFile] + [AbandonUpload];
    AbandonedStays(actions, more);
  }

  /** The vector service answers false, and the failure is recorded. */
  predicate VectorsDown(c: Script) {
    c.read == Ok && c.vector == Raises && c.file == Ok && c.record == Ok && c.delay == 0
  }

  lemma {:induction false} VectorsDownRecords(w: World, c: Script)
    requires w.doc == Deleting && w.tasks == [NewTask(false)] && w.clock == 0 && VectorsDown(c)
    ensures Process(w, 0, c) == w.(files := false, tasks := [Task(false, true, 1, Some(0), PENDING)])
  {
    var s := DeleteVectors(Begin(w, 0), Raises);
    var t := DeleteFiles(s, Ok);
    assert t.task == Task(false, true, 0, None, PENDING) && t.control == GoesOn;
    assert w.tasks[0 := Task(false, true, 1, Some(0), PENDING)] == [Task(false, true, 1, Some(0), PENDING)];
  }

  lemma {:induction false} FileFlagged(upload: seq<Action>, delete: Action, down: Script) returns (actions: seq<Action>)
    requires upload == UPLOAD && delete == Delete && VectorsDown(down)
    ensures actions == upload + [delete] + [Run(0, down)]
    ensures Exec(actions) == Under(Deleting, false, false, false, [Task(false, true, 1, Some(0), PENDING)], 0, 0)
  {
    var w2 := Under(Deleting, false, false, true, [NewTask(false)], 0, 0);
    DeletedBefore(upload, delete);
    VectorsDownRecords(w2, down);
    RunStep(upload + [delete], w2, 0, down, Under(Deleting, false, false, false, [Task(false, true, 1, Some(0), PENDING)], 0, 0));
    actions := upload + [delete] + [Run(0, down)];
  }

  lemma {:induction false} CutOffOverFlag(actions: seq<Action>, w: World, calm: Script, v: World)
    requires Exec(actions) == w && w == Under(Deleting, false, false, false, [Task(false, true, 1, Some(0), PENDING)], 0, 0)
    requires Faultless(calm) && calm.delay == 0
    requires v == Under(Gone, false, false, true, [Task(true, true, 1, Some(0), DONE)], RETRY, 0)
    ensures Exec(actions + [StoreFile] + [AbandonUpload] + [Tick(RETRY)] + [Run(0, calm)]) == v
  {
    var cut := actions + [StoreFile] + [AbandonUpload];
    var stored := w.(files := true);
    CutOff(actions, w);
    Then(cut, stored, Tick(RETRY), stored.(clock := RETRY));
    assert Pow2(1) == 2;
    FaultlessStep(cut + [Tick(RETRY)], stored.(clock := RETRY), 0, calm, v);
  }

  /**
   * Over a document under deletion: the upload's rollback leaves the task pending, its file flagged as deleted.
   * The task then removes the row on that flag, and the file that was stored again is owed by nobody.
   */
  lemma {:induction false} CutOffReuploadLeavesFile(down: Script, calm: Script) returns (actions: seq<Action>, w: World)
    requires VectorsDown(down) && Faultless(calm) && calm.delay == 0
    ensures actions == UPLOAD + [Delete] + [Run(0, down)] + [StoreFile] + [AbandonUpload] + [Tick(RETRY)] + [Run(0, calm)]
    ensures Exec(actions) == w
    ensures w.doc == Gone && w.files && !FilesOwed(w) && |w.tasks| == 1 && w.tasks[0].status == DONE
  {
    var flagged := FileFlagged(UPLOAD, Delete, down);
    w := Under(Gone, false, false, true, [Task(true, true, 1, Some(0), DONE)], RETRY, 0);
    CutOffOverFlag(flagged, Exec(flagged), calm, w);
    actions := flagged + [StoreFile] + [AbandonUpload] + [Tick(RETRY)] + [Run(0, calm)];
  }
}
