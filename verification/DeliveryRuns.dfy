/** Over whole runs: which step skipped an undispatched delivery, and what each digest reported. */
module DeliveryRuns {
  import opened Basics
  import opened JobQueue
  import opened Notifications
  import opened Deliveries
  import W = Worker

  // ---- rows, triggers and finished jobs stay

  predicate Later(a: Delivery, b: Delivery) {
    b == a.(dispatchedAt := b.dispatchedAt) && (a.dispatchedAt.Some? ==> b == a)
  }

  ghost predicate Grows(s: System, u: System) {
    && (forall d | d in s.rows.deliveries ::
         d in u.rows.deliveries && Later(s.rows.deliveries[d], u.rows.deliveries[d]))
    && W.TablesGrow(s.rows.tables, u.rows.tables)
  }

  lemma {:induction false} GrowsOn(a: System, b: System, c: System)
    requires Grows(a, b) && Grows(b, c)
    ensures Grows(a, c)
  {
    hide Later;
    forall d | d in a.rows.deliveries
      ensures d in c.rows.deliveries && Later(a.rows.deliveries[d], c.rows.deliveries[d])
    {
      LaterOn(a.rows.deliveries[d], b.rows.deliveries[d], c.rows.deliveries[d]);
    }
  }

  lemma {:induction false} LaterOn(a: Delivery, b: Delivery, c: Delivery)
    requires Later(a, b) && Later(b, c)
    ensures Later(a, c)
  {
  }

  /** The workers and what they have done are untouched by an announcement. */
  predicate SameWorkers(s: System, u: System) {
    u.workers == s.workers && u.cleared == s.cleared && u.dispatches == s.dispatches
  }

  /** Jobs there were stay as they were, and a new one is not finished. */
  ghost predicate NewJobsOpen(s: System, u: System) {
    && (forall j | j in s.rows.tables.jobs :: j in u.rows.tables.jobs && u.rows.tables.jobs[j] == s.rows.tables.jobs[j])
    && forall j | j in u.rows.tables.jobs && j !in s.rows.tables.jobs :: u.rows.tables.jobs[j].completedAt.None?
  }

  lemma {:induction false} OpenedGrows(s: System, e: Event, user: nat, draw: Draw)
    requires Inv(s) && Opens(s, e, user, draw)
    ensures var u := Opened(s, e, user, draw); Grows(s, u) && SameWorkers(s, u) && NewJobsOpen(s, u)
  {
    hide Inv, W.TablesGrow, NoteOf;
    var row := NewDelivery(s.rows, e, user, draw.now);
    W.InsertGrows(s.rows.tables, draw.job, draw.message, DeliveryKey(draw.delivery), NoteOf(draw.delivery, row),
                  row.availableAt, MAX_ATTEMPTS, draw.now);
  }

  lemma {:induction false} AnnouncingGrows(s: System, e: Event, users: seq<nat>, draws: seq<Draw>)
    requires Inv(s) && |users| == |draws| && EnqueueAll(s, e, users, draws).Some?
    ensures var u := EnqueueAll(s, e, users, draws).value; Grows(s, u) && SameWorkers(s, u) && NewJobsOpen(s, u)
  {
    hide Inv, Opens, Opened, EnqueueOne, W.TablesGrow, Later;
    if users == [] {
      NothingGrows(s);
    } else {
      var n := |users| - 1;
      AnnouncingGrows(s, e, users[..n], draws[..n]);
      EnqueueAllKeeps(s, e, users[..n], draws[..n]);
      var done := EnqueueAll(s, e, users[..n], draws[..n]).value;
      EnqueueOneOpens(done, e, users[n], draws[n]);
      if Opens(done, e, users[n], draws[n]) {
        OpenedGrows(done, e, users[n], draws[n]);
        GrowsOn(s, done, Opened(done, e, users[n], draws[n]));
        OpenJobsStayOpen(s, done, Opened(done, e, users[n], draws[n]));
      }
    }
  }

  lemma {:induction false} NothingGrows(s: System)
    ensures Grows(s, s)
  {
    W.NothingChanged(Core(s));
  }

  lemma {:induction false} OpenJobsStayOpen(s: System, done: System, u: System)
    requires NewJobsOpen(s, done) && NewJobsOpen(done, u)
    ensures NewJobsOpen(s, u)
  {
  }

  lemma {:induction false} DispatchGrows(s: System, w: nat, now: Instant, sent: bool)
    requires HasNote(s, w)
    ensures Grows(s, RunDispatch(s, w, now, sent))
  {
    hide W.TablesGrow;
    W.NothingChanged(Core(s));
  }

  lemma {:induction false} StepGrows(s: System, step: Step)
    requires Inv(s)
    ensures Grows(s, Apply(s, step))
  {
    hide Inv, W.Apply, W.TablesGrow, RunDispatch, EnqueueAll, Recipients;
    W.NothingChanged(Core(s));
    match step
    case Queue(q) =>
      CoreIsSound(s);
      W.ApplyKeeps(Core(s), q);
    case Announce(e, users, draws) =>
      if |users| == |draws| && EnqueueAll(s, e, users, draws).Some? {
        AnnouncingGrows(s, e, users, draws);
      }
    case Deliver(w, now, sent) =>
      if HasNote(s, w) {
        DispatchGrows(s, w, now, sent);
      }
    case Join(_, _) =>
    case Leave(_, _) =>
    case PutPreferences(_, _, _) =>
  }

  lemma {:induction false} CoreIsSound(s: System)
    requires Inv(s)
    ensures W.Inv(Core(s))
  {
  }

  lemma {:induction false} RunGrows(steps: seq<Step>, n: nat)
    requires n <= |steps|
    ensures Grows(Run(steps[..n]), Run(steps))
    decreases |steps| - n
  {
    hide Inv, Grows, Apply;
    if n == |steps| {
      assert steps[..n] == steps;
      NothingGrows(Run(steps));
    } else {
      Reachable(steps[..n]);
      assert steps[..n + 1][..n] == steps[..n];
      StepGrows(Run(steps[..n]), steps[n]);
      RunGrows(steps, n + 1);
      GrowsOn(Run(steps[..n]), Run(steps[..n + 1]), Run(steps));
    }
  }

  // ---- which dispatch cleared a worker

  /** The step is the dispatch after which the worker may complete its job. */
  ghost predicate Clears(s: System, step: Step, w: nat, local: W.Local) {
    && step.Deliver? && step.worker == w && w in s.workers && s.workers[w] == local
    && w !in s.cleared && w in Apply(s, step).cleared
  }

  lemma {:induction false} StaysCleared(s: System, step: Step, w: nat)
    requires Inv(s) && w in Apply(s, step).cleared
    ensures w in s.workers && w in Apply(s, step).workers && Apply(s, step).workers[w] == s.workers[w]
    ensures w in s.cleared || Clears(s, step, w, s.workers[w])
  {
    hide W.Inv, DeliveryOk, NotesOk, NoDuplicates, Partition, PreferencesOk, Recipients;
    match step
    case Announce(e, users, draws) =>
      if |users| == |draws| && EnqueueAll(s, e, users, draws).Some? {
        AnnouncingGrows(s, e, users, draws);
      }
    case _ =>
  }

  lemma {:induction false} ClearedSince(steps: seq<Step>, w: nat) returns (k: nat)
    requires w in Run(steps).cleared
    ensures w in Run(steps).workers && k < |steps| && Clears(Run(steps[..k]), steps[k], w, Run(steps).workers[w])
  {
    hide Inv, Apply, Clears;
    var n := |steps| - 1;
    Reachable(steps[..n]);
    StaysCleared(Run(steps[..n]), steps[n], w);
    if w in Run(steps[..n]).cleared {
      k := ClearedSince(steps[..n], w);
      assert steps[..n][..k] == steps[..k];
    } else {
      k := n;
    }
  }

  /** A dispatch that clears its worker but leaves the delivery unmarked has found the recipient gone. */
  lemma {:induction false} ClearingUnmarkedFindsAbsent(s: System, step: Step, w: nat, local: W.Local)
    requires Inv(s) && Clears(s, step, w, local)
    ensures HasNote(s, w) && local.seen.payload.notification in s.rows.deliveries
    ensures var d := local.seen.payload.notification;
            Undispatched(Apply(s, step).rows, d) ==>
              FindsAbsent(s, step, d, s.rows.deliveries[d].house, s.rows.deliveries[d].user)
  {
    hide W.Inv, DeliveryOk, NotesOk, NoDuplicates, Partition, PreferencesOk, ClearedOk;
    NoteIsOwn(s, w);
    var note := s.workers[w].seen.payload;
    var d := note.notification;
    assert Undispatched(s.rows, d) ==> d in DueRows(s.rows, note, step.now);
  }

  // ---- which settling call completed a job

  predicate Completed(s: System, job: nat) {
    job in s.rows.tables.jobs && s.rows.tables.jobs[job].completedAt.Some?
  }

  lemma {:induction false} OnlySettlingCompletes(s: System, step: Step, job: nat)
    requires Inv(s) && !Completed(s, job) && Completed(Apply(s, step), job)
    ensures step.Queue? && QueueStepAllowed(s, step.step) && job in s.rows.tables.jobs
    ensures step.step.Settle? && W.CanSettle(Core(s), step.step.worker, step.step.call, step.step.now)
    ensures step.step.call.CompleteCall?
    ensures var w := step.step.worker;
            s.workers[w].snap.id == job && s.workers[w].Looked? && s.workers[w].seen.status == Pending
  {
    hide Inv, W.Apply, RunDispatch, EnqueueAll, Recipients, W.Inv;
    CoreIsSound(s);
    match step
    case Queue(q) =>
      if job !in s.rows.tables.jobs && QueueStepAllowed(s, q) {
        JobsAppearOpen(Core(s), q, job);
      }
      CompletionNeedsAPendingMessage(Core(s), q, job);
    case Announce(e, users, draws) =>
      AnnouncingGrows(s, e, users, draws);
    case Deliver(w, now, sent) =>
      DispatchTouchesNoJob(s, w, now, sent);
    case Join(_, _) =>
    case Leave(_, _) =>
    case PutPreferences(_, _, _) =>
  }

  lemma {:induction false} DispatchTouchesNoJob(s: System, w: nat, now: Instant, sent: bool)
    requires HasNote(s, w)
    ensures RunDispatch(s, w, now, sent).rows.tables == s.rows.tables
  {
  }

  lemma {:induction false} JobsAppearOpen(c: W.System, q: W.Step, job: nat)
    requires W.Inv(c) && job !in c.tables.jobs && job in W.Apply(c, q).tables.jobs
    ensures W.Apply(c, q).tables.jobs[job].completedAt.None?
  {
    hide W.Inv;
    if q.Settle? && W.CanSettle(c, q.worker, q.call, q.now)
        && W.Perform(c.tables, c.workers[q.worker].snap, q.call, q.now).Success? {
      W.SettledTables(c, q.worker, q.call, q.now);
    }
  }

  lemma {:induction false} CompletedSince(steps: seq<Step>, job: nat) returns (c: nat)
    requires Completed(Run(steps), job)
    ensures c < |steps| && !Completed(Run(steps[..c]), job) && Completed(Apply(Run(steps[..c]), steps[c]), job)
  {
    hide Apply, Completed;
    if steps == [] {
      NothingCompleted(job);
    } else if Completed(Run(steps[..|steps| - 1]), job) {
      c := CompletedSince(steps[..|steps| - 1], job);
      assert steps[..|steps| - 1][..c] == steps[..c];
    } else {
      c := |steps| - 1;
    }
  }

  lemma {:induction false} NothingCompleted(job: nat)
    ensures !Completed(INITIAL, job)
  {
  }

  // ---- no delivery is stranded

  predicate JobOfDelivery(t: Tables, d: nat, message: nat, job: nat) {
    && message in t.messages && t.messages[message].key == DeliveryKey(d)
    && job in t.jobs && t.jobs[job].payload == Some(message)
  }

  /**
   Step c completed the job, and the worker that made it complete had, in the same lease, run step k:
   a dispatch for the delivery at a moment its recipient was not a member of the house.
   */
  ghost predicate SkippedBy(steps: seq<Step>, k: int, c: int, job: nat, d: nat, house: nat, user: nat) {
    && 0 <= k < c < |steps| && FoundAbsent(steps, k, d, house, user)
    && !Completed(Run(steps[..c]), job) && Completed(Apply(Run(steps[..c]), steps[c]), job)
    && steps[c].Queue? && steps[c].step.Settle? && steps[c].step.worker == steps[k].worker
    && steps[k].worker in Run(steps[..c]).workers
    && Run(steps[..k]).workers[steps[k].worker] == Run(steps[..c]).workers[steps[k].worker]
    && Run(steps[..c]).workers[steps[k].worker].snap.id == job
  }

  /** The job whose message is about a delivery is the delivery's own, in every earlier state as well. */
  lemma {:induction false} SameTrigger(s: System, u: System, d: nat, message: nat, job: nat)
    requires Inv(s) && Grows(s, u) && JobOfDelivery(u.rows.tables, d, message, job) && job in s.rows.tables.jobs
    ensures d in s.rows.deliveries && s.trigger[d].job == job
  {
    hide W.JobsOk, W.WorkersOk, NoDuplicates, Partition, PreferencesOk, ClearedOk, W.LinkedBy;
    var t := s.rows.tables;
    LinkedJob(t, job);
    assert W.SameNote(t.messages[message], u.rows.tables.messages[message]);
    assert DeliveryOk(s, d);
    KeysUnique(t, message, s.trigger[d].message);
    PayloadsUnique(t, job, s.trigger[d].job);
  }

  lemma {:induction false} LinkedJob(t: Tables, job: nat)
    requires W.Linked(t) && job in t.jobs
    ensures t.jobs[job].payload.Some? && t.jobs[job].payload.value in t.messages
  {
    W.SeenStatus(t, job);
  }

  /**
   An undispatched delivery has its own job unfinished or dead-lettered, or the very worker that
   completed the job had found that its recipient was not a member of the house.
   */
  lemma {:induction false} NoDeliveryIsStranded(steps: seq<Step>, d: nat)
    requires Undispatched(Run(steps).rows, d)
    ensures var s := Run(steps);
            exists message, job :: JobOfDelivery(s.rows.tables, d, message, job)
              && (s.rows.tables.jobs[job].completedAt.None?
                  || exists k, c ::
                       SkippedBy(steps, k, c, job, d, s.rows.deliveries[d].house, s.rows.deliveries[d].user))
  {
    hide Inv, Apply, Run, SkippedBy;
    var s := Run(steps);
    Reachable(steps);
    OwnJob(s, d);
    var t := s.trigger[d];
    assert JobOfDelivery(s.rows.tables, d, t.message, t.job);
    if s.rows.tables.jobs[t.job].completedAt.Some? {
      CompleterSkipped(steps, d, t.message, t.job);
    }
  }

  lemma {:induction false} OwnJob(s: System, d: nat)
    requires Inv(s) && d in s.rows.deliveries
    ensures d in s.trigger && JobOfDelivery(s.rows.tables, d, s.trigger[d].message, s.trigger[d].job)
  {
    hide W.Inv, NoDuplicates, Partition, PreferencesOk, ClearedOk, NotesOk;
    assert DeliveryOk(s, d);
  }

  lemma {:induction false} CompleterSkipped(steps: seq<Step>, d: nat, message: nat, job: nat)
    requires Undispatched(Run(steps).rows, d) && JobOfDelivery(Run(steps).rows.tables, d, message, job)
    requires Completed(Run(steps), job)
    ensures exists k, c ::
      SkippedBy(steps, k, c, job, d, Run(steps).rows.deliveries[d].house, Run(steps).rows.deliveries[d].user)
  {
    hide Inv, Apply, Grows, QueueStepAllowed, Clears, FindsAbsent, HasNote;
    var c := CompletedSince(steps, job);
    var s := Run(steps[..c]);
    Reachable(steps[..c]);
    OnlySettlingCompletes(s, steps[c], job);
    var w := steps[c].step.worker;
    RunGrows(steps, c);
    SameTrigger(s, Run(steps), d, message, job);
    CompleterWasCleared(s, steps[c].step, d);
    var k := ClearedSince(steps[..c], w);
    assert steps[..c][..k] == steps[..k] && steps[..k + 1][..k] == steps[..k];
    var r := Run(steps[..k]);
    Reachable(steps[..k]);
    ClearingUnmarkedFindsAbsent(r, steps[k], w, s.workers[w]);
    RunGrows(steps, k);
    RunGrows(steps, k + 1);
    StillUnmarked(r, Run(steps), d);
    StepKeepsRow(r, steps[k], d);
    StillUnmarked(Run(steps[..k + 1]), Run(steps), d);
    ClearsFacts(r, steps[k], w, s.workers[w]);
    assert SkippedBy(steps, k, c, job, d, Run(steps).rows.deliveries[d].house, Run(steps).rows.deliveries[d].user);
  }

  lemma {:induction false} ClearsFacts(s: System, step: Step, w: nat, local: W.Local)
    requires Clears(s, step, w, local)
    ensures step.Deliver? && step.worker == w && w in s.workers && s.workers[w] == local
  {
  }

  lemma {:induction false} StepKeepsRow(s: System, step: Step, d: nat)
    requires Inv(s) && d in s.rows.deliveries
    ensures d in Apply(s, step).rows.deliveries
  {
    hide Inv, Apply;
    StepGrows(s, step);
  }

  lemma {:induction false} StillUnmarked(s: System, u: System, d: nat)
    requires Grows(s, u) && d in s.rows.deliveries && Undispatched(u.rows, d)
    ensures Undispatched(s.rows, d)
    ensures s.rows.deliveries[d].house == u.rows.deliveries[d].house
    ensures s.rows.deliveries[d].user == u.rows.deliveries[d].user
  {
  }

  lemma {:induction false} CompleterWasCleared(s: System, q: W.Step, d: nat)
    requires Inv(s) && d in s.rows.deliveries && q.Settle? && QueueStepAllowed(s, q) && q.call.CompleteCall?
    requires q.worker in s.workers && s.workers[q.worker].snap.id == s.trigger[d].job
    requires s.workers[q.worker].Looked? && s.workers[q.worker].seen.status == Pending
    ensures q.worker in s.cleared && HasNote(s, q.worker) && s.workers[q.worker].seen.payload.notification == d
  {
    hide Inv;
    CompleterHasNote(s, q.worker, d);
  }

  // ---- what the digests reported

  /** The step is the dispatch that appended this entry: its snapshot, and the enabled rows counted in it. */
  ghost predicate Reported(s: System, step: Step, entry: Dispatch) {
    && step.Deliver? && HasNote(s, step.worker) && step.sent
    && var note := s.workers[step.worker].seen.payload;
    && entry.ids == DueRows(s.rows, note, step.now) && entry.ids != {}
    && entry.total == |EnabledRows(s.rows, note, entry.ids)|
    && (note.noteHouse, note.user) in s.rows.members
    && Apply(s, step).dispatches == s.dispatches + [entry]
  }

  lemma {:induction false} StepReports(s: System, step: Step)
    requires Inv(s)
    ensures var u := Apply(s, step);
            u.dispatches == s.dispatches
            || (|u.dispatches| == |s.dispatches| + 1 && Reported(s, step, u.dispatches[|s.dispatches|]))
  {
    hide Inv, Recipients;
    if step.Announce? && |step.users| == |step.draws| && EnqueueAll(s, step.event, step.users, step.draws).Some? {
      AnnouncingGrows(s, step.event, step.users, step.draws);
    }
  }

  /** Every committed dispatch reported the enabled rows of its own snapshot, as they were at that step. */
  lemma {:induction false} DispatchesReportTheirSnapshots(steps: seq<Step>, i: nat) returns (k: nat)
    requires i < |Run(steps).dispatches|
    ensures k < |steps| && |Run(steps[..k]).dispatches| == i
    ensures Reported(Run(steps[..k]), steps[k], Run(steps).dispatches[i])
  {
    hide Inv, Apply, Reported;
    var n := |steps| - 1;
    var s := Run(steps[..n]);
    Reachable(steps[..n]);
    StepReports(s, steps[n]);
    if i < |s.dispatches| {
      k := DispatchesReportTheirSnapshots(steps[..n], i);
      assert steps[..n][..k] == steps[..k];
      DispatchesOnlyGrow(s, steps[n]);
    } else {
      k := n;
    }
  }

  lemma {:induction false} DispatchesOnlyGrow(s: System, step: Step)
    requires Inv(s)
    ensures s.dispatches <= Apply(s, step).dispatches
  {
    hide Inv, Apply;
    StepReports(s, step);
    ReportedAppends(s, step);
  }

  lemma {:induction false} ReportedAppends(s: System, step: Step)
    ensures forall entry | Reported(s, step, entry) :: s.dispatches <= Apply(s, step).dispatches
  {
  }
}
