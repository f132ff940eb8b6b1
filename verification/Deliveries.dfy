/** No delivery is stranded, none is announced twice, and digests partition what they dispatch. */
module Deliveries {
  import opened Basics
  import opened JobQueue
  import opened QuietHours
  import opened Notifications
  import W = Worker

  // ---- two facts about the queue below

  /** The job was never available, nor any of its attempts started, before `floor`. */
  ghost predicate NotBefore(c: W.System, job: nat, floor: Instant) {
    && job in c.tables.jobs && job in c.history && c.tables.jobs[job].availableAt >= floor
    && forall i | 0 <= i < |c.history[job]| :: c.history[job][i].start >= floor
  }

  lemma {:induction false} SettleKeepsFloor(c: W.System, w: nat, call: W.Call, now: Instant, job: nat, floor: Instant)
    requires W.Inv(c) && W.CanSettle(c, w, call, now) && NotBefore(c, job, floor)
    ensures NotBefore(W.SettleJob(c, w, call, now), job, floor)
  {
    hide W.Linked, W.TablesGrow, W.JobsOk, W.Live;
    if W.Perform(c.tables, c.workers[w].snap, call, now).Success? {
      W.SettledTables(c, w, call, now);
      assert W.LocalOk(c, c.workers[w]);
      JobBackoffRange(c.workers[w].snap.row.attempts);
    }
  }

  lemma {:induction false} StepKeepsFloor(c: W.System, step: W.Step, job: nat, floor: Instant)
    requires W.Inv(c) && NotBefore(c, job, floor)
    ensures NotBefore(W.Apply(c, step), job, floor)
  {
    hide W.Inv;
    match step
    case Settle(w, call, now) =>
      if W.CanSettle(c, w, call, now) {
        SettleKeepsFloor(c, w, call, now, job, floor);
      }
    case AcquireNext(_, _, _, _, _) =>
    case Enqueue(_, _, _, _, _, _, _) =>
    case Look(_) =>
    case Crash(_) =>
    case RedactKey(_) =>
  }

  /** A job is completed only by a worker that has read its message as pending. */
  lemma {:induction false} CompletionNeedsAPendingMessage(c: W.System, step: W.Step, job: nat)
    requires W.Inv(c) && job in c.tables.jobs && c.tables.jobs[job].completedAt.None?
    requires job in W.Apply(c, step).tables.jobs && W.Apply(c, step).tables.jobs[job].completedAt.Some?
    ensures step.Settle? && W.CanSettle(c, step.worker, step.call, step.now) && step.call.CompleteCall?
    ensures c.workers[step.worker].snap.id == job
    ensures c.workers[step.worker].Looked? && c.workers[step.worker].seen.status == Pending
  {
    hide W.JobsOk, W.Linked;
    if step.Settle? && W.CanSettle(c, step.worker, step.call, step.now) {
      if W.Perform(c.tables, c.workers[step.worker].snap, step.call, step.now).Success? {
        W.SettledTables(c, step.worker, step.call, step.now);
        assert W.LocalOk(c, c.workers[step.worker]);
      }
    }
  }

  // ---- the invariant

  predicate TriggerOk(s: System, d: nat) {
    && d in s.rows.deliveries && d in s.trigger
    && var t, row := s.trigger[d], s.rows.deliveries[d];
    && t.message in s.rows.tables.messages
    && s.rows.tables.messages[t.message].key == DeliveryKey(d)
    && s.rows.tables.messages[t.message].payload == NoteOf(d, row)
    && t.job in s.rows.tables.jobs && s.rows.tables.jobs[t.job].payload == Some(t.message)
  }

  predicate Skipped(s: System, d: nat) {
    d in s.rows.deliveries && (d, s.rows.deliveries[d].house, s.rows.deliveries[d].user) in s.skipped
  }

  /** Marked, or passed over because its recipient was gone. */
  predicate DealtWith(s: System, d: nat) {
    d in s.rows.deliveries && (s.rows.deliveries[d].dispatchedAt.Some? || Skipped(s, d))
  }

  ghost predicate DeliveryOk(s: System, d: nat) {
    && TriggerOk(s, d)
    && NotBefore(Core(s), s.trigger[d].job, s.rows.deliveries[d].availableAt)
    && (!DealtWith(s, d) ==> s.rows.tables.jobs[s.trigger[d].job].completedAt.None?)
  }

  ghost predicate NotesOk(s: System) {
    forall m | m in s.rows.tables.messages ::
      var message := s.rows.tables.messages[m];
      && (message.key.DeliveryKey? <==> message.payload.DeliveryNote?)
      && (message.key.DeliveryKey? ==> message.key.delivery in s.rows.deliveries)
  }

  ghost predicate ClearedOk(s: System) {
    forall w | w in s.cleared :: HasNote(s, w) && DealtWith(s, s.workers[w].seen.payload.notification)
  }

  ghost predicate PreferencesOk(s: System) {
    forall k | k in s.rows.preferences :: Valid(s.rows.preferences[k])
  }

  function EventOf(d: Delivery): Event {
    Event(d.house, d.category, d.resource, d.occurrence)
  }

  ghost predicate NoDuplicates(s: System) {
    forall a, b | a in s.rows.deliveries && b in s.rows.deliveries && a != b ::
      !IsFor(s.rows.deliveries[a], EventOf(s.rows.deliveries[b]), s.rows.deliveries[b].user)
  }

  predicate MarkedBy(s: System, i: int, d: nat) {
    0 <= i < |s.dispatches| && d in s.dispatches[i].ids
  }

  /** The committed snapshots are pairwise disjoint and together are the dispatched rows. */
  ghost predicate Partition(s: System) {
    && (forall i, j, d | 0 <= i < j < |s.dispatches| && MarkedBy(s, i, d) :: !MarkedBy(s, j, d))
    && (forall i, d | MarkedBy(s, i, d) :: d in s.rows.deliveries && s.rows.deliveries[d].dispatchedAt.Some?)
    && (forall d | d in s.rows.deliveries && s.rows.deliveries[d].dispatchedAt.Some? :: exists i :: MarkedBy(s, i, d))
  }

  ghost predicate Inv(s: System) {
    && W.Inv(Core(s)) && s.trigger.Keys == s.rows.deliveries.Keys
    && (forall d | d in s.rows.deliveries :: DeliveryOk(s, d))
    && NotesOk(s) && ClearedOk(s) && PreferencesOk(s) && NoDuplicates(s) && Partition(s)
  }

  // ---- what the note in a worker's hands tells it

  lemma {:induction false} KeysUnique(t: Tables, m: nat, n: nat)
    requires W.Linked(t) && m in t.messages && n in t.messages && t.messages[m].key == t.messages[n].key
    ensures m == n
  {
  }

  lemma {:induction false} PayloadsUnique(t: Tables, a: nat, b: nat)
    requires W.Linked(t) && a in t.jobs && b in t.jobs && t.jobs[a].payload == t.jobs[b].payload
    ensures a == b
  {
  }

  /** The note is that of the worker's own job, and the job was not handed out before the delivery was due. */
  lemma {:induction false} NoteIsOwn(s: System, w: nat)
    requires Inv(s) && HasNote(s, w)
    ensures var d, snap := s.workers[w].seen.payload.notification, s.workers[w].snap;
            && d in s.rows.deliveries && s.trigger[d].job == snap.id
            && s.workers[w].seen.payload == NoteOf(d, s.rows.deliveries[d])
            && s.rows.deliveries[d].availableAt <= snap.row.updatedAt
  {
    hide W.JobsOk, W.Linked, NoDuplicates, Partition, ClearedOk;
    var c := Core(s);
    var local := s.workers[w];
    assert W.LocalOk(c, c.workers[w]);
    var m := c.tables.jobs[local.snap.id].payload.value;
    assert local.seen.payload == c.tables.messages[m].payload;
    var d := c.tables.messages[m].key.delivery;
    assert DeliveryOk(s, d);
    KeysUnique(c.tables, m, s.trigger[d].message);
    PayloadsUnique(c.tables, local.snap.id, s.trigger[d].job);
  }

  // ---- queue steps

  lemma {:induction false} QueueKeepsDelivery(s: System, q: W.Step, d: nat)
    requires Inv(s) && QueueStepAllowed(s, q) && d in s.rows.deliveries
    ensures DeliveryOk(WithCore(s, W.Apply(Core(s), q)), d)
  {
    hide W.Inv, NoDuplicates, Partition, PreferencesOk, NotesOk, W.HistoryGrows, W.Apply;
    var c := Core(s);
    var s' := WithCore(s, W.Apply(c, q));
    W.ApplyKeeps(c, q);
    assert DeliveryOk(s, d);
    var t := s.trigger[d];
    assert W.SameNote(c.tables.messages[t.message], s'.rows.tables.messages[t.message]);
    StepKeepsFloor(c, q, t.job, s.rows.deliveries[d].availableAt);
    if c.tables.jobs[t.job].completedAt.None? && s'.rows.tables.jobs[t.job].completedAt.Some? {
      CompletionNeedsAPendingMessage(c, q, t.job);
      CompleterHasNote(s, q.worker, d);
    }
  }

  lemma {:induction false} CompleterHasNote(s: System, w: nat, d: nat)
    requires Inv(s) && d in s.rows.deliveries && w in s.workers && s.workers[w].snap.id == s.trigger[d].job
    requires s.workers[w].Looked? && s.workers[w].seen.status == Pending
    ensures HasNote(s, w) && s.workers[w].seen.payload.notification == d
  {
    hide W.JobsOk, W.Linked, NoDuplicates, Partition, ClearedOk, NotesOk;
    assert DeliveryOk(s, d);
    assert W.LocalOk(Core(s), Core(s).workers[w]);
  }

  lemma {:induction false} QueueKeepsNotes(s: System, q: W.Step)
    requires Inv(s) && QueueStepAllowed(s, q)
    ensures NotesOk(WithCore(s, W.Apply(Core(s), q)))
  {
    hide W.JobsOk, W.Linked, W.WorkersOk, NoDuplicates, Partition, PreferencesOk, ClearedOk, DeliveryOk, W.HistoryGrows;
    var c := Core(s);
    var u := W.Apply(c, q).tables;
    W.ApplyKeeps(c, q);
    forall m | m in u.messages
      ensures u.messages[m].key.DeliveryKey? <==> u.messages[m].payload.DeliveryNote?
      ensures u.messages[m].key.DeliveryKey? ==> u.messages[m].key.delivery in s.rows.deliveries
    {
      if m in c.tables.messages {
        assert W.SameNote(c.tables.messages[m], u.messages[m]);
      } else {
        W.OnlyEnqueueAdds(c, q, m);
      }
    }
  }

  lemma {:induction false} QueueKeepsCleared(s: System, q: W.Step)
    requires ClearedOk(s)
    ensures ClearedOk(WithCore(s, W.Apply(Core(s), q)))
  {
  }

  lemma {:induction false} SameRowsKeep(s: System, s': System)
    requires s'.rows.deliveries == s.rows.deliveries && s'.rows.preferences == s.rows.preferences
    ensures NoDuplicates(s) ==> NoDuplicates(s')
    ensures PreferencesOk(s) ==> PreferencesOk(s')
  {
  }

  lemma {:induction false} QueueKeeps(s: System, q: W.Step)
    requires Inv(s) && QueueStepAllowed(s, q)
    ensures Inv(WithCore(s, W.Apply(Core(s), q)))
  {
    hide W.Inv, DeliveryOk, NotesOk, ClearedOk, Partition, NoDuplicates, PreferencesOk, W.Apply, QueueStepAllowed;
    var s' := WithCore(s, W.Apply(Core(s), q));
    forall d | d in s.rows.deliveries
      ensures DeliveryOk(s', d)
    {
      QueueKeepsDelivery(s, q, d);
    }
    QueueKeepsNotes(s, q);
    QueueKeepsCleared(s, q);
    W.ApplyKeeps(Core(s), q);
    assert Core(s') == W.Apply(Core(s), q);
    PartitionFrame(s, s');
    SameRowsKeep(s, s');
  }

  lemma {:induction false} PartitionFrame(s: System, s': System)
    requires Partition(s) && s'.dispatches == s.dispatches
    requires forall d | d in s.rows.deliveries ::
      d in s'.rows.deliveries && s'.rows.deliveries[d].dispatchedAt == s.rows.deliveries[d].dispatchedAt
    requires forall d | d in s'.rows.deliveries && d !in s.rows.deliveries :: s'.rows.deliveries[d].dispatchedAt.None?
    ensures Partition(s')
  {
    forall i, d
      ensures MarkedBy(s', i, d) <==> MarkedBy(s, i, d)
    {
    }
    forall d | d in s'.rows.deliveries && s'.rows.deliveries[d].dispatchedAt.Some?
      ensures exists i :: MarkedBy(s', i, d)
    {
      var i :| MarkedBy(s, i, d);
      assert MarkedBy(s', i, d);
    }
  }

  // ---- EnqueueTx

  lemma {:induction false} InsertKeepsRows(s: System, e: Event, user: nat, draw: Draw)
    requires Inv(s) && !HasDelivery(s.rows, e, user) && draw.delivery !in s.rows.deliveries
    ensures !KeyTaken(s.rows.tables, DeliveryKey(draw.delivery))
    ensures NewDelivery(s.rows, e, user, draw.now).availableAt >= draw.now
  {
  }

  predicate Opens(s: System, e: Event, user: nat, draw: Draw) {
    && !HasDelivery(s.rows, e, user) && draw.delivery !in s.rows.deliveries
    && CanInsert(s.rows.tables, draw.job, draw.message, DeliveryKey(draw.delivery))
  }

  /** The system right after a new delivery, its message and its job are inserted. */
  function Opened(s: System, e: Event, user: nat, draw: Draw): System {
    var row := NewDelivery(s.rows, e, user, draw.now);
    var core := W.AddJob(Core(s), draw.job, draw.message, DeliveryKey(draw.delivery), NoteOf(draw.delivery, row),
                         row.availableAt, MAX_ATTEMPTS, draw.now);
    s.(rows := s.rows.(tables := core.tables, deliveries := s.rows.deliveries[draw.delivery := row]),
       history := core.history, trigger := s.trigger[draw.delivery := draw])
  }

  lemma {:induction false} EnqueueOneOpens(s: System, e: Event, user: nat, draw: Draw)
    requires Inv(s)
    ensures EnqueueOne(s, e, user, draw) ==
            if HasDelivery(s.rows, e, user) then Some(s)
            else if Opens(s, e, user, draw) then Some(Opened(s, e, user, draw)) else None
  {
    hide W.WorkersOk, W.Linked, DeliveryOk, Partition, NoDuplicates, ClearedOk;
    assert s.history.Keys == s.rows.tables.jobs.Keys;
    if !HasDelivery(s.rows, e, user) && draw.delivery !in s.rows.deliveries {
      InsertKeepsRows(s, e, user, draw);
    }
  }

  lemma {:induction false} OpenedDeliveries(s: System, e: Event, user: nat, draw: Draw, d: nat)
    requires Inv(s) && Opens(s, e, user, draw) && d in Opened(s, e, user, draw).rows.deliveries
    ensures DeliveryOk(Opened(s, e, user, draw), d)
  {
    hide W.Inv, Partition, NoDuplicates, ClearedOk, NotesOk, PreferencesOk, AvailableAt;
    if d != draw.delivery {
      assert DeliveryOk(s, d);
      hide NewDelivery;
      OpenedKeepsDelivery(s, e, user, draw, d);
    }
  }

  lemma {:induction false} OpenedKeepsDelivery(s: System, e: Event, user: nat, draw: Draw, d: nat)
    requires DeliveryOk(s, d) && Opens(s, e, user, draw) && d != draw.delivery
    ensures DeliveryOk(Opened(s, e, user, draw), d)
  {
  }

  lemma {:induction false} OpenedNotes(s: System, e: Event, user: nat, draw: Draw)
    requires Inv(s) && Opens(s, e, user, draw)
    ensures NotesOk(Opened(s, e, user, draw)) && NoDuplicates(Opened(s, e, user, draw))
    ensures ClearedOk(Opened(s, e, user, draw))
  {
    hide W.Inv, DeliveryOk, Partition, PreferencesOk;
    var s' := Opened(s, e, user, draw);
    forall w | w in s'.cleared
      ensures HasNote(s', w) && DealtWith(s', s'.workers[w].seen.payload.notification)
    {
      assert HasNote(s, w) && DealtWith(s, s.workers[w].seen.payload.notification);
    }
    forall a, b | a in s'.rows.deliveries && b in s'.rows.deliveries && a != b
      ensures !IsFor(s'.rows.deliveries[a], EventOf(s'.rows.deliveries[b]), s'.rows.deliveries[b].user)
    {
      assert a in s.rows.deliveries && b in s.rows.deliveries ==>
          !IsFor(s.rows.deliveries[a], EventOf(s.rows.deliveries[b]), s.rows.deliveries[b].user);
    }
  }

  lemma {:induction false} OpenedKeeps(s: System, e: Event, user: nat, draw: Draw)
    requires Inv(s) && Opens(s, e, user, draw)
    ensures Inv(Opened(s, e, user, draw))
  {
    hide W.Inv, DeliveryOk, NotesOk, ClearedOk, Partition, NoDuplicates, W.TablesGrow, W.HistoryGrows;
    var s' := Opened(s, e, user, draw);
    var row := NewDelivery(s.rows, e, user, draw.now);
    W.EnqueueKeeps(Core(s), draw.job, draw.message, DeliveryKey(draw.delivery), NoteOf(draw.delivery, row),
                   row.availableAt, MAX_ATTEMPTS, draw.now);
    assert Core(s') == W.AddJob(Core(s), draw.job, draw.message, DeliveryKey(draw.delivery),
                                NoteOf(draw.delivery, row), row.availableAt, MAX_ATTEMPTS, draw.now);
    forall d | d in s'.rows.deliveries
      ensures DeliveryOk(s', d)
    {
      OpenedDeliveries(s, e, user, draw, d);
    }
    OpenedNotes(s, e, user, draw);
    PartitionFrame(s, s');
  }

  lemma {:induction false} EnqueueAllKeeps(s: System, e: Event, users: seq<nat>, draws: seq<Draw>)
    requires Inv(s) && |users| == |draws|
    ensures EnqueueAll(s, e, users, draws).Some? ==> Inv(EnqueueAll(s, e, users, draws).value)
  {
    hide Inv;
    if users != [] {
      var n := |users| - 1;
      EnqueueAllKeeps(s, e, users[..n], draws[..n]);
      var done := EnqueueAll(s, e, users[..n], draws[..n]);
      if done.Some? {
        EnqueueOneOpens(done.value, e, users[n], draws[n]);
        if Opens(done.value, e, users[n], draws[n]) {
          OpenedKeeps(done.value, e, users[n], draws[n]);
        }
      }
    }
  }

  // ---- WithAuthorizedDispatch

  lemma {:induction false} DispatchDealsWithIt(s: System, w: nat, now: Instant, sent: bool)
    requires Inv(s) && HasNote(s, w) && now >= s.workers[w].snap.row.updatedAt
    ensures var s', d := RunDispatch(s, w, now, sent), s.workers[w].seen.payload.notification;
            s' != s ==> DealtWith(s', d)
  {
    hide W.Inv, DeliveryOk, NotesOk, ClearedOk, Partition, NoDuplicates;
    NoteIsOwn(s, w);
    var note := s.workers[w].seen.payload;
    assert Undispatched(s.rows, note.notification) ==> note.notification in DueRows(s.rows, note, now);
  }

  /** Marking changes dispatched_at alone. */
  predicate OnlyMarked(r: Rows, r': Rows) {
    && r'.tables == r.tables && r'.deliveries.Keys == r.deliveries.Keys
    && forall d | d in r.deliveries ::
         && r'.deliveries[d].(dispatchedAt := r.deliveries[d].dispatchedAt) == r.deliveries[d]
         && (r.deliveries[d].dispatchedAt.Some? ==> r'.deliveries[d].dispatchedAt.Some?)
  }

  lemma {:induction false} MarkingKeeps(s: System, s': System)
    requires Inv(s) && OnlyMarked(s.rows, s'.rows) && s.skipped <= s'.skipped
    requires Core(s') == Core(s) && s'.trigger == s.trigger
    ensures (forall d | d in s'.rows.deliveries :: DeliveryOk(s', d)) && NoDuplicates(s') && NotesOk(s')
  {
    hide W.Inv, Partition, ClearedOk;
    forall d | d in s'.rows.deliveries
      ensures DeliveryOk(s', d)
    {
      assert DeliveryOk(s, d);
    }
    forall a, b | a in s'.rows.deliveries && b in s'.rows.deliveries && a != b
      ensures !IsFor(s'.rows.deliveries[a], EventOf(s'.rows.deliveries[b]), s'.rows.deliveries[b].user)
    {
      assert !IsFor(s.rows.deliveries[a], EventOf(s.rows.deliveries[b]), s.rows.deliveries[b].user);
    }
  }

  lemma {:induction false} DispatchKeepsDeliveries(s: System, w: nat, now: Instant, sent: bool)
    requires Inv(s) && HasNote(s, w)
    ensures var s' := RunDispatch(s, w, now, sent);
            (forall d | d in s'.rows.deliveries :: DeliveryOk(s', d)) && NoDuplicates(s') && NotesOk(s')
  {
    hide Inv, DeliveryOk, NoDuplicates, NotesOk;
    MarkingKeeps(s, RunDispatch(s, w, now, sent));
  }

  lemma {:induction false} DispatchKeepsCleared(s: System, w: nat, now: Instant, sent: bool)
    requires Inv(s) && HasNote(s, w) && now >= s.workers[w].snap.row.updatedAt
    ensures ClearedOk(RunDispatch(s, w, now, sent))
  {
    hide W.Inv, Partition, NoDuplicates, NotesOk, DeliveryOk;
    var s' := RunDispatch(s, w, now, sent);
    DispatchDealsWithIt(s, w, now, sent);
    forall v | v in s'.cleared
      ensures HasNote(s', v) && DealtWith(s', s'.workers[v].seen.payload.notification)
    {
      assert v in s.cleared ==> HasNote(s, v) && DealtWith(s, s.workers[v].seen.payload.notification);
    }
  }

  lemma {:induction false} DispatchKeepsPartition(s: System, w: nat, now: Instant, sent: bool)
    requires Partition(s) && HasNote(s, w)
    ensures Partition(RunDispatch(s, w, now, sent))
  {
    var s' := RunDispatch(s, w, now, sent);
    if s'.dispatches != s.dispatches {
      var n := |s.dispatches|;
      var ids := DueRows(s.rows, s.workers[w].seen.payload, now);
      forall i, d
        ensures MarkedBy(s', i, d) <==> MarkedBy(s, i, d) || (i == n && d in ids)
      {
      }
      forall d | d in s'.rows.deliveries && s'.rows.deliveries[d].dispatchedAt.Some?
        ensures exists i :: MarkedBy(s', i, d)
      {
        if d in ids {
          assert MarkedBy(s', n, d);
        } else {
          var i :| MarkedBy(s, i, d);
          assert MarkedBy(s', i, d);
        }
      }
    } else {
      PartitionFrame(s, s');
    }
  }

  lemma {:induction false} DispatchKeeps(s: System, w: nat, now: Instant, sent: bool)
    requires Inv(s) && HasNote(s, w) && now >= s.workers[w].snap.row.updatedAt
    ensures Inv(RunDispatch(s, w, now, sent))
  {
    hide W.Inv, DeliveryOk, NotesOk, ClearedOk, Partition, NoDuplicates;
    DispatchKeepsDeliveries(s, w, now, sent);
    DispatchKeepsCleared(s, w, now, sent);
    DispatchKeepsPartition(s, w, now, sent);
    assert Core(RunDispatch(s, w, now, sent)) == Core(s);
  }

  // ---- membership and preferences

  lemma {:induction false} RowsOnlyKeeps(s: System, members: set<(nat, nat)>, preferences: map<(nat, nat), Preferences>)
    requires Inv(s)
    requires forall k | k in preferences :: Valid(preferences[k])
    ensures Inv(s.(rows := s.rows.(members := members, preferences := preferences)))
  {
    hide W.Inv, NoDuplicates;
    var s' := s.(rows := s.rows.(members := members, preferences := preferences));
    assert Core(s') == Core(s);
    forall d | d in s'.rows.deliveries
      ensures DeliveryOk(s', d)
    {
      assert DeliveryOk(s, d);
    }
    forall w | w in s'.cleared
      ensures HasNote(s', w) && DealtWith(s', s'.workers[w].seen.payload.notification)
    {
      assert HasNote(s, w) && DealtWith(s, s.workers[w].seen.payload.notification);
    }
    PartitionFrame(s, s');
    DuplicatesFrame(s, s');
    hide Partition, DeliveryOk;
  }

  lemma {:induction false} DuplicatesFrame(s: System, s': System)
    requires NoDuplicates(s) && s'.rows.deliveries == s.rows.deliveries
    ensures NoDuplicates(s')
  {
  }

  lemma {:induction false} MembersKeep(s: System, members: set<(nat, nat)>)
    requires Inv(s)
    ensures Inv(s.(rows := s.rows.(members := members)))
  {
    RowsOnlyKeeps(s, members, s.rows.preferences);
    hide Inv;
    assert s.rows.(members := members) == s.rows.(members := members, preferences := s.rows.preferences);
  }

  lemma {:induction false} PreferencesKeep(s: System, k: (nat, nat), p: Preferences)
    requires Inv(s) && Valid(p)
    ensures Inv(s.(rows := s.rows.(preferences := s.rows.preferences[k := p])))
  {
    RowsOnlyKeeps(s, s.rows.members, s.rows.preferences[k := p]);
    hide Inv;
    assert s.rows.(preferences := s.rows.preferences[k := p]) ==
        s.rows.(members := s.rows.members, preferences := s.rows.preferences[k := p]);
  }

  // ---- every run

  lemma {:induction false} ApplyKeeps(s: System, step: Step)
    requires Inv(s)
    ensures Inv(Apply(s, step))
  {
    hide Inv;
    match step
    case Queue(q) =>
      if QueueStepAllowed(s, q) {
        QueueKeeps(s, q);
      }
    case Announce(e, users, draws) =>
      if |users| == |draws| {
        EnqueueAllKeeps(s, e, users, draws);
      }
    case Deliver(w, now, sent) =>
      if HasNote(s, w) && now >= s.workers[w].snap.row.updatedAt {
        DispatchKeeps(s, w, now, sent);
      }
    case Join(house, user) => MembersKeep(s, s.rows.members + {(house, user)});
    case Leave(house, user) => MembersKeep(s, s.rows.members - {(house, user)});
    case PutPreferences(house, user, p) =>
      if Valid(p) {
        PreferencesKeep(s, (house, user), p);
      }
  }

  lemma {:induction false} Reachable(steps: seq<Step>)
    ensures Inv(Run(steps))
  {
    if steps == [] {
      var none: map<nat, nat>, nokeys: map<DedupeKey, nat> := map[], map[];
      assert W.LinkedBy(INITIAL.rows.tables, none, nokeys);
    } else {
      hide Inv, Apply;
      Reachable(steps[..|steps| - 1]);
      ApplyKeeps(Run(steps[..|steps| - 1]), steps[|steps| - 1]);
    }
  }

  // ---- what every run guarantees

  /** Step k is a dispatch for the note of delivery d, run at a moment its recipient was not a member. */
  ghost predicate FoundAbsent(steps: seq<Step>, k: int, d: nat, house: nat, user: nat) {
    0 <= k < |steps| && FindsAbsent(Run(steps[..k]), steps[k], d, house, user)
  }

  predicate FindsAbsent(s: System, step: Step, d: nat, house: nat, user: nat) {
    && step.Deliver? && HasNote(s, step.worker) && (house, user) !in s.rows.members
    && s.workers[step.worker].seen.payload.notification == d
    && s.workers[step.worker].seen.payload.noteHouse == house && s.workers[step.worker].seen.payload.user == user
  }

  /** A delivery is passed over only by a dispatch for it that finds its recipient gone. */
  lemma {:induction false} SkippedWasAbsent(steps: seq<Step>, d: nat, house: nat, user: nat)
    requires (d, house, user) in Run(steps).skipped
    ensures exists k :: FoundAbsent(steps, k, d, house, user)
  {
    hide Apply, FindsAbsent;
    var n := |steps| - 1;
    var s := Run(steps[..n]);
    if (d, house, user) in s.skipped {
      SkippedWasAbsent(steps[..n], d, house, user);
      var k :| FoundAbsent(steps[..n], k, d, house, user);
      assert steps[..n][..k] == steps[..k];
      assert FoundAbsent(steps, k, d, house, user);
    } else {
      OnlyAbsenceSkips(s, steps[n], d, house, user);
      assert FoundAbsent(steps, n, d, house, user);
    }
  }

  lemma {:induction false} OnlyAbsenceSkips(s: System, step: Step, d: nat, house: nat, user: nat)
    requires (d, house, user) !in s.skipped && (d, house, user) in Apply(s, step).skipped
    ensures FindsAbsent(s, step, d, house, user)
  {
    if step.Announce? && |step.users| == |step.draws| {
      EnqueueSkipsNothing(s, step.event, step.users, step.draws);
    }
  }

  lemma {:induction false} EnqueueSkipsNothing(s: System, e: Event, users: seq<nat>, draws: seq<Draw>)
    requires |users| == |draws|
    ensures EnqueueAll(s, e, users, draws).Some? ==> EnqueueAll(s, e, users, draws).value.skipped == s.skipped
  {
    if users != [] {
      EnqueueSkipsNothing(s, e, users[..|users| - 1], draws[..|users| - 1]);
    }
  }

  /** Whatever is announced, edited or retried, one user gets one delivery per event. */
  lemma {:induction false} OneDeliveryPerEvent(steps: seq<Step>, a: nat, b: nat, e: Event, user: nat)
    requires var r := Run(steps).rows;
            a in r.deliveries && b in r.deliveries && IsFor(r.deliveries[a], e, user) && IsFor(r.deliveries[b], e, user)
    ensures a == b
  {
    hide W.Inv, Apply, NotesOk, ClearedOk, DeliveryOk, Partition;
    Reachable(steps);
  }

  /** Committed dispatches never share a row, and together they are exactly the dispatched rows. */
  lemma {:induction false} DispatchesPartition(steps: seq<Step>, d: nat)
    ensures var s := Run(steps);
            && (d in s.rows.deliveries && s.rows.deliveries[d].dispatchedAt.Some? <==> exists i :: MarkedBy(s, i, d))
            && forall i, j | MarkedBy(s, i, d) && MarkedBy(s, j, d) :: i == j
  {
    hide W.Inv, Apply, NotesOk, ClearedOk, DeliveryOk, NoDuplicates;
    Reachable(steps);
  }

  // ---- what one announcement does

  lemma {:induction false} EnqueueProjects(s: System, e: Event, users: seq<nat>, draws: seq<Draw>)
    requires |users| == |draws|
    ensures var all, rows := EnqueueAll(s, e, users, draws), InsertDeliveries(s.rows, e, users, draws);
            (all.Some? <==> rows.Some?) && (all.Some? ==> all.value.rows == rows.value)
  {
    hide InsertDelivery;
    if users != [] {
      EnqueueProjects(s, e, users[..|users| - 1], draws[..|users| - 1]);
    }
  }

  /** Everyone listed ends up with exactly one row for the event; no other row appears or changes. */
  lemma {:induction false} EveryListedUserIsReached(r: Rows, e: Event, users: seq<nat>, draws: seq<Draw>)
    requires |users| == |draws| && InsertDeliveries(r, e, users, draws).Some?
    ensures var done := InsertDeliveries(r, e, users, draws).value;
            && (forall u | u in users :: HasDelivery(done, e, u))
            && (forall d | d in r.deliveries :: d in done.deliveries && done.deliveries[d] == r.deliveries[d])
            && (forall d | d in done.deliveries && d !in r.deliveries ::
                  exists u :: u in users && IsFor(done.deliveries[d], e, u) && !HasDelivery(r, e, u))
            && done.members == r.members && done.preferences == r.preferences
  {
    if users != [] {
      var n := |users| - 1;
      EveryListedUserIsReached(r, e, users[..n], draws[..n]);
      var before := InsertDeliveries(r, e, users[..n], draws[..n]).value;
      var done := InsertDeliveries(r, e, users, draws).value;
      OneUserIsReached(before, e, users[n], draws[n]);
      forall u | u in users
        ensures HasDelivery(done, e, u)
      {
        if u != users[n] {
          assert u in users[..n];
          var d :| d in before.deliveries && IsFor(before.deliveries[d], e, u);
          assert IsFor(done.deliveries[d], e, u);
        }
      }
      forall d | d in done.deliveries && d !in r.deliveries
        ensures exists u :: u in users && IsFor(done.deliveries[d], e, u) && !HasDelivery(r, e, u)
      {
        if d !in before.deliveries {
          assert users[n] in users && IsFor(done.deliveries[d], e, users[n]);
        }
      }
    }
  }

  lemma {:induction false} OneUserIsReached(r: Rows, e: Event, user: nat, draw: Draw)
    requires InsertDelivery(r, e, user, draw).Some?
    ensures var done := InsertDelivery(r, e, user, draw).value;
            && HasDelivery(done, e, user)
            && (forall d | d in r.deliveries :: d in done.deliveries && done.deliveries[d] == r.deliveries[d])
            && (forall d | d in done.deliveries && d !in r.deliveries ::
                 IsFor(done.deliveries[d], e, user) && !HasDelivery(r, e, user))
            && done.members == r.members && done.preferences == r.preferences
  {
    var done := InsertDelivery(r, e, user, draw).value;
    if !HasDelivery(r, e, user) {
      assert draw.delivery in done.deliveries && IsFor(done.deliveries[draw.delivery], e, user);
    }
  }
}
