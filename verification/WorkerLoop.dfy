/**
 RunOnce of worker/worker.go as one undisturbed call over the repositories it drives, and the
 protocol steps it amounts to.
 */
module WorkerLoop {
  import opened Basics
  import opened JobQueue
  import opened Subscriptions
  import opened InvitationColumns
  import opened Announcements
  import opened Scheduler
  import JobStore
  import InvitationStore
  import NotificationStore
  import Retention
  import D = Deliveries
  import I = Invitations
  import N = Notifications
  import W = Worker

  /** The invitation provider and the cipher that opens sealed links. */
  datatype Mail = Mail(configured: bool, hasCipher: bool, opens: string -> bool, send: Payload -> Option<Refusal>)

  /** The push provider and the cipher that opens subscriptions. */
  datatype Push = Push(configured: bool, cipher: Option<Cipher>, answer: nat -> Answer)

  datatype Verdict = Delivered | NoLongerWanted | Failed(refusal: Refusal)

  /** The settling call for a message that was read while still pending. */
  function CallFor(id: nat, verdict: Verdict): W.Call {
    match verdict
    case Failed(refusal) => W.FailCall(Some(id), refusal.cause, refusal.retryAt)
    case _ => W.CompleteCall(Some(id))
  }

  // ---- invitation notes

  const NO_MAIL := Refusal("invitation provider is not configured", None)
  const NO_LINK_CIPHER := Refusal("invitation delivery cipher is not configured", None)
  const BAD_LINK := Refusal("invitation delivery payload does not open", None)
  const NO_LINK := Refusal("invitation delivery payload is unavailable", None)
  const NO_PUSH := Refusal("notification provider is not configured", None)

  /** A note with a sealed link, or one that should have had it, is sent only for an open invitation. */
  predicate ChecksInvitation(mail: Mail, m: Message) {
    && m.payload.InvitationNote? && mail.configured
    && (m.payload.delivery.Some? || (m.key.InvitationKey? && m.key.kind == Created && mail.hasCipher))
  }

  function Sent(mail: Mail, payload: Payload): Verdict {
    match mail.send(payload)
    case None => Delivered
    case Some(refusal) => Failed(Refusal(refusal.cause, None))
  }

  /** What becomes of an invitation note; `open` is the answer of the availability check. */
  function NoteVerdict(mail: Mail, m: Message, open: bool): Verdict
    requires m.payload.InvitationNote?
  {
    if !mail.configured then Failed(NO_MAIL)
    else if !ChecksInvitation(mail, m) then Sent(mail, m.payload)
    else if !open then NoLongerWanted
    else if m.payload.delivery.None? then Failed(NO_LINK)
    else if !mail.hasCipher then Failed(NO_LINK_CIPHER)
    else if !mail.opens(m.payload.delivery.value) then Failed(BAD_LINK)
    else Sent(mail, m.payload)
  }

  /** The link reaches the provider only when the invitation is open and the link was opened. */
  lemma {:induction false} LinkIsSentOnlyWhileOpen(mail: Mail, m: Message, open: bool)
    requires m.payload.InvitationNote? && m.payload.delivery.Some? && NoteVerdict(mail, m, open) == Delivered
    ensures mail.configured && mail.hasCipher && open && mail.opens(m.payload.delivery.value)
    ensures mail.send(m.payload).None?
  {
  }

  class Worker {
    const queue: JobStore.ReliabilityRepository
    const notifications: NotificationStore.NotificationRepository
    const invitations: InvitationStore.HouseholdRepository
    const schedule: ScheduledEvents
    const chats: Retention.HouseholdRepository
    const owner: string
    const leaseDuration: Duration

    /** All repositories share one database, and the lease lasts. */
    ghost predicate Valid()
      reads queue
    {
      && notifications.queue == queue && invitations.queue == queue && schedule.notifications == notifications
      && leaseDuration > 0 && queue.Valid()
    }

    /** A lease duration that is not positive is replaced by 30 seconds. */
    constructor (n: NotificationStore.NotificationRepository, i: InvitationStore.HouseholdRepository,
                 e: ScheduledEvents, c: Retention.HouseholdRepository, o: string, lease: Duration)
      requires i.queue == n.queue && e.notifications == n && n.queue.Valid()
      ensures Valid() && queue == n.queue && invitations == i && schedule == e && chats == c && owner == o
      ensures leaseDuration == if lease > 0 then lease else 30 * SECOND
    {
      queue, notifications, invitations, schedule, chats, owner := n.queue, n, i, e, c, o;
      leaseDuration := if lease <= 0 then 30 * SECOND else lease;
    }

    /**
     What happens to a pending message before its job is settled. The availability check of an
     invitation commits its own expiry: `cleared` names the message whose link it dropped.
     */
    method Attend(message: Message, now: Instant, mail: Mail, push: Push)
      returns (verdict: Verdict, ghost cleared: Option<DedupeKey>)
      requires Valid()
      modifies queue, invitations`invitations, notifications`deliveries, notifications`subscriptions
      ensures Valid() && queue.jobs == old(queue.jobs)
      ensures queue.messages == if cleared.Some? then Redact(old(queue.messages), cleared.value)
              else old(queue.messages)
      ensures message.payload.InvitationNote? ==>
        && verdict == NoteVerdict(mail, message,
                                  I.CheckDelivery(old(invitations.All()), message.payload.invitation, now).1)
        && invitations.All() == (if ChecksInvitation(mail, message)
                                 then I.CheckDelivery(old(invitations.All()), message.payload.invitation, now).0
                                 else old(invitations.All()))
        && notifications.deliveries == old(notifications.deliveries)
      ensures message.payload.DeliveryNote? ==>
        && cleared.None? && invitations.All() == old(invitations.All()) && verdict != NoLongerWanted
        && notifications.All() == (if verdict.Failed? then old(notifications.All())
                                   else N.AfterDispatch(old(notifications.All()), message.payload, now))
        && (verdict.Failed? <==> FailsToPush(old(notifications.All()), old(notifications.subscriptions),
                                             message.payload, now, push))
        && (verdict.Failed? ==> FailedPush(old(notifications.subscriptions), message.payload, push, verdict.refusal))
      ensures SubscriptionsAfter(old(notifications.All()), old(notifications.subscriptions),
                                 notifications.subscriptions, message.payload, now, push, verdict)
      ensures message.payload.InvitationNote? ==>
        var link, i := message.payload.delivery, message.payload.invitation;
        var was := old(invitations.invitations);
        var checked := mail.configured
                       && (link.Some? || (message.key.InvitationKey? && message.key.kind == Created && mail.hasCipher));
        var open := i in was && was[i].house in invitations.houses && was[i].status == I.PendingInvite
                    && now <= was[i].expiresAt;
        && (verdict == Delivered <==>
              && mail.configured && mail.send(message.payload).None?
              && (checked ==> open && link.Some? && mail.hasCipher && mail.opens(link.value)))
        && (verdict == NoLongerWanted <==> checked && !open)
        && (verdict.Failed? ==> verdict.refusal.retryAt.None?)
    {
      hide NotificationStore.TargetsLeft;
      if message.payload.InvitationNote? {
        Availability(invitations.All(), message.payload.invitation, now);
      }
      cleared := None;
      if message.payload.DeliveryNote? {
        if !push.configured {
          return Failed(NO_PUSH), cleared;
        }
        var error, summary := notifications.WithAuthorizedDispatch(message.payload, now, push.cipher, push.answer);
        return if error.Some? then Failed(error.value) else Delivered, cleared;
      }
      if !mail.configured {
        return Failed(NO_MAIL), cleared;
      }
      if message.payload.delivery.Some? {
        var open;
        open, cleared := Check(message.payload.invitation, now);
        if !open {
          return NoLongerWanted, cleared;
        }
        if !mail.hasCipher {
          return Failed(NO_LINK_CIPHER), cleared;
        }
        if !mail.opens(message.payload.delivery.value) {
          return Failed(BAD_LINK), cleared;
        }
      } else if message.key.InvitationKey? && message.key.kind == Created && mail.hasCipher {
        var open;
        open, cleared := Check(message.payload.invitation, now);
        return if open then Failed(NO_LINK) else NoLongerWanted, cleared;
      }
      return Sent(mail, message.payload), cleared;
    }

    method Check(invitation: nat, now: Instant) returns (open: bool, ghost cleared: Option<DedupeKey>)
      requires Valid()
      modifies queue, invitations`invitations
      ensures Valid() && queue.jobs == old(queue.jobs)
      ensures (invitations.All(), open) == I.CheckDelivery(old(invitations.All()), invitation, now)
      ensures queue.messages == if cleared.Some? then Redact(old(queue.messages), cleared.value)
              else old(queue.messages)
    {
      ClearsOneKey(invitations.All(), invitation, now);
      cleared := Cleared(invitations.All(), invitation, now);
      open := invitations.InvitationDeliveryAvailable(invitation, now);
    }

    /** Reads the message of an acquired job, attends to it and settles the job as its verdict demands. */
    method Process(job: Snapshot, now: Instant, later: Instant, mail: Mail, push: Push)
      returns (error: Option<Error>, ghost call: W.Call, ghost looked: bool, ghost cleared: Option<DedupeKey>,
               ghost verdict: Verdict)
      requires Valid()
      modifies queue, invitations`invitations, notifications`deliveries, notifications`subscriptions
      ensures Valid()
      ensures match W.Perform(Attended(old(queue.Rows()), cleared), job, call, later)
              case Success(t) => error.None? && queue.Rows() == t
              case Failure(e) => error == Some(e) && queue.Rows() == Attended(old(queue.Rows()), cleared)
      ensures looked <==> job.row.payload.Some? && job.row.payload.value in old(queue.messages)
      ensures !looked ==> W.MayCall(W.Holding(job), call) && cleared.None?
      ensures looked ==> W.MayCall(W.Looked(job, old(queue.messages)[job.row.payload.value]), call)
      ensures looked && old(queue.messages)[job.row.payload.value].status == Pending ==>
        call == CallFor(job.row.payload.value, verdict)
      ensures looked && old(queue.messages)[job.row.payload.value].status == Pending ==>
        Explains(old(notifications.All()), old(notifications.subscriptions), old(invitations.All()),
                 old(queue.messages)[job.row.payload.value], now, mail, push, verdict)
      ensures (notifications.deliveries, invitations.invitations)
           == if looked && old(queue.messages)[job.row.payload.value].status == Pending
              then After(old(notifications.All()), old(invitations.All()), old(queue.messages)[job.row.payload.value],
                         now, mail, verdict)
              else (old(notifications.deliveries), old(invitations.invitations))
      ensures if looked && old(queue.messages)[job.row.payload.value].status == Pending
              then SubscriptionsAfter(old(notifications.All()), old(notifications.subscriptions),
                                      notifications.subscriptions,
                                      old(queue.messages)[job.row.payload.value].payload, now, push, verdict)
              else notifications.subscriptions == old(notifications.subscriptions)
    {
      hide SubscriptionsAfter, FailedPush, FailsToPush, NoteVerdict, Redact, UniqueKeys, JobBackoff;
      looked, cleared, verdict := job.row.payload.Some? && job.row.payload.value in queue.messages, None, Delivered;
      if job.row.payload.None? {
        call := W.FailCall(None, "invalid job payload", None);
        error := queue.FailOutboxJob(job, None, "invalid job payload", None, later);
        return;
      }
      var id := job.row.payload.value;
      if id !in queue.messages {
        call := W.FailCall(Some(id), "outbox message not found", None);
        error := queue.FailOutboxJob(job, Some(id), "outbox message not found", None, later);
        return;
      }
      var message := queue.messages[id];
      if message.status == Dispatched || message.status == DeadLettered {
        call := W.CompleteCall(None);
        error := queue.CompleteOutboxJob(job, None, later);
        return;
      }
      var outcome;
      outcome, cleared := Attend(message, now, mail, push);
      verdict, call := outcome, CallFor(id, outcome);
      match outcome
      case Failed(refusal) => error := queue.FailOutboxJob(job, Some(id), refusal.cause, refusal.retryAt, later);
      case _ => error := queue.CompleteOutboxJob(job, Some(id), later);
    }

    /**
     One job, from acquire to settlement. `s` and `w` place the call in the protocol: the rows are
     those of `s`, and `w` is a worker that holds nothing. The call is an acquire, a look if there is a
     message to read, a redaction if the invitation has just expired, and one settling call. In a
     reachable state, settled within its lease, it always succeeds.
     */
    method ProcessNext(now: Instant, later: Instant, mail: Mail, push: Push, ghost s: W.System, ghost w: nat)
      returns (error: Option<Error>, ghost steps: seq<W.Step>, ghost verdict: Verdict)
      requires Valid() && now <= later
      requires s.tables == queue.Rows() && s.history.Keys == s.tables.jobs.Keys && w !in s.workers
      modifies queue, invitations`invitations, notifications`deliveries, notifications`subscriptions
      ensures Valid()
      ensures steps == [] <==> forall id | id in old(queue.jobs) :: !Eligible(old(queue.jobs)[id], now)
      ensures steps != [] ==> steps[0].AcquireNext? && IsCandidate(old(queue.jobs), steps[0].id, now)
      ensures queue.Rows() == W.Run(s, steps).tables && W.Run(s, steps).workers == s.workers
      ensures steps == [] ==> error.None?
      ensures W.Inv(s) && later < now + leaseDuration ==> error.None?
      ensures W.Inv(s) && later < now + leaseDuration ==>
        JobHandled(old(notifications.All()), old(notifications.subscriptions), old(invitations.All()), steps, later,
                   mail, push, verdict, queue.Rows(), notifications.deliveries, invitations.invitations,
                   notifications.subscriptions)
    {
      hide After, SubscriptionsAfter;
      hide W.Inv, W.Run, W.Apply, W.Perform, W.MayCall, Explains, SettledBy, Trace, UniqueKeys, Redact, Eligible;
      steps, verdict := [], Delivered;
      ghost var rows, invited := notifications.All(), invitations.All();
      var job := queue.AcquireNextJob(owner, leaseDuration, now);
      if job.None? {
        NoSteps(s);
        return None, steps, verdict;
      }
      ghost var acquire := W.AcquireNext(w, job.value.id, owner, leaseDuration, now);
      ghost var call, looked, cleared;
      error, call, looked, cleared, verdict := Process(job.value, later, later, mail, push);
      steps := Trace(w, acquire, looked, cleared) + [W.Settle(w, call, later)];
      TraceStarts(w, acquire, looked, cleared);
      assert Acquired(s, w, acquire, looked, later, job.value) && Allowed(s, call, looked, job.value);
      Traced(s, w, acquire, call, looked, cleared, later, job.value);
      if W.Inv(s) && later < now + leaseDuration {
        PendingOnAcquire(s, job.value.id, now);
        InTime(s, w, acquire, call, looked, cleared, later, job.value, verdict);
        OnlyJobsDiffer(rows, s.tables.(jobs := Acquire(s.tables, acquire.id, owner, leaseDuration, now).jobs), invited,
                       old(notifications.subscriptions), s.tables.messages[job.value.row.payload.value],
                       later, mail, push, verdict);
        OnlyJobsReach(rows, s.tables.(jobs := Acquire(s.tables, acquire.id, owner, leaseDuration, now).jobs),
                      old(notifications.subscriptions), notifications.subscriptions,
                      s.tables.messages[job.value.row.payload.value].payload, later, push, verdict);
      }
    }

    /** The scheduler's call, placed in the system of deliveries. */
    method RunSchedule(now: Instant, locked: set<nat>, draws: nat -> N.Draw, ghost n: N.System)
      returns (outcome: Scheduler.Outcome, event: nat, ghost users: seq<nat>)
      requires Valid() && n.rows == notifications.All()
      modifies queue, notifications`deliveries, schedule`events
      ensures Valid()
      ensures ScheduleRan(n, old(schedule.events), schedule.events, locked, now, outcome, event, users, draws)
      ensures notifications.All() == Scheduled(n, old(schedule.events), outcome, event, users, draws).rows
      ensures outcome == Aborted ==> notifications.All() == n.rows
    {
      hide N.InsertDeliveries, N.EnqueueAll, UniqueKeys, IsPick, Advanced, N.Recipients, Due, MovedOn, Announced;
      outcome, event, users := schedule.RunDueScheduledEvent(owner, leaseDuration, now, locked, draws);
      if outcome != Idle {
        PickIsDue(old(schedule.events), locked, now, event);
        D.EnqueueProjects(n, ReminderOf(event, old(schedule.events)[event]), users,
                          NotificationStore.Drawn(users, draws));
      }
    }

    /**
     One iteration of the loop: at most one scheduled occurrence, one retention run and one job. `n` and
     `w` place it in the system of deliveries and workers. When the scheduler fails nothing else runs;
     otherwise the job is processed among the messages the scheduler has just queued.
     */
    method RunOnce(now: Instant, later: Instant, locked: set<nat>, draws: nat -> N.Draw, cutoff: Instant, mail: Mail,
                   push: Push, ghost n: N.System, ghost w: nat)
      returns (error: Option<LoopError>, outcome: Scheduler.Outcome, event: nat, ghost users: seq<nat>,
               ghost steps: seq<W.Step>, ghost verdict: Verdict)
      requires Valid() && now <= later
      requires n.rows == notifications.All() && n.history.Keys == n.rows.tables.jobs.Keys && w !in n.workers
      modifies queue, invitations`invitations, notifications`deliveries, notifications`subscriptions, schedule`events,
          chats
      ensures Valid()
      ensures ScheduleRan(n, old(schedule.events), schedule.events, locked, now, outcome, event, users, draws)
      ensures outcome == Aborted ==>
        && error == Some(ScheduleFailed) && notifications.All() == n.rows && chats.All() == old(chats.All())
        && invitations.invitations == old(invitations.invitations)
        && notifications.subscriptions == old(notifications.subscriptions)
      ensures outcome != Aborted ==>
        && chats.All() == Retention.Retained(old(chats.All()), 100, now, cutoff)
        && JobRan(Scheduled(n, old(schedule.events), outcome, event, users, draws), queue.Rows(), steps, now)
      ensures outcome != Aborted && D.Inv(n) && later < now + leaseDuration ==>
        && error.None?
        && JobHandled(Scheduled(n, old(schedule.events), outcome, event, users, draws).rows,
                      old(notifications.subscriptions), old(invitations.All()), steps, later, mail, push, verdict,
                      queue.Rows(), notifications.deliveries, invitations.invitations, notifications.subscriptions)
    {
      hide ScheduleRan, Scheduled, D.Inv, W.Inv, W.Run, JobHandled, UniqueKeys, Eligible;
      hide Retention.Retained, Retention.RanRetention;
      steps, verdict, error := [], Delivered, None;
      outcome, event, users := RunSchedule(now, locked, draws, n);
      if outcome == Aborted {
        return Some(ScheduleFailed), outcome, event, users, steps, verdict;
      }
      ghost var m := Scheduled(n, old(schedule.events), outcome, event, users, draws);
      ScheduledKeeps(n, old(schedule.events), outcome, event, users, draws);
      var redacted := chats.RunChatRetention(owner, leaseDuration, 100, now, cutoff);
      var failed;
      ghost var invited := invitations.All();
      failed, steps, verdict := ProcessNext(now, later, mail, push, N.Core(m), w);
      if D.Inv(n) && later < now + leaseDuration {
        assert invited == old(invitations.All()).(tables := m.rows.tables);
        HandledAlike(m.rows, old(notifications.subscriptions), old(invitations.All()), steps, later, mail, push,
                     verdict, queue.Rows(), notifications.deliveries, invitations.invitations,
                     notifications.subscriptions);
      }
      error := if failed.Some? then Some(QueueFailed(failed.value)) else None;
    }
  }

  /** The scheduler's part: idle, or the first due event announced and advanced, or rolled back on a taken id. */
  ghost predicate ScheduleRan(n: N.System, before: map<nat, EventRow>, after: map<nat, EventRow>, locked: set<nat>,
                              now: Instant,
                              outcome: Scheduler.Outcome, event: nat, users: seq<nat>, draws: nat -> N.Draw)
  {
    match outcome
    case Idle => after == before && forall k | k in before && k !in locked :: !Due(before[k], now)
    case LeaseLost => false
    case _ =>
      && IsPick(before, locked, now, event) && N.Recipients(n.rows, ReminderOf(event, before[event]), users)
      && (outcome == Aborted <==>
            N.EnqueueAll(n, ReminderOf(event, before[event]), users, NotificationStore.Drawn(users, draws)).None?)
      && after == if outcome == Aborted then before else before[event := Advanced(before[event])]
  }

  /** The job's part: protocol steps from the state after scheduling, none exactly when no job was eligible. */
  ghost predicate JobRan(m: N.System, rows: Tables, steps: seq<W.Step>, now: Instant) {
    && rows == W.Run(N.Core(m), steps).tables && W.Run(N.Core(m), steps).workers == m.workers
    && (steps == [] <==> forall id | id in m.rows.tables.jobs :: !Eligible(m.rows.tables.jobs[id], now))
    && (steps != [] ==> steps[0].AcquireNext? && IsCandidate(m.rows.tables.jobs, steps[0].id, now))
  }

  /**
   What the job's note has done, starting from rows `r`, subscriptions and invitations `i`: its verdict is
   explained, and the job, its message, the deliveries, invitations and subscriptions are what it leaves.
   */
  ghost predicate JobHandled(r: N.Rows, subscriptions: map<nat, Subscription>, i: I.Rows, steps: seq<W.Step>,
                             later: Instant, mail: Mail, push: Push, verdict: Verdict, tables: Tables,
                             deliveries: map<nat, N.Delivery>, invitations: map<nat, I.Invitation>,
                             after: map<nat, Subscription>)
  {
    if steps == [] then deliveries == r.deliveries && invitations == i.invitations && after == subscriptions
    else
      && SettledBy(r.tables, tables, JobOf(steps), later, verdict)
      && JobOf(steps) in r.tables.jobs && r.tables.jobs[JobOf(steps)].payload.Some?
      && var m := r.tables.jobs[JobOf(steps)].payload.value;
      && m in r.tables.messages && Explains(r, subscriptions, i, r.tables.messages[m], later, mail, push, verdict)
      && (deliveries, invitations) == After(r, i, r.tables.messages[m], later, mail, verdict)
      && SubscriptionsAfter(r, subscriptions, after, r.tables.messages[m].payload, later, push, verdict)
  }

  /** Handling a note looks at the invitations, not at the queue beside them. */
  lemma {:induction false} HandledAlike(r: N.Rows, subscriptions: map<nat, Subscription>, i: I.Rows,
                                        steps: seq<W.Step>, later: Instant, mail: Mail, push: Push, verdict: Verdict,
                                        tables: Tables, deliveries: map<nat, N.Delivery>,
                                        invitations: map<nat, I.Invitation>, after: map<nat, Subscription>)
    ensures JobHandled(r, subscriptions, i.(tables := r.tables), steps, later, mail, push, verdict, tables,
                       deliveries, invitations, after)
       <==> JobHandled(r, subscriptions, i, steps, later, mail, push, verdict, tables, deliveries, invitations, after)
  {
    hide Explains, After, SettledBy, SubscriptionsAfter;
    if steps != [] && JobOf(steps) in r.tables.jobs && r.tables.jobs[JobOf(steps)].payload.Some?
       && r.tables.jobs[JobOf(steps)].payload.value in r.tables.messages {
      OnlyJobsDiffer(r, r.tables, i, subscriptions, r.tables.messages[r.tables.jobs[JobOf(steps)].payload.value],
                     later, mail, push, verdict);
    }
  }

  function JobOf(steps: seq<W.Step>): nat {
    if steps != [] && steps[0].AcquireNext? then steps[0].id else 0
  }

  datatype LoopError = ScheduleFailed | QueueFailed(error: Error)

  /** The system once the scheduler has run: its occurrence announced, or nothing changed. */
  function Scheduled(n: N.System, events: map<nat, EventRow>, outcome: Scheduler.Outcome, event: nat, users: seq<nat>,
                     draws: nat -> N.Draw): N.System
  {
    if outcome != Ran || event !in events || events[event].next.None? then n
    else match N.EnqueueAll(n, ReminderOf(event, events[event]), users, NotificationStore.Drawn(users, draws))
         case None => n
         case Some(m) => m
  }

  lemma {:induction false} PickIsDue(events: map<nat, EventRow>, locked: set<nat>, now: Instant, id: nat)
    requires IsPick(events, locked, now, id)
    ensures id in events && events[id].next.Some?
  {
  }

  lemma {:induction false} ScheduledKeeps(n: N.System, events: map<nat, EventRow>, outcome: Scheduler.Outcome,
                                          event: nat, users: seq<nat>, draws: nat -> N.Draw)
    requires n.history.Keys == n.rows.tables.jobs.Keys
    ensures var m := Scheduled(n, events, outcome, event, users, draws);
            && m.history.Keys == m.rows.tables.jobs.Keys && m.workers == n.workers && (D.Inv(n) ==> W.Inv(N.Core(m)))
  {
    hide D.Inv, W.Inv, N.EnqueueAll;
    if event in events && events[event].next.Some? {
      var e, drawn := ReminderOf(event, events[event]), NotificationStore.Drawn(users, draws);
      HistoryFollows(n, e, users, drawn);
      if D.Inv(n) {
        D.EnqueueAllKeeps(n, e, users, drawn);
        if N.EnqueueAll(n, e, users, drawn).Some? {
          InvHasCore(N.EnqueueAll(n, e, users, drawn).value);
        }
      }
    }
    if D.Inv(n) {
      InvHasCore(n);
    }
  }

  lemma {:induction false} InvHasCore(n: N.System)
    requires D.Inv(n)
    ensures W.Inv(N.Core(n))
  {
  }

  lemma {:induction false} HistoryFollows(n: N.System, e: N.Event, users: seq<nat>, draws: seq<N.Draw>)
    requires |users| == |draws| && n.history.Keys == n.rows.tables.jobs.Keys
    ensures var m := N.EnqueueAll(n, e, users, draws);
            m.Some? ==> m.value.history.Keys == m.value.rows.tables.jobs.Keys && m.value.workers == n.workers
  {
    if users != [] {
      HistoryFollows(n, e, users[..|users| - 1], draws[..|users| - 1]);
    }
  }

  lemma {:induction false} NoSteps(s: W.System)
    ensures W.Run(s, []) == s
  {
  }

  lemma {:induction false} TraceStarts(w: nat, acquire: W.Step, looked: bool, cleared: Option<DedupeKey>)
    ensures Trace(w, acquire, looked, cleared) != [] && Trace(w, acquire, looked, cleared)[0] == acquire
  {
  }

  /** The verdict does not depend on the queue. */
  lemma {:induction false} OnlyJobsDiffer(r: N.Rows, t: Tables, i: I.Rows, subscriptions: map<nat, Subscription>,
                                          m: Message, now: Instant, mail: Mail, push: Push, verdict: Verdict)
    ensures Explains(r.(tables := t), subscriptions, i.(tables := t), m, now, mail, push, verdict)
            <==> Explains(r, subscriptions, i, m, now, mail, push, verdict)
    ensures After(r.(tables := t), i.(tables := t), m, now, mail, verdict) == After(r, i, m, now, mail, verdict)
  {
    if m.payload.DeliveryNote? {
      assert N.DueRows(r.(tables := t), m.payload, now) == N.DueRows(r, m.payload, now);
    }
    if m.payload.DeliveryNote? {
      assert NotificationStore.Reaches(r.(tables := t), m.payload, now) <==>
          NotificationStore.Reaches(r, m.payload, now) by {
        assert N.DueRows(r.(tables := t), m.payload, now) == N.DueRows(r, m.payload, now);
        var ids := N.DueRows(r, m.payload, now);
        assert N.EnabledRows(r.(tables := t), m.payload, ids) == N.EnabledRows(r, m.payload, ids);
      }
    }
  }

  lemma {:induction false} OnlyJobsReach(r: N.Rows, t: Tables, was: map<nat, Subscription>, now: map<nat, Subscription>,
                                         payload: Payload, at: Instant, push: Push, verdict: Verdict)
    ensures SubscriptionsAfter(r.(tables := t), was, now, payload, at, push, verdict)
       <==> SubscriptionsAfter(r, was, now, payload, at, push, verdict)
  {
    if payload.DeliveryNote? {
      var ids := N.DueRows(r, payload, at);
      assert N.DueRows(r.(tables := t), payload, at) == ids;
      assert N.EnabledRows(r.(tables := t), payload, ids) == N.EnabledRows(r, payload, ids);
    }
  }

  /** The rows after the availability check. */
  function Attended(t: Tables, cleared: Option<DedupeKey>): Tables {
    if cleared.Some? then t.(messages := Redact(t.messages, cleared.value)) else t
  }

  /** The message an availability check clears: that of an invitation it finds overdue. */
  function Cleared(r: I.Rows, invitation: nat, now: Instant): Option<DedupeKey> {
    if invitation in r.invitations && r.invitations[invitation].house in r.houses
       && r.invitations[invitation].status == I.PendingInvite && r.invitations[invitation].expiresAt < now
    then Some(InvitationKey(invitation, Created)) else None
  }

  lemma {:induction false} ClearsOneKey(r: I.Rows, invitation: nat, now: Instant)
    ensures I.CheckDelivery(r, invitation, now).0.tables == Attended(r.tables, Cleared(r, invitation, now))
  {
  }

  ghost predicate FailsToPush(r: N.Rows, subscriptions: map<nat, Subscription>, note: Payload, now: Instant, push: Push)
    requires note.DeliveryNote?
  {
    || !push.configured
    || (NotificationStore.Reaches(r, note, now)
        && (push.cipher.None? || exists t ::
            NotificationStore.Refuses(subscriptions, t, note, push.cipher.value, push.answer)))
  }

  /** The provider is missing, the cipher is, or the refusal is that of the first target to refuse. */
  ghost predicate FailedPush(subscriptions: map<nat, Subscription>, note: Payload, push: Push, refusal: Refusal)
    requires note.DeliveryNote?
  {
    if !push.configured then refusal == NO_PUSH
    else if push.cipher.None? then refusal == NotificationStore.NO_CIPHER
    else exists t ::
        && NotificationStore.RefusesFirst(subscriptions, t, note, push.cipher.value, push.answer)
        && push.answer(t) == Refused(refusal)
  }

  /** The subscriptions afterwards: only a dispatch that reached its recipient touches them. */
  ghost predicate SubscriptionsAfter(r: N.Rows, was: map<nat, Subscription>, now: map<nat, Subscription>,
                                     payload: Payload, at: Instant, push: Push, verdict: Verdict)
  {
    if payload.InvitationNote? || verdict.Failed? || !NotificationStore.Reaches(r, payload, at) then now == was
    else push.cipher.Some? && NotificationStore.TargetsLeft(was, now, payload, push.cipher.value, push.answer)
  }

  /** The verdict is the one the message, the invitation, the subscriptions and the providers call for. */
  ghost predicate Explains(r: N.Rows, subscriptions: map<nat, Subscription>, i: I.Rows, m: Message, now: Instant,
                     mail: Mail, push: Push, verdict: Verdict)
  {
    match m.payload
    case InvitationNote(invitation, _, _) => verdict == NoteVerdict(mail, m, I.CheckDelivery(i, invitation, now).1)
    case DeliveryNote(_, _, _, _) =>
      && verdict != NoLongerWanted && (verdict.Failed? <==> FailsToPush(r, subscriptions, m.payload, now, push))
      && (verdict.Failed? ==> FailedPush(subscriptions, m.payload, push, verdict.refusal))
  }

  /** The deliveries and invitations afterwards: a dispatch marks its snapshot, a check expires what is overdue. */
  function After(r: N.Rows, i: I.Rows, m: Message, now: Instant, mail: Mail, verdict: Verdict):
    (map<nat, N.Delivery>, map<nat, I.Invitation>)
  {
    match m.payload
    case DeliveryNote(_, _, _, _) =>
      (if verdict.Failed? then r.deliveries else N.AfterDispatch(r, m.payload, now).deliveries, i.invitations)
    case InvitationNote(invitation, _, _) =>
      (r.deliveries, if ChecksInvitation(mail, m) then I.CheckDelivery(i, invitation, now).0.invitations
       else i.invitations)
  }

  function LaterOf(t: Instant, named: Option<Instant>): Instant {
    if named.Some? && named.value > t then named.value else t
  }

  /** What one call in time leaves behind: completed, or one failure more, and the message in step with it. */
  predicate SettledBy(t: Tables, u: Tables, id: nat, later: Instant, verdict: Verdict) {
    && id in t.jobs && id in u.jobs && t.jobs[id].payload.Some?
    && var m := t.jobs[id].payload.value;
    && m in t.messages && m in u.messages
    && var buried := t.jobs[id].attempts + 1 >= t.jobs[id].maxAttempts;
    if !verdict.Failed? then u.jobs[id].completedAt == Some(later) && u.messages[m].status == Dispatched
    else if buried then u.jobs[id].deadLetteredAt == Some(later) && u.messages[m].status == DeadLettered
    else Unfinished(u.jobs[id]) && u.jobs[id].leaseOwner.None? && u.messages[m].status == Pending
         && u.jobs[id].availableAt == LaterOf(later + JobBackoff(t.jobs[id].attempts + 1), verdict.refusal.retryAt)
  }

  // ---- the call as protocol steps

  function Trace(w: nat, acquire: W.Step, looked: bool, cleared: Option<DedupeKey>): seq<W.Step> {
    [acquire] + (if looked then [W.Look(w)] else []) + if cleared.Some? then [W.RedactKey(cleared.value)] else []
  }

  lemma {:induction false} RunOneMore(s: W.System, steps: seq<W.Step>, step: W.Step)
    ensures W.Run(s, steps + [step]) == W.Apply(W.Run(s, steps), step)
  {
    hide W.Apply;
    assert (steps + [step])[..|steps|] == steps;
  }

  lemma {:induction false} RunTrace(s: W.System, w: nat, acquire: W.Step, looked: bool, cleared: Option<DedupeKey>)
    ensures W.Run(s, Trace(w, acquire, looked, cleared)) == BeforeSettling(s, w, acquire, looked, cleared)
  {
    hide W.Apply;
    RunOneMore(s, [], acquire);
    assert [] + [acquire] == [acquire];
    if looked {
      RunOneMore(s, [acquire], W.Look(w));
    }
    if cleared.Some? {
      RunOneMore(s, Trace(w, acquire, looked, None), W.RedactKey(cleared.value));
      assert Trace(w, acquire, looked, cleared) == Trace(w, acquire, looked, None) + [W.RedactKey(cleared.value)];
    }
    assert Trace(w, acquire, looked, None) == if looked then [acquire] + [W.Look(w)] else [acquire];
  }

  /** The state in which the settling call is made. */
  function BeforeSettling(s: W.System, w: nat, acquire: W.Step, looked: bool, cleared: Option<DedupeKey>): W.System {
    var acquired := W.Apply(s, acquire);
    var read := if looked then W.Apply(acquired, W.Look(w)) else acquired;
    if cleared.Some? then W.Apply(read, W.RedactKey(cleared.value)) else read
  }

  ghost predicate Acquired(s: W.System, w: nat, acquire: W.Step, looked: bool, later: Instant, job: Snapshot) {
    && acquire.AcquireNext? && acquire.worker == w && w !in s.workers && acquire.lease > 0 && acquire.now <= later
    && IsCandidate(s.tables.jobs, acquire.id, acquire.now) && s.history.Keys == s.tables.jobs.Keys
    && job == Snapshot(acquire.id, Claim(s.tables.jobs[acquire.id], acquire.owner, acquire.lease, acquire.now))
    && (looked <==> job.row.payload.Some? && job.row.payload.value in s.tables.messages)
  }

  /** The call is one the protocol allows for the message that was read, if any. */
  ghost predicate Allowed(s: W.System, call: W.Call, looked: bool, job: Snapshot)
    requires looked ==> job.row.payload.Some? && job.row.payload.value in s.tables.messages
  {
    W.MayCall(if looked then W.Looked(job, s.tables.messages[job.row.payload.value]) else W.Holding(job), call)
  }

  lemma {:induction false} SettlesNext(s: W.System, w: nat, acquire: W.Step, call: W.Call, looked: bool,
                                       cleared: Option<DedupeKey>, later: Instant, job: Snapshot)
    requires Acquired(s, w, acquire, looked, later, job) && Allowed(s, call, looked, job)
    ensures var mid := BeforeSettling(s, w, acquire, looked, cleared);
            && mid.tables == Attended(Acquire(s.tables, acquire.id, acquire.owner, acquire.lease, acquire.now), cleared)
            && W.CanSettle(mid, w, call, later) && mid.workers[w].snap == job && mid.workers - {w} == s.workers
  {
    hide Redact;
    var s1 := W.Apply(s, acquire);
    assert s1 == W.HandOut(s, w, acquire.id, acquire.owner, acquire.lease, acquire.now);
    if looked {
      assert W.CanLook(s1, w);
    }
  }

  lemma {:induction false} Traced(s: W.System, w: nat, acquire: W.Step, call: W.Call, looked: bool,
                                  cleared: Option<DedupeKey>, later: Instant, job: Snapshot)
    requires Acquired(s, w, acquire, looked, later, job) && Allowed(s, call, looked, job)
    ensures var u := W.Run(s, Trace(w, acquire, looked, cleared) + [W.Settle(w, call, later)]);
            var t := Attended(Acquire(s.tables, acquire.id, acquire.owner, acquire.lease, acquire.now), cleared);
            && u.workers == s.workers
            && u.tables == match W.Perform(t, job, call, later) case Success(v) => v case Failure(_) => t
  {
    SettlesNext(s, w, acquire, call, looked, cleared, later, job);
    RunTrace(s, w, acquire, looked, cleared);
    RunOneMore(s, Trace(w, acquire, looked, cleared), W.Settle(w, call, later));
    hide W.Perform, Acquired, Allowed, W.MayCall, Acquire, W.Run, BeforeSettling, Trace, Attended;
    var mid := BeforeSettling(s, w, acquire, looked, cleared);
    assert W.Apply(mid, W.Settle(w, call, later)) == W.SettleJob(mid, w, call, later);
  }

  lemma {:induction false} InTime(s: W.System, w: nat, acquire: W.Step, call: W.Call, looked: bool,
                                  cleared: Option<DedupeKey>, later: Instant, job: Snapshot, verdict: Verdict)
    requires Acquired(s, w, acquire, looked, later, job) && W.Inv(s) && later < acquire.now + acquire.lease
    requires Allowed(s, call, looked, job)
    requires looked && s.tables.messages[job.row.payload.value].status == Pending ==>
      call == CallFor(job.row.payload.value, verdict)
    ensures var t := Attended(Acquire(s.tables, acquire.id, acquire.owner, acquire.lease, acquire.now), cleared);
            && W.Perform(t, job, call, later).Success?
            && SettledBy(s.tables, W.Perform(t, job, call, later).value, acquire.id, later, verdict)
  {
    hide W.Inv, W.Linked, W.Live, W.Perform, W.SettleEffect, BeforeSettling, W.Apply, W.MayCall, W.TablesGrow,
        JobBackoff;
    hide W.SettleJob, Eligible, CallFor, HoldsLease, Attended, Acquire;
    PendingOnAcquire(s, acquire.id, acquire.now);
    SettlesNext(s, w, acquire, call, looked, cleared, later, job);
    KeepsBeforeSettling(s, w, acquire, looked, cleared);
    JustAcquired(s, w, acquire, looked, cleared, later, job);
    var mid := BeforeSettling(s, w, acquire, looked, cleared);
    W.SettlesIffLive(mid, w, call, later);
    W.SettledTables(mid, w, call, later);
    SettledFrom(mid, w, call, later);
    EffectIsOutcome(s.tables, W.Perform(mid.tables, job, call, later).value, acquire, cleared, job, call, later,
                    verdict);
  }

  lemma {:induction false} PendingOnAcquire(s: W.System, id: nat, now: Instant)
    requires W.Inv(s) && IsCandidate(s.tables.jobs, id, now)
    ensures Unfinished(s.tables.jobs[id])
    ensures s.tables.jobs[id].payload.Some? && s.tables.jobs[id].payload.value in s.tables.messages
    ensures s.tables.messages[s.tables.jobs[id].payload.value].status == Pending
  {
    hide W.JobsOk, W.WorkersOk, W.Linked;
    W.SeenStatus(s.tables, id);
  }

  lemma {:induction false} KeepsBeforeSettling(s: W.System, w: nat, acquire: W.Step, looked: bool,
                                               cleared: Option<DedupeKey>)
    requires W.Inv(s)
    ensures W.Inv(BeforeSettling(s, w, acquire, looked, cleared))
  {
    hide W.Inv, W.Apply;
    var acquired := W.Apply(s, acquire);
    W.ApplyKeeps(s, acquire);
    W.ApplyKeeps(acquired, W.Look(w));
    var read := if looked then W.Apply(acquired, W.Look(w)) else acquired;
    if cleared.Some? {
      W.ApplyKeeps(read, W.RedactKey(cleared.value));
    }
  }

  lemma {:induction false} SettledFrom(s: W.System, w: nat, call: W.Call, now: Instant)
    requires W.CanSettle(s, w, call, now) && W.Perform(s.tables, s.workers[w].snap, call, now).Success?
    ensures W.SettleJob(s, w, call, now).tables == W.Perform(s.tables, s.workers[w].snap, call, now).value
  {
    hide W.Perform, W.MayCall;
  }

  lemma {:induction false} EffectIsOutcome(t: Tables, u: Tables, acquire: W.Step, cleared: Option<DedupeKey>,
                                           job: Snapshot, call: W.Call, later: Instant, verdict: Verdict)
    requires acquire.AcquireNext? && acquire.id in t.jobs && Unfinished(t.jobs[acquire.id])
    requires t.jobs[acquire.id].payload.Some?
    requires t.jobs[acquire.id].payload.value in t.messages
    requires job == Snapshot(acquire.id, Claim(t.jobs[acquire.id], acquire.owner, acquire.lease, acquire.now))
    requires call == CallFor(job.row.payload.value, verdict)
    requires W.SettleEffect(Attended(Acquire(t, acquire.id, acquire.owner, acquire.lease, acquire.now), cleared), u,
                            job, call, later)
    ensures SettledBy(t, u, acquire.id, later, verdict)
  {
    hide JobBackoff;
  }

  lemma {:induction false} JustAcquired(s: W.System, w: nat, acquire: W.Step, looked: bool, cleared: Option<DedupeKey>,
                                        later: Instant, job: Snapshot)
    requires Acquired(s, w, acquire, looked, later, job) && W.Inv(s) && later < acquire.now + acquire.lease
    ensures W.Live(BeforeSettling(s, w, acquire, looked, cleared), job, later)
  {
    hide W.Linked, W.WorkersOk, Redact;
    assert W.JobOk(s.tables.jobs[acquire.id], s.history[acquire.id]);
    hide W.JobsOk, W.HistoryOk;
    var s1 := W.Apply(s, acquire);
    assert s1 == W.HandOut(s, w, acquire.id, acquire.owner, acquire.lease, acquire.now);
  }
}
