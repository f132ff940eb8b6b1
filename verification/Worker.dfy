/**
 The protocol of worker/worker.go over the job queue: any number of workers, each
 running acquire, an unlocked read of the outbox message and one settling call,
 interleaved in any order with enqueues, redactions and crashes.

 Every call brings its own clock reading `now`. Readings of different workers
 are unrelated; the only assumption is that a worker's settling call does not
 read an earlier instant than its own acquire did.
 */
module Worker {
  import opened Basics
  import opened JobQueue

  // ---- history of one job: attempt number g is the lease with generation g

  datatype Outcome = Completed | Retried | Buried

  /** `notBefore` is the instant a failing call names for the next attempt. */
  datatype Settlement = Settlement(at: Instant, outcome: Outcome, notBefore: Option<Instant>)

  datatype Attempt = Attempt(owner: string, start: Instant, expires: Instant, settles: seq<Settlement>)

  /** A lease is held from its start until it is settled, or else until it expires. */
  function End(a: Attempt): Instant {
    if a.settles == [] then a.expires else a.settles[0].at
  }

  predicate RetriedAttempt(a: Attempt) {
    a.settles != [] && a.settles[0].outcome == Retried
  }

  predicate FailedAttempt(a: Attempt) {
    a.settles != [] && a.settles[0].outcome != Completed
  }

  // ---- system state

  /** Between transactions a worker keeps its job snapshot and the message it read. */
  datatype Local = Holding(snap: Snapshot) | Looked(snap: Snapshot, seen: Message)

  datatype System = System(tables: Tables, workers: map<nat, Local>, history: map<nat, seq<Attempt>>)

  datatype Call =
    | CompleteCall(message: Option<nat>)
    | FailCall(message: Option<nat>, cause: string, retryAt: Option<Instant>)

  datatype Step =
    | Enqueue(job: nat, message: nat, key: DedupeKey, payload: Payload, availableAt: Instant, maxAttempts: int,
              now: Instant)
    | AcquireNext(worker: nat, id: nat, owner: string, lease: Duration, now: Instant)
    | Look(worker: nat)
    | Settle(worker: nat, call: Call, now: Instant)
    | Crash(worker: nat)
    | RedactKey(key: DedupeKey)

  const INITIAL := System(Tables(map[], map[]), map[], map[])

  /** Which settling call RunOnce can reach from each local state. */
  predicate MayCall(local: Local, call: Call) {
    match local
    case Holding(snap) => call.FailCall? && call.message == snap.row.payload
    case Looked(snap, seen) =>
      if seen.status != Pending then call == CompleteCall(None)
      else call.message == snap.row.payload
  }

  function Perform(t: Tables, snap: Snapshot, call: Call, now: Instant): Result<Tables, Error> {
    match call
    case CompleteCall(message) => Complete(t, snap, message, now)
    case FailCall(message, cause, retryAt) => Fail(t, snap, message, cause, retryAt, now)
  }

  function OutcomeOf(snap: Snapshot, call: Call): Outcome {
    if call.CompleteCall? then Completed else if Exhausted(snap.row) then Buried else Retried
  }

  function SettlementOf(snap: Snapshot, call: Call, now: Instant): Settlement {
    Settlement(now, OutcomeOf(snap, call), if call.FailCall? then call.retryAt else None)
  }

  function Record(h: seq<Attempt>, generation: int, s: Settlement): seq<Attempt> {
    if 1 <= generation <= |h|
    then h[generation - 1 := h[generation - 1].(settles := h[generation - 1].settles + [s])]
    else h
  }

  function AddJob(s: System, job: nat, message: nat, key: DedupeKey, payload: Payload, availableAt: Instant,
                  maxAttempts: int, now: Instant): System
  {
    s.(tables := Insert(s.tables, job, message, key, payload, availableAt, maxAttempts, now),
       history := s.history[job := []])
  }

  predicate CanAcquire(s: System, worker: nat, id: nat, lease: Duration, now: Instant) {
    worker !in s.workers && lease > 0 && IsCandidate(s.tables.jobs, id, now) && id in s.history
  }

  function HandOut(s: System, worker: nat, id: nat, owner: string, lease: Duration, now: Instant): System
    requires id in s.tables.jobs && id in s.history
  {
    var t := Acquire(s.tables, id, owner, lease, now);
    System(t, s.workers[worker := Holding(Snapshot(id, t.jobs[id]))],
           s.history[id := s.history[id] + [Attempt(owner, now, now + lease, [])]])
  }

  predicate CanLook(s: System, worker: nat) {
    && worker in s.workers && s.workers[worker].Holding?
    && s.workers[worker].snap.row.payload.Some?
    && s.workers[worker].snap.row.payload.value in s.tables.messages
  }

  function ReadMessage(s: System, worker: nat): System
    requires CanLook(s, worker)
  {
    var snap := s.workers[worker].snap;
    s.(workers := s.workers[worker := Looked(snap, s.tables.messages[snap.row.payload.value])])
  }

  predicate CanSettle(s: System, worker: nat, call: Call, now: Instant) {
    && worker in s.workers && s.workers[worker].snap.id in s.history
    && MayCall(s.workers[worker], call) && now >= s.workers[worker].snap.row.updatedAt
  }

  /** The settling transaction; whatever it answers, the worker drops its snapshot. */
  function SettleJob(s: System, worker: nat, call: Call, now: Instant): System
    requires CanSettle(s, worker, call, now)
  {
    var snap := s.workers[worker].snap;
    match Perform(s.tables, snap, call, now)
    case Failure(_) => s.(workers := s.workers - {worker})
    case Success(t) => System(t, s.workers - {worker},
      s.history[snap.id := Record(s.history[snap.id], snap.row.leaseGeneration, SettlementOf(snap, call, now))])
  }

  /** One step; a step whose guard fails, or whose transaction fails, changes no row. */
  function Apply(s: System, step: Step): System {
    match step
    case Enqueue(job, message, key, payload, availableAt, maxAttempts, now) =>
      if CanInsert(s.tables, job, message, key) && availableAt >= now && maxAttempts >= 1
      then AddJob(s, job, message, key, payload, availableAt, maxAttempts, now) else s
    case AcquireNext(worker, id, owner, lease, now) =>
      if CanAcquire(s, worker, id, lease, now) then HandOut(s, worker, id, owner, lease, now) else s
    case Look(worker) => if CanLook(s, worker) then ReadMessage(s, worker) else s
    case Settle(worker, call, now) =>
      if CanSettle(s, worker, call, now) then SettleJob(s, worker, call, now) else s
    case Crash(worker) => s.(workers := s.workers - {worker})
    case RedactKey(key) => s.(tables := s.tables.(messages := Redact(s.tables.messages, key)))
  }

  function Run(s: System, steps: seq<Step>): System {
    if steps == [] then s else Apply(Run(s, steps[..|steps| - 1]), steps[|steps| - 1])
  }

  // ---- the invariant of one job row and its history

  predicate AttemptOk(a: Attempt) {
    && a.start < a.expires && |a.settles| <= 1
    && (a.settles != [] ==> a.start <= a.settles[0].at < a.expires)
  }

  /** The instant is past the backoff of the attempt and past the instant its failing call named. */
  predicate WaitedOut(t: Instant, s: Settlement, attempt: int) {
    t >= s.at + JobBackoff(attempt) && (s.notBefore.Some? ==> t >= s.notBefore.value)
  }

  /** The first such instant. */
  predicate JustWaitedOut(t: Instant, s: Settlement, attempt: int) {
    WaitedOut(t, s, attempt) && (t == s.at + JobBackoff(attempt) || s.notBefore == Some(t))
  }

  /** What links attempt number `i + 1` to the one after it. */
  predicate Follows(h: seq<Attempt>, i: nat, maxAttempts: int)
    requires i + 1 < |h|
  {
    if h[i].settles == [] then h[i].expires <= h[i + 1].start
    else h[i].settles[0].outcome == Retried && i + 1 < maxAttempts
         && WaitedOut(h[i + 1].start, h[i].settles[0], i + 1)
  }

  ghost predicate HistoryOk(h: seq<Attempt>, maxAttempts: int) {
    && (forall i | 0 <= i < |h| :: AttemptOk(h[i]))
    && (forall i: nat | i + 1 < |h| :: Follows(h, i, maxAttempts))
  }

  predicate Leased(job: Job, h: seq<Attempt>) {
    h != [] && h[|h| - 1].settles == []
    && job.leaseOwner == Some(h[|h| - 1].owner) && job.leaseExpiresAt == Some(h[|h| - 1].expires)
  }

  predicate Released(job: Job, h: seq<Attempt>) {
    && (h != [] ==> h[|h| - 1].settles != [])
    && job.leaseOwner.None? && job.leaseExpiresAt.None?
  }

  predicate RowMatches(job: Job, h: seq<Attempt>) {
    && job.maxAttempts >= 1 && job.attempts == job.leaseGeneration == |h|
    && (Leased(job, h) || Released(job, h))
    && (if h == [] || h[|h| - 1].settles == [] then Unfinished(job)
        else match h[|h| - 1].settles[0].outcome
          case Completed => job.completedAt.Some? && job.deadLetteredAt.None?
          case Buried => job.deadLetteredAt.Some? && job.completedAt.None? && |h| >= job.maxAttempts
          case Retried => Unfinished(job) && |h| < job.maxAttempts
                          && JustWaitedOut(job.availableAt, h[|h| - 1].settles[0], |h|))
  }

  ghost predicate JobOk(job: Job, h: seq<Attempt>) {
    HistoryOk(h, job.maxAttempts) && RowMatches(job, h)
  }

  lemma {:induction false} ClaimKeepsJob(job: Job, h: seq<Attempt>, owner: string, lease: Duration, now: Instant)
    requires JobOk(job, h) && Eligible(job, now) && lease > 0
    ensures JobOk(Claim(job, owner, lease, now), h + [Attempt(owner, now, now + lease, [])])
  {
    var g := h + [Attempt(owner, now, now + lease, [])];
    forall i: nat | i + 1 < |g|
      ensures Follows(g, i, job.maxAttempts)
    {
      assert i + 1 < |h| ==> Follows(h, i, job.maxAttempts);
    }
  }

  /** The settled row: what Complete and Fail write when the lease is held. */
  predicate SettledRow(job: Job, after: Job, snap: Snapshot, call: Call, now: Instant) {
    && after.leaseOwner.None? && after.leaseExpiresAt.None?
    && after.payload == job.payload && after.maxAttempts == job.maxAttempts && after.createdAt == job.createdAt
    && after.leaseGeneration == job.leaseGeneration && after.attempts == job.attempts
    && match OutcomeOf(snap, call)
       case Completed => after.completedAt == Some(now) && after.deadLetteredAt == job.deadLetteredAt
           && after.availableAt == job.availableAt
       case Buried => after.deadLetteredAt == Some(now) && after.completedAt == job.completedAt
           && after.availableAt == job.availableAt
       case Retried => after.deadLetteredAt == job.deadLetteredAt && after.completedAt == job.completedAt
                       && JustWaitedOut(after.availableAt, SettlementOf(snap, call, now), snap.row.attempts)
  }

  lemma {:induction false} SettleKeepsJob(job: Job, after: Job, h: seq<Attempt>, snap: Snapshot, call: Call,
                                          now: Instant)
    requires JobOk(job, h) && Leased(job, h) && Unfinished(job)
    requires snap.row.attempts == snap.row.leaseGeneration == job.leaseGeneration
    requires snap.row.maxAttempts == job.maxAttempts
    requires h[|h| - 1].start <= now < h[|h| - 1].expires
    requires SettledRow(job, after, snap, call, now)
    ensures JobOk(after, Record(h, snap.row.leaseGeneration, SettlementOf(snap, call, now)))
  {
    var g := Record(h, snap.row.leaseGeneration, SettlementOf(snap, call, now));
    assert g[|h| - 1].settles == [SettlementOf(snap, call, now)];
    forall i: nat | i + 1 < |g|
      ensures Follows(g, i, job.maxAttempts)
    {
      assert Follows(h, i, job.maxAttempts);
    }
  }

  // ---- the invariant of the whole system

  function StatusOf(job: Job): Status {
    if job.completedAt.Some? then Dispatched else if job.deadLetteredAt.Some? then DeadLettered else Pending
  }

  ghost predicate JobsOk(s: System) {
    && s.history.Keys == s.tables.jobs.Keys
    && forall id | id in s.tables.jobs :: JobOk(s.tables.jobs[id], s.history[id])
  }

  /**
   Messages and jobs correspond one to one (`jobOf`), each pair in lockstep, and no two
   messages share a dedupe key (`withKey`).
   */
  ghost predicate LinkedBy(t: Tables, jobOf: map<nat, nat>, withKey: map<DedupeKey, nat>) {
    && (forall id | id in t.jobs ::
          && t.jobs[id].payload.Some? && t.jobs[id].payload.value in t.messages
          && t.jobs[id].payload.value in jobOf && jobOf[t.jobs[id].payload.value] == id)
    && (forall m | m in t.messages ::
          && m in jobOf && jobOf[m] in t.jobs && t.jobs[jobOf[m]].payload == Some(m)
          && t.messages[m].status == StatusOf(t.jobs[jobOf[m]])
          && t.messages[m].key in withKey && withKey[t.messages[m].key] == m)
  }

  ghost predicate Linked(t: Tables) {
    exists jobOf, withKey :: LinkedBy(t, jobOf, withKey)
  }

  /** A snapshot is a faithful copy of the row as its own acquire left it. */
  ghost predicate SnapshotOk(s: System, snap: Snapshot) {
    && snap.id in s.tables.jobs && snap.id in s.history
    && var job, h, row := s.tables.jobs[snap.id], s.history[snap.id], snap.row;
    && 1 <= row.leaseGeneration <= |h| && row.attempts == row.leaseGeneration
    && row.updatedAt == h[row.leaseGeneration - 1].start
    && row.leaseOwner == Some(h[row.leaseGeneration - 1].owner)
    && row.leaseExpiresAt == Some(h[row.leaseGeneration - 1].expires)
    && row.payload == job.payload && row.maxAttempts == job.maxAttempts
  }

  ghost predicate SeenOk(t: Tables, local: Local) {
    local.Looked? ==>
      && local.snap.id in t.jobs && t.jobs[local.snap.id].payload.Some?
      && t.jobs[local.snap.id].payload.value in t.messages
      && SameNote(local.seen, t.messages[t.jobs[local.snap.id].payload.value])
      && (local.seen.status != Pending ==> !Unfinished(t.jobs[local.snap.id]))
  }

  /** Equal up to what processing changes: status, timestamps and the sealed link. */
  predicate SameNote(a: Message, b: Message) {
    a.key == b.key && WithoutMaterial(a.payload) == WithoutMaterial(b.payload)
  }

  ghost predicate LocalOk(s: System, local: Local) {
    SnapshotOk(s, local.snap) && SeenOk(s.tables, local)
  }

  predicate SameLease(a: Local, b: Local) {
    a.snap.id == b.snap.id && a.snap.row.leaseGeneration == b.snap.row.leaseGeneration
  }

  ghost predicate WorkersOk(s: System) {
    && (forall w | w in s.workers :: LocalOk(s, s.workers[w]))
    && (forall v, w | v in s.workers && w in s.workers && v != w :: !SameLease(s.workers[v], s.workers[w]))
  }

  ghost predicate Inv(s: System) {
    JobsOk(s) && Linked(s.tables) && WorkersOk(s)
  }

  // ---- what a settling call does in a reachable state

  /** A snapshot is live while no later lease, no settlement and no expiry has overtaken it. */
  predicate Live(s: System, snap: Snapshot, now: Instant) {
    && snap.id in s.history && |s.history[snap.id]| == snap.row.leaseGeneration
    && |s.history[snap.id]| > 0
    && s.history[snap.id][|s.history[snap.id]| - 1].settles == []
    && now < s.history[snap.id][|s.history[snap.id]| - 1].expires
  }

  lemma {:induction false} LiveIsHeld(s: System, snap: Snapshot, now: Instant)
    requires JobsOk(s) && SnapshotOk(s, snap)
    ensures HoldsLease(s.tables.jobs, snap, now) <==> Live(s, snap, now)
  {
  }

  /** Exactly the live snapshots settle; the outbox update of a live one is never rejected. */
  lemma {:induction false} SettlesIffLive(s: System, w: nat, call: Call, now: Instant)
    requires Inv(s) && w in s.workers && MayCall(s.workers[w], call)
    ensures Perform(s.tables, s.workers[w].snap, call, now).Success? <==> Live(s, s.workers[w].snap, now)
    ensures Perform(s.tables, s.workers[w].snap, call, now) != Failure(TransitionRejected)
    ensures Live(s, s.workers[w].snap, now) ==> call.message == s.tables.jobs[s.workers[w].snap.id].payload
  {
    hide JobsOk, Linked, HoldsLease, Live, Perform;
    var snap := s.workers[w].snap;
    assert LocalOk(s, s.workers[w]);
    LiveIsHeld(s, snap, now);
    if HoldsLease(s.tables.jobs, snap, now) {
      SeenStatus(s.tables, snap.id);
      HeldIsUnfinished(s.tables.jobs, snap, now);
      HeldSettles(s.tables, snap, call, now);
    } else {
      UnheldFails(s.tables, snap, call, now);
    }
  }

  lemma {:induction false} HeldIsUnfinished(jobs: map<nat, Job>, snap: Snapshot, now: Instant)
    requires HoldsLease(jobs, snap, now)
    ensures snap.id in jobs && Unfinished(jobs[snap.id])
  {
  }

  lemma {:induction false} HeldSettles(t: Tables, snap: Snapshot, call: Call, now: Instant)
    requires HoldsLease(t.jobs, snap, now) && call.message == t.jobs[snap.id].payload
    requires call.message.Some? && HasPending(t.messages, call.message.value)
    ensures Perform(t, snap, call, now).Success?
  {
  }

  lemma {:induction false} UnheldFails(t: Tables, snap: Snapshot, call: Call, now: Instant)
    requires !HoldsLease(t.jobs, snap, now)
    ensures Perform(t, snap, call, now) == Failure(LeaseLost)
  {
  }

  lemma {:induction false} SeenStatus(t: Tables, id: nat)
    requires Linked(t) && id in t.jobs
    ensures t.jobs[id].payload.Some? && t.jobs[id].payload.value in t.messages
    ensures t.messages[t.jobs[id].payload.value].status == StatusOf(t.jobs[id])
  {
  }

  // ---- every step keeps the invariant

  /** What no step undoes: rows stay, payloads and keys are fixed, finished jobs stay finished. */
  ghost predicate TablesGrow(t: Tables, u: Tables) {
    && (forall id | id in t.jobs ::
          && id in u.jobs && u.jobs[id].payload == t.jobs[id].payload
          && u.jobs[id].maxAttempts == t.jobs[id].maxAttempts
          && (!Unfinished(t.jobs[id]) ==> u.jobs[id] == t.jobs[id]))
    && (forall m | m in t.messages :: m in u.messages && SameNote(t.messages[m], u.messages[m]))
  }

  predicate SameTerms(a: Attempt, b: Attempt) {
    a.owner == b.owner && a.start == b.start && a.expires == b.expires && a.settles <= b.settles
  }

  ghost predicate Extends(h: seq<Attempt>, g: seq<Attempt>) {
    |h| <= |g| && forall i | 0 <= i < |h| :: SameTerms(h[i], g[i])
  }

  /** Attempts already started keep their owner, start, expiry and settlements. */
  ghost predicate HistoryGrows(s: System, u: System) {
    forall id | id in s.history :: id in u.history && Extends(s.history[id], u.history[id])
  }

  lemma {:induction false} LocalStaysOk(s: System, u: System, local: Local)
    requires TablesGrow(s.tables, u.tables) && HistoryGrows(s, u) && LocalOk(s, local)
    ensures LocalOk(u, local)
  {
  }

  lemma {:induction false} WorkersStayOk(s: System, u: System)
    requires TablesGrow(s.tables, u.tables) && HistoryGrows(s, u) && WorkersOk(s)
    requires u.workers.Keys <= s.workers.Keys && forall w | w in u.workers :: u.workers[w] == s.workers[w]
    ensures WorkersOk(u)
  {
    forall w | w in u.workers
      ensures LocalOk(u, u.workers[w])
    {
      LocalStaysOk(s, u, s.workers[w]);
    }
  }

  lemma {:induction false} LinkedAfterUpdate(t: Tables, u: Tables)
    requires Linked(t) && u.jobs.Keys == t.jobs.Keys && u.messages.Keys == t.messages.Keys && TablesGrow(t, u)
    requires forall id | id in t.jobs && t.jobs[id].payload.Some? && t.jobs[id].payload.value in t.messages
               && t.messages[t.jobs[id].payload.value].status == StatusOf(t.jobs[id]) ::
               u.messages[t.jobs[id].payload.value].status == StatusOf(u.jobs[id])
    ensures Linked(u)
  {
    var jobOf, withKey :| LinkedBy(t, jobOf, withKey);
    assert LinkedBy(u, jobOf, withKey);
  }

  lemma {:induction false} InsertKeepsLinks(t: Tables, job: nat, message: nat, key: DedupeKey, payload: Payload,
                                            availableAt: Instant,
                         maxAttempts: int, now: Instant)
    requires Linked(t) && CanInsert(t, job, message, key)
    ensures Linked(Insert(t, job, message, key, payload, availableAt, maxAttempts, now))
  {
    var jobOf, withKey :| LinkedBy(t, jobOf, withKey);
    var u := Insert(t, job, message, key, payload, availableAt, maxAttempts, now);
    var jobOf', withKey' := jobOf[message := job], withKey[key := message];
    forall id | id in u.jobs
      ensures u.jobs[id].payload.Some? && u.jobs[id].payload.value in u.messages
      ensures u.jobs[id].payload.value in jobOf' && jobOf'[u.jobs[id].payload.value] == id
    {
      assert id != job ==> u.jobs[id] == t.jobs[id];
    }
    forall m | m in u.messages
      ensures m in jobOf' && jobOf'[m] in u.jobs && u.jobs[jobOf'[m]].payload == Some(m)
      ensures u.messages[m].status == StatusOf(u.jobs[jobOf'[m]])
      ensures u.messages[m].key in withKey' && withKey'[u.messages[m].key] == m
    {
      assert m != message ==> u.messages[m] == t.messages[m];
    }
    assert LinkedBy(u, jobOf', withKey');
  }

  lemma {:induction false} InsertGrows(t: Tables, job: nat, message: nat, key: DedupeKey, payload: Payload,
                                       availableAt: Instant,
                    maxAttempts: int, now: Instant)
    requires CanInsert(t, job, message, key)
    ensures TablesGrow(t, Insert(t, job, message, key, payload, availableAt, maxAttempts, now))
  {
  }

  lemma {:induction false} NothingChanged(s: System)
    ensures TablesGrow(s.tables, s.tables) && HistoryGrows(s, s)
  {
  }

  lemma {:induction false} JobsOkWith(s: System, s': System, id: nat)
    requires JobsOk(s) && id in s'.tables.jobs && id in s'.history && JobOk(s'.tables.jobs[id], s'.history[id])
    requires s'.tables.jobs == s.tables.jobs[id := s'.tables.jobs[id]] && s'.history == s.history[id := s'.history[id]]
    ensures JobsOk(s')
  {
  }

  lemma {:induction false} EnqueueKeeps(s: System, job: nat, message: nat, key: DedupeKey, payload: Payload,
                                        availableAt: Instant,
                     maxAttempts: int, now: Instant)
    requires Inv(s) && CanInsert(s.tables, job, message, key) && maxAttempts >= 1
    ensures var s' := AddJob(s, job, message, key, payload, availableAt, maxAttempts, now);
            Inv(s') && TablesGrow(s.tables, s'.tables) && HistoryGrows(s, s')
  {
    hide JobOk, LocalOk, TablesGrow, Linked;
    var s' := AddJob(s, job, message, key, payload, availableAt, maxAttempts, now);
    InsertGrows(s.tables, job, message, key, payload, availableAt, maxAttempts, now);
    InsertKeepsLinks(s.tables, job, message, key, payload, availableAt, maxAttempts, now);
    JobsOkWith(s, s', job);
    WorkersStayOk(s, s');
  }

  lemma {:induction false} ClaimKeepsLinks(t: Tables, id: nat, owner: string, lease: Duration, now: Instant)
    requires Linked(t) && id in t.jobs && Unfinished(t.jobs[id])
    ensures Linked(Acquire(t, id, owner, lease, now)) && TablesGrow(t, Acquire(t, id, owner, lease, now))
  {
    assert TablesGrow(t, Acquire(t, id, owner, lease, now));
    LinkedAfterUpdate(t, Acquire(t, id, owner, lease, now));
  }

  lemma {:induction false} AddWorker(s: System, s': System, worker: nat)
    requires TablesGrow(s.tables, s'.tables) && HistoryGrows(s, s') && WorkersOk(s)
    requires worker in s'.workers && s'.workers == s.workers[worker := s'.workers[worker]]
    requires LocalOk(s', s'.workers[worker])
    requires forall w | w in s.workers && w != worker :: !SameLease(s.workers[w], s'.workers[worker])
    ensures WorkersOk(s')
  {
    forall w | w in s.workers && w != worker
      ensures LocalOk(s', s.workers[w])
    {
      LocalStaysOk(s, s', s.workers[w]);
    }
  }

  lemma {:induction false} AcquireKeeps(s: System, worker: nat, id: nat, owner: string, lease: Duration, now: Instant)
    requires Inv(s) && worker !in s.workers && id in s.tables.jobs && Eligible(s.tables.jobs[id], now) && lease > 0
    ensures var s' := HandOut(s, worker, id, owner, lease, now);
            Inv(s') && TablesGrow(s.tables, s'.tables) && HistoryGrows(s, s')
  {
    hide Linked, TablesGrow, HistoryOk;
    var s' := HandOut(s, worker, id, owner, lease, now);
    assert JobOk(s.tables.jobs[id], s.history[id]);
    ClaimKeepsJob(s.tables.jobs[id], s.history[id], owner, lease, now);
    JobsOkWith(s, s', id);
    ClaimKeepsLinks(s.tables, id, owner, lease, now);
    forall w | w in s.workers
      ensures !SameLease(s.workers[w], s'.workers[worker])
    {
      assert LocalOk(s, s.workers[w]);
    }
    AddWorker(s, s', worker);
  }

  lemma {:induction false} LookKeeps(s: System, worker: nat)
    requires Inv(s) && CanLook(s, worker)
    ensures var s' := ReadMessage(s, worker);
            Inv(s') && TablesGrow(s.tables, s'.tables) && HistoryGrows(s, s')
  {
    hide JobsOk, Linked, HistoryOk;
    var s' := ReadMessage(s, worker);
    NothingChanged(s);
    SeenStatus(s.tables, s.workers[worker].snap.id);
    assert LocalOk(s, s.workers[worker]);
    assert LocalOk(s', s'.workers[worker]);
    hide LocalOk, TablesGrow, HistoryGrows;
    forall w | w in s.workers && w != worker
      ensures !SameLease(s.workers[w], s'.workers[worker])
    {
      assert !SameLease(s.workers[w], s.workers[worker]);
    }
    AddWorker(s, s', worker);
    JobsStayOk(s, s');
  }

  lemma {:induction false} JobsStayOk(s: System, s': System)
    requires JobsOk(s) && s'.tables == s.tables && s'.history == s.history
    ensures JobsOk(s')
  {
  }

  lemma {:induction false} RedactGrows(t: Tables, key: DedupeKey)
    requires Linked(t)
    ensures var u := t.(messages := Redact(t.messages, key)); Linked(u) && TablesGrow(t, u)
  {
    LinkedAfterUpdate(t, t.(messages := Redact(t.messages, key)));
  }

  lemma {:induction false} RedactKeeps(s: System, key: DedupeKey)
    requires Inv(s)
    ensures var s' := Apply(s, RedactKey(key));
            Inv(s') && TablesGrow(s.tables, s'.tables) && HistoryGrows(s, s')
  {
    hide Linked, TablesGrow, JobOk, LocalOk;
    RedactGrows(s.tables, key);
    WorkersStayOk(s, Apply(s, RedactKey(key)));
  }

  function StatusAfter(outcome: Outcome): Status {
    match outcome
    case Completed => Dispatched
    case Buried => DeadLettered
    case Retried => Pending
  }

  /** What a successful settling call changes: one job and its own message, nothing else. */
  ghost predicate SettleEffect(t: Tables, u: Tables, snap: Snapshot, call: Call, now: Instant) {
    && snap.id in t.jobs && u.jobs.Keys == t.jobs.Keys && u.messages.Keys == t.messages.Keys
    && SettledRow(t.jobs[snap.id], u.jobs[snap.id], snap, call, now)
    && (forall id | id in t.jobs && id != snap.id :: u.jobs[id] == t.jobs[id])
    && t.jobs[snap.id].payload.Some? && t.jobs[snap.id].payload.value in t.messages
    && var m := t.jobs[snap.id].payload.value;
    && SameNote(t.messages[m], u.messages[m])
    && u.messages[m].status == StatusAfter(OutcomeOf(snap, call))
    && u.messages[m].payload == (if OutcomeOf(snap, call) == Retried then t.messages[m].payload
                                 else WithoutMaterial(t.messages[m].payload))
    && (forall n | n in t.messages && n != m :: u.messages[n] == t.messages[n])
  }

  lemma {:induction false} RedactOwnKey(t: Tables, messages: map<nat, Message>, m: nat)
    requires Linked(t) && m in t.messages && messages.Keys == t.messages.Keys
    requires messages[m].key == t.messages[m].key && forall n | n in t.messages
             && n != m :: messages[n] == t.messages[n]
    ensures Redact(messages, messages[m].key)
         == messages[m := messages[m].(payload := WithoutMaterial(messages[m].payload))]
  {
  }

  lemma {:induction false} CompleteChanges(t: Tables, snap: Snapshot, m: nat, now: Instant)
    requires Linked(t) && Complete(t, snap, Some(m), now).Success? && t.jobs[snap.id].payload == Some(m)
    ensures SettleEffect(t, Complete(t, snap, Some(m), now).value, snap, CompleteCall(Some(m)), now)
  {
  }

  lemma {:induction false} FailChanges(t: Tables, snap: Snapshot, m: nat, cause: string, retryAt: Option<Instant>,
                                       now: Instant)
    requires Linked(t) && Fail(t, snap, Some(m), cause, retryAt, now).Success? && t.jobs[snap.id].payload == Some(m)
    ensures SettleEffect(t, Fail(t, snap, Some(m), cause, retryAt, now).value, snap,
                         FailCall(Some(m), cause, retryAt), now)
  {
    hide Linked, JobBackoff;
    RedactOwnKey(t, t.messages[m := t.messages[m].(lastError := Some(cause), status := DeadLettered)], m);
    hide Redact;
  }

  lemma {:induction false} PerformChanges(t: Tables, snap: Snapshot, call: Call, now: Instant)
    requires Linked(t) && Perform(t, snap, call, now).Success?
    requires snap.id in t.jobs && call.message == t.jobs[snap.id].payload
    ensures SettleEffect(t, Perform(t, snap, call, now).value, snap, call, now)
  {
    hide Complete, Fail, Linked, SettleEffect;
    SeenStatus(t, snap.id);
    match call
    case CompleteCall(m) => CompleteChanges(t, snap, m.value, now);
    case FailCall(m, cause, retryAt) => FailChanges(t, snap, m.value, cause, retryAt, now);
  }

  lemma {:induction false} SettleKeepsLinks(t: Tables, u: Tables, snap: Snapshot, call: Call, now: Instant)
    requires Linked(t) && SettleEffect(t, u, snap, call, now) && Unfinished(t.jobs[snap.id])
    ensures Linked(u) && TablesGrow(t, u)
  {
    var jobOf, withKey :| LinkedBy(t, jobOf, withKey);
    assert LinkedBy(u, jobOf, withKey);
  }

  lemma {:induction false} SettledTables(s: System, worker: nat, call: Call, now: Instant)
    requires Inv(s) && CanSettle(s, worker, call, now)
    requires Perform(s.tables, s.workers[worker].snap, call, now).Success?
    ensures Live(s, s.workers[worker].snap, now) && HoldsLease(s.tables.jobs, s.workers[worker].snap, now)
    ensures SettleEffect(s.tables, SettleJob(s, worker, call, now).tables, s.workers[worker].snap, call, now)
    ensures Linked(SettleJob(s, worker, call, now).tables)
    ensures TablesGrow(s.tables, SettleJob(s, worker, call, now).tables)
  {
    hide JobsOk, Linked, Live, Perform, SettleEffect, TablesGrow, HistoryOk;
    var snap := s.workers[worker].snap;
    SettlesIffLive(s, worker, call, now);
    assert LocalOk(s, s.workers[worker]);
    LiveIsHeld(s, snap, now);
    HeldIsUnfinished(s.tables.jobs, snap, now);
    PerformChanges(s.tables, snap, call, now);
    SettleKeepsLinks(s.tables, SettleJob(s, worker, call, now).tables, snap, call, now);
  }

  lemma {:induction false} SettledJobs(s: System, worker: nat, call: Call, now: Instant)
    requires Inv(s) && CanSettle(s, worker, call, now)
    requires Perform(s.tables, s.workers[worker].snap, call, now).Success?
    ensures JobsOk(SettleJob(s, worker, call, now)) && HistoryGrows(s, SettleJob(s, worker, call, now))
  {
    hide Linked, TablesGrow, JobOk, SettledRow, SeenOk, Live, Perform, MayCall, HoldsLease;
    var s' := SettleJob(s, worker, call, now);
    var snap := s.workers[worker].snap;
    SettledTables(s, worker, call, now);
    assert LocalOk(s, s.workers[worker]);
    LiveLease(s, snap, now);
    SettleKeepsJob(s.tables.jobs[snap.id], s'.tables.jobs[snap.id], s.history[snap.id], snap, call, now);
    OneJobSettled(s.tables, s'.tables, snap, call, now);
    hide SettleEffect;
    JobsOkWith(s, s', snap.id);
    RecordGrows(s.history[snap.id], snap.row.leaseGeneration, SettlementOf(snap, call, now));
    OneHistoryGrows(s, s', snap.id);
  }

  /** A live snapshot is that of the leased row, and its interval contains the instant. */
  lemma {:induction false} LiveLease(s: System, snap: Snapshot, now: Instant)
    requires JobsOk(s) && SnapshotOk(s, snap) && Live(s, snap, now)
    ensures var job, h := s.tables.jobs[snap.id], s.history[snap.id];
            && JobOk(job, h) && Leased(job, h) && Unfinished(job) && job.leaseGeneration == snap.row.leaseGeneration
            && h[|h| - 1].start == snap.row.updatedAt && now < h[|h| - 1].expires
  {
  }

  lemma {:induction false} OneJobSettled(t: Tables, u: Tables, snap: Snapshot, call: Call, now: Instant)
    requires SettleEffect(t, u, snap, call, now)
    ensures snap.id in u.jobs && u.jobs == t.jobs[snap.id := u.jobs[snap.id]]
  {
  }

  lemma {:induction false} RecordGrows(h: seq<Attempt>, generation: int, settlement: Settlement)
    ensures Extends(h, Record(h, generation, settlement))
  {
  }

  lemma {:induction false} OneHistoryGrows(s: System, s': System, id: nat)
    requires id in s.history && id in s'.history && s'.history == s.history[id := s'.history[id]]
    requires Extends(s.history[id], s'.history[id])
    ensures HistoryGrows(s, s')
  {
  }

  lemma {:induction false} SettleKeeps(s: System, worker: nat, call: Call, now: Instant)
    requires Inv(s) && CanSettle(s, worker, call, now)
    ensures var s' := SettleJob(s, worker, call, now);
            Inv(s') && TablesGrow(s.tables, s'.tables) && HistoryGrows(s, s')
  {
    hide JobOk, LocalOk, TablesGrow, Linked, SettleEffect, Live;
    NothingChanged(s);
    if Perform(s.tables, s.workers[worker].snap, call, now).Success? {
      SettledTables(s, worker, call, now);
      SettledJobs(s, worker, call, now);
    }
    WorkersStayOk(s, SettleJob(s, worker, call, now));
  }

  lemma {:induction false} CrashKeeps(s: System, worker: nat)
    requires Inv(s)
    ensures var s' := Apply(s, Crash(worker));
            Inv(s') && TablesGrow(s.tables, s'.tables) && HistoryGrows(s, s')
  {
    NothingChanged(s);
    WorkersStayOk(s, Apply(s, Crash(worker)));
  }

  lemma {:induction false} ApplyKeeps(s: System, step: Step)
    requires Inv(s)
    ensures Inv(Apply(s, step))
    ensures TablesGrow(s.tables, Apply(s, step).tables) && HistoryGrows(s, Apply(s, step))
  {
    NothingChanged(s);
    hide Inv, TablesGrow, HistoryGrows;
    match step
    case Enqueue(job, message, key, payload, availableAt, maxAttempts, now) =>
      if CanInsert(s.tables, job, message, key) && maxAttempts >= 1 {
        EnqueueKeeps(s, job, message, key, payload, availableAt, maxAttempts, now);
      }
    case AcquireNext(worker, id, owner, lease, now) =>
      if CanAcquire(s, worker, id, lease, now) {
        AcquireKeeps(s, worker, id, owner, lease, now);
      }
    case Look(worker) =>
      if CanLook(s, worker) {
        LookKeeps(s, worker);
      }
    case Settle(worker, call, now) =>
      if CanSettle(s, worker, call, now) {
        SettleKeeps(s, worker, call, now);
      }
    case Crash(worker) => CrashKeeps(s, worker);
    case RedactKey(key) => RedactKeeps(s, key);
  }

  lemma {:induction false} RunKeeps(s: System, steps: seq<Step>)
    requires Inv(s)
    ensures Inv(Run(s, steps))
  {
    if steps != [] {
      RunKeeps(s, steps[..|steps| - 1]);
      ApplyKeeps(Run(s, steps[..|steps| - 1]), steps[|steps| - 1]);
    }
  }

  /** Messages appear by enqueueing only. */
  lemma {:induction false} OnlyEnqueueAdds(s: System, step: Step, m: nat)
    requires Inv(s) && m !in s.tables.messages && m in Apply(s, step).tables.messages
    ensures step.Enqueue? && Apply(s, step).tables.messages[m] == NewMessage(step.key, step.payload, step.availableAt)
  {
    hide Inv;
    if step.Settle? && CanSettle(s, step.worker, step.call, step.now)
        && Perform(s.tables, s.workers[step.worker].snap, step.call, step.now).Success? {
      SettledTables(s, step.worker, step.call, step.now);
    }
  }
}
