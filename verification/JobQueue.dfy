/**
 The durable_jobs and outbox_messages tables and the transactions of
 repository/jobs.go, as functions from tables to tables. A transaction that
 returns an error rolls back, so a Failure carries no new tables.
 */
module JobQueue {
  import opened Basics

  datatype NoteKind = Created | Revoked | Accepted

  /** outbox_messages.dedupe_key: "outbox:invitation:<id>[:revoke|:accepted]" or "notification:<id>". */
  datatype DedupeKey = InvitationKey(invitation: nat, kind: NoteKind) | DeliveryKey(delivery: nat)

  /** The two payload shapes; `delivery` of an invitation note is the sealed acceptance link. */
  datatype Payload =
    | InvitationNote(invitation: nat, house: nat, delivery: Option<string>)
    | DeliveryNote(notification: nat, noteHouse: nat, user: nat, digest: bool)

  datatype Status = Pending | Dispatched | DeadLettered

  datatype Message = Message(
    key: DedupeKey, payload: Payload, status: Status, availableAt: Instant,
    dispatchedAt: Option<Instant>, lastError: Option<string>)

  /** `payload` is the outbox message id, None when it does not decode. */
  datatype Job = Job(
    payload: Option<nat>, availableAt: Instant,
    leaseOwner: Option<string>, leaseExpiresAt: Option<Instant>, leaseGeneration: int,
    attempts: int, maxAttempts: int, lastError: Option<string>,
    deadLetteredAt: Option<Instant>, completedAt: Option<Instant>,
    createdAt: Instant, updatedAt: Instant)

  datatype Tables = Tables(jobs: map<nat, Job>, messages: map<nat, Message>)

  /** The row a worker was handed by AcquireNextJob; it is never refreshed. */
  datatype Snapshot = Snapshot(id: nat, row: Job)

  datatype Error = LeaseLost | TransitionRejected

  // ---- backoff

  function Pow2(n: nat): nat {
    if n == 0 then 1 else 2 * Pow2(n - 1)
  }

  function Min(a: int, b: int): int {
    if a < b then a else b
  }

  function JobBackoff(attempt: int): Duration {
    var positive := if attempt < 1 then 1 else attempt;
    var backoff := Pow2(Min(positive - 1, 5)) * SECOND;
    if backoff > 32 * SECOND then 32 * SECOND else backoff
  }

  lemma {:induction false} JobBackoffRange(attempt: int)
    ensures SECOND <= JobBackoff(attempt) <= 32 * SECOND
    ensures attempt >= 6 ==> JobBackoff(attempt) == 32 * SECOND
    ensures 1 <= attempt <= 6 ==> JobBackoff(attempt) == Pow2(attempt - 1) * SECOND
    ensures attempt <= 1 ==> JobBackoff(attempt) == SECOND
    ensures 1 <= attempt < 6 ==> JobBackoff(attempt + 1) == 2 * JobBackoff(attempt)
  {
  }

  // ---- acquire

  predicate Unfinished(job: Job) {
    job.completedAt.None? && job.deadLetteredAt.None?
  }

  predicate Eligible(job: Job, now: Instant) {
    && Unfinished(job) && job.availableAt <= now
    && (job.leaseExpiresAt.None? || job.leaseExpiresAt.value <= now)
  }

  /** ORDER BY available_at, created_at, id. */
  predicate Before(a: Job, aId: nat, b: Job, bId: nat) {
    || a.availableAt < b.availableAt
    || (a.availableAt == b.availableAt
        && (a.createdAt < b.createdAt || (a.createdAt == b.createdAt && aId < bId)))
  }

  predicate IsCandidate(jobs: map<nat, Job>, id: nat, now: Instant) {
    && id in jobs && Eligible(jobs[id], now)
    && forall other | other in jobs && other != id && Eligible(jobs[other], now) ::
         Before(jobs[id], id, jobs[other], other)
  }

  lemma {:induction false} CandidateExists(jobs: map<nat, Job>, some: nat, now: Instant)
    requires some in jobs && Eligible(jobs[some], now)
    ensures exists id :: IsCandidate(jobs, id, now)
    decreases |jobs|
  {
    var rest := jobs - {some};
    assert forall o | o in jobs && o != some :: o in rest && rest[o] == jobs[o];
    if other :| other in rest && Eligible(rest[other], now) {
      assert rest.Keys == jobs.Keys - {some};
      CandidateExists(rest, other, now);
      var best :| IsCandidate(rest, best, now);
      if Before(jobs[best], best, jobs[some], some) {
        assert IsCandidate(jobs, best, now);
      } else {
        assert IsCandidate(jobs, some, now);
      }
    } else {
      assert IsCandidate(jobs, some, now);
    }
  }

  function Claim(job: Job, owner: string, lease: Duration, now: Instant): Job {
    job.(leaseOwner := Some(owner), leaseExpiresAt := Some(now + lease),
         leaseGeneration := job.leaseGeneration + 1, attempts := job.attempts + 1, updatedAt := now)
  }

  function Acquire(t: Tables, id: nat, owner: string, lease: Duration, now: Instant): Tables
    requires id in t.jobs
  {
    t.(jobs := t.jobs[id := Claim(t.jobs[id], owner, lease, now)])
  }

  // ---- settle

  function LeaseOwner(row: Job): string {
    if row.leaseOwner.Some? then row.leaseOwner.value else ""
  }

  /** The WHERE clause of every settling update: owner, generation, unfinished, unexpired. */
  predicate HoldsLease(jobs: map<nat, Job>, s: Snapshot, now: Instant) {
    && s.id in jobs
    && jobs[s.id].leaseOwner == Some(LeaseOwner(s.row))
    && jobs[s.id].leaseGeneration == s.row.leaseGeneration
    && Unfinished(jobs[s.id])
    && jobs[s.id].leaseExpiresAt.Some? && jobs[s.id].leaseExpiresAt.value > now
  }

  function WithoutMaterial(payload: Payload): Payload {
    if payload.InvitationNote? then payload.(delivery := None) else payload
  }

  /** clearOutboxDeliveryPayloadTx: drops the sealed link of the message with this key. */
  function Redact(messages: map<nat, Message>, key: DedupeKey): map<nat, Message> {
    map id | id in messages ::
      if messages[id].key == key then messages[id].(payload := WithoutMaterial(messages[id].payload))
      else messages[id]
  }

  /** The unique index on dedupe_key. */
  ghost predicate UniqueKeys(messages: map<nat, Message>) {
    forall a, b | a in messages && b in messages && messages[a].key == messages[b].key :: a == b
  }

  /** Under the unique index at most one row changes, and only in its sealed link; doing it again changes nothing. */
  lemma {:induction false} RedactTouchesOneRow(messages: map<nat, Message>, key: DedupeKey, m: nat)
    requires UniqueKeys(messages) && m in messages && messages[m].key == key
    ensures Redact(messages, key) == messages[m := messages[m].(payload := WithoutMaterial(messages[m].payload))]
    ensures messages[m].payload == WithoutMaterial(messages[m].payload) ==> Redact(messages, key) == messages
    ensures UniqueKeys(Redact(messages, key)) && Redact(Redact(messages, key), key) == Redact(messages, key)
  {
    forall n | n in messages && n != m
      ensures messages[n].key != key
    {
    }
  }

  lemma {:induction false} SameKeysUnique(before: map<nat, Message>, after: map<nat, Message>)
    requires UniqueKeys(before) && after.Keys == before.Keys
    requires forall m | m in after :: after[m].key == before[m].key
    ensures UniqueKeys(after)
  {
  }

  lemma {:induction false} RedactMisses(messages: map<nat, Message>, key: DedupeKey)
    requires forall m | m in messages :: messages[m].key != key
    ensures Redact(messages, key) == messages
  {
  }

  predicate HasPending(messages: map<nat, Message>, message: nat) {
    message in messages && messages[message].status == Pending
  }

  /** CompleteOutboxJob; `message` is None for the empty message id. */
  function Complete(t: Tables, s: Snapshot, message: Option<nat>, now: Instant): Result<Tables, Error> {
    if !HoldsLease(t.jobs, s, now) then Failure(LeaseLost) else
    var job := t.jobs[s.id].(completedAt := Some(now), leaseOwner := None, leaseExpiresAt := None,
                             updatedAt := now, lastError := None);
    var jobs := t.jobs[s.id := job];
    if message.None? then Success(Tables(jobs, t.messages)) else
    if !HasPending(t.messages, message.value) then Failure(TransitionRejected) else
    var m := t.messages[message.value].(status := Dispatched, dispatchedAt := Some(now), lastError := None);
    Success(Tables(jobs, Redact(t.messages[message.value := m], m.key)))
  }

  /** The next attempt waits out the backoff, or longer when the provider names a later instant. */
  function RetryTime(attempts: int, retryAt: Option<Instant>, now: Instant): Instant {
    var backedOff := now + JobBackoff(attempts);
    if retryAt.Some? && retryAt.value > backedOff then retryAt.value else backedOff
  }

  predicate Exhausted(row: Job) {
    row.attempts >= row.maxAttempts
  }

  /** failOutboxJob: the snapshot's own attempt count decides between retry and dead letter. */
  function Fail(t: Tables, s: Snapshot, message: Option<nat>, cause: string, retryAt: Option<Instant>,
                now: Instant): Result<Tables, Error>
  {
    if !HoldsLease(t.jobs, s, now) then Failure(LeaseLost) else
    var released := t.jobs[s.id].(leaseOwner := None, leaseExpiresAt := None, lastError := Some(cause),
                                  updatedAt := now);
    var job := if Exhausted(s.row) then released.(deadLetteredAt := Some(now))
               else released.(availableAt := RetryTime(s.row.attempts, retryAt, now));
    var jobs := t.jobs[s.id := job];
    if message.None? then Success(Tables(jobs, t.messages)) else
    if !HasPending(t.messages, message.value) then Failure(TransitionRejected) else
    var m := t.messages[message.value].(lastError := Some(cause));
    if Exhausted(s.row) then
      Success(Tables(jobs, Redact(t.messages[message.value := m.(status := DeadLettered)], m.key)))
    else
      Success(Tables(jobs, t.messages[message.value := m]))
  }

  // ---- enqueue

  /** The unique columns: both ids and the dedupe key (the job's key is "job:" and the message's). */
  predicate CanInsert(t: Tables, job: nat, message: nat, key: DedupeKey) {
    && job !in t.jobs && message !in t.messages
    && forall m | m in t.messages :: t.messages[m].key != key
  }

  function NewMessage(key: DedupeKey, payload: Payload, availableAt: Instant): Message {
    Message(key, payload, Pending, availableAt, None, None)
  }

  function NewJob(message: nat, availableAt: Instant, maxAttempts: int, now: Instant): Job {
    Job(Some(message), availableAt, None, None, 0, 0, maxAttempts, None, None, None, now, now)
  }

  /** The two inserts every producer makes in its own transaction. */
  function Insert(t: Tables, job: nat, message: nat, key: DedupeKey, payload: Payload,
                  availableAt: Instant, maxAttempts: int, now: Instant): Tables
  {
    Tables(t.jobs[job := NewJob(message, availableAt, maxAttempts, now)],
           t.messages[message := NewMessage(key, payload, availableAt)])
  }
}
