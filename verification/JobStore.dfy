/** The transactions of repository/jobs.go as they run: guarded updates on the two tables. */
module JobStore {
  import opened Basics
  import opened JobQueue

  class ReliabilityRepository {
    var jobs: map<nat, Job>
    var messages: map<nat, Message>

    /** The database keeps dedupe keys unique. */
    ghost predicate Valid()
      reads this
    {
      UniqueKeys(messages)
    }

    constructor ()
      ensures Valid() && Rows() == Tables(map[], map[])
    {
      jobs, messages := map[], map[];
    }

    function Rows(): Tables
      reads this
    {
      Tables(jobs, messages)
    }

    /** Nothing is acquired exactly when no job is eligible; otherwise the first in order is. */
    method AcquireNextJob(owner: string, leaseDuration: Duration, now: Instant) returns (job: Option<Snapshot>)
      modifies this`jobs
      ensures job.None? <==> forall id | id in old(jobs) :: !Eligible(old(jobs)[id], now)
      ensures job.None? ==> jobs == old(jobs)
      ensures job.Some? ==> IsCandidate(old(jobs), job.value.id, now)
      ensures job.Some? ==> Rows() == Acquire(old(Rows()), job.value.id, owner, leaseDuration, now)
      ensures job.Some? ==> job.value.row == jobs[job.value.id]
      ensures job.None? <==> forall id | id in old(jobs) ::
        var row := old(jobs)[id];
        || row.completedAt.Some? || row.deadLetteredAt.Some? || row.availableAt > now
        || (row.leaseExpiresAt.Some? && row.leaseExpiresAt.value > now)
      ensures job.Some? ==>
        var id, row := job.value.id, old(jobs)[job.value.id];
        && row.completedAt.None? && row.deadLetteredAt.None? && row.availableAt <= now
        && (row.leaseExpiresAt.None? || row.leaseExpiresAt.value <= now)
        && (forall other | other in old(jobs) && other != id ::
              var o := old(jobs)[other];
              || o.completedAt.Some? || o.deadLetteredAt.Some? || o.availableAt > now
              || (o.leaseExpiresAt.Some? && o.leaseExpiresAt.value > now) || row.availableAt < o.availableAt
              || (row.availableAt == o.availableAt && row.createdAt < o.createdAt)
              || (row.availableAt == o.availableAt && row.createdAt == o.createdAt && id < other))
        && jobs == old(jobs)[id := row.(leaseOwner := Some(owner), leaseExpiresAt := Some(now + leaseDuration),
                                        leaseGeneration := row.leaseGeneration + 1, attempts := row.attempts + 1,
                                        updatedAt := now)]
    {
      if id :| id in jobs && IsCandidate(jobs, id, now) {
        var row := jobs[id];
        row := row.(leaseOwner := Some(owner), leaseExpiresAt := Some(now + leaseDuration));
        row := row.(leaseGeneration := row.leaseGeneration + 1, attempts := row.attempts + 1, updatedAt := now);
        jobs := jobs[id := row];
        job := Some(Snapshot(id, row));
      } else {
        forall id | id in jobs
          ensures !Eligible(jobs[id], now)
        {
          if Eligible(jobs[id], now) {
            CandidateExists(jobs, id, now);
          }
        }
        job := None;
      }
    }

    method CompleteOutboxJob(job: Snapshot, outboxMessageID: Option<nat>, now: Instant) returns (error: Option<Error>)
      requires Valid()
      modifies this
      ensures Valid()
      ensures match Complete(old(Rows()), job, outboxMessageID, now)
              case Success(t) => error.None? && Rows() == t
              case Failure(e) => error == Some(e) && Rows() == old(Rows())
      ensures error == Some(LeaseLost) <==>
        !(&& job.id in old(jobs) && old(jobs)[job.id].leaseOwner.Some?
          && old(jobs)[job.id].leaseOwner.value == (if job.row.leaseOwner.Some? then job.row.leaseOwner.value else "")
          && old(jobs)[job.id].leaseGeneration == job.row.leaseGeneration
          && old(jobs)[job.id].completedAt.None? && old(jobs)[job.id].deadLetteredAt.None?
          && old(jobs)[job.id].leaseExpiresAt.Some? && old(jobs)[job.id].leaseExpiresAt.value > now)
      ensures error.None? <==>
        && error != Some(LeaseLost)
        && (outboxMessageID.Some? ==>
              outboxMessageID.value in old(messages) && old(messages)[outboxMessageID.value].status == Pending)
      ensures error.Some? ==> jobs == old(jobs) && messages == old(messages)
      ensures error.None? ==>
        jobs == old(jobs)[job.id := old(jobs)[job.id].(completedAt := Some(now), leaseOwner := None,
                                                       leaseExpiresAt := None, updatedAt := now, lastError := None)]
      ensures error.None? && outboxMessageID.None? ==> messages == old(messages)
      ensures error.None? && outboxMessageID.Some? ==>
        var m := old(messages)[outboxMessageID.value];
        messages == old(messages)[outboxMessageID.value :=
          m.(status := Dispatched, dispatchedAt := Some(now), lastError := None,
             payload := if m.payload.InvitationNote? then m.payload.(delivery := None) else m.payload)]
    {
      var before, beforeMessages := jobs, messages;
      if !HoldsLease(jobs, job, now) {
        return Some(LeaseLost);
      }
      jobs := jobs[job.id := jobs[job.id].(completedAt := Some(now), leaseOwner := None, leaseExpiresAt := None,
                                           updatedAt := now, lastError := None)];
      if outboxMessageID.Some? {
        var message := outboxMessageID.value;
        if !HasPending(messages, message) {
          jobs, messages := before, beforeMessages;
          return Some(TransitionRejected);
        }
        messages := messages[message :=
          messages[message].(status := Dispatched, dispatchedAt := Some(now), lastError := None)];
        ClearOutboxDeliveryPayload(messages[message].key);
      }
      return None;
    }

    method FailOutboxJob(job: Snapshot, outboxMessageID: Option<nat>, cause: string, retryAt: Option<Instant>,
                         now: Instant) returns (error: Option<Error>)
      requires Valid()
      modifies this
      ensures Valid()
      ensures match Fail(old(Rows()), job, outboxMessageID, cause, retryAt, now)
              case Success(t) => error.None? && Rows() == t
              case Failure(e) => error == Some(e) && Rows() == old(Rows())
      ensures error == Some(LeaseLost) <==>
        !(&& job.id in old(jobs) && old(jobs)[job.id].leaseOwner.Some?
          && old(jobs)[job.id].leaseOwner.value == (if job.row.leaseOwner.Some? then job.row.leaseOwner.value else "")
          && old(jobs)[job.id].leaseGeneration == job.row.leaseGeneration
          && old(jobs)[job.id].completedAt.None? && old(jobs)[job.id].deadLetteredAt.None?
          && old(jobs)[job.id].leaseExpiresAt.Some? && old(jobs)[job.id].leaseExpiresAt.value > now)
      ensures error.None? <==>
        && error != Some(LeaseLost)
        && (outboxMessageID.Some? ==>
              outboxMessageID.value in old(messages) && old(messages)[outboxMessageID.value].status == Pending)
      ensures error.Some? ==> jobs == old(jobs) && messages == old(messages)
      ensures error.None? ==>
        var row := old(jobs)[job.id].(leaseOwner := None, leaseExpiresAt := None, lastError := Some(cause),
                                      updatedAt := now);
        var backedOff := now + JobBackoff(job.row.attempts);
        jobs == old(jobs)[job.id :=
          if job.row.attempts >= job.row.maxAttempts then row.(deadLetteredAt := Some(now))
          else if retryAt.None? || retryAt.value <= backedOff then row.(availableAt := backedOff)
          else row.(availableAt := retryAt.value)]
      ensures error.None? && outboxMessageID.None? ==> messages == old(messages)
      ensures error.None? && outboxMessageID.Some? ==>
        var m := old(messages)[outboxMessageID.value].(lastError := Some(cause));
        messages == old(messages)[outboxMessageID.value :=
          if job.row.attempts < job.row.maxAttempts then m
          else m.(status := DeadLettered,
                  payload := if m.payload.InvitationNote? then m.payload.(delivery := None) else m.payload)]
    {
      hide JobBackoff, UniqueKeys, Redact;
      var before, beforeMessages := jobs, messages;
      var availableAt := now + JobBackoff(job.row.attempts);
      if retryAt.Some? && retryAt.value > availableAt {
        availableAt := retryAt.value;
      }
      var deadLetter := job.row.attempts >= job.row.maxAttempts;
      if !HoldsLease(jobs, job, now) {
        return Some(LeaseLost);
      }
      var row := jobs[job.id].(leaseOwner := None, leaseExpiresAt := None, lastError := Some(cause), updatedAt := now);
      if deadLetter {
        row := row.(deadLetteredAt := Some(now));
      } else {
        row := row.(availableAt := availableAt);
      }
      jobs := jobs[job.id := row];
      if outboxMessageID.Some? {
        var message := outboxMessageID.value;
        if !HasPending(messages, message) {
          jobs, messages := before, beforeMessages;
          return Some(TransitionRejected);
        }
        messages := messages[message := messages[message].(lastError := Some(cause))];
        if deadLetter {
          messages := messages[message := messages[message].(status := DeadLettered)];
          assert messages == beforeMessages[message := beforeMessages[message].(lastError := Some(cause),
                                                                                status := DeadLettered)];
          SameKeysUnique(beforeMessages, messages);
          RedactTouchesOneRow(messages, messages[message].key, message);
          ClearOutboxDeliveryPayload(messages[message].key);
        } else {
          SameKeysUnique(beforeMessages, messages);
        }
      }
      return None;
    }

    /**
     Reads the one row with the key and writes it back without its sealed link: nothing else changes,
     and no row with the key holds a link afterwards.
     */
    method ClearOutboxDeliveryPayload(key: DedupeKey)
      requires Valid()
      modifies this`messages
      ensures Valid() && messages == Redact(old(messages), key)
      ensures messages.Keys == old(messages).Keys
      ensures forall m, n |
                m in messages && n in messages && messages[m] != old(messages)[m] && messages[n] != old(messages)[n] ::
                m == n
      ensures forall m | m in messages && messages[m].key == key ::
                messages[m].payload == WithoutMaterial(messages[m].payload)
      ensures forall m | m in messages && messages[m].payload != old(messages)[m].payload ::
        && messages[m].key == key && old(messages)[m].payload.InvitationNote?
        && messages[m] == old(messages)[m].(payload := old(messages)[m].payload.(delivery := None))
      ensures forall m | m in messages && messages[m].key == key ::
        messages[m].payload.InvitationNote? ==> messages[m].payload.delivery.None?
      ensures forall m | m in messages && messages[m].payload == old(messages)[m].payload ::
        messages[m] == old(messages)[m]
    {
      if m :| m in messages && messages[m].key == key {
        RedactTouchesOneRow(messages, key, m);
        var payload := messages[m].payload;
        if payload.InvitationNote? && payload.delivery.Some? {
          messages := messages[m := messages[m].(payload := payload.(delivery := None))];
        }
      } else {
        RedactMisses(messages, key);
      }
    }

    /** The inserts of enqueueInvitationNotificationTx and EnqueueTx; a taken id or key aborts them. */
    method Enqueue(job: nat, message: nat, key: DedupeKey, payload: Payload, availableAt: Instant,
                   maxAttempts: int, now: Instant) returns (ok: bool)
      requires Valid()
      modifies this
      ensures Valid()
      ensures ok == CanInsert(old(Rows()), job, message, key)
      ensures Rows() == if ok then Insert(old(Rows()), job, message, key, payload, availableAt, maxAttempts, now)
                        else old(Rows())
      ensures ok <==>
        && job !in old(jobs) && message !in old(messages)
        && forall m | m in old(messages) :: old(messages)[m].key != key
      ensures ok ==>
        && jobs == old(jobs)[job := Job(Some(message), availableAt, None, None, 0, 0, maxAttempts, None, None, None,
                                        now, now)]
        && messages == old(messages)[message := Message(key, payload, Pending, availableAt, None, None)]
    {
      if !CanInsert(Rows(), job, message, key) {
        return false;
      }
      messages := messages[message := NewMessage(key, payload, availableAt)];
      jobs := jobs[job := NewJob(message, availableAt, maxAttempts, now)];
      return true;
    }
  }
}
