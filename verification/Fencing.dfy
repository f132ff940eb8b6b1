/** What every run of the worker protocol guarantees about leases, settlements and retries. */
module Fencing {
  import opened Basics
  import opened JobQueue
  import opened Worker

  lemma {:induction false} Reachable(steps: seq<Step>)
    ensures Inv(Run(INITIAL, steps))
  {
    var none: map<nat, nat>, nokeys: map<DedupeKey, nat> := map[], map[];
    assert LinkedBy(INITIAL.tables, none, nokeys);
    RunKeeps(INITIAL, steps);
  }

  // ---- leases of one job never overlap

  lemma {:induction false} StartsAfterEnd(h: seq<Attempt>, maxAttempts: int, a: nat, b: nat)
    requires HistoryOk(h, maxAttempts) && a < b < |h|
    ensures End(h[a]) <= h[b].start
  {
    JobBackoffRange(b);
    assert Follows(h, b - 1, maxAttempts);
    if a < b - 1 {
      StartsAfterEnd(h, maxAttempts, a, b - 1);
      assert AttemptOk(h[b - 1]);
    }
  }

  /**
   Whatever the workers, crashes and clocks do, the held intervals of two different
   leases of one job are disjoint, and each lease is settled at most once, inside its own interval.
   */
  lemma {:induction false} HeldIntervalsAreDisjoint(steps: seq<Step>, id: nat, a: nat, b: nat)
    requires id in Run(INITIAL, steps).history && a < b < |Run(INITIAL, steps).history[id]|
    ensures var h := Run(INITIAL, steps).history[id];
            && h[a].start <= End(h[a]) <= h[b].start <= End(h[b])
            && |h[a].settles| <= 1 && |h[b].settles| <= 1
            && (h[b].settles != [] ==> h[b].start <= h[b].settles[0].at < h[b].expires)
  {
    var s := Run(INITIAL, steps);
    Reachable(steps);
    assert JobOk(s.tables.jobs[id], s.history[id]);
    assert AttemptOk(s.history[id][a]) && AttemptOk(s.history[id][b]);
    StartsAfterEnd(s.history[id], s.tables.jobs[id].maxAttempts, a, b);
  }

  // ---- only the current lease can write

  /** A settling call writes exactly when its snapshot is live; otherwise no row of any table changes. */
  lemma {:induction false} OnlyTheLiveLeaseWrites(steps: seq<Step>, w: nat, call: Call, now: Instant)
    requires CanSettle(Run(INITIAL, steps), w, call, now)
    ensures var s := Run(INITIAL, steps);
            var s' := Apply(s, Settle(w, call, now));
            && (s'.tables != s.tables <==> Live(s, s.workers[w].snap, now))
            && (!Live(s, s.workers[w].snap, now) ==> s'.history == s.history)
            && (Live(s, s.workers[w].snap, now) ==> SettleEffect(s.tables, s'.tables, s.workers[w].snap, call, now))
  {
    var s := Run(INITIAL, steps);
    Reachable(steps);
    hide Inv, Live, HoldsLease, SettleEffect, Perform, Run, MayCall;
    SettlesIffLive(s, w, call, now);
    if Live(s, s.workers[w].snap, now) {
      SettledTables(s, w, call, now);
      SettlingReleases(s.tables, Apply(s, Settle(w, call, now)).tables, s.workers[w].snap, call, now);
    }
  }

  /** A call that writes is recorded with its instant, its outcome and the instant it names for the next attempt. */
  lemma {:induction false} SettlementIsRecorded(steps: seq<Step>, w: nat, call: Call, now: Instant)
    requires CanSettle(Run(INITIAL, steps), w, call, now)
    requires Live(Run(INITIAL, steps), Run(INITIAL, steps).workers[w].snap, now)
    ensures var s := Run(INITIAL, steps);
            var snap, h := s.workers[w].snap, s.history[s.workers[w].snap.id];
            var outcome := if call.CompleteCall? then Completed
                           else if snap.row.attempts >= snap.row.maxAttempts then Buried else Retried;
            && |h| == snap.row.attempts
            && Apply(s, Settle(w, call, now)).history
               == s.history[snap.id := h[|h| - 1 := h[|h| - 1].(settles :=
                    [Settlement(now, outcome, if call.FailCall? then call.retryAt else None)])]]
  {
    var s := Run(INITIAL, steps);
    Reachable(steps);
    hide Run, Linked, HoldsLease, SettleEffect, Perform, MayCall;
    SettlesIffLive(s, w, call, now);
    assert LocalOk(s, s.workers[w]);
    var snap := s.workers[w].snap;
    RecordsOnce(s.history[snap.id], SettlementOf(snap, call, now));
  }

  lemma {:induction false} RecordsOnce(h: seq<Attempt>, settlement: Settlement)
    requires h != [] && h[|h| - 1].settles == []
    ensures Record(h, |h|, settlement) == h[|h| - 1 := h[|h| - 1].(settles := [settlement])]
  {
    assert [] + [settlement] == [settlement];
    assert h[|h| - 1].settles + [settlement] == [settlement];
  }

  lemma {:induction false} SettlingReleases(t: Tables, u: Tables, snap: Snapshot, call: Call, now: Instant)
    requires SettleEffect(t, u, snap, call, now) && HoldsLease(t.jobs, snap, now)
    ensures u != t
  {
  }

  /** Two workers never both hold a live snapshot of one job, whatever their clocks say. */
  lemma {:induction false} OneLiveHolder(steps: seq<Step>, v: nat, w: nat, nowV: Instant, nowW: Instant)
    requires v in Run(INITIAL, steps).workers && w in Run(INITIAL, steps).workers && v != w
    requires Run(INITIAL, steps).workers[v].snap.id == Run(INITIAL, steps).workers[w].snap.id
    ensures var s := Run(INITIAL, steps);
            !(Live(s, s.workers[v].snap, nowV) && Live(s, s.workers[w].snap, nowW))
  {
    Reachable(steps);
    var s := Run(INITIAL, steps);
    assert !SameLease(s.workers[v], s.workers[w]);
  }

  lemma {:induction false} GrowsOverRun(s: System, more: seq<Step>)
    requires Inv(s)
    ensures HistoryGrows(s, Run(s, more))
  {
    hide Inv, TablesGrow;
    if more != [] {
      var prefix := more[..|more| - 1];
      GrowsOverRun(s, prefix);
      RunKeeps(s, prefix);
      ApplyKeeps(Run(s, prefix), more[|more| - 1]);
      var u, v := Run(s, prefix), Run(s, more);
      forall id | id in s.history
        ensures id in v.history && Extends(s.history[id], v.history[id])
      {
        assert Extends(s.history[id], u.history[id]) && Extends(u.history[id], v.history[id]);
      }
    }
  }

  /** Once overtaken, settled or expired, a snapshot stays powerless for the rest of the run. */
  lemma {:induction false} LostLeaseStaysLost(steps: seq<Step>, more: seq<Step>, snap: Snapshot, now: Instant,
                                              later: Instant)
    requires SnapshotOk(Run(INITIAL, steps), snap) && !Live(Run(INITIAL, steps), snap, now) && now <= later
    ensures !Live(Run(Run(INITIAL, steps), more), snap, later)
  {
    hide Inv;
    var s := Run(INITIAL, steps);
    Reachable(steps);
    GrowsOverRun(s, more);
    assert Extends(s.history[snap.id], Run(s, more).history[snap.id]);
  }

  // ---- jobs and outbox messages

  /** Every message has exactly one job and mirrors its state; dedupe keys are unique. */
  lemma {:induction false} JobAndOutboxInLockstep(steps: seq<Step>, m: nat)
    requires m in Run(INITIAL, steps).tables.messages
    ensures var t := Run(INITIAL, steps).tables;
            && (exists id :: id in t.jobs && t.jobs[id].payload == Some(m)
                  && (t.messages[m].status == Dispatched <==> t.jobs[id].completedAt.Some?)
                  && (t.messages[m].status == DeadLettered <==> t.jobs[id].deadLetteredAt.Some?)
                  && (t.messages[m].status == Pending <==> Unfinished(t.jobs[id]))
                  && forall other | other in t.jobs && t.jobs[other].payload == Some(m) :: other == id)
            && forall n | n in t.messages && t.messages[n].key == t.messages[m].key :: n == m
  {
    Reachable(steps);
    var s := Run(INITIAL, steps);
    hide Run, WorkersOk, HistoryOk;
    var jobOf, withKey :| LinkedBy(s.tables, jobOf, withKey);
    var id := jobOf[m];
    OneEnding(s, id);
    hide JobsOk;
    assert id in s.tables.jobs && s.tables.jobs[id].payload == Some(m);
  }

  lemma {:induction false} OneEnding(s: System, id: nat)
    requires JobsOk(s) && id in s.tables.jobs
    ensures s.tables.jobs[id].completedAt.None? || s.tables.jobs[id].deadLetteredAt.None?
  {
  }

  /** The call with the empty message id, made after reading a finished message, never writes. */
  lemma {:induction false} EmptyIdCompletionNeverWrites(steps: seq<Step>, w: nat, now: Instant)
    requires CanSettle(Run(INITIAL, steps), w, CompleteCall(None), now)
    ensures Apply(Run(INITIAL, steps), Settle(w, CompleteCall(None), now)).tables == Run(INITIAL, steps).tables
  {
    var s := Run(INITIAL, steps);
    Reachable(steps);
    hide Run, JobsOk, Linked, Live;
    SettlesIffLive(s, w, CompleteCall(None), now);
    assert LocalOk(s, s.workers[w]);
  }

  // ---- retry budget

  function Failures(h: seq<Attempt>): nat {
    if h == [] then 0
    else Failures(h[..|h| - 1]) + if FailedAttempt(h[|h| - 1]) then 1 else 0
  }

  lemma {:induction false} FailuresBounded(h: seq<Attempt>, n: nat, maxAttempts: int)
    requires HistoryOk(h, maxAttempts) && n < |h| && maxAttempts >= 1
    ensures Failures(h[..n]) <= n && Failures(h[..n]) <= maxAttempts - 1
  {
    if n > 0 {
      FailuresBounded(h, n - 1, maxAttempts);
      assert Follows(h, n - 1, maxAttempts);
      assert h[..n][..n - 1] == h[..n - 1];
    }
  }

  /**
   A job records at most max_attempts failures over any run, and is dead-lettered only
   once its attempts have reached max_attempts.
   */
  lemma {:induction false} RetryBudget(steps: seq<Step>, id: nat)
    requires id in Run(INITIAL, steps).tables.jobs
    ensures var s := Run(INITIAL, steps);
            && id in s.history && Failures(s.history[id]) <= s.tables.jobs[id].maxAttempts
            && (s.tables.jobs[id].deadLetteredAt.Some? ==> s.tables.jobs[id].attempts >= s.tables.jobs[id].maxAttempts)
            && s.tables.jobs[id].attempts == s.tables.jobs[id].leaseGeneration == |s.history[id]|
  {
    Reachable(steps);
    var s := Run(INITIAL, steps);
    var job, h := s.tables.jobs[id], s.history[id];
    assert JobOk(job, h);
    if h != [] {
      FailuresBounded(h, |h| - 1, job.maxAttempts);
    }
  }

  // ---- spacing of retries

  /** The backoffs of attempts 1 to k, added up. */
  function TotalBackoff(k: nat): Duration {
    if k == 0 then 0 else TotalBackoff(k - 1) + JobBackoff(k)
  }

  lemma {:induction false} TotalBackoffClosedForm(k: nat)
    ensures k <= 6 ==> TotalBackoff(k) == (Pow2(k) - 1) * SECOND
    ensures k >= 6 ==> TotalBackoff(k) == (63 + 32 * (k - 6)) * SECOND
  {
    if k > 0 {
      TotalBackoffClosedForm(k - 1);
      JobBackoffRange(k);
      assert k <= 6 ==> Pow2(k) == 2 * Pow2(k - 1);
      if k >= 6 {
        assert Pow2(0) == 1 && Pow2(1) == 2 && Pow2(2) == 4 && Pow2(3) == 8;
        assert Pow2(4) == 16 && Pow2(5) == 32 && Pow2(6) == 64;
      }
    }
  }

  lemma {:induction false} SpacingInHistory(h: seq<Attempt>, maxAttempts: int, k: nat)
    requires HistoryOk(h, maxAttempts) && k < |h|
    requires forall i | 0 <= i < k :: RetriedAttempt(h[i])
    ensures h[k].start >= h[0].start + TotalBackoff(k)
  {
    if k > 0 {
      SpacingInHistory(h, maxAttempts, k - 1);
      assert Follows(h, k - 1, maxAttempts) && AttemptOk(h[k - 1]) && RetriedAttempt(h[k - 1]);
    }
  }

  /** If attempts 1..k all fail, attempt k+1 starts no earlier than the sum of their backoffs after the first. */
  lemma {:induction false} RetriesAreSpaced(steps: seq<Step>, id: nat, k: nat)
    requires id in Run(INITIAL, steps).history && k < |Run(INITIAL, steps).history[id]|
    requires forall i | 0 <= i < k :: RetriedAttempt(Run(INITIAL, steps).history[id][i])
    ensures var h := Run(INITIAL, steps).history[id];
            && h[k].start >= h[0].start + TotalBackoff(k)
            && (k <= 6 ==> h[k].start >= h[0].start + (Pow2(k) - 1) * SECOND)
  {
    Reachable(steps);
    var s := Run(INITIAL, steps);
    assert JobOk(s.tables.jobs[id], s.history[id]);
    SpacingInHistory(s.history[id], s.tables.jobs[id].maxAttempts, k);
    TotalBackoffClosedForm(k);
  }

  /** No attempt starts before the instant the failing call of the one before it named, nor inside its backoff. */
  lemma {:induction false} RetriesHeedTheProvider(steps: seq<Step>, id: nat, k: nat)
    requires id in Run(INITIAL, steps).history && k + 1 < |Run(INITIAL, steps).history[id]|
    requires RetriedAttempt(Run(INITIAL, steps).history[id][k])
    ensures var h := Run(INITIAL, steps).history[id];
            var failure := h[k].settles[0];
            && h[k + 1].start >= failure.at + JobBackoff(k + 1)
            && (failure.notBefore.Some? ==> h[k + 1].start >= failure.notBefore.value)
  {
    Reachable(steps);
    var s := Run(INITIAL, steps);
    assert JobOk(s.tables.jobs[id], s.history[id]);
    assert Follows(s.history[id], k, s.tables.jobs[id].maxAttempts);
  }

  /** And it waits no longer: a job that failed is due again exactly from the later of the two. */
  lemma {:induction false} RetryIsDueExactlyThen(steps: seq<Step>, id: nat, now: Instant)
    requires var h := Run(INITIAL, steps).history; id in h && h[id] != [] && RetriedAttempt(h[id][|h[id]| - 1])
    ensures var s := Run(INITIAL, steps);
            var h := s.history[id];
            var failure := h[|h| - 1].settles[0];
            && id in s.tables.jobs
            && (Eligible(s.tables.jobs[id], now) <==>
                  && now >= failure.at + JobBackoff(|h|)
                  && (failure.notBefore.Some? ==> now >= failure.notBefore.value))
  {
    Reachable(steps);
    var s := Run(INITIAL, steps);
    assert JobOk(s.tables.jobs[id], s.history[id]);
  }

  // ---- crashes can push attempts past max_attempts

  /** One invitation job, acquired and abandoned n times by a worker that crashes each time. */
  function CrashLoop(n: nat): seq<Step> {
    if n == 0 then [Enqueue(0, 0, InvitationKey(0, Created), InvitationNote(0, 0, None), 0, 5, 0)]
    else CrashLoop(n - 1) + [AcquireNext(1, 0, "worker", SECOND, n * SECOND), Crash(1)]
  }

  function Abandoned(n: nat): Job {
    var row := NewJob(0, 0, 5, 0);
    if n == 0 then row
    else row.(leaseOwner := Some("worker"), leaseExpiresAt := Some((n + 1) * SECOND),
                leaseGeneration := n, attempts := n, updatedAt := n * SECOND)
  }

  lemma {:induction false} CrashLoopState(n: nat)
    ensures var s := Run(INITIAL, CrashLoop(n));
            && s.workers == map[] && s.tables.jobs == map[0 := Abandoned(n)] && 0 in s.history
  {
    if n == 0 {
      assert CrashLoop(0)[..0] == [];
      assert Run(INITIAL, CrashLoop(0)) == Apply(INITIAL, CrashLoop(0)[0]);
    } else {
      CrashLoopState(n - 1);
      var steps := CrashLoop(n);
      var acquired := steps[..|steps| - 1];
      var s := Run(INITIAL, CrashLoop(n - 1));
      assert acquired[..|acquired| - 1] == CrashLoop(n - 1);
      assert Run(INITIAL, steps) == Apply(Apply(s, steps[|steps| - 2]), Crash(1));
      assert IsCandidate(s.tables.jobs, 0, n * SECOND);
      assert s.tables.jobs[0 := Abandoned(n)] == map[0 := Abandoned(n)];
    }
  }

  /** acquire never looks at max_attempts, so crashes alone carry attempts to any number. */
  lemma {:induction false} CrashesOutrunTheBudget(n: nat)
    ensures var s := Run(INITIAL, CrashLoop(n));
            && 0 in s.tables.jobs && s.tables.jobs[0].attempts == n && s.tables.jobs[0].maxAttempts == 5
            && Unfinished(s.tables.jobs[0])
  {
    CrashLoopState(n);
  }

  /** Lease number n + 1 of the job expired unsettled and was followed by another one. */
  predicate Abandons(h: seq<Attempt>, n: nat) {
    n + 1 < |h| && h[n].settles == []
  }

  /**
   Attempts pass max_attempts exactly when some lease numbered at least max_attempts was left
   unsettled and the job was handed out again.
   */
  lemma {:induction false} BudgetIsPassedIff(steps: seq<Step>, id: nat)
    requires id in Run(INITIAL, steps).tables.jobs
    ensures var s := Run(INITIAL, steps);
            && id in s.history
            && (s.tables.jobs[id].attempts > s.tables.jobs[id].maxAttempts
                <==> exists n: nat :: s.tables.jobs[id].maxAttempts <= n + 1 && Abandons(s.history[id], n))
  {
    Reachable(steps);
    var s := Run(INITIAL, steps);
    hide Run, WorkersOk, Linked;
    var job, h := s.tables.jobs[id], s.history[id];
    assert JobOk(job, h);
    if job.attempts > job.maxAttempts {
      var n := job.maxAttempts - 1;
      assert Follows(h, n, job.maxAttempts);
      assert Abandons(h, n);
    }
  }

  /** A job whose leases have all been settled, the newest one aside, never passes its budget. */
  lemma {:induction false} SettledLeasesStayInBudget(steps: seq<Step>, id: nat)
    requires id in Run(INITIAL, steps).tables.jobs && id in Run(INITIAL, steps).history
    requires forall n: nat :: !Abandons(Run(INITIAL, steps).history[id], n)
    ensures Run(INITIAL, steps).tables.jobs[id].attempts <= Run(INITIAL, steps).tables.jobs[id].maxAttempts
  {
    hide Run;
    BudgetIsPassedIff(steps, id);
  }
}
