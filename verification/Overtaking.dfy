/** How many other acquisitions a waiting job can see before its own. */
module Overtaking {
  import opened Basics
  import opened JobQueue
  import opened Worker
  import opened Fencing

  predicate Waiting(job: Job) {
    Unfinished(job) && job.leaseOwner.None? && job.leaseExpiresAt.None?
  }

  /** The unfinished, unleased jobs that the acquire order puts before x. */
  ghost function Ahead(t: Tables, x: nat): set<nat>
    requires x in t.jobs
  {
    set y | y in t.jobs && y != x && Waiting(t.jobs[y]) && Before(t.jobs[y], y, t.jobs[x], x)
  }

  /** The clock has passed `t` when the step reads it; steps without a reading qualify. */
  predicate ReadsAfter(step: Step, t: Instant) {
    match step
    case Enqueue(_, _, _, _, _, _, now) => now > t
    case AcquireNext(_, _, _, _, now) => now > t
    case Settle(_, _, now) => now > t
    case _ => true
  }

  predicate Acquires(s: System, step: Step) {
    step.AcquireNext? && CanAcquire(s, step.worker, step.id, step.lease, step.now)
  }

  /** Acquiring a job whose previous lease was never settled and has expired. */
  predicate Reclaims(s: System, step: Step) {
    Acquires(s, step) && step.id in s.tables.jobs && s.tables.jobs[step.id].leaseExpiresAt.Some?
  }

  function Acquisitions(s: System, steps: seq<Step>): nat {
    if steps == [] then 0
    else var n := |steps| - 1;
         Acquisitions(s, steps[..n]) + if Acquires(Run(s, steps[..n]), steps[n]) then 1 else 0
  }

  predicate FirstClaim(s: System, step: Step) {
    Acquires(s, step) && !Reclaims(s, step)
  }

  /** Acquisitions other than the reclaiming of an expired lease. */
  function FirstClaims(s: System, steps: seq<Step>): nat {
    if steps == [] then 0
    else var n := |steps| - 1;
         FirstClaims(s, steps[..n]) + if FirstClaim(Run(s, steps[..n]), steps[n]) then 1 else 0
  }

  lemma {:induction false} SettleFindsNoLease(s: System, w: nat, call: Call, now: Instant, x: nat)
    requires Inv(s) && CanSettle(s, w, call, now) && x in s.tables.jobs && Waiting(s.tables.jobs[x])
    ensures var u := SettleJob(s, w, call, now).tables;
            && x in u.jobs && u.jobs[x] == s.tables.jobs[x] && u.jobs.Keys == s.tables.jobs.Keys
            && forall y | y in u.jobs && u.jobs[y] != s.tables.jobs[y] ::
                 !Unfinished(u.jobs[y]) || u.jobs[y].availableAt > now
  {
    hide Linked, WorkersOk, JobsOk;
    if Perform(s.tables, s.workers[w].snap, call, now).Success? {
      SettledTables(s, w, call, now);
      JobBackoffRange(s.workers[w].snap.row.attempts);
    }
  }

  lemma {:induction false} SettleShrinks(s: System, w: nat, call: Call, now: Instant, x: nat)
    requires Inv(s) && CanSettle(s, w, call, now) && x in s.tables.jobs && Waiting(s.tables.jobs[x])
    requires now > s.tables.jobs[x].availableAt
    ensures var u := SettleJob(s, w, call, now).tables;
            x in u.jobs && u.jobs[x] == s.tables.jobs[x] && Ahead(u, x) <= Ahead(s.tables, x)
  {
    hide Inv;
    SettleFindsNoLease(s, w, call, now, x);
    var u := SettleJob(s, w, call, now).tables;
    forall y | y in Ahead(u, x)
      ensures y in Ahead(s.tables, x)
    {
      assert u.jobs[y] == s.tables.jobs[y];
    }
  }

  lemma {:induction false} AcquireShrinks(s: System, step: Step, x: nat)
    requires Acquires(s, step) && x in s.tables.jobs && Waiting(s.tables.jobs[x]) && step.id != x
    requires step.now > s.tables.jobs[x].availableAt
    requires s.tables.jobs[step.id].leaseExpiresAt.None? <==> s.tables.jobs[step.id].leaseOwner.None?
    ensures var u := Apply(s, step).tables;
            && x in u.jobs && u.jobs[x] == s.tables.jobs[x]
            && |Ahead(u, x)| + (if FirstClaim(s, step) then 1 else 0) <= |Ahead(s.tables, x)|
  {
    assert Eligible(s.tables.jobs[x], step.now);
    var u := Apply(s, step).tables;
    assert forall y | y in s.tables.jobs && y != step.id :: u.jobs[y] == s.tables.jobs[y];
    Smaller(Ahead(u, x), Ahead(s.tables, x));
    if !Reclaims(s, step) {
      assert step.id in Ahead(s.tables, x) && step.id !in Ahead(u, x);
    }
  }

  lemma {:induction false} EnqueueLandsBehind(s: System, step: Step, x: nat)
    requires step.Enqueue? && x in s.tables.jobs && step.now > s.tables.jobs[x].availableAt
    ensures var u := Apply(s, step).tables;
            x in u.jobs && u.jobs[x] == s.tables.jobs[x] && Ahead(u, x) == Ahead(s.tables, x)
  {
  }

  /**
   One step that does not hand out x never lengthens the queue ahead of it, and a first-time acquisition
   shortens it.
   */
  lemma {:induction false} StepShrinks(s: System, step: Step, x: nat)
    requires Inv(s) && x in s.tables.jobs && Waiting(s.tables.jobs[x])
    requires ReadsAfter(step, s.tables.jobs[x].availableAt)
    requires Acquires(s, step) ==> step.id != x
    ensures var u := Apply(s, step).tables;
            && x in u.jobs && u.jobs[x] == s.tables.jobs[x]
            && |Ahead(u, x)| + (if FirstClaim(s, step) then 1 else 0) <= |Ahead(s.tables, x)|
  {
    var u := Apply(s, step).tables;
    match step
    case AcquireNext(_, id, _, _, _) =>
      if Acquires(s, step) {
        LeaseColumnsAgree(s, id);
        AcquireShrinks(s, step, x);
      } else {
        hide Inv, Ahead;
      }
    case Settle(w, call, now) =>
      hide Inv, Ahead, Perform;
      if CanSettle(s, w, call, now) {
        SettleShrinks(s, w, call, now, x);
        Smaller(Ahead(u, x), Ahead(s.tables, x));
      }
    case Enqueue(_, _, _, _, _, _, _) => EnqueueLandsBehind(s, step, x);
    case _ => QuietStep(s, step, x);
  }

  lemma {:induction false} LeaseColumnsAgree(s: System, id: nat)
    requires Inv(s) && id in s.tables.jobs
    ensures s.tables.jobs[id].leaseExpiresAt.None? <==> s.tables.jobs[id].leaseOwner.None?
  {
  }

  lemma {:induction false} QuietStep(s: System, step: Step, x: nat)
    requires x in s.tables.jobs && (step.Look? || step.Crash? || step.RedactKey?)
    ensures Apply(s, step).tables.jobs == s.tables.jobs && Ahead(Apply(s, step).tables, x) == Ahead(s.tables, x)
  {
  }

  predicate Waits(s: System, x: nat) {
    x in s.tables.jobs && Waiting(s.tables.jobs[x])
  }

  function Generation(s: System, x: nat): int {
    if x in s.tables.jobs then s.tables.jobs[x].leaseGeneration else -1
  }

  ghost function QueueAhead(s: System, x: nat): nat {
    if x in s.tables.jobs then |Ahead(s.tables, x)| else 0
  }

  predicate SameRow(s: System, u: System, x: nat) {
    x in s.tables.jobs && x in u.tables.jobs && u.tables.jobs[x] == s.tables.jobs[x]
  }

  ghost predicate AllReadAfter(steps: seq<Step>, s: System, x: nat) {
    x in s.tables.jobs && forall i | 0 <= i < |steps| :: ReadsAfter(steps[i], s.tables.jobs[x].availableAt)
  }

  lemma {:induction false} GenerationsGrow(s: System, u: System, x: nat)
    requires Inv(s) && Inv(u) && HistoryGrows(s, u) && x in s.tables.jobs
    ensures x in u.tables.jobs && Generation(s, x) <= Generation(u, x)
  {
    assert JobOk(s.tables.jobs[x], s.history[x]) && JobOk(u.tables.jobs[x], u.history[x]);
    assert Extends(s.history[x], u.history[x]);
  }

  lemma {:induction false} ReadsSplit(steps: seq<Step>, s: System, u: System, x: nat)
    requires AllReadAfter(steps, s, x) && steps != []
    ensures AllReadAfter(steps[..|steps| - 1], s, x)
    ensures SameRow(s, u, x) ==> AllReadAfter([steps[|steps| - 1]], u, x)
  {
  }

  lemma {:induction false} StepPays(s: System, step: Step, x: nat)
    requires Inv(s) && Waits(s, x) && AllReadAfter([step], s, x)
    requires Generation(Apply(s, step), x) == Generation(s, x)
    ensures SameRow(s, Apply(s, step), x)
    ensures QueueAhead(Apply(s, step), x) + (if FirstClaim(s, step) then 1 else 0) <= QueueAhead(s, x)
  {
    assert ReadsAfter([step][0], s.tables.jobs[x].availableAt);
    assert JobOk(s.tables.jobs[x], s.history[x]);
    StepShrinks(s, step, x);
  }

  /** While x keeps its generation it keeps its whole row, and acquisitions are paid for by the queue ahead. */
  lemma {:induction false} QueueAheadPays(s: System, more: seq<Step>, x: nat)
    requires Inv(s) && Waits(s, x) && AllReadAfter(more, s, x)
    requires Generation(Run(s, more), x) == Generation(s, x)
    ensures SameRow(s, Run(s, more), x)
    ensures QueueAhead(Run(s, more), x) + FirstClaims(s, more) <= QueueAhead(s, x)
  {
    if more != [] {
      hide Inv, QueueAhead, Waiting, Apply, FirstClaim, TablesGrow, HistoryGrows, AllReadAfter;
      var n := |more| - 1;
      var u, v := Run(s, more[..n]), Run(s, more);
      ReadsSplit(more, s, u, x);
      RunKeeps(s, more[..n]);
      ApplyKeeps(u, more[n]);
      GrowsOverRun(s, more[..n]);
      GenerationsGrow(s, u, x);
      GenerationsGrow(u, v, x);
      QueueAheadPays(s, more[..n], x);
      StepPays(u, more[n], x);
    }
  }

  /**
   A job whose available_at the clock has passed, and which still waits after a further run,
   has been overtaken at most once by each waiting job ordered before it: failures and new
   work land behind it. Reclaiming an expired lease is not counted.
   */
  lemma {:induction false} BoundedOvertaking(steps: seq<Step>, more: seq<Step>, x: nat)
    requires Waits(Run(INITIAL, steps), x) && AllReadAfter(more, Run(INITIAL, steps), x)
    requires Generation(Run(Run(INITIAL, steps), more), x) == Generation(Run(INITIAL, steps), x)
    ensures FirstClaims(Run(INITIAL, steps), more) <= |Ahead(Run(INITIAL, steps).tables, x)|
  {
    Reachable(steps);
    QueueAheadPays(Run(INITIAL, steps), more, x);
  }

  /** When every lease is settled before it expires, the queue ahead bounds all acquisitions. */
  lemma {:induction false} AcquiredInTurn(steps: seq<Step>, more: seq<Step>, x: nat)
    requires Waits(Run(INITIAL, steps), x) && AllReadAfter(more, Run(INITIAL, steps), x)
    requires forall i: nat | i < |more| :: !Reclaims(Run(Run(INITIAL, steps), more[..i]), more[i])
    requires Acquisitions(Run(INITIAL, steps), more) > |Ahead(Run(INITIAL, steps).tables, x)|
    ensures Generation(Run(Run(INITIAL, steps), more), x) != Generation(Run(INITIAL, steps), x)
  {
    hide Ahead, AllReadAfter, Waits;
    AllAreFirstClaims(Run(INITIAL, steps), more);
    if Generation(Run(Run(INITIAL, steps), more), x) == Generation(Run(INITIAL, steps), x) {
      BoundedOvertaking(steps, more, x);
    }
  }

  lemma {:induction false} AllAreFirstClaims(s: System, more: seq<Step>)
    requires forall i: nat | i < |more| :: !Reclaims(Run(s, more[..i]), more[i])
    ensures Acquisitions(s, more) == FirstClaims(s, more)
  {
    if more != [] {
      var n := |more| - 1;
      forall i: nat | i < n
        ensures !Reclaims(Run(s, more[..n][..i]), more[..n][i])
      {
        assert more[..n][..i] == more[..i];
      }
      AllAreFirstClaims(s, more[..n]);
    }
  }
}
