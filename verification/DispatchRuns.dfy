/** What ends a push subscription or a membership, over every run of the dispatch protocol. */
module DispatchRuns {
  import opened Basics
  import opened QuietHours
  import opened Subscriptions
  import opened DispatchLocks
  import opened DispatchSerial
  import N = Notifications

  // ---- the answers a session acts on are those its pushes got

  /** Step j of the run got that answer for target t, and the session has been open ever since. */
  ghost predicate Answered(steps: seq<Step>, j: int, w: nat, t: nat, answer: Answer) {
    && 0 <= j < |steps|
    && (steps[j] == Push(w, t, answer) || (steps[j] == Quarantine(w, t) && answer == Answer.Accepted))
    && forall i | j < i <= |steps| :: w in Run(steps[..i]).sessions
  }

  lemma {:induction false} AnswersComeFromPushes(steps: seq<Step>, w: nat, t: nat)
    requires w in Run(steps).sessions && t in Run(steps).sessions[w].answers
    ensures exists j :: Answered(steps, j, w, t, Run(steps).sessions[w].answers[t])
  {
    var n := |steps| - 1;
    var s := Run(steps[..n]);
    var answer := Run(steps).sessions[w].answers[t];
    assert steps[..n + 1] == steps;
    AnswerIsOldOrNew(s, steps[n], w, t);
    hide Apply;
    if w in s.sessions && t in s.sessions[w].answers && s.sessions[w].answers[t] == answer {
      AnswersComeFromPushes(steps[..n], w, t);
      var j :| Answered(steps[..n], j, w, t, answer);
      forall i | j < i <= |steps|
        ensures w in Run(steps[..i]).sessions
      {
        assert i <= n ==> steps[..n][..i] == steps[..i];
      }
      assert Answered(steps, j, w, t, answer);
    } else {
      assert Answered(steps, n, w, t, answer);
    }
  }

  lemma {:induction false} AnswerIsOldOrNew(s: State, step: Step, w: nat, t: nat)
    requires w in Apply(s, step).sessions && t in Apply(s, step).sessions[w].answers
    ensures var answer := Apply(s, step).sessions[w].answers[t];
            || (w in s.sessions && t in s.sessions[w].answers && s.sessions[w].answers[t] == answer)
            || step == Push(w, t, answer) || (step == Quarantine(w, t) && answer == Answer.Accepted)
  {
    hide AfterSend, Free, LockRows, Wanted, Targets, N.Mark, N.DueRows, N.PreferencesOf, Readable;
    if !Enabled(s, step) {
      NotEnabled(s, step);
    } else {
      match step
      case Push(v, x, answer) => assert v == w && x == t ==> !answer.Refused?;
      case Quarantine(v, x) =>
      case Commit(v, now) => CommitIs(s, v, now);
      case _ => AnswersStay(s, step, w);
    }
  }

  lemma {:induction false} AnswersStay(s: State, step: Step, w: nat)
    requires Enabled(s, step) && !step.Push? && !step.Quarantine? && !step.Commit?
    requires w in Apply(s, step).sessions
    ensures if w in s.sessions then Apply(s, step).sessions[w].answers == s.sessions[w].answers
            else Apply(s, step).sessions[w].answers == map[]
  {
    hide AfterSend, Free, LockRows, Wanted, Targets, N.Mark, N.DueRows, N.PreferencesOf, Readable;
    match step
    case ReadDeliveries(v, now) => ReadKeepsAnswers(s, v, now);
    case ReadTargets(v) => TargetsKeepAnswers(s, v);
    case LockSubscription(v) => LockKeepsAnswers(s, v);
    case Delete(v, last) => DeleteKeepsAnswers(s, v, last);
    case _ => hide SameAnswers;
  }

  lemma {:induction false} ReadKeepsAnswers(s: State, v: nat, now: Instant)
    requires v in s.sessions && s.sessions[v].task.Dispatch?
    ensures SameAnswers(s, DeliveriesRead(s, v, now))
  {
    hide Free, N.DueRows;
  }

  lemma {:induction false} TargetsKeepAnswers(s: State, v: nat)
    requires v in s.sessions
    ensures SameAnswers(s, TargetsRead(s, v))
  {
    hide LockRows, Targets;
  }

  lemma {:induction false} LockKeepsAnswers(s: State, v: nat)
    requires v in s.sessions && s.sessions[v].task.Revoke?
    ensures SameAnswers(s, SubscriptionLocked(s, v))
  {
    hide Free, LockRows, Targets;
  }

  lemma {:induction false} DeleteKeepsAnswers(s: State, v: nat, last: bool)
    requires v in s.sessions
    ensures SameAnswers(s, MemberDeleted(s, v, last))
  {
    hide Free;
  }

  ghost predicate SameAnswers(s: State, u: State) {
    forall w | w in u.sessions :: w in s.sessions && u.sessions[w].answers == s.sessions[w].answers
  }

  // ---- what ends a subscription

  /** The commit is that of a revocation of the target, or of a dispatch that was asked to or could not read it. */
  predicate CommitEnds(s: State, w: nat, t: nat)
    requires w in s.sessions && t in s.subscriptions
  {
    var session, sealed := s.sessions[w], s.subscriptions[t].sealed;
    || (session.task.Revoke? && session.task.target == t)
    || (session.task.Dispatch? && t in session.rows && t in session.answers
        && (session.answers[t] == AcceptedAndRevoke || sealed.None? || !sealed.value.intact
            || sealed.value.key !in session.cipher.known))
  }

  /** A live row before and after one step, which revokes it or not, and keeps the secret unless it is replaced. */
  ghost predicate LivesOrEnds(s: State, u: State, step: Step, t: nat)
    requires t in s.subscriptions
  {
    && t in u.subscriptions
    && (u.subscriptions[t].revoked <==>
          step.Commit? && Enabled(s, step) && step.w in s.sessions && CommitEnds(s, step.w, t))
    && (u.subscriptions[t].revoked ==> u.subscriptions[t].sealed == None)
    && (!u.subscriptions[t].revoked && !(step.Subscribe? && step.target == t) ==>
          && (u.subscriptions[t].sealed.Some? <==> s.subscriptions[t].sealed.Some?)
          && (s.subscriptions[t].sealed.Some? ==>
                u.subscriptions[t].sealed.value.secret == s.subscriptions[t].sealed.value.secret))
  }

  /**
   A live subscription is revoked exactly by the commit of a revocation of it, or of a dispatch whose
   push to it was answered so or that could not read its secret; whatever else happens, it keeps its
   secret until it is subscribed anew.
   */
  lemma {:induction false} RevokedExactlyOnRequest(steps: seq<Step>, step: Step, t: nat)
    requires t in Run(steps).subscriptions && !Run(steps).subscriptions[t].revoked
    ensures LivesOrEnds(Run(steps), Apply(Run(steps), step), step, t)
  {
    SnapshotsHold(steps);
    var s := Run(steps);
    if !Enabled(s, step) {
      NotEnabled(s, step);
    } else if step.Commit? {
      CommitIs(s, step.w, step.now);
      if s.sessions[step.w].task.Dispatch? {
        CommitActsOnItsSnapshot(steps, step.w, step.now);
        hide Run, Inv, SnapshotsOk, ActsOnSnapshot, Apply, LivesOrEnds;
        DispatchEnds(s, step.w, step.now, t);
      } else {
        hide Run, SnapshotsOk, LivesOrEnds;
        OtherCommits(s, step.w, step.now, t);
      }
    } else if IsOwn(step) {
      hide Run, Inv, SnapshotsOk;
      OnlyCommitsWrite(s, step, step.w);
      hide Apply;
    } else {
      hide Run, Inv, SnapshotsOk;
      OutsideLeaves(s, step, t);
    }
  }

  lemma {:induction false} DispatchEnds(s: State, w: nat, now: Instant, t: nat)
    requires Enabled(s, Commit(w, now)) && w in s.sessions && s.sessions[w].task.Dispatch?
    requires t in s.subscriptions && !s.subscriptions[t].revoked
    requires ActsOnSnapshot(s, Apply(s, Commit(w, now)), s.sessions[w], now)
    ensures LivesOrEnds(s, Apply(s, Commit(w, now)), Commit(w, now), t)
  {
    hide Apply, Enabled, Wanted, Targets, N.DueRows;
  }

  lemma {:induction false} OtherCommits(s: State, w: nat, now: Instant, t: nat)
    requires Inv(s) && Enabled(s, Commit(w, now)) && !s.sessions[w].task.Dispatch?
    requires t in s.subscriptions && !s.subscriptions[t].revoked
    ensures LivesOrEnds(s, Apply(s, Commit(w, now)), Commit(w, now), t)
  {
    hide LocksOk, Free, Wanted;
    assert SessionOk(s, w);
  }

  lemma {:induction false} OutsideLeaves(s: State, step: Step, t: nat)
    requires Enabled(s, step) && !IsOwn(step) && t in s.subscriptions && !s.subscriptions[t].revoked
    ensures LivesOrEnds(s, Apply(s, step), step, t)
  {
  }

  // ---- the preferences a dispatch goes by

  /** Step j of the run read those preferences, and the session has been open ever since. */
  ghost predicate ReadAt(steps: seq<Step>, j: int, w: nat, house: nat, user: nat, preferences: Preferences) {
    && 0 <= j < |steps| && steps[j] == ReadPreferences(w)
    && preferences == StoredPreferences(Run(steps[..j]), house, user)
    && forall i | j < i <= |steps| :: w in Run(steps[..i]).sessions
  }

  /** Those the user has stored, or what everyone starts with. */
  function StoredPreferences(s: State, house: nat, user: nat): Preferences {
    if (house, user) in s.preferences then s.preferences[(house, user)]
    else Preferences(true, true, Immediate, 0, None, 480)
  }

  /** A dispatch that has read its preferences. */
  predicate Prepares(s: State, w: nat) {
    && w in s.sessions && s.sessions[w].task.Dispatch?
    && s.sessions[w].phase != Waiting && s.sessions[w].phase != Locked && s.sessions[w].phase != Authorized
  }

  lemma {:induction false} PreferencesAreAsRead(steps: seq<Step>, w: nat)
    requires Prepares(Run(steps), w)
    ensures var session := Run(steps).sessions[w];
            exists j :: ReadAt(steps, j, w, session.task.house, session.task.user, session.preferences)
  {
    var n := |steps| - 1;
    var s := Run(steps[..n]);
    assert steps[..n + 1] == steps;
    assert Run(steps) == Apply(s, steps[n]);
    var session := Run(steps).sessions[w];
    hide Apply, Run;
    PreparedByReading(s, steps[n], w);
    if Prepares(s, w) {
      PreferencesAreAsRead(steps[..n], w);
      var j :| ReadAt(steps[..n], j, w, session.task.house, session.task.user, session.preferences);
      assert steps[..n][..j] == steps[..j];
      forall i | j < i <= |steps|
        ensures w in Run(steps[..i]).sessions
      {
        assert i <= n ==> steps[..n][..i] == steps[..i];
      }
      assert ReadAt(steps, j, w, session.task.house, session.task.user, session.preferences);
    } else {
      assert ReadAt(steps, n, w, session.task.house, session.task.user, session.preferences);
    }
  }

  lemma {:induction false} PreparedByReading(s: State, step: Step, w: nat)
    requires Prepares(Apply(s, step), w)
    ensures var session := Apply(s, step).sessions[w];
            if Prepares(s, w) then
              session.task == s.sessions[w].task && session.preferences == s.sessions[w].preferences
            else
              step == ReadPreferences(w)
              && session.preferences == StoredPreferences(s, session.task.house, session.task.user)
  {
    hide AfterSend, Free, LockRows, Wanted, Targets, N.Mark, N.DueRows, Readable;
    if !Enabled(s, step) {
      NotEnabled(s, step);
    } else if step.Commit? {
      CommitIs(s, step.w, step.now);
      hide Apply;
    } else if w in s.sessions && !OwnStep(step, w) {
      OtherSessionsStay(s, step, w);
      hide Apply;
    } else if w !in s.sessions {
      NewSessionsWait(s, step, w);
      hide Apply;
    } else {
      OwnPreparation(s, step, w);
    }
  }

  lemma {:induction false} OwnPreparation(s: State, step: Step, w: nat)
    requires Enabled(s, step) && !step.Commit? && Prepares(Apply(s, step), w)
    requires w in s.sessions && OwnStep(step, w)
    ensures var session := Apply(s, step).sessions[w];
            if Prepares(s, w) then
              session.task == s.sessions[w].task && session.preferences == s.sessions[w].preferences
            else
              step == ReadPreferences(w)
              && session.preferences == StoredPreferences(s, session.task.house, session.task.user)
  {
    hide AfterSend, Free, LockRows, Wanted, Targets, N.DueRows, Readable;
  }

  /** A session that was not open before has only begun. */
  lemma {:induction false} NewSessionsWait(s: State, step: Step, w: nat)
    requires Enabled(s, step) && w !in s.sessions && w in Apply(s, step).sessions
    ensures Apply(s, step).sessions[w].phase == Waiting
  {
    if IsOwn(step) && !step.Begin? {
      NoSessionAppears(s, step, w);
      hide Apply;
    }
    hide AfterSend, Free, LockRows, Wanted, Targets, N.DueRows, N.Mark, Readable, N.PreferencesOf;
  }

  // ---- what ends a membership

  /** Step j of the run found the member and another admin, and the session has been open ever since. */
  ghost predicate Cleared(steps: seq<Step>, j: int, w: nat) {
    0 <= j < |steps| && steps[j] == Delete(w, false) && forall i | j < i <= |steps| :: w in Run(steps[..i]).sessions
  }

  predicate Removing(s: State, w: nat) {
    w in s.sessions && s.sessions[w].task.Remove? && s.sessions[w].phase == Written
  }

  lemma {:induction false} RemovalsAreCleared(steps: seq<Step>, w: nat)
    requires Removing(Run(steps), w)
    ensures exists j :: Cleared(steps, j, w)
  {
    var n := |steps| - 1;
    var s := Run(steps[..n]);
    assert steps[..n + 1] == steps;
    assert Run(steps) == Apply(s, steps[n]);
    hide Apply, Run;
    WritesFollowDelete(s, steps[n], w);
    if Removing(s, w) {
      RemovalsAreCleared(steps[..n], w);
      var j :| Cleared(steps[..n], j, w);
      forall i | j < i <= |steps|
        ensures w in Run(steps[..i]).sessions
      {
        assert i <= n ==> steps[..n][..i] == steps[..i];
      }
      assert Cleared(steps, j, w);
    } else {
      assert Cleared(steps, n, w);
    }
  }

  lemma {:induction false} WritesFollowDelete(s: State, step: Step, w: nat)
    requires Removing(Apply(s, step), w)
    ensures Removing(s, w) || step == Delete(w, false)
  {
    hide AfterSend, Free, LockRows, Wanted, Targets, N.Mark, N.DueRows, N.PreferencesOf, Readable;
    if !Enabled(s, step) {
      NotEnabled(s, step);
    } else if step.Commit? {
      CommitIs(s, step.w, step.now);
      hide Apply;
    } else if w in s.sessions && !OwnStep(step, w) {
      OtherSessionsStay(s, step, w);
      hide Apply;
    } else if w !in s.sessions {
      NewSessionsWait(s, step, w);
      hide Apply;
    }
  }

  /** A member leaves exactly by the commit of a removal, which has found that an admin remains. */
  lemma {:induction false} MembersLeaveOnlyByRemoval(steps: seq<Step>, step: Step, house: nat, user: nat)
    requires (house, user) in Run(steps).members
    ensures (house, user) !in Apply(Run(steps), step).members <==>
            step.Commit? && Removing(Run(steps), step.w) && Run(steps).sessions[step.w].task == Task.Remove(house, user)
    ensures (house, user) !in Apply(Run(steps), step).members ==> exists j :: Cleared(steps, j, step.w)
  {
    SnapshotsHold(steps);
    hide SnapshotsOk, Run;
    var s := Run(steps);
    if !Enabled(s, step) {
      NotEnabled(s, step);
    } else if step.Commit? {
      CommitIs(s, step.w, step.now);
      CommitRemoves(s, step.w, step.now, house, user);
    } else if IsOwn(step) {
      OnlyCommitsWrite(s, step, step.w);
      hide Apply;
    }
    if (house, user) !in Apply(s, step).members {
      RemovalsAreCleared(steps, step.w);
    }
  }

  lemma {:induction false} CommitRemoves(s: State, w: nat, now: Instant, house: nat, user: nat)
    requires Inv(s) && Enabled(s, Commit(w, now)) && (house, user) in s.members
    ensures (house, user) !in Apply(s, Commit(w, now)).members <==>
            Removing(s, w) && s.sessions[w].task == Task.Remove(house, user)
  {
    hide LocksOk, Free, Wanted, N.Mark;
    assert SessionOk(s, w);
  }
}
