/**
 Under the house lock a dispatch, although it runs statement by statement among all the others,
 has the effect of one atomic dispatch at its commit.
 */
module DispatchSerial {
  import opened Basics
  import opened JobQueue
  import opened QuietHours
  import opened Subscriptions
  import opened DispatchLocks
  import N = Notifications
  import Store = NotificationStore

  // ---- what a dispatch has read stays true until it ends

  predicate HasSnapshot(session: Session) {
    session.task.Dispatch? && (session.phase == Snapshotted || session.phase == Sending)
  }

  /** Of the deliveries that existed at the snapshot, exactly its rows are still due by its instant. */
  predicate DueOk(s: State, session: Session) {
    HasSnapshot(session) ==>
      && session.due != {} && session.known <= s.deliveries.Keys
      && session.due == N.DueRows(View(s), NoteOfTask(session.task), session.at) * session.known
      && (session.phase == Sending ==> Wanted(s, session) != {})
  }

  /** Every locked target is still to be pushed, or will be written as its answer demands. */
  predicate WritesOk(s: State, session: Session) {
    session.task.Dispatch? ==>
      && session.rest.Keys !! session.writes.Keys && session.rest.Keys + session.writes.Keys == session.rows
      && session.answers.Keys == session.writes.Keys
      && forall t | t in session.writes ::
           && t in s.subscriptions && !session.answers[t].Refused?
           && session.writes[t] == AfterSend(session.cipher, s.subscriptions[t], session.answers[t])
  }

  ghost predicate SnapshotOk(s: State, w: nat)
    requires w in s.sessions
  {
    DueOk(s, s.sessions[w]) && WritesOk(s, s.sessions[w])
  }

  ghost predicate SnapshotsOk(s: State) {
    forall w | w in s.sessions :: SnapshotOk(s, w)
  }

  /**
   Rows the session relies on are the same in both states: deliveries may have been added, and those
   of other houses marked.
   */
  predicate SameSnapshot(s: State, u: State, session: Session) {
    && (forall d | d in session.known && d in s.deliveries ::
          d in u.deliveries
          && (u.deliveries[d] == s.deliveries[d]
              || u.deliveries[d].house == s.deliveries[d].house != session.task.house))
    && (forall t | t in session.rows && t in s.subscriptions ::
         t in u.subscriptions && u.subscriptions[t] == s.subscriptions[t])
  }

  lemma {:induction false} StaysSnapshot(s: State, u: State, session: Session)
    requires DueOk(s, session) && WritesOk(s, session) && SameSnapshot(s, u, session)
    ensures DueOk(u, session) && WritesOk(u, session)
  {
    hide AfterSend;
    if HasSnapshot(session) {
      var note := NoteOfTask(session.task);
      assert forall d | d in session.known ::
          d in N.DueRows(View(u), note, session.at) <==> d in N.DueRows(View(s), note, session.at);
      assert Wanted(u, session) == Wanted(s, session);
    }
  }

  lemma {:induction false} SameRowsKeepSnapshot(s: State, u: State, session: Session)
    requires SameRows(s, u) && DueOk(s, session) && WritesOk(s, session)
    ensures DueOk(u, session) && WritesOk(u, session)
  {
    hide AfterSend;
  }

  lemma {:induction false} OutsideKeeps(s: State, step: Step, v: nat)
    requires Inv(s) && Enabled(s, step) && !IsOwn(step) && v in s.sessions && SnapshotOk(s, v)
    ensures v in Apply(s, step).sessions && SnapshotOk(Apply(s, step), v)
  {
    hide LocksOk, DueOk, WritesOk;
    assert SessionOk(s, v);
    OtherSessionsStay(s, step, v);
    OutsideChangesNoSnapshot(s, step, v);
    StaysSnapshot(s, Apply(s, step), s.sessions[v]);
  }

  lemma {:induction false} OutsideChangesNoSnapshot(s: State, step: Step, v: nat)
    requires Enabled(s, step) && !IsOwn(step) && v in s.sessions && SessionOk(s, v)
    ensures SameSnapshot(s, Apply(s, step), s.sessions[v])
  {
  }

  // ---- its own statements

  lemma {:induction false} ReadDeliveriesKeepsOwn(s: State, w: nat, now: Instant)
    requires At(s, w, Prepared) && s.sessions[w].task.Dispatch? && WritesOk(s, s.sessions[w])
    ensures var u := DeliveriesRead(s, w, now); w in u.sessions ==> SnapshotOk(u, w)
  {
    hide AfterSend;
    var u := DeliveriesRead(s, w, now);
    var due := N.DueRows(View(s), NoteOfTask(s.sessions[w].task), now);
    assert due * s.deliveries.Keys == due;
    assert View(u).deliveries == s.deliveries && View(u).members == s.members;
    SameDue(s, u, NoteOfTask(s.sessions[w].task), now);
  }

  lemma {:induction false} SameDue(s: State, u: State, note: Payload, now: Instant)
    requires note.DeliveryNote? && u.deliveries == s.deliveries
    ensures N.DueRows(View(u), note, now) == N.DueRows(View(s), note, now)
  {
  }

  lemma {:induction false} ReadTargetsKeepsOwn(s: State, w: nat)
    requires At(s, w, Snapshotted) && SessionOk(s, w) && SnapshotOk(s, w) && Wanted(s, s.sessions[w]) != {}
    ensures SnapshotOk(TargetsRead(s, w), w)
  {
    hide AfterSend;
    var u := TargetsRead(s, w);
    assert s.sessions[w].rows == {};
    assert Wanted(u, u.sessions[w]) == Wanted(s, s.sessions[w]);
    SameDue(s, u, NoteOfTask(s.sessions[w].task), s.sessions[w].at);
  }

  lemma {:induction false} TargetDoneKeepsOwn(s: State, w: nat, t: nat, answer: Answer)
    requires At(s, w, Sending) && t in s.sessions[w].rest && !answer.Refused? && SessionOk(s, w) && SnapshotOk(s, w)
    ensures SnapshotOk(TargetDone(s, w, t, answer), w)
  {
    hide AfterSend;
    SameDue(s, TargetDone(s, w, t, answer), NoteOfTask(s.sessions[w].task), s.sessions[w].at);
  }

  lemma {:induction false} EarlyPhasesKeepOwn(s: State, u: State, w: nat)
    requires w in s.sessions && SnapshotOk(s, w) && SameRows(s, u) && w in u.sessions
    requires var a, b := s.sessions[w], u.sessions[w];
             && b.task == a.task && b.rows == a.rows && b.rest == a.rest && b.answers == a.answers
                 && b.writes == a.writes
             && b.cipher == a.cipher && !HasSnapshot(b)
    ensures SnapshotOk(u, w)
  {
    hide AfterSend;
  }

  lemma {:induction false} OwnKeeps(s: State, step: Step, w: nat)
    requires Inv(s) && SnapshotsOk(s) && Enabled(s, step) && OwnStep(step, w) && !step.Commit?
    ensures w in Apply(s, step).sessions ==> SnapshotOk(Apply(s, step), w)
  {
    OnlyCommitsWrite(s, step, w);
    if w in s.sessions {
      assert SessionOk(s, w) && SnapshotOk(s, w);
      hide Inv, SessionOk, SnapshotsOk, SnapshotOk, SameRows, Targets, Wanted;
      match step
      case ReadDeliveries(_, now) =>
        WritesFollow(s, w);
        ReadDeliveriesKeepsOwn(s, w, now);
      case ReadTargets(_) => ReadTargetsKeepsOwn(s, w);
      case Push(_, t, answer) =>
        if !answer.Refused? {
          TargetDoneKeepsOwn(s, w, t, answer);
        }
      case Quarantine(_, t) => TargetDoneKeepsOwn(s, w, t, Answer.Accepted);
      case LockSubscription(_) => RevokingHasNoSnapshot(s, w);
      case _ => EarlyPhaseKeeps(s, step, w);
    } else {
      hide Inv, SnapshotsOk, SameRows;
      NewHasNoSnapshot(s, step, w);
    }
  }

  lemma {:induction false} WritesFollow(s: State, w: nat)
    requires w in s.sessions && SnapshotOk(s, w)
    ensures WritesOk(s, s.sessions[w])
  {
  }

  lemma {:induction false} RevokingHasNoSnapshot(s: State, w: nat)
    requires w in s.sessions && s.sessions[w].task.Revoke?
    ensures w in SubscriptionLocked(s, w).sessions ==> SnapshotOk(SubscriptionLocked(s, w), w)
  {
  }

  lemma {:induction false} NewHasNoSnapshot(s: State, step: Step, w: nat)
    requires Enabled(s, step) && OwnStep(step, w) && w !in s.sessions
    ensures w in Apply(s, step).sessions && SnapshotOk(Apply(s, step), w)
  {
  }

  lemma {:induction false} EarlyPhaseKeeps(s: State, step: Step, w: nat)
    requires w in s.sessions && SnapshotOk(s, w) && Enabled(s, step) && step.Begin? == false && OwnStep(step, w)
    requires SameRows(s, Apply(s, step))
    requires step.LockHouse? || step.CheckMember? || step.ReadPreferences? || step.SendEvents? || step.Delete?
             || step.Abort?
    ensures w in Apply(s, step).sessions ==> SnapshotOk(Apply(s, step), w)
  {
    hide SameRows, SnapshotOk, N.PreferencesOf, Free, Targets, Wanted;
    if w in Apply(s, step).sessions {
      EarlyPhasesKeepOwn(s, Apply(s, step), w);
    }
  }

  // ---- commits

  lemma {:induction false} CommitKeepsOther(s: State, w: nat, now: Instant, v: nat)
    requires Inv(s) && SnapshotsOk(s) && w in s.sessions && s.sessions[w].phase != Waiting
    requires s.sessions[w].task.Dispatch? ==> HasSnapshot(s.sessions[w])
    requires v in s.sessions && v != w
    ensures v in End(Writes(s, w, now), w).sessions && SnapshotOk(End(Writes(s, w, now), w), v)
  {
    hide Inv, SnapshotOk, HasSnapshot, End, Writes;
    CommitApart(s, w, now, v);
    CommitLeaves(s, w, now, v);
    assert SnapshotOk(s, v) && SnapshotOk(s, w);
    if HasSnapshot(s.sessions[v]) {
      CommitLeavesSnapshot(s, w, now, v);
    } else {
      CommitLeavesRows(s, w, now, v);
    }
  }

  lemma {:induction false} CommitApart(s: State, w: nat, now: Instant, v: nat)
    requires Inv(s) && w in s.sessions && s.sessions[w].phase != Waiting && v in s.sessions && v != w
    ensures s.sessions[v].rows !! s.sessions[w].rows && s.sessions[w].writes.Keys <= s.sessions[w].rows
    ensures HasSnapshot(s.sessions[v]) ==> s.sessions[v].task.house != s.sessions[w].task.house
  {
    hide LocksOk;
    assert SessionOk(s, v) && SessionOk(s, w);
    hide SessionOk;
    RowsApart(s, v, w);
    if HasSnapshot(s.sessions[v]) && s.sessions[v].task.house == s.sessions[w].task.house {
      OneHolderPerHouse(s, v, w);
    }
  }

  lemma {:induction false} CommitterHasSnapshot(s: State, w: nat, now: Instant)
    requires Inv(s) && Enabled(s, Commit(w, now))
    ensures w in s.sessions && (s.sessions[w].task.Dispatch? ==> HasSnapshot(s.sessions[w]))
  {
    hide LocksOk, Wanted;
    assert SessionOk(s, w);
  }

  lemma {:induction false} CommitLeavesSnapshot(s: State, w: nat, now: Instant, v: nat)
    requires v in s.sessions && w in s.sessions && v != w && s.sessions[v].rows !! s.sessions[w].rows
    requires s.sessions[v].task.house != s.sessions[w].task.house && s.sessions[w].writes.Keys <= s.sessions[w].rows
    requires s.sessions[w].task.Dispatch? ==> HasSnapshot(s.sessions[w])
    requires SnapshotOk(s, v) && SnapshotOk(s, w)
    ensures v in End(Writes(s, w, now), w).sessions && SnapshotOk(End(Writes(s, w, now), w), v)
  {
    var u := End(Writes(s, w, now), w);
    assert SameSnapshot(s, u, s.sessions[v]);
    hide DueOk, WritesOk, SameSnapshot;
    StaysSnapshot(s, u, s.sessions[v]);
    assert u.sessions[v] == s.sessions[v];
  }

  lemma {:induction false} CommitLeavesRows(s: State, w: nat, now: Instant, v: nat)
    requires v in s.sessions && w in s.sessions && v != w && s.sessions[v].rows !! s.sessions[w].rows
    requires !HasSnapshot(s.sessions[v]) && s.sessions[w].writes.Keys <= s.sessions[w].rows
    requires SnapshotOk(s, v)
    ensures v in End(Writes(s, w, now), w).sessions && SnapshotOk(End(Writes(s, w, now), w), v)
  {
    hide WritesOk;
    var u := End(Writes(s, w, now), w);
    WrittenElsewhere(s, w, now, s.sessions[v].rows);
    hide Writes;
    WritesStay(s, u, s.sessions[v]);
    CommitLeaves(s, w, now, v);
  }

  lemma {:induction false} WrittenElsewhere(s: State, w: nat, now: Instant, rows: set<nat>)
    requires w in s.sessions && rows !! s.sessions[w].writes.Keys
    ensures var u := End(Writes(s, w, now), w);
            forall t | t in rows && t in s.subscriptions :: t in u.subscriptions
                && u.subscriptions[t] == s.subscriptions[t]
  {
    hide N.Mark, Free;
  }

  lemma {:induction false} WritesStay(s: State, u: State, session: Session)
    requires WritesOk(s, session)
    requires forall t | t in session.rows && t in s.subscriptions ::
            t in u.subscriptions && u.subscriptions[t] == s.subscriptions[t]
    ensures WritesOk(u, session)
  {
    hide AfterSend;
  }

  lemma {:induction false} ApplyKeepsSnapshots(s: State, step: Step)
    requires Inv(s) && SnapshotsOk(s)
    ensures SnapshotsOk(Apply(s, step))
  {
    hide Inv, Enabled, SnapshotOk, Apply;
    var u := Apply(s, step);
    if !Enabled(s, step) {
      NotEnabled(s, step);
    } else if IsOwn(step) {
      forall v | v in u.sessions
        ensures SnapshotOk(u, v)
      {
        if step.Commit? {
          CommitIs(s, step.w, step.now);
          CommitterIsPast(s, step.w, step.now);
          CommitterHasSnapshot(s, step.w, step.now);
          CommitKeepsOther(s, step.w, step.now, v);
        } else if v == step.w {
          OwnKeeps(s, step, v);
        } else {
          SessionsComeFrom(s, step, v);
          OtherSessionsStay(s, step, v);
          OnlyCommitsWrite(s, step, step.w);
          SameSessionKeeps(s, u, v);
        }
      }
    } else {
      forall v | v in u.sessions
        ensures SnapshotOk(u, v)
      {
        SessionsComeFrom(s, step, v);
        OutsideKeeps(s, step, v);
      }
    }
  }

  lemma {:induction false} NotEnabled(s: State, step: Step)
    requires !Enabled(s, step)
    ensures Apply(s, step) == s
  {
  }

  lemma {:induction false} CommitIs(s: State, w: nat, now: Instant)
    requires Enabled(s, Commit(w, now))
    ensures w in s.sessions && Apply(s, Commit(w, now)) == End(Writes(s, w, now), w)
    ensures End(Writes(s, w, now), w).sessions == s.sessions - {w}
  {
    hide N.Mark;
  }

  lemma {:induction false} SessionsComeFrom(s: State, step: Step, v: nat)
    requires Enabled(s, step) && v in Apply(s, step).sessions && !OwnStep(step, v)
    ensures v in s.sessions
  {
    if v !in s.sessions && !step.Begin? && IsOwn(step) {
      NoSessionAppears(s, step, v);
    }
    hide Apply, Enabled;
  }

  lemma {:induction false} NoSessionAppears(s: State, step: Step, v: nat)
    requires Enabled(s, step) && IsOwn(step) && !step.Begin? && v !in s.sessions
    ensures v !in Apply(s, step).sessions
  {
    match step
    case Commit(w, now) => CommitIs(s, w, now);
    case Push(_, _, _) => hide AfterSend, Free, Readable;
    case Quarantine(_, _) => hide AfterSend, Free, Readable;
    case ReadDeliveries(_, _) => hide N.DueRows, Free, Wanted;
    case ReadTargets(_) => hide LockRows, Free, Wanted;
    case LockSubscription(_) => hide LockRows, Free, Wanted;
    case _ => hide N.PreferencesOf, Free, Wanted, Targets;
  }

  lemma {:induction false} SameSessionKeeps(s: State, u: State, v: nat)
    requires v in s.sessions && v in u.sessions && u.sessions[v] == s.sessions[v] && SameRows(s, u) && SnapshotOk(s, v)
    ensures SnapshotOk(u, v)
  {
    hide DueOk, WritesOk, SameRows;
    SameRowsKeepSnapshot(s, u, s.sessions[v]);
  }

  lemma {:induction false} SnapshotsHold(steps: seq<Step>)
    ensures Inv(Run(steps)) && SnapshotsOk(Run(steps))
  {
    hide Inv, SnapshotsOk, Apply;
    Reachable(steps);
    if steps == [] {
      NoSnapshots();
    } else {
      SnapshotsHold(steps[..|steps| - 1]);
      ApplyKeepsSnapshots(Run(steps[..|steps| - 1]), steps[|steps| - 1]);
    }
  }

  lemma {:induction false} NoSnapshots()
    ensures SnapshotsOk(INITIAL)
  {
  }

  // ---- one atomic dispatch

  function Answers(session: Session): nat -> Answer {
    t => if t in session.answers then session.answers[t] else Answer.Accepted
  }

  /** The whole dispatch at one instant: member check, snapshot at `at`, pushes, and marks made at `now`. */
  function AtomicDispatch(s: State, note: Payload, at: Instant, now: Instant, cipher: Cipher,
                          provider: nat -> Answer): State
    requires note.DeliveryNote?
  {
    var due := N.DueRows(View(s), note, at);
    if (note.noteHouse, note.user) !in s.members || due == {} then s
    else
      s.(deliveries := N.Mark(s.deliveries, due, now),
         subscriptions := if N.EnabledRows(View(s), note, due) == {} then s.subscriptions
                          else Store.AllSent(s.subscriptions, note, cipher, provider))
  }

  /** Since the session read them, no due delivery and no target was added, and the preferences were not changed. */
  predicate Undisturbed(s: State, session: Session)
    requires session.task.Dispatch?
  {
    && N.DueRows(View(s), NoteOfTask(session.task), session.at) <= session.known
    && (session.phase == Sending ==> Targets(s, session.task.house, session.task.user) <= session.rows)
    && N.PreferencesOf(View(s), session.task.house, session.task.user) == session.preferences
  }

  /**
   From s to u exactly the rows of the session's snapshot, all of them still due, are marked, and each
   target it read, all of them still live, is left as the answer to its one push demands. Its user is
   still a member. Rows added since the snapshot are left to a later dispatch.
   */
  ghost predicate ActsOnSnapshot(s: State, u: State, session: Session, now: Instant)
    requires session.task.Dispatch?
  {
    && (session.task.house, session.task.user) in s.members
    && session.due == N.DueRows(View(s), NoteOfTask(session.task), session.at) * session.known && session.due != {}
    && u.deliveries.Keys == s.deliveries.Keys
    && (forall d | d in s.deliveries ::
          u.deliveries[d] == if d in session.due then s.deliveries[d].(dispatchedAt := Some(now)) else s.deliveries[d])
    && session.rows <= Targets(s, session.task.house, session.task.user)
    && (session.rows != {} ==> Wanted(s, session) != {})
    && session.answers.Keys == session.rows && (forall t | t in session.answers :: !session.answers[t].Refused?)
    && u.subscriptions.Keys == s.subscriptions.Keys
    && (forall t | t in s.subscriptions ::
          if t in session.rows
          then Left(s.subscriptions[t], u.subscriptions[t], session.cipher, session.answers[t])
          else u.subscriptions[t] == s.subscriptions[t])
    && u.members == s.members && u.preferences == s.preferences
  }

  /** A committing dispatch acts on its snapshot, on the rows as they are at its commit. */
  lemma {:induction false} CommitActsOnItsSnapshot(steps: seq<Step>, w: nat, now: Instant)
    requires Enabled(Run(steps), Commit(w, now)) && Run(steps).sessions[w].task.Dispatch?
    ensures ActsOnSnapshot(Run(steps), Apply(Run(steps), Commit(w, now)), Run(steps).sessions[w], now)
  {
    SnapshotsHold(steps);
    hide Run;
    var s := Run(steps);
    CommitOnSnapshot(s, w, now);
    WrittenIsLeft(s, s.sessions[w]);
    hide Enabled, Apply, WritesOk;
    ActsAsWritten(s, Apply(s, Commit(w, now)), s.sessions[w], now);
  }

  lemma {:induction false} ActsAsWritten(s: State, u: State, session: Session, now: Instant)
    requires HasSnapshot(session) && DueOk(s, session) && (session.task.house, session.task.user) in s.members
    requires session.rows <= Targets(s, session.task.house, session.task.user)
    requires session.phase == Sending || (session.rows == {} && Wanted(s, session) == {})
    requires u.deliveries == N.Mark(s.deliveries, session.due, now)
    requires u.subscriptions == s.subscriptions + session.writes
    requires u.members == s.members && u.preferences == s.preferences
    requires session.writes.Keys == session.rows == session.answers.Keys
    requires forall t | t in session.rows ::
               && t in s.subscriptions && !session.answers[t].Refused?
               && Left(s.subscriptions[t], session.writes[t], session.cipher, session.answers[t])
    ensures ActsOnSnapshot(s, u, session, now)
  {
    hide Left, N.DueRows, Wanted;
  }

  lemma {:induction false} WrittenIsLeft(s: State, session: Session)
    requires WritesOk(s, session) && session.task.Dispatch? && session.rest == map[]
    requires forall t | t in session.rows :: t in s.subscriptions && !s.subscriptions[t].revoked
    ensures session.writes.Keys == session.rows == session.answers.Keys
    ensures forall t | t in session.rows ::
              && Left(s.subscriptions[t], session.writes[t], session.cipher, session.answers[t])
              && !session.answers[t].Refused?
  {
    forall t | t in session.rows
      ensures Left(s.subscriptions[t], session.writes[t], session.cipher, session.answers[t])
    {
      AfterSendLeaves(session.cipher, s.subscriptions[t], session.answers[t]);
    }
  }

  lemma {:induction false} CommitOnSnapshot(s: State, w: nat, now: Instant)
    requires Inv(s) && SnapshotsOk(s) && Enabled(s, Commit(w, now)) && s.sessions[w].task.Dispatch?
    ensures var u := Apply(s, Commit(w, now));
            var session := s.sessions[w];
            && HasSnapshot(session) && DueOk(s, session) && WritesOk(s, session)
            && (session.task.house, session.task.user) in s.members
            && session.rest == map[] && session.answers.Keys == session.rows
            && session.rows <= Targets(s, session.task.house, session.task.user)
            && (session.phase == Sending || (session.rows == {} && Wanted(s, session) == {}))
            && u.deliveries == N.Mark(s.deliveries, session.due, now)
            && u.subscriptions == s.subscriptions + session.writes
            && u.members == s.members && u.preferences == s.preferences
  {
    hide LocksOk, AfterSend, N.Mark, N.DueRows;
    assert SessionOk(s, w) && SnapshotOk(s, w);
  }

  /** Undisturbed, the committed dispatch is one atomic dispatch at its commit. */
  lemma {:induction false} CommitIsOneAtomicDispatch(steps: seq<Step>, w: nat, now: Instant)
    requires Enabled(Run(steps), Commit(w, now)) && Run(steps).sessions[w].task.Dispatch?
    requires Undisturbed(Run(steps), Run(steps).sessions[w])
    ensures var s := Run(steps);
            var session := s.sessions[w];
            SameRows(Apply(s, Commit(w, now)),
                     AtomicDispatch(s, NoteOfTask(session.task), session.at, now, session.cipher, Answers(session)))
  {
    SnapshotsHold(steps);
    hide Run;
    var s := Run(steps);
    CommitOnSnapshot(s, w, now);
    hide Inv, SnapshotsOk, Enabled, Apply;
    UndisturbedIsAtomic(s, Apply(s, Commit(w, now)), s.sessions[w], now);
  }

  lemma {:induction false} UndisturbedIsAtomic(s: State, u: State, session: Session, now: Instant)
    requires HasSnapshot(session) && DueOk(s, session) && WritesOk(s, session) && Undisturbed(s, session)
    requires (session.task.house, session.task.user) in s.members && session.rest == map[]
    requires session.rows <= Targets(s, session.task.house, session.task.user)
    requires session.phase == Sending || (session.rows == {} && Wanted(s, session) == {})
    requires u.deliveries == N.Mark(s.deliveries, session.due, now)
    requires u.subscriptions == s.subscriptions + session.writes
    requires u.members == s.members && u.preferences == s.preferences
    ensures SameRows(u, AtomicDispatch(s, NoteOfTask(session.task), session.at, now, session.cipher, Answers(session)))
  {
    hide AfterSend, N.Mark;
    var note := NoteOfTask(session.task);
    assert session.due == N.DueRows(View(s), note, session.at);
    assert N.EnabledRows(View(s), note, session.due) == Wanted(s, session);
    hide N.DueRows;
    if session.phase == Sending {
      assert session.rows == Targets(s, session.task.house, session.task.user);
      assert u.subscriptions == Store.AllSent(s.subscriptions, note, session.cipher, Answers(session));
    } else {
      assert u.subscriptions == s.subscriptions;
    }
  }

  /** With one clock reading, the atomic dispatch is the transaction of the delivery model. */
  lemma {:induction false} AtomicDispatchIsTheTransaction(s: State, note: Payload, now: Instant, cipher: Cipher,
                                                          provider: nat -> Answer)
    requires note.DeliveryNote?
    ensures View(AtomicDispatch(s, note, now, now, cipher, provider)) == N.AfterDispatch(View(s), note, now)
  {
    if N.DueRows(View(s), note, now) == {} {
      assert N.Mark(s.deliveries, {}, now) == s.deliveries;
    }
  }
}
