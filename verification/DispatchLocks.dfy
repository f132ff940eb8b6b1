/**
 The house-row lock that orders pushes and event streams against member removal and
 revocation, one statement at a time: WithAuthorizedDispatch and RevokeSubscription of
 repository/notifications.go, WithAuthorizedHouseEvents of repository/reliability.go and
 RemoveMember of repository/houses.go. Statements read committed rows; a transaction's own
 writes become visible when it commits; locks are released when it ends.
 */
module DispatchLocks {
  import opened Basics
  import opened JobQueue
  import opened QuietHours
  import opened Notifications
  import opened Subscriptions

  datatype Task =
    | Dispatch(house: nat, user: nat, notification: nat, digest: bool)
    | Stream(house: nat, user: nat)
    | Remove(house: nat, user: nat)
    | Revoke(house: nat, user: nat, target: nat)

  datatype Phase = Waiting | Locked | Authorized | Prepared | Snapshotted | Sending | Written

  /**
   What a transaction has read and locked, and what it will write. A dispatch reads the preferences,
   then the `due` deliveries at instant `at` (`known` are the deliveries that existed), then the
   targets: `rows` are the subscription rows it has locked, `rest` those still to push as it read
   them, `answers` and `writes` what came of the others. `cipher` is that of its own process.
   */
  datatype Session = Session(
    task: Task, cipher: Cipher, phase: Phase, preferences: Preferences, due: set<nat>, at: Instant, known: set<nat>,
    rows: set<nat>, rest: map<nat, Subscription>, answers: map<nat, Answer>, writes: map<nat, Subscription>)

  datatype State = State(
    members: set<(nat, nat)>, preferences: map<(nat, nat), Preferences>, deliveries: map<nat, Delivery>,
    subscriptions: map<nat, Subscription>, sessions: map<nat, Session>,
    houseLock: map<nat, nat>, rowLock: map<nat, nat>)

  datatype Step =
    | Begin(w: nat, task: Task, cipher: Cipher)
    | LockHouse(w: nat)
    | CheckMember(w: nat)
    | ReadPreferences(w: nat)
    | ReadDeliveries(w: nat, now: Instant)
    | ReadTargets(w: nat)
    | Push(w: nat, target: nat, answer: Answer)
    | Quarantine(w: nat, target: nat)
    | SendEvents(w: nat)
    | Delete(w: nat, lastAdmin: bool)
    | LockSubscription(w: nat)
    | Commit(w: nat, now: Instant)
    | Abort(w: nat)
    | Join(house: nat, user: nat)
    | Subscribe(target: nat, house: nat, user: nat, sealed: Sealed)
    | Insert(delivery: nat, row: Delivery)
    | PutPreferences(house: nat, user: nat, preferences: Preferences)

  const INITIAL := State({}, map[], map[], map[], map[], map[], map[])

  function Started(task: Task, cipher: Cipher): Session {
    Session(task, cipher, Waiting, DEFAULT_PREFERENCES, {}, 0, {}, {}, map[], map[], map[])
  }

  // ---- steps

  /** The committed rows a dispatch reads. */
  function View(s: State): Rows {
    Rows(Tables(map[], map[]), s.members, s.preferences, s.deliveries)
  }

  function NoteOfTask(task: Task): Payload
    requires task.Dispatch?
  {
    DeliveryNote(task.notification, task.house, task.user, task.digest)
  }

  function Targets(s: State, house: nat, user: nat): set<nat> {
    set t | t in s.subscriptions && Live(s.subscriptions[t], house, user)
  }

  predicate At(s: State, w: nat, phase: Phase) {
    w in s.sessions && s.sessions[w].phase == phase
  }

  /** The snapshot rows whose category the preferences it read enable. */
  function Wanted(s: State, session: Session): set<nat> {
    set d | d in session.due && d in s.deliveries && CategoryEnabled(session.preferences, s.deliveries[d].category)
  }

  /** The step can be taken now; a lock held by another session blocks. */
  predicate Enabled(s: State, step: Step) {
    match step
    case Begin(w, _, _) => w !in s.sessions
    case LockHouse(w) => At(s, w, Waiting) && s.sessions[w].task.house !in s.houseLock
    case CheckMember(w) => At(s, w, Locked) && (s.sessions[w].task.Dispatch? || s.sessions[w].task.Stream?)
    case ReadPreferences(w) => At(s, w, Authorized) && s.sessions[w].task.Dispatch?
    case ReadDeliveries(w, _) => At(s, w, Prepared) && s.sessions[w].task.Dispatch?
    case ReadTargets(w) =>
      && At(s, w, Snapshotted) && s.sessions[w].task.Dispatch? && Wanted(s, s.sessions[w]) != {}
      && Targets(s, s.sessions[w].task.house, s.sessions[w].task.user) !! s.rowLock.Keys
    case Push(w, t, _) =>
      At(s, w, Sending) && t in s.sessions[w].rest && Readable(s.sessions[w].cipher, s.sessions[w].rest[t])
    case Quarantine(w, t) =>
      At(s, w, Sending) && t in s.sessions[w].rest && !Readable(s.sessions[w].cipher, s.sessions[w].rest[t])
    case SendEvents(w) => At(s, w, Authorized) && s.sessions[w].task.Stream?
    case Delete(w, _) => At(s, w, Locked) && s.sessions[w].task.Remove?
    case LockSubscription(w) =>
      && At(s, w, Locked) && s.sessions[w].task.Revoke?
      && (s.sessions[w].task.target in Targets(s, s.sessions[w].task.house, s.sessions[w].task.user) ==>
            s.sessions[w].task.target !in s.rowLock)
    case Commit(w, _) =>
      || At(s, w, Written)
      || (At(s, w, Sending) && s.sessions[w].rest == map[])
      || (At(s, w, Snapshotted) && Wanted(s, s.sessions[w]) == {})
    case Abort(w) => w in s.sessions
    case Join(_, _) => true
    case Subscribe(t, house, user, _) =>
      t !in s.rowLock && (t in s.subscriptions ==> s.subscriptions[t].house == house && s.subscriptions[t].user == user)
    case Insert(d, row) => d !in s.deliveries && row.dispatchedAt.None?
    case PutPreferences(_, _, p) => Valid(p)
  }

  function Free(locks: map<nat, nat>, w: nat): map<nat, nat> {
    map k | k in locks && locks[k] != w :: locks[k]
  }

  /** The transaction ends: its locks go, and its writes stay only if it committed. */
  function End(s: State, w: nat): State {
    s.(sessions := s.sessions - {w}, houseLock := Free(s.houseLock, w), rowLock := Free(s.rowLock, w))
  }

  function Writes(s: State, w: nat, now: Instant): State
    requires w in s.sessions
  {
    var session := s.sessions[w];
    var written := s.(subscriptions := s.subscriptions + session.writes);
    match session.task
    case Dispatch(_, _, _, _) => written.(deliveries := Mark(s.deliveries, session.due, now))
    case Stream(_, _) => s
    case Remove(house, user) => s.(members := s.members - {(house, user)})
    case Revoke(_, _, _) => written
  }

  function LockRows(locks: map<nat, nat>, rows: set<nat>, w: nat): map<nat, nat> {
    map k | k in locks.Keys + rows :: if k in rows then w else locks[k]
  }

  function Put(s: State, w: nat, session: Session): State {
    s.(sessions := s.sessions[w := session])
  }

  function HouseLocked(s: State, w: nat): State
    requires w in s.sessions
  {
    Put(s, w, s.sessions[w].(phase := Locked)).(houseLock := s.houseLock[s.sessions[w].task.house := w])
  }

  function MemberChecked(s: State, w: nat): State
    requires w in s.sessions
  {
    if (s.sessions[w].task.house, s.sessions[w].task.user) in s.members
    then Put(s, w, s.sessions[w].(phase := Authorized))
    else End(s, w)
  }

  function PreferencesRead(s: State, w: nat): State
    requires w in s.sessions
  {
    var task := s.sessions[w].task;
    Put(s, w, s.sessions[w].(phase := Prepared, preferences := PreferencesOf(View(s), task.house, task.user)))
  }

  /** The snapshot of due rows; an empty one ends the transaction. */
  function DeliveriesRead(s: State, w: nat, now: Instant): State
    requires w in s.sessions && s.sessions[w].task.Dispatch?
  {
    var due := DueRows(View(s), NoteOfTask(s.sessions[w].task), now);
    if due == {} then End(s, w)
    else Put(s, w, s.sessions[w].(phase := Snapshotted, due := due, at := now, known := s.deliveries.Keys))
  }

  function TargetsRead(s: State, w: nat): State
    requires w in s.sessions
  {
    var targets := Targets(s, s.sessions[w].task.house, s.sessions[w].task.user);
    Put(s, w, s.sessions[w].(phase := Sending, rows := targets, rest := map t | t in targets :: s.subscriptions[t]))
      .(rowLock := LockRows(s.rowLock, targets, w))
  }

  /** One target is done with: its row will be written as the answer, or its unreadable secret, demands. */
  function TargetDone(s: State, w: nat, t: nat, answer: Answer): State
    requires w in s.sessions && t in s.sessions[w].rest
  {
    var session := s.sessions[w];
    Put(s, w, session.(rest := session.rest - {t}, answers := session.answers[t := answer],
                       writes := session.writes[t := AfterSend(session.cipher, session.rest[t], answer)]))
  }

  function MemberDeleted(s: State, w: nat, lastAdmin: bool): State
    requires w in s.sessions
  {
    if lastAdmin || (s.sessions[w].task.house, s.sessions[w].task.user) !in s.members then End(s, w)
    else Put(s, w, s.sessions[w].(phase := Written))
  }

  function SubscriptionLocked(s: State, w: nat): State
    requires w in s.sessions && s.sessions[w].task.Revoke?
  {
    var task := s.sessions[w].task;
    if task.target !in Targets(s, task.house, task.user) then End(s, w)
    else
      Put(s, w, s.sessions[w].(phase := Written, rows := {task.target},
                               writes := map[task.target := Withdrawn(s.subscriptions[task.target])]))
        .(rowLock := LockRows(s.rowLock, {task.target}, w))
  }

  function Apply(s: State, step: Step): State {
    if !Enabled(s, step) then s else
    match step
    case Begin(w, task, cipher) => Put(s, w, Started(task, cipher))
    case LockHouse(w) => HouseLocked(s, w)
    case CheckMember(w) => MemberChecked(s, w)
    case ReadPreferences(w) => PreferencesRead(s, w)
    case ReadDeliveries(w, now) => DeliveriesRead(s, w, now)
    case ReadTargets(w) => TargetsRead(s, w)
    case Push(w, t, answer) => if answer.Refused? then End(s, w) else TargetDone(s, w, t, answer)
    case Quarantine(w, t) => TargetDone(s, w, t, Answer.Accepted)
    case SendEvents(w) => Put(s, w, s.sessions[w].(phase := Written))
    case Delete(w, lastAdmin) => MemberDeleted(s, w, lastAdmin)
    case LockSubscription(w) => SubscriptionLocked(s, w)
    case Commit(w, now) => End(Writes(s, w, now), w)
    case Abort(w) => End(s, w)
    case Join(house, user) => s.(members := s.members + {(house, user)})
    case Subscribe(t, house, user, sealed) =>
      s.(subscriptions := s.subscriptions[t := Subscription(house, user, Some(sealed), false)])
    case Insert(d, row) => s.(deliveries := s.deliveries[d := row])
    case PutPreferences(house, user, p) => s.(preferences := s.preferences[(house, user) := p])
  }

  function Run(steps: seq<Step>): State {
    if steps == [] then INITIAL else Apply(Run(steps[..|steps| - 1]), steps[|steps| - 1])
  }

  // ---- the invariant

  /** A dispatch or stream past its membership check. */
  predicate Authorizes(session: Session) {
    (session.task.Dispatch? || session.task.Stream?) && !session.phase.Waiting? && !session.phase.Locked?
  }

  /**
   Past Waiting a session holds its house's lock; each row it locked is its own, live and of that
   house; what it still has to push is what it read, and it writes locked rows only.
   */
  ghost predicate SessionOk(s: State, w: nat)
    requires w in s.sessions
  {
    var session := s.sessions[w];
    && (session.phase != Waiting ==> session.task.house in s.houseLock && s.houseLock[session.task.house] == w)
    && (Authorizes(session) ==> (session.task.house, session.task.user) in s.members)
    && (forall t | t in session.rows ::
          t in s.rowLock && s.rowLock[t] == w && t in s.subscriptions
          && Live(s.subscriptions[t], session.task.house, session.task.user))
    && (forall t | t in session.rest :: t in session.rows && session.rest[t] == s.subscriptions[t])
    && session.writes.Keys <= session.rows && PhaseFits(session)
  }

  /** Which phases each task goes through. */
  predicate PhaseFits(session: Session) {
    && (session.rows != {} ==> session.phase == Sending || session.phase == Written)
    && (session.task.Revoke? ==> session.writes.Keys <= {session.task.target})
    && match session.phase
       case Authorized => session.task.Dispatch? || session.task.Stream?
       case Prepared => session.task.Dispatch?
       case Snapshotted => session.task.Dispatch?
       case Sending => session.task.Dispatch?
       case Written =>
         !session.task.Dispatch?
         && (session.task.Revoke? ==>
               session.task.target in session.writes && session.writes[session.task.target].revoked
               && session.writes[session.task.target].sealed.None?)
       case _ => true
  }

  predicate HouseHeld(s: State, h: nat) {
    && h in s.houseLock && s.houseLock[h] in s.sessions
    && s.sessions[s.houseLock[h]].task.house == h && s.sessions[s.houseLock[h]].phase != Waiting
  }

  predicate RowHeld(s: State, t: nat) {
    t in s.rowLock && s.rowLock[t] in s.sessions && t in s.sessions[s.rowLock[t]].rows
  }

  ghost predicate LocksOk(s: State) {
    && (forall h | h in s.houseLock :: HouseHeld(s, h))
    && (forall t | t in s.rowLock :: RowHeld(s, t))
  }

  ghost predicate Inv(s: State) {
    LocksOk(s) && forall w | w in s.sessions :: SessionOk(s, w)
  }

  /** Two sessions past Waiting never work on the same house. */
  lemma {:induction false} OneHolderPerHouse(s: State, v: nat, w: nat)
    requires Inv(s) && v in s.sessions && w in s.sessions
    requires s.sessions[v].phase != Waiting && s.sessions[w].phase != Waiting
    requires s.sessions[v].task.house == s.sessions[w].task.house
    ensures v == w
  {
  }

  /** Nothing the other session relies on has changed. */
  ghost predicate SameFor(s: State, s': State, v: nat)
    requires v in s.sessions
  {
    var session := s.sessions[v];
    && v in s'.sessions && s'.sessions[v] == session
    && (session.task.house in s.houseLock && s.houseLock[session.task.house] == v ==>
          session.task.house in s'.houseLock && s'.houseLock[session.task.house] == v)
    && ((session.task.house, session.task.user) in s.members && Authorizes(session) ==>
          (session.task.house, session.task.user) in s'.members)
    && forall t | t in session.rows && t in s.rowLock && s.rowLock[t] == v && t in s.subscriptions ::
         t in s'.rowLock && s'.rowLock[t] == v && t in s'.subscriptions && s'.subscriptions[t] == s.subscriptions[t]
  }

  lemma {:induction false} StaysOk(s: State, s': State, v: nat)
    requires v in s.sessions && SessionOk(s, v) && SameFor(s, s', v)
    ensures SessionOk(s', v)
  {
  }

  lemma {:induction false} AllKeep(s: State, s': State, w: nat)
    requires Inv(s) && LocksOk(s') && s'.sessions.Keys <= s.sessions.Keys + {w}
    requires forall v | v in s.sessions && v != w && v in s'.sessions :: SameFor(s, s', v)
    requires w in s'.sessions ==> SessionOk(s', w)
    ensures Inv(s')
  {
  }

  lemma {:induction false} EndLocks(s: State, w: nat)
    requires LocksOk(s)
    ensures LocksOk(End(s, w))
  {
  }

  lemma {:induction false} PutLocks(s: State, w: nat, session: Session)
    requires LocksOk(s) && w in s.sessions && session.task == s.sessions[w].task && session.phase != Waiting
    requires s.sessions[w].rows <= session.rows
    ensures LocksOk(Put(s, w, session))
  {
  }

  lemma {:induction false} TakeRows(s: State, rows: set<nat>, w: nat)
    requires LocksOk(s) && w in s.sessions && rows <= s.sessions[w].rows
    ensures LocksOk(s.(rowLock := LockRows(s.rowLock, rows, w)))
  {
  }

  lemma {:induction false} TakeHouse(s: State, w: nat)
    requires LocksOk(s) && w in s.sessions && s.sessions[w].phase != Waiting
    ensures LocksOk(s.(houseLock := s.houseLock[s.sessions[w].task.house := w]))
  {
  }

  lemma {:induction false} EndKeeps(s: State, w: nat)
    requires Inv(s)
    ensures Inv(End(s, w))
  {
    hide LocksOk, SessionOk;
    EndLocks(s, w);
    AllKeep(s, End(s, w), w);
  }

  lemma {:induction false} WritesAreOwn(s: State, w: nat, now: Instant, v: nat)
    requires Inv(s) && Enabled(s, Commit(w, now)) && v in s.sessions && v != w
    ensures SameFor(s, End(Writes(s, w, now), w), v)
  {
    CommitterIsPast(s, w, now);
    hide LocksOk, Enabled, Mark;
    assert SessionOk(s, v) && SessionOk(s, w);
    if s.sessions[v].phase != Waiting && s.sessions[v].task.house == s.sessions[w].task.house {
      OneHolderPerHouse(s, v, w);
    }
    hide Inv;
    RowsApart(s, v, w);
    WritesFor(s, w, now, v);
    hide SessionOk, Writes;
    EndFor(Writes(s, w, now), w, v);
    SameForOn(s, Writes(s, w, now), End(Writes(s, w, now), w), v);
  }

  lemma {:induction false} WritesFor(s: State, w: nat, now: Instant, v: nat)
    requires v in s.sessions && w in s.sessions && s.sessions[v].rows !! s.sessions[w].rows
    requires s.sessions[w].writes.Keys <= s.sessions[w].rows
    requires s.sessions[v].phase == Waiting || s.sessions[v].task.house != s.sessions[w].task.house
    ensures SameFor(s, Writes(s, w, now), v) && Writes(s, w, now).sessions == s.sessions
  {
    hide Mark;
  }

  lemma {:induction false} EndFor(s: State, w: nat, v: nat)
    requires v in s.sessions && v != w
    ensures SameFor(s, End(s, w), v)
  {
  }

  lemma {:induction false} SameForOn(a: State, b: State, c: State, v: nat)
    requires v in a.sessions && v in b.sessions && SameFor(a, b, v) && SameFor(b, c, v)
    ensures SameFor(a, c, v)
  {
  }

  lemma {:induction false} CommitterIsPast(s: State, w: nat, now: Instant)
    requires Enabled(s, Commit(w, now))
    ensures w in s.sessions && s.sessions[w].phase != Waiting
  {
  }

  /** Two sessions never have a row in common. */
  lemma {:induction false} RowsApart(s: State, v: nat, w: nat)
    requires v in s.sessions && w in s.sessions && v != w && SessionOk(s, v) && SessionOk(s, w)
    ensures s.sessions[v].rows !! s.sessions[w].rows
  {
  }

  lemma {:induction false} CommitLocks(s: State, w: nat, now: Instant)
    requires LocksOk(s) && w in s.sessions
    ensures LocksOk(End(Writes(s, w, now), w))
  {
    hide LocksOk;
    EndLocks(s, w);
    SameLocks(End(s, w), End(Writes(s, w, now), w));
  }

  lemma {:induction false} CommitKeeps(s: State, w: nat, now: Instant)
    requires Inv(s) && Enabled(s, Commit(w, now))
    ensures Inv(End(Writes(s, w, now), w))
  {
    hide SessionOk, LocksOk, SameFor;
    var s' := End(Writes(s, w, now), w);
    CommitLocks(s, w, now);
    forall v | v in s.sessions && v != w
      ensures SameFor(s, s', v)
    {
      WritesAreOwn(s, w, now, v);
    }
    AllKeep(s, s', w);
  }

  lemma {:induction false} SameLocks(s: State, s': State)
    requires LocksOk(s) && s'.sessions == s.sessions && s'.houseLock == s.houseLock && s'.rowLock == s.rowLock
    ensures LocksOk(s')
  {
  }

  lemma {:induction false} LockHouseKeeps(s: State, w: nat)
    requires Inv(s) && At(s, w, Waiting) && s.sessions[w].task.house !in s.houseLock
    ensures Inv(HouseLocked(s, w))
  {
    hide LocksOk;
    var session := s.sessions[w].(phase := Locked);
    PutLocks(s, w, session);
    TakeHouse(Put(s, w, session), w);
    assert SessionOk(s, w);
    assert SessionOk(HouseLocked(s, w), w);
    hide SessionOk;
    AllKeep(s, HouseLocked(s, w), w);
  }

  lemma {:induction false} CheckMemberKeeps(s: State, w: nat)
    requires Inv(s) && At(s, w, Locked) && (s.sessions[w].task.Dispatch? || s.sessions[w].task.Stream?)
    ensures Inv(MemberChecked(s, w))
  {
    hide LocksOk;
    if (s.sessions[w].task.house, s.sessions[w].task.user) in s.members {
      var session := s.sessions[w].(phase := Authorized);
      assert SessionOk(s, w);
      assert SessionOk(Put(s, w, session), w);
      hide SessionOk;
      PutKeeps(s, w, session);
    } else {
      hide Inv;
      EndKeeps(s, w);
    }
  }

  /** A later phase of the same task: its own invariant is all there is to check. */
  lemma {:induction false} PutKeeps(s: State, w: nat, session: Session)
    requires Inv(s) && w in s.sessions && session.task == s.sessions[w].task && session.rows == s.sessions[w].rows
    requires session.phase != Waiting
    ensures SessionOk(Put(s, w, session), w) ==> Inv(Put(s, w, session))
  {
    hide SessionOk;
    PutLocks(s, w, session);
    hide LocksOk;
    if SessionOk(Put(s, w, session), w) {
      AllKeep(s, Put(s, w, session), w);
    }
  }

  /** Locking rows nobody else has locked: again only its own invariant is left to check. */
  lemma {:induction false} RowsTaken(s: State, w: nat, session: Session)
    requires Inv(s) && w in s.sessions && session.task == s.sessions[w].task && session.phase != Waiting
    requires s.sessions[w].rows == {} && session.rows !! s.rowLock.Keys
    ensures var s' := Put(s, w, session).(rowLock := LockRows(s.rowLock, session.rows, w));
            SessionOk(s', w) ==> Inv(s')
  {
    hide SessionOk;
    var s' := Put(s, w, session).(rowLock := LockRows(s.rowLock, session.rows, w));
    PutLocks(s, w, session);
    TakeRows(Put(s, w, session), session.rows, w);
    hide LocksOk;
    if SessionOk(s', w) {
      AllKeep(s, s', w);
    }
  }

  lemma {:induction false} ReadPreferencesKeeps(s: State, w: nat)
    requires Inv(s) && At(s, w, Authorized) && s.sessions[w].task.Dispatch?
    ensures Inv(PreferencesRead(s, w))
  {
    hide LocksOk;
    PutKeeps(s, w, PreferencesRead(s, w).sessions[w]);
    assert SessionOk(s, w);
  }

  lemma {:induction false} ReadDeliveriesKeeps(s: State, w: nat, now: Instant)
    requires Inv(s) && At(s, w, Prepared) && s.sessions[w].task.Dispatch?
    ensures Inv(DeliveriesRead(s, w, now))
  {
    hide LocksOk, DueRows;
    EndKeeps(s, w);
    if w in DeliveriesRead(s, w, now).sessions {
      PutKeeps(s, w, DeliveriesRead(s, w, now).sessions[w]);
      assert SessionOk(s, w);
    }
  }

  lemma {:induction false} ReadTargetsKeeps(s: State, w: nat)
    requires Inv(s) && At(s, w, Snapshotted) && s.sessions[w].task.Dispatch?
    requires Targets(s, s.sessions[w].task.house, s.sessions[w].task.user) !! s.rowLock.Keys
    ensures Inv(TargetsRead(s, w))
  {
    hide LocksOk;
    TargetsReadOk(s, w);
    var s' := TargetsRead(s, w);
    RowsTaken(s, w, s'.sessions[w]);
  }

  lemma {:induction false} TargetsReadOk(s: State, w: nat)
    requires Inv(s) && At(s, w, Snapshotted) && s.sessions[w].task.Dispatch?
    ensures var s' := TargetsRead(s, w);
            w in s'.sessions && SessionOk(s', w)
  {
    hide LocksOk;
    assert SessionOk(s, w);
  }

  lemma {:induction false} TargetDoneKeeps(s: State, w: nat, t: nat, answer: Answer)
    requires Inv(s) && At(s, w, Sending) && t in s.sessions[w].rest
    ensures Inv(TargetDone(s, w, t, answer))
  {
    hide LocksOk, AfterSend;
    var s' := TargetDone(s, w, t, answer);
    PutKeeps(s, w, s'.sessions[w]);
    assert SessionOk(s, w);
  }

  lemma {:induction false} SendEventsKeeps(s: State, w: nat)
    requires Inv(s) && At(s, w, Authorized) && s.sessions[w].task.Stream?
    ensures (s.sessions[w].task.house, s.sessions[w].task.user) in s.members
    ensures s.sessions[w].task.house in s.houseLock && s.houseLock[s.sessions[w].task.house] == w
    ensures Inv(Put(s, w, s.sessions[w].(phase := Written)))
  {
    hide LocksOk;
    PutKeeps(s, w, s.sessions[w].(phase := Written));
    assert SessionOk(s, w);
  }

  lemma {:induction false} DeleteKeeps(s: State, w: nat, lastAdmin: bool)
    requires Inv(s) && At(s, w, Locked) && s.sessions[w].task.Remove?
    ensures Inv(MemberDeleted(s, w, lastAdmin))
  {
    hide LocksOk;
    EndKeeps(s, w);
    PutKeeps(s, w, s.sessions[w].(phase := Written));
    assert SessionOk(s, w);
  }

  lemma {:induction false} LockSubscriptionKeeps(s: State, w: nat)
    requires Inv(s) && Enabled(s, LockSubscription(w))
    ensures Inv(SubscriptionLocked(s, w))
  {
    hide Inv;
    EndKeeps(s, w);
    var task := s.sessions[w].task;
    if task.target in Targets(s, task.house, task.user) {
      TargetLockedKeeps(s, w);
    }
  }

  lemma {:induction false} TargetLockedKeeps(s: State, w: nat)
    requires Inv(s) && At(s, w, Locked) && s.sessions[w].task.Revoke?
    requires s.sessions[w].task.target in Targets(s, s.sessions[w].task.house, s.sessions[w].task.user)
    requires s.sessions[w].task.target !in s.rowLock
    ensures Inv(SubscriptionLocked(s, w))
  {
    hide LocksOk;
    TargetLockedOk(s, w);
    var s' := SubscriptionLocked(s, w);
    RowsTaken(s, w, s'.sessions[w]);
  }

  lemma {:induction false} TargetLockedOk(s: State, w: nat)
    requires Inv(s) && At(s, w, Locked) && s.sessions[w].task.Revoke?
    requires s.sessions[w].task.target in Targets(s, s.sessions[w].task.house, s.sessions[w].task.user)
    ensures var s' := SubscriptionLocked(s, w);
            w in s'.sessions && SessionOk(s', w)
  {
    hide LocksOk;
    assert SessionOk(s, w);
  }

  lemma {:induction false} BeginKeeps(s: State, w: nat, task: Task, cipher: Cipher)
    requires Inv(s) && w !in s.sessions
    ensures Inv(Put(s, w, Started(task, cipher)))
  {
    hide LocksOk;
    BeginLocks(s, w, task, cipher);
    var s' := Put(s, w, Started(task, cipher));
    assert SessionOk(s', w);
    hide SessionOk;
    AllKeep(s, s', w);
  }

  lemma {:induction false} BeginLocks(s: State, w: nat, task: Task, cipher: Cipher)
    requires LocksOk(s) && w !in s.sessions
    ensures LocksOk(Put(s, w, Started(task, cipher)))
  {
  }

  /** Steps outside the transactions change rows no session relies on: they add, or touch unlocked rows. */
  lemma {:induction false} SharedKeeps(s: State, step: Step)
    requires Inv(s) && Enabled(s, step) && (step.Join? || step.Subscribe? || step.Insert? || step.PutPreferences?)
    ensures Inv(Apply(s, step))
  {
    var s' := Apply(s, step);
    SharedSessions(s, step);
    SameLocks(s, s');
    hide LocksOk;
    forall v | v in s'.sessions
      ensures SessionOk(s', v)
    {
      SharedIsSame(s, step, v);
      hide SessionOk, SameFor, Enabled, Apply;
      StaysOk(s, s', v);
    }
  }

  lemma {:induction false} SharedSessions(s: State, step: Step)
    requires Enabled(s, step) && (step.Join? || step.Subscribe? || step.Insert? || step.PutPreferences?)
    ensures Apply(s, step).sessions == s.sessions
    ensures Apply(s, step).houseLock == s.houseLock && Apply(s, step).rowLock == s.rowLock
  {
  }

  lemma {:induction false} SharedIsSame(s: State, step: Step, v: nat)
    requires Enabled(s, step) && (step.Join? || step.Subscribe? || step.Insert? || step.PutPreferences?)
             && v in s.sessions
    ensures SameFor(s, Apply(s, step), v)
  {
  }

  lemma {:induction false} ApplyKeeps(s: State, step: Step)
    requires Inv(s)
    ensures Inv(Apply(s, step))
  {
    hide Inv, HouseLocked, MemberChecked, PreferencesRead, DeliveriesRead, TargetsRead, TargetDone, MemberDeleted;
    hide SubscriptionLocked, End, Put, Writes, Targets, Wanted;
    if Enabled(s, step) {
      match step
      case Begin(w, task, cipher) => BeginKeeps(s, w, task, cipher);
      case LockHouse(w) => LockHouseKeeps(s, w);
      case CheckMember(w) => CheckMemberKeeps(s, w);
      case ReadPreferences(w) => ReadPreferencesKeeps(s, w);
      case ReadDeliveries(w, now) => ReadDeliveriesKeeps(s, w, now);
      case ReadTargets(w) => ReadTargetsKeeps(s, w);
      case Push(w, t, answer) =>
        if answer.Refused? {
          EndKeeps(s, w);
        } else {
          TargetDoneKeeps(s, w, t, answer);
        }
      case Quarantine(w, t) => TargetDoneKeeps(s, w, t, Answer.Accepted);
      case SendEvents(w) => SendEventsKeeps(s, w);
      case Delete(w, lastAdmin) => DeleteKeeps(s, w, lastAdmin);
      case LockSubscription(w) => LockSubscriptionKeeps(s, w);
      case Commit(w, now) => CommitKeeps(s, w, now);
      case Abort(w) => EndKeeps(s, w);
      case _ => SharedKeeps(s, step);
    }
  }

  lemma {:induction false} Reachable(steps: seq<Step>)
    ensures Inv(Run(steps))
  {
    if steps != [] {
      hide Inv, Apply;
      Reachable(steps[..|steps| - 1]);
      ApplyKeeps(Run(steps[..|steps| - 1]), steps[|steps| - 1]);
    }
  }

  // ---- committed rows

  predicate SameRows(s: State, u: State) {
    && u.members == s.members && u.preferences == s.preferences
    && u.deliveries == s.deliveries && u.subscriptions == s.subscriptions
  }

  /** No statement of a transaction changes a committed row before its commit. */
  lemma {:induction false} OnlyCommitsWrite(s: State, step: Step, w: nat)
    requires OwnStep(step, w) && Enabled(s, step) && !step.Commit?
    ensures SameRows(s, Apply(s, step))
  {
    match step
    case ReadDeliveries(_, now) => ReadingWritesNothing(s, w, now);
    case ReadTargets(_) => ReadingWritesNothing(s, w, 0);
    case LockSubscription(_) => ReadingWritesNothing(s, w, 0);
    case Push(_, t, answer) => PushingWritesNothing(s, w, t, answer);
    case Quarantine(_, t) => PushingWritesNothing(s, w, t, Answer.Accepted);
    case Begin(_, _, _) =>
    case Delete(_, lastAdmin) => PhaseWritesNothing(s, w, lastAdmin);
    case _ => PhaseWritesNothing(s, w, false);
  }

  lemma {:induction false} ReadingWritesNothing(s: State, w: nat, now: Instant)
    requires w in s.sessions
    ensures s.sessions[w].task.Dispatch? ==> SameRows(s, DeliveriesRead(s, w, now))
    ensures SameRows(s, TargetsRead(s, w))
    ensures s.sessions[w].task.Revoke? ==> SameRows(s, SubscriptionLocked(s, w))
  {
    hide DueRows, LockRows, Free;
  }

  lemma {:induction false} PushingWritesNothing(s: State, w: nat, t: nat, answer: Answer)
    requires w in s.sessions && t in s.sessions[w].rest
    ensures SameRows(s, TargetDone(s, w, t, answer)) && SameRows(s, End(s, w))
  {
    hide AfterSend, Free;
  }

  lemma {:induction false} PhaseWritesNothing(s: State, w: nat, lastAdmin: bool)
    requires w in s.sessions
    ensures SameRows(s, HouseLocked(s, w)) && SameRows(s, MemberChecked(s, w)) && SameRows(s, PreferencesRead(s, w))
    ensures SameRows(s, MemberDeleted(s, w, lastAdmin)) && SameRows(s, Put(s, w, s.sessions[w].(phase := Written)))
    ensures SameRows(s, End(s, w))
  {
    hide Free, PreferencesOf;
  }

  // ---- what every run guarantees

  /** The step sends to the user: a push to one of their targets, or their event stream. */
  predicate SendsTo(s: State, step: Step, house: nat, user: nat) {
    && (step.Push? || step.SendEvents?) && Enabled(s, step)
    && s.sessions[step.w].task.house == house && s.sessions[step.w].task.user == user
  }

  /**
   Whatever ran in between, at the moment of every send the session holds the house, the user is a
   member, and a pushed target is live and readable, with the secret the session read.
   */
  lemma {:induction false} EverySendIsAuthorized(steps: seq<Step>, step: Step, house: nat, user: nat)
    requires SendsTo(Run(steps), step, house, user)
    ensures var s := Run(steps);
            && (house, user) in s.members && house in s.houseLock && s.houseLock[house] == step.w
            && (step.Push? ==>
                  && step.target in s.subscriptions && Live(s.subscriptions[step.target], house, user)
                  && Readable(s.sessions[step.w].cipher, s.subscriptions[step.target])
                  && s.sessions[step.w].rest[step.target] == s.subscriptions[step.target])
  {
    Reachable(steps);
    hide Apply, LocksOk;
    assert SessionOk(Run(steps), step.w);
  }

  /** The step commits the removal of the user. */
  predicate Removes(s: State, step: Step, house: nat, user: nat) {
    step.Commit? && Enabled(s, step) && s.sessions[step.w].task == Remove(house, user)
  }

  lemma {:induction false} StaysRemoved(steps: seq<Step>, i: nat, house: nat, user: nat)
    requires i < |steps| && Removes(Run(steps[..i]), steps[i], house, user)
    requires forall k | i < k < |steps| :: steps[k] != Step.Join(house, user)
    ensures (house, user) !in Run(steps).members
  {
    var n := |steps| - 1;
    if i < n {
      assert steps[..n][..i] == steps[..i];
      StaysRemoved(steps[..n], i, house, user);
      hide Run;
      OnlyJoiningAdds(Run(steps[..n]), steps[n], house, user);
    }
  }

  lemma {:induction false} OnlyJoiningAdds(s: State, step: Step, house: nat, user: nat)
    requires (house, user) !in s.members && step != Step.Join(house, user)
    ensures (house, user) !in Apply(s, step).members
  {
    if Enabled(s, step) && !step.Commit? && IsOwn(step) {
      OnlyCommitsWrite(s, step, step.w);
      hide Apply;
    } else if step.Commit? && Enabled(s, step) {
      hide Mark, Wanted;
    }
  }

  /** Once RemoveMember has committed, nothing more is sent to that user until they join again. */
  lemma {:induction false} RemovalEndsSending(steps: seq<Step>, i: nat, step: Step, house: nat, user: nat)
    requires i < |steps| && Removes(Run(steps[..i]), steps[i], house, user)
    requires forall k | i < k < |steps| :: steps[k] != Step.Join(house, user)
    ensures !SendsTo(Run(steps), step, house, user)
  {
    StaysRemoved(steps, i, house, user);
    if SendsTo(Run(steps), step, house, user) {
      EverySendIsAuthorized(steps, step, house, user);
    }
  }

  predicate RevokesTarget(s: State, step: Step, target: nat) {
    step.Commit? && Enabled(s, step) && s.sessions[step.w].task.Revoke? && s.sessions[step.w].task.target == target
  }

  predicate IsRevoked(s: State, target: nat) {
    target in s.subscriptions && s.subscriptions[target].revoked
  }

  lemma {:induction false} StaysRevoked(steps: seq<Step>, i: nat, target: nat)
    requires i < |steps| && RevokesTarget(Run(steps[..i]), steps[i], target)
    requires forall k | i < k < |steps| :: steps[k].Subscribe? ==> steps[k].target != target
    ensures IsRevoked(Run(steps), target)
  {
    hide Inv, Apply, RevokesTarget, IsRevoked;
    var n := |steps| - 1;
    Reachable(steps[..n]);
    if i < n {
      assert steps[..n][..i] == steps[..i];
      StaysRevoked(steps[..n], i, target);
      hide Run;
      OnlySubscribingRevives(Run(steps[..n]), steps[n], target);
    } else {
      CommitRevokes(Run(steps[..n]), steps[n], target);
    }
  }

  lemma {:induction false} CommitRevokes(s: State, step: Step, target: nat)
    requires Inv(s) && RevokesTarget(s, step, target)
    ensures IsRevoked(Apply(s, step), target)
  {
    hide LocksOk;
    assert SessionOk(s, step.w);
  }

  /** A commit writes only rows its session locked while they were live. */
  lemma {:induction false} OnlySubscribingRevives(s: State, step: Step, target: nat)
    requires Inv(s) && IsRevoked(s, target) && !(step.Subscribe? && step.target == target)
    ensures IsRevoked(Apply(s, step), target)
  {
    if Enabled(s, step) && IsOwn(step) {
      if step.Commit? {
        hide LocksOk, Wanted, PhaseFits;
        assert SessionOk(s, step.w);
        hide SessionOk;
        CommitKeepsRevoked(s, step.w, step.now, target);
      } else {
        hide Inv;
        OnlyCommitsWrite(s, step, step.w);
        hide Apply;
      }
    }
  }

  lemma {:induction false} CommitKeepsRevoked(s: State, w: nat, now: Instant, target: nat)
    requires w in s.sessions && target !in s.sessions[w].writes && IsRevoked(s, target)
    ensures IsRevoked(End(Writes(s, w, now), w), target)
  {
    hide Mark, Free;
  }

  /** Once RevokeSubscription has committed, the target gets no push until it is subscribed again. */
  lemma {:induction false} RevocationEndsPushes(steps: seq<Step>, i: nat, step: Step)
    requires step.Push? && i < |steps| && RevokesTarget(Run(steps[..i]), steps[i], step.target)
    requires forall k | i < k < |steps| :: steps[k].Subscribe? ==> steps[k].target != step.target
    ensures !Enabled(Run(steps), step)
  {
    StaysRevoked(steps, i, step.target);
    if Enabled(Run(steps), step) {
      var task := Run(steps).sessions[step.w].task;
      EverySendIsAuthorized(steps, step, task.house, task.user);
    }
  }

  // ---- nobody waits for ever

  /** A row of the house is locked only by the session that holds the house, and only once it has read its rows. */
  lemma {:induction false} RowsFollowHouses(s: State, w: nat, target: nat, user: nat)
    requires Inv(s) && w in s.sessions && !s.sessions[w].phase.Waiting?
    requires !s.sessions[w].phase.Sending? && !s.sessions[w].phase.Written?
    requires target in Targets(s, s.sessions[w].task.house, user)
    ensures target !in s.rowLock
  {
    if target in s.rowLock {
      var v := s.rowLock[target];
      assert SessionOk(s, v) && SessionOk(s, w);
      OneHolderPerHouse(s, v, w);
    }
  }

  /** The statement a session has to run next. */
  predicate Continues(s: State, session: Session, step: Step) {
    match session.phase
    case Waiting => step.LockHouse?
    case Locked =>
      (match session.task
       case Remove(_, _) => step.Delete?
       case Revoke(_, _, _) => step.LockSubscription?
       case _ => step.CheckMember?)
    case Authorized => if session.task.Stream? then step.SendEvents? else step.ReadPreferences?
    case Prepared => step.ReadDeliveries?
    case Snapshotted => if Wanted(s, session) == {} then step.Commit? else step.ReadTargets?
    case Sending => if session.rest == map[] then step.Commit? else step.Push? || step.Quarantine?
    case Written => step.Commit?
  }

  /** The holder of a house lock is never blocked: whatever locks others hold, its next statement can run. */
  lemma {:induction false} HoldersAreNeverBlocked(steps: seq<Step>, w: nat, now: Instant) returns (step: Step)
    requires w in Run(steps).sessions && Run(steps).sessions[w].phase != Waiting
    ensures Enabled(Run(steps), step) && Continues(Run(steps), Run(steps).sessions[w], step) && OwnStep(step, w)
  {
    Reachable(steps);
    hide Apply, Run, Enabled, Continues;
    PastWaiting(Run(steps), w);
    step := NextStatement(Run(steps), w, now);
  }

  lemma {:induction false} PastWaiting(s: State, w: nat)
    requires Inv(s) && w in s.sessions && s.sessions[w].phase != Waiting
    ensures PhaseFits(s.sessions[w])
    ensures !s.sessions[w].phase.Sending? && !s.sessions[w].phase.Written? ==>
      Targets(s, s.sessions[w].task.house, s.sessions[w].task.user) !! s.rowLock.Keys
  {
    hide LocksOk, Targets;
    assert SessionOk(s, w);
    if !s.sessions[w].phase.Sending? && !s.sessions[w].phase.Written? {
      TargetsAreFree(s, w);
    }
  }

  lemma {:induction false} NextStatement(s: State, w: nat, now: Instant) returns (step: Step)
    requires w in s.sessions && s.sessions[w].phase != Waiting && PhaseFits(s.sessions[w])
    requires !s.sessions[w].phase.Sending? && !s.sessions[w].phase.Written? ==>
      Targets(s, s.sessions[w].task.house, s.sessions[w].task.user) !! s.rowLock.Keys
    ensures Enabled(s, step) && Continues(s, s.sessions[w], step) && OwnStep(step, w)
  {
    hide Targets, Wanted;
    var session := s.sessions[w];
    match session.phase
    case Locked =>
      step := if session.task.Remove? then Delete(w, false)
              else if session.task.Revoke? then LockSubscription(w) else CheckMember(w);
    case Authorized => step := if session.task.Stream? then SendEvents(w) else ReadPreferences(w);
    case Prepared => step := ReadDeliveries(w, now);
    case Snapshotted => step := if Wanted(s, session) == {} then Commit(w, now) else ReadTargets(w);
    case Sending =>
      if t :| t in session.rest {
        step := if Readable(session.cipher, session.rest[t]) then Push(w, t, Answer.Accepted) else Quarantine(w, t);
      } else {
        step := Commit(w, now);
      }
    case Written => step := Commit(w, now);
  }

  lemma {:induction false} TargetsAreFree(s: State, w: nat)
    requires Inv(s) && w in s.sessions && !s.sessions[w].phase.Waiting?
    requires !s.sessions[w].phase.Sending? && !s.sessions[w].phase.Written?
    ensures Targets(s, s.sessions[w].task.house, s.sessions[w].task.user) !! s.rowLock.Keys
  {
    hide Inv;
    forall t | t in Targets(s, s.sessions[w].task.house, s.sessions[w].task.user)
      ensures t !in s.rowLock
    {
      RowsFollowHouses(s, w, t, s.sessions[w].task.user);
    }
  }

  /** A statement of some transaction, as opposed to a step from outside. */
  predicate IsOwn(step: Step) {
    !step.Join? && !step.Subscribe? && !step.Insert? && !step.PutPreferences?
  }

  predicate OwnStep(step: Step, w: nat) {
    IsOwn(step) && step.w == w
  }

  function Rank(phase: Phase): nat {
    match phase
    case Waiting => 6
    case Locked => 5
    case Authorized => 4
    case Prepared => 3
    case Snapshotted => 2
    case Sending => 1
    case Written => 0
  }

  /** The session took a step: it is gone, or in a later phase, or has one target less to push. */
  predicate Shrinks(before: State, after: State, w: nat)
    requires w in before.sessions
  {
    w !in after.sessions || Rank(after.sessions[w].phase) < Rank(before.sessions[w].phase)
    || (after.sessions[w].phase == before.sessions[w].phase && |after.sessions[w].rest| < |before.sessions[w].rest|)
  }

  lemma {:induction false} TargetDoneShrinks(s: State, w: nat, t: nat, answer: Answer)
    requires At(s, w, Sending) && t in s.sessions[w].rest
    ensures Shrinks(s, TargetDone(s, w, t, answer), w)
  {
    var rest := s.sessions[w].rest;
    assert (rest - {t}).Keys == rest.Keys - {t};
  }

  lemma {:induction false} OtherSessionsStay(s: State, step: Step, w: nat)
    requires w in s.sessions && Enabled(s, step) && !OwnStep(step, w)
    ensures w in Apply(s, step).sessions && Apply(s, step).sessions[w] == s.sessions[w]
  {
    match step
    case Commit(v, now) => CommitLeaves(s, v, now, w);
    case ReadDeliveries(v, now) => ReadingLeaves(s, v, now, w);
    case ReadTargets(v) => ReadingLeaves(s, v, 0, w);
    case LockSubscription(v) => ReadingLeaves(s, v, 0, w);
    case Push(v, t, answer) => PushingLeaves(s, v, t, answer, w);
    case Quarantine(v, t) => PushingLeaves(s, v, t, Answer.Accepted, w);
    case Delete(v, lastAdmin) => PhaseLeaves(s, v, lastAdmin, w);
    case LockHouse(v) => PhaseLeaves(s, v, false, w);
    case CheckMember(v) => PhaseLeaves(s, v, false, w);
    case ReadPreferences(v) => PhaseLeaves(s, v, false, w);
    case SendEvents(v) => PhaseLeaves(s, v, false, w);
    case Abort(v) => PhaseLeaves(s, v, false, w);
    case _ =>
      hide Targets, Wanted, PreferencesOf, Readable, Valid, TargetDone, Writes, HouseLocked, MemberChecked;
      hide PreferencesRead, DeliveriesRead, TargetsRead, MemberDeleted, SubscriptionLocked, End;
  }

  lemma {:induction false} PhaseLeaves(s: State, v: nat, lastAdmin: bool, w: nat)
    requires v in s.sessions && w in s.sessions && v != w
    ensures w in HouseLocked(s, v).sessions && HouseLocked(s, v).sessions[w] == s.sessions[w]
    ensures w in MemberChecked(s, v).sessions && MemberChecked(s, v).sessions[w] == s.sessions[w]
    ensures w in PreferencesRead(s, v).sessions && PreferencesRead(s, v).sessions[w] == s.sessions[w]
    ensures w in MemberDeleted(s, v, lastAdmin).sessions && MemberDeleted(s, v, lastAdmin).sessions[w] == s.sessions[w]
    ensures var sent := Put(s, v, s.sessions[v].(phase := Written)).sessions; w in sent && sent[w] == s.sessions[w]
    ensures w in End(s, v).sessions && End(s, v).sessions[w] == s.sessions[w]
  {
    hide PreferencesOf, Free;
  }

  lemma {:induction false} ReadingLeaves(s: State, v: nat, now: Instant, w: nat)
    requires v in s.sessions && w in s.sessions && v != w
    ensures s.sessions[v].task.Dispatch? ==>
      w in DeliveriesRead(s, v, now).sessions && DeliveriesRead(s, v, now).sessions[w] == s.sessions[w]
    ensures w in TargetsRead(s, v).sessions && TargetsRead(s, v).sessions[w] == s.sessions[w]
    ensures s.sessions[v].task.Revoke? ==>
      w in SubscriptionLocked(s, v).sessions && SubscriptionLocked(s, v).sessions[w] == s.sessions[w]
  {
    hide DueRows, LockRows;
  }

  lemma {:induction false} PushingLeaves(s: State, v: nat, t: nat, answer: Answer, w: nat)
    requires v in s.sessions && w in s.sessions && v != w && t in s.sessions[v].rest
    ensures w in TargetDone(s, v, t, answer).sessions && TargetDone(s, v, t, answer).sessions[w] == s.sessions[w]
    ensures w in End(s, v).sessions && End(s, v).sessions[w] == s.sessions[w]
  {
    hide AfterSend;
  }

  lemma {:induction false} CommitLeaves(s: State, v: nat, now: Instant, w: nat)
    requires v in s.sessions && w in s.sessions && v != w
    ensures w in End(Writes(s, v, now), v).sessions && End(Writes(s, v, now), v).sessions[w] == s.sessions[w]
  {
    hide Mark;
  }

  lemma {:induction false} OwnStepShrinks(s: State, step: Step, w: nat)
    requires OwnStep(step, w) && w in s.sessions && Enabled(s, step)
    ensures Shrinks(s, Apply(s, step), w)
  {
    match step
    case Quarantine(_, t) => TargetDoneShrinks(s, w, t, Answer.Accepted);
    case Push(_, t, answer) =>
      EndShrinks(s, w);
      TargetDoneShrinks(s, w, t, answer);
    case Commit(_, now) => CommitShrinks(s, w, now);
    case ReadDeliveries(_, now) => ReadingShrinks(s, w, now);
    case ReadTargets(_) => ReadingShrinks(s, w, 0);
    case LockSubscription(_) => ReadingShrinks(s, w, 0);
    case Begin(_, _, _) =>
    case Delete(_, lastAdmin) => PhaseShrinks(s, w, lastAdmin);
    case _ => PhaseShrinks(s, w, false);
  }

  lemma {:induction false} ReadingShrinks(s: State, w: nat, now: Instant)
    requires w in s.sessions
    ensures At(s, w, Prepared) && s.sessions[w].task.Dispatch? ==> Shrinks(s, DeliveriesRead(s, w, now), w)
    ensures At(s, w, Snapshotted) ==> Shrinks(s, TargetsRead(s, w), w)
    ensures At(s, w, Locked) && s.sessions[w].task.Revoke? ==> Shrinks(s, SubscriptionLocked(s, w), w)
  {
    hide DueRows, LockRows, Free;
  }

  lemma {:induction false} PhaseShrinks(s: State, w: nat, lastAdmin: bool)
    requires w in s.sessions
    ensures At(s, w, Waiting) ==> Shrinks(s, HouseLocked(s, w), w)
    ensures At(s, w, Locked) ==> Shrinks(s, MemberChecked(s, w), w) && Shrinks(s, MemberDeleted(s, w, lastAdmin), w)
    ensures At(s, w, Authorized) ==> Shrinks(s, PreferencesRead(s, w), w)
    ensures At(s, w, Authorized) ==> Shrinks(s, Put(s, w, s.sessions[w].(phase := Written)), w)
    ensures Shrinks(s, End(s, w), w)
  {
    hide Free, PreferencesOf;
  }

  lemma {:induction false} EndShrinks(s: State, w: nat)
    requires w in s.sessions
    ensures Shrinks(s, End(s, w), w)
  {
  }

  lemma {:induction false} CommitShrinks(s: State, w: nat, now: Instant)
    requires w in s.sessions
    ensures Shrinks(s, End(Writes(s, w, now), w), w)
  {
    hide Mark;
  }

  /**
   A session ends after at most six statements and one push per target it read: its own steps
   shrink what it has left, and nobody else's step touches it.
   */
  lemma {:induction false} EverySessionFinishes(steps: seq<Step>, step: Step, w: nat)
    requires w in Run(steps).sessions && Enabled(Run(steps), step)
    ensures var s, s' := Run(steps), Apply(Run(steps), step);
            if OwnStep(step, w) then Shrinks(s, s', w) else w in s'.sessions && s'.sessions[w] == s.sessions[w]
  {
    hide *;
    if OwnStep(step, w) {
      OwnStepShrinks(Run(steps), step, w);
    } else {
      OtherSessionsStay(Run(steps), step, w);
    }
  }
}
