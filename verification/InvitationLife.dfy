/**
 The life of invitations, over every interleaving of house and invitation
 transactions with the workers of the job queue.
 */
module InvitationLife {
  import opened Basics
  import opened JobQueue
  import opened Invitations
  import opened InvitationColumns
  import W = Worker

  /**
   `note` names the message that carries the link of each invitation and `sealed` the
   material it was created with.
   */
  datatype System = System(
    rows: Rows, workers: map<nat, W.Local>, history: map<nat, seq<W.Attempt>>,
    note: map<nat, nat>, sealed: map<nat, Option<string>>)

  datatype Step =
    | Queue(step: W.Step)
    | Found(house: nat, user: nat)
    | ChangeRole(house: nat, user: nat, role: Role)
    | Remove(house: nat, user: nat)
    | List(house: nat, now: Instant)
    | Create(request: Request, ids: Ids, now: Instant)
    | Revoke(house: nat, id: nat, ids: Ids, now: Instant)
    | Accept(id: nat, token: nat, actor: nat, email: string, ids: Ids, now: Instant)
    | Check(id: nat, now: Instant)

  const INITIAL := System(Rows(Tables(map[], map[]), {}, map[], map[]), map[], map[], map[], map[])

  function Core(s: System): W.System {
    W.System(s.rows.tables, s.workers, s.history)
  }

  /** The other producers never write invitation messages; redaction is left to this module's steps. */
  predicate QueueStepAllowed(q: W.Step) {
    match q
    case Enqueue(_, _, key, payload, _, _, _) => !key.InvitationKey? && !payload.InvitationNote?
    case RedactKey(_) => false
    case _ => true
  }

  /** Committing a transaction that may have inserted one job. */
  function Committed(s: System, result: Result<Rows, InviteError>, job: nat): System {
    match result
    case Failure(_) => s
    case Success(r) =>
      s.(rows := r, history := if job in r.tables.jobs && job !in s.history then s.history[job := []] else s.history)
  }

  function Apply(s: System, step: Step): System {
    match step
    case Queue(q) =>
      if QueueStepAllowed(q) then
        var core := W.Apply(Core(s), q);
        s.(rows := s.rows.(tables := core.tables), workers := core.workers, history := core.history)
      else s
    case Found(house, user) => Committed(s, CreateWithAdmin(s.rows, house, user), 0)
    case ChangeRole(house, user, role) => Committed(s, UpdateMemberRole(s.rows, house, user, role), 0)
    case Remove(house, user) => Committed(s, RemoveMember(s.rows, house, user), 0)
    case List(house, now) => s.(rows := ExpirePending(s.rows, house, now))
    case Create(q, ids, now) =>
      var result := CreateInvitation(s.rows, q, ids, now);
      if result.Success? then
        Committed(s, result, ids.job).(note := s.note[q.id := ids.message], sealed := s.sealed[q.id := q.material])
      else s
    case Revoke(house, id, ids, now) => Committed(s, RevokeInvitation(s.rows, house, id, ids, now), ids.job)
    case Accept(id, token, actor, email, ids, now) =>
      Committed(s, AcceptInvitation(s.rows, id, token, actor, email, ids, now), ids.job)
    case Check(id, now) => s.(rows := CheckDelivery(s.rows, id, now).0)
  }

  function Run(steps: seq<Step>): System {
    if steps == [] then INITIAL else Apply(Run(steps[..|steps| - 1]), steps[|steps| - 1])
  }

  // ---- the invariant

  predicate BothPending(s: System, i: nat) {
    && i in s.rows.invitations && i in s.note && s.note[i] in s.rows.tables.messages
    && s.rows.invitations[i].status == PendingInvite && s.rows.tables.messages[s.note[i]].status == Pending
  }

  /** The message of an invitation carries exactly its sealed link while both are pending, and nothing after. */
  predicate NoteOk(s: System, i: nat) {
    && i in s.rows.invitations && i in s.note && i in s.sealed && s.note[i] in s.rows.tables.messages
    && s.rows.tables.messages[s.note[i]].key == InvitationKey(i, Created)
    && s.rows.tables.messages[s.note[i]].payload
       == InvitationNote(i, s.rows.invitations[i].house, if BothPending(s, i) then s.sealed[i] else None)
  }

  /** Only the message of an existing invitation can carry a link at all. */
  predicate MessageOk(m: Message, invitations: map<nat, Invitation>) {
    && (m.key.InvitationKey? <==> m.payload.InvitationNote?)
    && (m.key.InvitationKey? && m.key.kind == Created ==> m.key.invitation in invitations)
    && (m.key.InvitationKey? && m.key.kind != Created ==> m.payload.delivery.None?)
  }

  ghost predicate NotesOk(s: System) {
    && (forall i | i in s.rows.invitations :: NoteOk(s, i))
    && (forall m | m in s.rows.tables.messages :: MessageOk(s.rows.tables.messages[m], s.rows.invitations))
  }

  predicate InvitationOk(i: Invitation) {
    && (i.status == AcceptedInvite <==> i.acceptedAt.Some?) && (i.status == RevokedInvite <==> i.revokedAt.Some?)
    && (i.acceptedAt.Some? ==> i.acceptedAt.value <= i.expiresAt && i.acceptedBy.Some?)
  }

  predicate Clash(a: Invitation, b: Invitation) {
    || a.token == b.token
    || (a.status == PendingInvite && b.status == PendingInvite && a.house == b.house && a.email == b.email)
  }

  ghost predicate InvitationsOk(invitations: map<nat, Invitation>) {
    && (forall i | i in invitations :: InvitationOk(invitations[i]))
    && (forall i, j | i in invitations && j in invitations && i != j :: !Clash(invitations[i], invitations[j]))
  }

  ghost predicate HousesOk(r: Rows) {
    forall h | h in r.houses :: Admins(r, h) != {}
  }

  ghost predicate Inv(s: System) {
    W.Inv(Core(s)) && NotesOk(s) && InvitationsOk(s.rows.invitations) && HousesOk(s.rows)
  }

  // ---- queue steps

  /** A queue step leaves a message's link alone unless it finishes the message, and then drops it. */
  lemma {:induction false} QueueMessageEffect(c: W.System, q: W.Step, m: nat)
    requires W.Inv(c) && QueueStepAllowed(q) && m in c.tables.messages
    ensures var u := W.Apply(c, q).tables.messages;
            && m in u && u[m].key == c.tables.messages[m].key
            && (|| (u[m].payload == c.tables.messages[m].payload && u[m].status == c.tables.messages[m].status)
                || (u[m].payload == WithoutMaterial(c.tables.messages[m].payload) && u[m].status != Pending))
  {
    hide W.JobsOk, W.Linked, W.WorkersOk, W.TablesGrow, W.HistoryGrows;
    if q.Settle? && W.CanSettle(c, q.worker, q.call, q.now)
        && W.Perform(c.tables, c.workers[q.worker].snap, q.call, q.now).Success? {
      W.SettledTables(c, q.worker, q.call, q.now);
      W.SeenStatus(c.tables, c.workers[q.worker].snap.id);
    }
  }

  lemma {:induction false} QueueKeepsNotes(s: System, q: W.Step)
    requires Inv(s) && QueueStepAllowed(q)
    ensures NotesOk(Apply(s, Queue(q)))
  {
    hide W.Inv, InvitationsOk, HousesOk, W.Apply;
    var s' := Apply(s, Queue(q));
    forall i | i in s'.rows.invitations
      ensures NoteOk(s', i)
    {
      assert NoteOk(s, i);
      QueueMessageEffect(Core(s), q, s.note[i]);
    }
    forall m | m in s'.rows.tables.messages
      ensures MessageOk(s'.rows.tables.messages[m], s'.rows.invitations)
    {
      if m in s.rows.tables.messages {
        assert MessageOk(s.rows.tables.messages[m], s.rows.invitations);
        QueueMessageEffect(Core(s), q, m);
      } else {
        W.OnlyEnqueueAdds(Core(s), q, m);
      }
    }
  }

  lemma {:induction false} QueueKeeps(s: System, q: W.Step)
    requires Inv(s) && QueueStepAllowed(q)
    ensures Inv(Apply(s, Queue(q)))
  {
    hide W.Inv, InvitationsOk, NotesOk, W.Apply, W.TablesGrow, W.HistoryGrows;
    QueueKeepsNotes(s, q);
    W.ApplyKeeps(Core(s), q);
    assert Core(Apply(s, Queue(q))) == W.Apply(Core(s), q);
    HousesFrame(s.rows, Apply(s, Queue(q)).rows);
  }

  lemma {:induction false} HousesFrame(r: Rows, r': Rows)
    requires HousesOk(r) && r'.houses == r.houses && r'.members == r.members
    ensures HousesOk(r')
  {
  }

  // ---- invitations that stop being pending, with their links cleared

  /** The listed invitations change status but nothing that identifies them; the others stay. */
  predicate Retires(before: map<nat, Invitation>, after: map<nat, Invitation>, ids: set<nat>) {
    && after.Keys == before.Keys && ids <= before.Keys
    && forall i | i in before ::
         if i !in ids then after[i] == before[i]
         else before[i].status == PendingInvite && after[i].status != PendingInvite && InvitationOk(after[i])
              && after[i].house == before[i].house && after[i].token == before[i].token
              && after[i].email == before[i].email && after[i].expiresAt == before[i].expiresAt
  }

  lemma {:induction false} RedactAllKeepsCore(c: W.System, ids: set<nat>)
    requires W.Inv(c)
    ensures W.Inv(c.(tables := c.tables.(messages := RedactAll(c.tables.messages, ids))))
  {
    hide W.JobOk, W.LocalOk;
    var c' := c.(tables := c.tables.(messages := RedactAll(c.tables.messages, ids)));
    RedactAllGrows(c.tables, ids);
    W.WorkersStayOk(c, c');
  }

  lemma {:induction false} RedactAllGrows(t: Tables, ids: set<nat>)
    requires W.Linked(t)
    ensures var u := t.(messages := RedactAll(t.messages, ids)); W.Linked(u) && W.TablesGrow(t, u)
  {
    W.LinkedAfterUpdate(t, t.(messages := RedactAll(t.messages, ids)));
  }

  lemma {:induction false} RetireKeepsNotes(s: System, s': System, ids: set<nat>)
    requires NotesOk(s) && Retires(s.rows.invitations, s'.rows.invitations, ids)
    requires s'.rows.tables.messages == RedactAll(s.rows.tables.messages, ids) && s'.note == s.note
    requires s'.sealed == s.sealed
    ensures NotesOk(s')
  {
    forall i | i in s'.rows.invitations
      ensures NoteOk(s', i)
    {
      assert NoteOk(s, i);
    }
    forall m | m in s'.rows.tables.messages
      ensures MessageOk(s'.rows.tables.messages[m], s'.rows.invitations)
    {
      assert MessageOk(s.rows.tables.messages[m], s.rows.invitations);
    }
  }

  lemma {:induction false} RetireKeepsInvitations(before: map<nat, Invitation>, after: map<nat, Invitation>,
                                                  ids: set<nat>)
    requires InvitationsOk(before) && Retires(before, after, ids)
    ensures InvitationsOk(after)
  {
  }

  lemma {:induction false} RetireKeeps(s: System, r': Rows, ids: set<nat>)
    requires Inv(s) && Retires(s.rows.invitations, r'.invitations, ids)
    requires r'.tables == s.rows.tables.(messages := RedactAll(s.rows.tables.messages, ids))
    requires HousesOk(r')
    ensures Inv(s.(rows := r'))
  {
    hide W.Inv, NotesOk, InvitationsOk, Retires, HousesOk;
    RedactAllKeepsCore(Core(s), ids);
    RetireKeepsNotes(s, s.(rows := r'), ids);
    RetireKeepsInvitations(s.rows.invitations, r'.invitations, ids);
    assert Core(s.(rows := r')) == Core(s).(tables := r'.tables);
  }

  lemma {:induction false} ExpireKeeps(s: System, ids: set<nat>)
    requires Inv(s) && ids <= s.rows.invitations.Keys
             && forall i | i in ids :: s.rows.invitations[i].status == PendingInvite
    ensures Inv(s.(rows := ExpireAll(s.rows, ids)))
  {
    hide W.Inv, NotesOk;
    assert Retires(s.rows.invitations, ExpireAll(s.rows, ids).invitations, ids);
    HousesFrame(s.rows, ExpireAll(s.rows, ids));
    RetireKeeps(s, ExpireAll(s.rows, ids), ids);
  }

  // ---- queued notes about a change

  function WithJob(s: System, invitation: nat, kind: NoteKind, house: nat, material: Option<string>, ids: Ids,
                   now: Instant): System {
    var core := W.AddJob(Core(s), ids.job, ids.message, InvitationKey(invitation, kind),
                         InvitationNote(invitation, house, material), now, MAX_ATTEMPTS, now);
    s.(rows := s.rows.(tables := core.tables), history := core.history)
  }

  lemma {:induction false} AddNoteKeeps(s: System, invitation: nat, kind: NoteKind, house: nat, ids: Ids, now: Instant)
    requires Inv(s) && kind != Created
    requires CanInsert(s.rows.tables, ids.job, ids.message, InvitationKey(invitation, kind))
    ensures Inv(WithJob(s, invitation, kind, house, None, ids, now))
  {
    hide W.Inv, InvitationsOk, W.TablesGrow, W.HistoryGrows;
    var s' := WithJob(s, invitation, kind, house, None, ids, now);
    W.EnqueueKeeps(Core(s), ids.job, ids.message, InvitationKey(invitation, kind),
                   InvitationNote(invitation, house, None), now, MAX_ATTEMPTS, now);
    assert Core(s') == W.AddJob(Core(s), ids.job, ids.message, InvitationKey(invitation, kind),
                                InvitationNote(invitation, house, None), now, MAX_ATTEMPTS, now);
    forall i | i in s'.rows.invitations
      ensures NoteOk(s', i)
    {
      assert NoteOk(s, i);
    }
    HousesFrame(s.rows, s'.rows);
  }

  lemma {:induction false} SettledKeeps(s: System, members: map<(nat, nat), Role>, id: nat, after: Invitation,
                                        kind: NoteKind, ids: Ids, now: Instant)
    requires Inv(s) && id in s.rows.invitations && kind != Created
    requires Retires(s.rows.invitations, s.rows.invitations[id := after], {id})
    requires HousesOk(s.rows.(members := members))
    ensures Inv(Committed(s, Settled(s.rows.(members := members), id, after, kind, ids, now), ids.job))
  {
    hide W.Inv, NotesOk, InvitationsOk, Retires, HousesOk, Inv;
    var r := s.rows.(members := members, invitations := s.rows.invitations[id := after],
                     tables := s.rows.tables.(messages := RedactAll(s.rows.tables.messages, {id})));
    assert HousesOk(r) by {
      HousesFrame(s.rows.(members := members), r);
    }
    RetireKeeps(s, r, {id});
    var retired := s.(rows := r);
    if CanInsert(r.tables, ids.job, ids.message, InvitationKey(id, kind)) {
      AddNoteKeeps(retired, id, kind, after.house, ids, now);
      JobWasNew(s, ids.job);
      assert Committed(s, Settled(s.rows.(members := members), id, after, kind, ids, now), ids.job)
          == WithJob(retired, id, kind, after.house, None, ids, now);
    }
  }

  lemma {:induction false} JobWasNew(s: System, job: nat)
    requires Inv(s)
    ensures job in s.history <==> job in s.rows.tables.jobs
  {
  }

  // ---- creating an invitation

  /** The new row together with the message that carries its link. */
  lemma {:induction false} NewInvitationKeepsNotes(s: System, q: Request, ids: Ids, now: Instant)
    requires Inv(s) && q.id !in s.rows.invitations
    requires CanInsert(s.rows.tables, ids.job, ids.message, InvitationKey(q.id, Created))
    ensures NotesOk(WithJob(WithRow(s, q, ids), q.id, Created, q.house, q.material, ids, now))
  {
    hide W.Inv, InvitationsOk, HousesOk;
    var s' := WithJob(WithRow(s, q, ids), q.id, Created, q.house, q.material, ids, now);
    forall i | i in s'.rows.invitations
      ensures NoteOk(s', i)
    {
      if i != q.id {
        assert NoteOk(s, i);
      }
    }
    forall m | m in s'.rows.tables.messages
      ensures MessageOk(s'.rows.tables.messages[m], s'.rows.invitations)
    {
      assert m != ids.message ==> MessageOk(s.rows.tables.messages[m], s.rows.invitations);
    }
  }

  function WithRow(s: System, q: Request, ids: Ids): System {
    s.(rows := s.rows.(invitations := s.rows.invitations[q.id := NewInvitation(q)]),
       note := s.note[q.id := ids.message], sealed := s.sealed[q.id := q.material])
  }

  lemma {:induction false} NewInvitationKeepsRows(r: Rows, q: Request)
    requires InvitationsOk(r.invitations) && q.id !in r.invitations
    requires !HasPendingFor(r, q.house, q.email) && !TokenTaken(r, q.token)
    ensures InvitationsOk(r.invitations[q.id := NewInvitation(q)])
  {
  }

  lemma {:induction false} NewInvitationKeeps(s: System, q: Request, ids: Ids, now: Instant)
    requires Inv(s) && q.id !in s.rows.invitations
    requires !HasPendingFor(s.rows, q.house, q.email) && !TokenTaken(s.rows, q.token)
    requires CanInsert(s.rows.tables, ids.job, ids.message, InvitationKey(q.id, Created))
    ensures Inv(WithJob(WithRow(s, q, ids), q.id, Created, q.house, q.material, ids, now))
  {
    hide W.Inv, InvitationsOk, NotesOk, W.TablesGrow, W.HistoryGrows;
    var s' := WithJob(WithRow(s, q, ids), q.id, Created, q.house, q.material, ids, now);
    NewInvitationKeepsNotes(s, q, ids, now);
    NewInvitationKeepsRows(s.rows, q);
    W.EnqueueKeeps(Core(s), ids.job, ids.message, InvitationKey(q.id, Created),
                   InvitationNote(q.id, q.house, q.material), now, MAX_ATTEMPTS, now);
    assert Core(s') == W.AddJob(Core(s), ids.job, ids.message, InvitationKey(q.id, Created),
                                InvitationNote(q.id, q.house, q.material), now, MAX_ATTEMPTS, now);
    HousesFrame(s.rows, s'.rows);
  }

  lemma {:induction false} CreateKeeps(s: System, q: Request, ids: Ids, now: Instant)
    requires Inv(s)
    ensures Inv(Apply(s, Create(q, ids, now)))
  {
    hide Inv;
    if CreateInvitation(s.rows, q, ids, now).Success? {
      var swept := s.(rows := ExpirePending(s.rows, q.house, now));
      ExpireKeeps(s, OverdueIds(s.rows, q.house, now));
      NewInvitationKeeps(swept, q, ids, now);
      JobWasNew(s, ids.job);
      assert Apply(s, Create(q, ids, now)) ==
          WithJob(WithRow(swept, q, ids), q.id, Created, q.house, q.material, ids, now);
    }
  }

  // ---- accepting and revoking

  lemma {:induction false} JoinKeepsHouses(r: Rows, house: nat, user: nat, role: Role)
    requires HousesOk(r) && (house, user) !in r.members
    ensures HousesOk(r.(members := r.members[(house, user) := role]))
  {
  }

  lemma {:induction false} PendingIsBlank(s: System, id: nat)
    requires Inv(s) && id in s.rows.invitations && s.rows.invitations[id].status == PendingInvite
    ensures s.rows.invitations[id].acceptedAt.None? && s.rows.invitations[id].revokedAt.None?
    ensures HousesOk(s.rows) && s.rows.(members := s.rows.members) == s.rows
  {
    hide W.Inv, NotesOk, HousesOk;
    assert InvitationOk(s.rows.invitations[id]);
  }

  lemma {:induction false} NothingCommitted(s: System, job: nat)
    requires Inv(s)
    ensures Committed(s, Success(s.rows), job) == s
  {
  }

  lemma {:induction false} AcceptPendingKeeps(s: System, id: nat, actor: nat, ids: Ids, now: Instant)
    requires Inv(s) && id in s.rows.invitations && s.rows.invitations[id].status == PendingInvite
    requires now <= s.rows.invitations[id].expiresAt
    ensures var i := s.rows.invitations[id];
            var joined :=
              if (i.house, actor) in s.rows.members then s.rows.members
              else s.rows.members[(i.house, actor) := i.role];
            Inv(Committed(s, Settled(s.rows.(members := joined), id,
              i.(status := AcceptedInvite, acceptedBy := Some(actor), acceptedAt := Some(now)), Accepted, ids, now),
                  ids.job))
  {
    hide Inv, HousesOk;
    var i := s.rows.invitations[id];
    PendingIsBlank(s, id);
    var joined := if (i.house, actor) in s.rows.members then s.rows.members
        else s.rows.members[(i.house, actor) := i.role];
    if (i.house, actor) !in s.rows.members {
      JoinKeepsHouses(s.rows, i.house, actor, i.role);
    }
    SettledKeeps(s, joined, id, i.(status := AcceptedInvite, acceptedBy := Some(actor), acceptedAt := Some(now)),
                 Accepted, ids, now);
  }

  lemma {:induction false} AcceptKeeps(s: System, step: Step)
    requires Inv(s) && step.Accept?
    ensures Inv(Apply(s, step))
  {
    hide Inv, Settled, Committed;
    var result := AcceptInvitation(s.rows, step.id, step.token, step.actor, step.email, step.ids, step.now);
    NothingCommitted(s, step.ids.job);
    FailureCommitsNothing(s, result, step.ids.job);
    if step.id in s.rows.invitations && s.rows.invitations[step.id].status == PendingInvite
        && step.now <= s.rows.invitations[step.id].expiresAt {
      AcceptPendingKeeps(s, step.id, step.actor, step.ids, step.now);
    }
  }

  lemma {:induction false} FailureCommitsNothing(s: System, result: Result<Rows, InviteError>, job: nat)
    ensures result.Failure? ==> Committed(s, result, job) == s
  {
  }

  lemma {:induction false} RevokeKeeps(s: System, step: Step)
    requires Inv(s) && step.Revoke?
    ensures Inv(Apply(s, step))
  {
    hide Inv, Settled, Committed, HousesOk;
    NothingCommitted(s, step.ids.job);
    FailureCommitsNothing(s, RevokeInvitation(s.rows, step.house, step.id, step.ids, step.now), step.ids.job);
    if step.id in s.rows.invitations && s.rows.invitations[step.id].status == PendingInvite
        && step.now <= s.rows.invitations[step.id].expiresAt {
      PendingIsBlank(s, step.id);
      SettledKeeps(s, s.rows.members, step.id,
                   s.rows.invitations[step.id].(status := RevokedInvite, revokedAt := Some(step.now)),
                   Revoked, step.ids, step.now);
    }
  }

  // ---- houses

  lemma {:induction false} OneLess<T>(a: set<T>, b: set<T>, x: T)
    requires |a| > 1 && a - {x} <= b
    ensures b != {}
  {
    assert |a - {x}| >= |a| - 1;
  }

  lemma {:induction false} HouseStepKeeps(r: Rows, r': Rows, house: nat, user: nat)
    requires HousesOk(r) && r'.houses <= r.houses + {house}
    requires forall k | k in r.members && k != (house, user) :: k in r'.members && r'.members[k] == r.members[k]
    requires (house, user) in Admins(r', house)
          || (house in r.houses && ((house, user) !in Admins(r, house) || |Admins(r, house)| > 1))
    ensures HousesOk(r')
  {
    forall h | h in r'.houses
      ensures Admins(r', h) != {}
    {
      if h == house {
        assert Admins(r, h) - {(house, user)} <= Admins(r', h);
        if (house, user) !in Admins(r', house) {
          if (house, user) !in Admins(r, house) {
            assert Admins(r, h) <= Admins(r', h);
          } else {
            OneLess(Admins(r, h), Admins(r', h), (house, user));
          }
        }
      } else {
        assert Admins(r, h) <= Admins(r', h);
      }
    }
  }

  lemma {:induction false} MembersKeep(s: System, r': Rows)
    requires Inv(s) && r'.tables == s.rows.tables && r'.invitations == s.rows.invitations && HousesOk(r')
    ensures Inv(s.(rows := r'))
  {
    hide W.Inv, HousesOk;
    var s' := s.(rows := r');
    assert Core(s') == Core(s);
    forall i | i in s'.rows.invitations
      ensures NoteOk(s', i)
    {
      assert NoteOk(s, i);
    }
  }

  lemma {:induction false} HousesKeep(s: System, step: Step)
    requires Inv(s) && (step.Found? || step.ChangeRole? || step.Remove?)
    ensures Inv(Apply(s, step))
  {
    hide W.Inv, NotesOk, InvitationsOk;
    var result := match step
      case Found(house, user) => CreateWithAdmin(s.rows, house, user)
      case ChangeRole(house, user, role) => UpdateMemberRole(s.rows, house, user, role)
      case Remove(house, user) => RemoveMember(s.rows, house, user)
      case _ => Failure(NotFound);
    if result.Success? {
      HouseStepKeeps(s.rows, result.value, step.house, step.user);
      MembersKeep(s, result.value);
      JobWasNew(s, 0);
    }
  }

  // ---- every run

  lemma {:induction false} ApplyKeeps(s: System, step: Step)
    requires Inv(s)
    ensures Inv(Apply(s, step))
  {
    hide Inv;
    match step
    case Queue(q) =>
      if QueueStepAllowed(q) {
        QueueKeeps(s, q);
      }
    case Found(_, _) => HousesKeep(s, step);
    case ChangeRole(_, _, _) => HousesKeep(s, step);
    case Remove(_, _) => HousesKeep(s, step);
    case List(house, now) => ExpireKeeps(s, OverdueIds(s.rows, house, now));
    case Create(q, ids, now) => CreateKeeps(s, q, ids, now);
    case Revoke(_, _, _, _) => RevokeKeeps(s, step);
    case Accept(_, _, _, _, _, _) => AcceptKeeps(s, step);
    case Check(id, now) =>
      if CheckDelivery(s.rows, id, now).0 != s.rows {
        ExpireKeeps(s, {id});
      }
  }

  lemma {:induction false} Reachable(steps: seq<Step>)
    ensures Inv(Run(steps))
  {
    if steps == [] {
      var none: map<nat, nat>, nokeys: map<DedupeKey, nat> := map[], map[];
      assert W.LinkedBy(INITIAL.rows.tables, none, nokeys);
    } else {
      hide Inv, Apply;
      Reachable(steps[..|steps| - 1]);
      ApplyKeeps(Run(steps[..|steps| - 1]), steps[|steps| - 1]);
    }
  }

  // ---- what every run guarantees

  /**
   In every reachable state an outbox payload carries a sealed link exactly when it is the
   note of an invitation created with one, and both the message and the invitation are pending.
   */
  lemma {:induction false} LinkIsKeptExactlyWhilePending(steps: seq<Step>, m: nat)
    requires m in Run(steps).rows.tables.messages && Run(steps).rows.tables.messages[m].payload.InvitationNote?
    ensures var s := Run(steps);
            var message := s.rows.tables.messages[m];
            message.payload.delivery.Some? <==>
              && message.key.InvitationKey? && message.key.kind == Created
                  && message.key.invitation in s.rows.invitations
              && message.status == Pending && s.rows.invitations[message.key.invitation].status == PendingInvite
              && message.key.invitation in s.sealed && s.sealed[message.key.invitation].Some?
  {
    hide Apply, W.Inv, InvitationsOk, HousesOk;
    var s := Run(steps);
    Reachable(steps);
    var message := s.rows.tables.messages[m];
    assert MessageOk(message, s.rows.invitations);
    if message.key.InvitationKey? && message.key.kind == Created {
      assert NoteOk(s, message.key.invitation);
      NoteIsUnique(s, m, message.key.invitation);
    }
  }

  lemma {:induction false} NoteIsUnique(s: System, m: nat, i: nat)
    requires Inv(s) && m in s.rows.tables.messages && s.rows.tables.messages[m].key == InvitationKey(i, Created)
    requires i in s.rows.invitations
    ensures i in s.note && s.note[i] == m
  {
    hide W.JobsOk, W.WorkersOk, InvitationsOk, HousesOk;
    assert NoteOk(s, i);
    var t := s.rows.tables;
    var jobOf, withKey :| W.LinkedBy(t, jobOf, withKey);
    assert withKey[t.messages[m].key] == m && withKey[t.messages[s.note[i]].key] == s.note[i];
  }

  /** At most one invitation per house and email is pending, and no invitation is both accepted and revoked. */
  lemma {:induction false} InvitationsAreConsistent(steps: seq<Step>, i: nat, j: nat)
    requires i in Run(steps).rows.invitations && j in Run(steps).rows.invitations
    ensures var a, b := Run(steps).rows.invitations[i], Run(steps).rows.invitations[j];
            && (a.status == PendingInvite && b.status == PendingInvite && a.house == b.house && a.email == b.email ==>
                i == j)
            && !(a.acceptedAt.Some? && a.revokedAt.Some?)
            && (a.acceptedAt.Some? <==> a.status == AcceptedInvite)
                && (a.revokedAt.Some? <==> a.status == RevokedInvite)
            && (a.acceptedAt.Some? ==> a.acceptedAt.value <= a.expiresAt)
  {
    hide Apply, W.Inv, NotesOk, HousesOk;
    Reachable(steps);
    assert i != j ==> !Clash(Run(steps).rows.invitations[i], Run(steps).rows.invitations[j]);
  }

  /** Every house keeps an admin, whatever roles change and whoever is removed. */
  lemma {:induction false} HousesKeepAnAdmin(steps: seq<Step>, house: nat)
    requires house in Run(steps).rows.houses
    ensures exists user :: (house, user) in Run(steps).rows.members && Run(steps).rows.members[(house, user)] == Admin
  {
    hide Apply, W.Inv, NotesOk, InvitationsOk;
    Reachable(steps);
    var k :| k in Admins(Run(steps).rows, house);
    assert (house, k.1) in Run(steps).rows.members;
  }

  /** Accepted, revoked and expired are final; nothing about an invitation but its status ever changes. */
  lemma {:induction false} TerminalStatusesNeverChange(s: System, step: Step, i: nat)
    requires i in s.rows.invitations
    ensures var r' := Apply(s, step).rows;
            && i in r'.invitations
            && (s.rows.invitations[i].status != PendingInvite ==> r'.invitations[i] == s.rows.invitations[i])
            && r'.invitations[i].house == s.rows.invitations[i].house
                && r'.invitations[i].email == s.rows.invitations[i].email
            && r'.invitations[i].expiresAt == s.rows.invitations[i].expiresAt
  {
    hide W.Apply;
  }

  lemma {:induction false} TerminalForTheRestOfTheRun(steps: seq<Step>, n: nat, i: nat)
    requires n <= |steps| && i in Run(steps[..n]).rows.invitations
    requires Run(steps[..n]).rows.invitations[i].status != PendingInvite
    ensures i in Run(steps).rows.invitations && Run(steps).rows.invitations[i] == Run(steps[..n]).rows.invitations[i]
  {
    hide Apply;
    if n == |steps| {
      assert steps[..n] == steps;
    } else {
      var m := |steps| - 1;
      assert steps[..m][..n] == steps[..n];
      TerminalForTheRestOfTheRun(steps[..m], n, i);
      TerminalStatusesNeverChange(Run(steps[..m]), steps[m], i);
    }
  }

  /** Only an accept in time turns an invitation accepted, and it makes its actor a member in the same step. */
  lemma {:induction false} AcceptanceJoins(s: System, step: Step, i: nat)
    requires i in s.rows.invitations && s.rows.invitations[i].status == PendingInvite
    requires Apply(s, step).rows.invitations[i].status == AcceptedInvite
    ensures step.Accept? && step.id == i && step.now <= s.rows.invitations[i].expiresAt
    ensures step.token == s.rows.invitations[i].token && step.email == s.rows.invitations[i].email
    ensures var r, r' := s.rows, Apply(s, step).rows;
            var k := (r.invitations[i].house, step.actor);
            && r'.members == (if k in r.members then r.members else r.members[k := r.invitations[i].role])
            && r'.invitations[i].acceptedBy == Some(step.actor)
  {
    hide W.Apply;
    TerminalStatusesNeverChange(s, step, i);
  }

  // ---- what was asked for at creation

  /** Step k created the invitation, and it still is what that request asked for. */
  ghost predicate CreatedBy(steps: seq<Step>, k: int, i: nat, invite: Invitation) {
    && 0 <= k < |steps| && i !in Run(steps[..k]).rows.invitations && i in Run(steps[..k + 1]).rows.invitations
    && steps[k].Create? && steps[k].request.id == i
    && invite.house == steps[k].request.house && invite.email == steps[k].request.email
    && invite.role == steps[k].request.role && invite.token == steps[k].request.token
    && invite.expiresAt == steps[k].request.expiresAt
  }

  lemma {:induction false} StepKeepsTerms(s: System, step: Step, i: nat)
    requires i in Apply(s, step).rows.invitations
    ensures var u := Apply(s, step).rows.invitations[i];
            if i in s.rows.invitations then
              var v := s.rows.invitations[i];
              && u.house == v.house && u.email == v.email && u.role == v.role && u.token == v.token
              && u.expiresAt == v.expiresAt
            else
              && step.Create? && step.request.id == i && u.status == PendingInvite
              && u.house == step.request.house && u.email == step.request.email && u.role == step.request.role
              && u.token == step.request.token && u.expiresAt == step.request.expiresAt
  {
    hide W.Apply;
  }

  /** Every invitation was created by one step, and its house, address, role, token and expiry are as asked for. */
  lemma {:induction false} InvitationsAreAsRequested(steps: seq<Step>, i: nat)
    requires i in Run(steps).rows.invitations
    ensures exists k :: CreatedBy(steps, k, i, Run(steps).rows.invitations[i])
  {
    var n := |steps| - 1;
    var s := Run(steps[..n]);
    StepKeepsTerms(s, steps[n], i);
    assert steps[..n + 1] == steps;
    hide Apply;
    if i in s.rows.invitations {
      InvitationsAreAsRequested(steps[..n], i);
      var k :| CreatedBy(steps[..n], k, i, s.rows.invitations[i]);
      assert steps[..n][..k] == steps[..k] && steps[..n][..k + 1] == steps[..k + 1];
      assert CreatedBy(steps, k, i, Run(steps).rows.invitations[i]);
    } else {
      assert CreatedBy(steps, n, i, Run(steps).rows.invitations[i]);
    }
  }

  /**
   Whoever becomes a member by accepting an invitation gets exactly the house and the role its creation
   asked for, by the token and address it asked for.
   */
  lemma {:induction false} MembersGetTheRoleAsked(steps: seq<Step>, step: Step, house: nat, user: nat)
    requires (house, user) !in Run(steps).rows.members && (house, user) in Apply(Run(steps), step).rows.members
    requires step.Accept?
    ensures user == step.actor
    ensures exists k :: 0 <= k < |steps| && steps[k].Create? && steps[k].request.id == step.id
              && steps[k].request.house == house && steps[k].request.token == step.token
              && steps[k].request.email == step.email && step.now <= steps[k].request.expiresAt
              && Apply(Run(steps), step).rows.members[(house, user)] == steps[k].request.role
  {
    var s := Run(steps);
    Acceptance(s.rows, step.id, step.token, step.actor, step.email, step.ids, step.now);
    hide AcceptInvitation, ClosedWith, Taken, Run;
    assert step.id in s.rows.invitations;
    InvitationsAreAsRequested(steps, step.id);
    var k :| CreatedBy(steps, k, step.id, s.rows.invitations[step.id]);
  }

  /** Apart from that only founding a house adds a member, as its admin. */
  lemma {:induction false} OnlyFoundersJoinOtherwise(s: System, step: Step, house: nat, user: nat)
    requires (house, user) !in s.rows.members && (house, user) in Apply(s, step).rows.members && !step.Accept?
    ensures step.Found? && step.house == house && step.user == user
    ensures Apply(s, step).rows.members[(house, user)] == Admin
  {
    hide W.Apply;
  }

  /** An invitation found overdue by accept or revoke stays pending: the mark is rolled back with the error. */
  lemma {:induction false} OverdueMarkIsRolledBack(s: System, step: Step, i: nat)
    requires i in s.rows.invitations && s.rows.invitations[i].status == PendingInvite
    requires (step.Accept? || step.Revoke?) && step.id == i && s.rows.invitations[i].expiresAt < step.now
    ensures Apply(s, step) == s
  {
  }

  /** The steps that do commit an expiry: a listing or creation in the same house, or the check of that invitation. */
  predicate CommitsExpiry(s: System, step: Step, i: nat)
    requires i in s.rows.invitations
  {
    var invite := s.rows.invitations[i];
    match step
    case List(house, now) => Overdue(invite, house, now)
    case Create(request, ids, now) =>
      Overdue(invite, request.house, now) && CreateInvitation(s.rows, request, ids, now).Success?
    case Check(id, now) => id == i && invite.house in s.rows.houses && Overdue(invite, invite.house, now)
    case _ => false
  }

  /** A pending invitation expires exactly by such a step while it is overdue. */
  lemma {:induction false} ExpiresExactlyWhenSwept(s: System, step: Step, i: nat)
    requires i in s.rows.invitations && s.rows.invitations[i].status == PendingInvite
    ensures i in Apply(s, step).rows.invitations
    ensures Apply(s, step).rows.invitations[i].status == ExpiredInvite <==> CommitsExpiry(s, step, i)
  {
    hide W.Apply;
    TerminalStatusesNeverChange(s, step, i);
  }
}
