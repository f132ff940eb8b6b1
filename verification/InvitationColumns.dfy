/** The membership and invitation transactions, column by column. */
module InvitationColumns {
  import opened Basics
  import opened JobQueue
  import opened Invitations

  // ---- members

  /** Some other user is an admin of the house. */
  ghost predicate OtherAdmin(r: Rows, house: nat, user: nat) {
    exists u :: u != user && (house, u) in r.members && r.members[(house, u)] == Admin
  }

  lemma {:induction false} OnlyAdmin(r: Rows, house: nat, user: nat)
    requires (house, user) in r.members && r.members[(house, user)] == Admin
    ensures |Admins(r, house)| <= 1 <==> !OtherAdmin(r, house, user)
  {
    var admins := Admins(r, house);
    assert (house, user) in admins;
    assert |admins - {(house, user)}| == |admins| - 1;
    if OtherAdmin(r, house, user) {
      var u :| u != user && (house, u) in r.members && r.members[(house, u)] == Admin;
      assert (house, u) in admins - {(house, user)};
    }
    if |admins| > 1 {
      var k :| k in admins - {(house, user)};
      assert k == (house, k.1) && k in r.members;
    }
  }

  /** A role is changed exactly when the member exists and an admin remains. */
  lemma {:induction false} RoleChange(r: Rows, house: nat, user: nat, role: Role)
    ensures UpdateMemberRole(r, house, user, role) ==
            if house !in r.houses || (house, user) !in r.members then Failure(NotFound)
            else if r.members[(house, user)] == Admin && role != Admin && !OtherAdmin(r, house, user)
            then Failure(LastAdmin)
            else Success(Rows(r.tables, r.houses, r.members[(house, user) := role], r.invitations))
  {
    if (house, user) in r.members && r.members[(house, user)] == Admin {
      OnlyAdmin(r, house, user);
    }
  }

  lemma {:induction false} Removal(r: Rows, house: nat, user: nat)
    ensures RemoveMember(r, house, user) ==
            if house !in r.houses || (house, user) !in r.members then Failure(NotFound)
            else if r.members[(house, user)] == Admin && !OtherAdmin(r, house, user) then Failure(LastAdmin)
            else Success(Rows(r.tables, r.houses, r.members - {(house, user)}, r.invitations))
  {
    if (house, user) in r.members && r.members[(house, user)] == Admin {
      OnlyAdmin(r, house, user);
    }
  }

  // ---- sealed links and expiry

  /** The message announcing that invitation has lost its sealed link, and no other message has changed. */
  ghost predicate LinkDropped(before: map<nat, Message>, after: map<nat, Message>, invitation: nat) {
    && after.Keys == before.Keys
    && forall m | m in before ::
         after[m] == if before[m].key == InvitationKey(invitation, Created) && before[m].payload.InvitationNote?
                     then before[m].(payload := before[m].payload.(delivery := None)) else before[m]
  }

  /** The pending invitations of the house past their expiry are expired and their messages have lost the link. */
  ghost predicate Swept(before: Rows, after: Rows, house: nat, now: Instant) {
    && after.houses == before.houses && after.members == before.members && after.tables.jobs == before.tables.jobs
    && after.invitations.Keys == before.invitations.Keys
    && after.tables.messages.Keys == before.tables.messages.Keys
    && (forall i | i in before.invitations ::
          var v := before.invitations[i];
          after.invitations[i] == if v.house == house && v.status == PendingInvite && v.expiresAt < now
                                  then v.(status := ExpiredInvite) else v)
    && (forall m | m in before.tables.messages ::
          var x := before.tables.messages[m];
          after.tables.messages[m] ==
            if x.key.InvitationKey? && x.key.kind == Created && x.key.invitation in before.invitations
               && before.invitations[x.key.invitation].house == house
               && before.invitations[x.key.invitation].status == PendingInvite
               && before.invitations[x.key.invitation].expiresAt < now && x.payload.InvitationNote?
            then x.(payload := x.payload.(delivery := None)) else x)
  }

  lemma {:induction false} Sweep(r: Rows, house: nat, now: Instant)
    ensures Swept(r, ExpirePending(r, house, now), house, now)
  {
  }

  lemma {:induction false} DropsLink(messages: map<nat, Message>, invitation: nat)
    ensures LinkDropped(messages, RedactAll(messages, {invitation}), invitation)
  {
  }

  // ---- a new message and job

  /** The ids or the dedupe key are taken. */
  ghost predicate Taken(t: Tables, ids: Ids, key: DedupeKey) {
    || ids.job in t.jobs || ids.message in t.messages
    || exists m :: m in t.messages && t.messages[m].key == key
  }

  /** One pending message about the invitation and one job of five attempts are added. */
  ghost predicate Noted(before: Tables, after: Tables, invitation: nat, house: nat, kind: NoteKind,
                        material: Option<string>, ids: Ids, now: Instant) {
    && after.messages == before.messages[ids.message :=
         Message(InvitationKey(invitation, kind), InvitationNote(invitation, house, material), Pending, now, None,
                 None)]
    && after.jobs == before.jobs[ids.job :=
         Job(Some(ids.message), now, None, None, 0, 0, 5, None, None, None, now, now)]
  }

  lemma {:induction false} EnqueueNotes(r: Rows, invitation: nat, kind: NoteKind, house: nat, material: Option<string>,
                                        ids: Ids, now: Instant)
    ensures match Enqueued(r, invitation, kind, house, material, ids, now)
            case Failure(e) => e == Duplicate && Taken(r.tables, ids, InvitationKey(invitation, kind))
            case Success(u) =>
              && !Taken(r.tables, ids, InvitationKey(invitation, kind)) && u == r.(tables := u.tables)
              && Noted(r.tables, u.tables, invitation, house, kind, material, ids, now)
  {
  }

  // ---- creation

  /** Another invitation for the address is pending and in time, or the id or token is in use. */
  ghost predicate Conflicts(r: Rows, q: Request, now: Instant) {
    || q.id in r.invitations
    || (exists i :: i in r.invitations && r.invitations[i].token == q.token)
    || (exists i :: i in r.invitations && r.invitations[i].house == q.house && r.invitations[i].email == q.email
                    && r.invitations[i].status == PendingInvite && now <= r.invitations[i].expiresAt)
  }

  /** After the sweep, one invitation is stored as requested, pending, with its message and job. */
  ghost predicate CreatedAsAsked(before: Rows, mid: Rows, after: Rows, q: Request, ids: Ids, now: Instant) {
    && Swept(before, mid, q.house, now) && after.houses == before.houses && after.members == before.members
    && after.invitations == mid.invitations[q.id :=
         Invitation(q.house, q.email, q.role, q.token, PendingInvite, q.expiresAt, None, None, None)]
    && Noted(mid.tables, after.tables, q.id, q.house, Created, q.material, ids, now)
  }

  /** The first check that fails is reported and nothing changes; otherwise the invitation is stored as requested. */
  lemma {:induction false} Creation(r: Rows, q: Request, ids: Ids, now: Instant)
    ensures match CreateInvitation(r, q, ids, now)
            case Failure(e) =>
              e == (if q.email == "" then InvalidInput else if q.house !in r.houses then NotFound
                    else if Conflicts(r, q, now) then PendingExists else Duplicate)
              && (e == Duplicate ==> Taken(r.tables, ids, InvitationKey(q.id, Created)))
            case Success(u) =>
              && q.email != "" && q.house in r.houses && !Conflicts(r, q, now)
              && !Taken(r.tables, ids, InvitationKey(q.id, Created))
              && exists mid :: CreatedAsAsked(r, mid, u, q, ids, now)
  {
    if q.email != "" && q.house in r.houses {
      var swept := ExpirePending(r, q.house, now);
      Sweep(r, q.house, now);
      ConflictsAfterSweep(r, swept, q, now);
      if !Conflicts(r, q, now) {
        var stored := swept.(invitations := swept.invitations[q.id := NewInvitation(q)]);
        EnqueueNotes(stored, q.id, Created, q.house, q.material, ids, now);
        TakenAfterSweep(r, swept, q.house, ids, InvitationKey(q.id, Created), now);
        hide ExpirePending, Swept, Taken, Conflicts, Enqueued, HasPendingFor, TokenTaken;
        var result := Enqueued(stored, q.id, Created, q.house, q.material, ids, now);
        assert CreateInvitation(r, q, ids, now) == result;
        if result.Success? {
          SweepKeepsHouses(r, swept, q.house, now);
          assert CreatedAsAsked(r, swept, result.value, q, ids, now);
        }
      }
    }
  }

  lemma {:induction false} SweepKeepsHouses(r: Rows, swept: Rows, house: nat, now: Instant)
    requires Swept(r, swept, house, now)
    ensures r.houses == swept.houses && r.members == swept.members
  {
  }

  lemma {:induction false} ConflictsAfterSweep(r: Rows, swept: Rows, q: Request, now: Instant)
    requires Swept(r, swept, q.house, now)
    ensures HasPendingFor(swept, q.house, q.email) || q.id in swept.invitations || TokenTaken(swept, q.token)
       <==> Conflicts(r, q, now)
  {
    forall i | i in r.invitations
      ensures swept.invitations[i].token == r.invitations[i].token
    {
    }
    if HasPendingFor(swept, q.house, q.email) {
      var i :| i in swept.invitations && swept.invitations[i].status == PendingInvite
               && swept.invitations[i].house == q.house && swept.invitations[i].email == q.email;
      assert swept.invitations[i] == r.invitations[i];
    }
    if i :| i in r.invitations && r.invitations[i].house == q.house && r.invitations[i].email == q.email
            && r.invitations[i].status == PendingInvite && now <= r.invitations[i].expiresAt {
      assert swept.invitations[i] == r.invitations[i];
    }
    if TokenTaken(swept, q.token) {
      var i :| i in swept.invitations && swept.invitations[i].token == q.token;
      assert r.invitations[i].token == q.token;
    }
    if i :| i in r.invitations && r.invitations[i].token == q.token {
      assert swept.invitations[i].token == q.token;
    }
  }

  lemma {:induction false} TakenAfterSweep(r: Rows, swept: Rows, house: nat, ids: Ids, key: DedupeKey, now: Instant)
    requires Swept(r, swept, house, now)
    ensures Taken(swept.tables, ids, key) <==> Taken(r.tables, ids, key)
  {
    forall m | m in r.tables.messages
      ensures swept.tables.messages[m].key == r.tables.messages[m].key
    {
    }
  }

  // ---- revocation, acceptance, the availability check

  /** The invitation becomes `row`, its own link is dropped and a message about the change is queued. */
  ghost predicate ClosedWith(before: Rows, after: Rows, id: nat, row: Invitation, kind: NoteKind, ids: Ids,
                             now: Instant)
  {
    && after.houses == before.houses && after.invitations == before.invitations[id := row]
    && exists mid: Tables ::
         && mid.jobs == before.tables.jobs && LinkDropped(before.tables.messages, mid.messages, id)
         && Noted(mid, after.tables, id, row.house, kind, None, ids, now)
  }

  lemma {:induction false} SettledCloses(r: Rows, id: nat, row: Invitation, kind: NoteKind, ids: Ids, now: Instant)
    ensures match Settled(r, id, row, kind, ids, now)
            case Failure(e) => e == Duplicate && Taken(r.tables, ids, InvitationKey(id, kind))
            case Success(u) =>
              && !Taken(r.tables, ids, InvitationKey(id, kind)) && u.members == r.members
              && ClosedWith(r, u, id, row, kind, ids, now)
  {
    var mid := r.tables.(messages := RedactAll(r.tables.messages, {id}));
    DropsLink(r.tables.messages, id);
    var cleared := r.(invitations := r.invitations[id := row], tables := mid);
    EnqueueNotes(cleared, id, kind, row.house, None, ids, now);
    SameTaken(r.tables, mid, id, ids, InvitationKey(id, kind));
    hide LinkDropped, Noted, Taken, Enqueued, RedactAll;
    assert Settled(r, id, row, kind, ids, now) == Enqueued(cleared, id, kind, row.house, None, ids, now);
  }

  lemma {:induction false} SameTaken(t: Tables, u: Tables, invitation: nat, ids: Ids, key: DedupeKey)
    requires u.jobs == t.jobs && LinkDropped(t.messages, u.messages, invitation)
    ensures Taken(u, ids, key) <==> Taken(t, ids, key)
  {
    forall m | m in t.messages
      ensures u.messages[m].key == t.messages[m].key
    {
    }
  }

  /** A pending invitation in time is revoked; a revoked one is left alone, and anything else is an error. */
  lemma {:induction false} Revocation(r: Rows, house: nat, id: nat, ids: Ids, now: Instant)
    ensures match RevokeInvitation(r, house, id, ids, now)
            case Failure(e) =>
              e == (if house !in r.houses then NotFound
                    else if id !in r.invitations || r.invitations[id].house != house then Unavailable
                    else if r.invitations[id].status != PendingInvite || r.invitations[id].expiresAt < now
                    then StateConflict else Duplicate)
              && (e == Duplicate ==> Taken(r.tables, ids, InvitationKey(id, Revoked)))
            case Success(u) =>
              && house in r.houses && id in r.invitations && r.invitations[id].house == house && u.members == r.members
              && if r.invitations[id].status == RevokedInvite then u == r
                 else
                   && r.invitations[id].status == PendingInvite && now <= r.invitations[id].expiresAt
                   && ClosedWith(r, u, id, r.invitations[id].(status := RevokedInvite, revokedAt := Some(now)), Revoked,
                                 ids, now)
  {
    if id in r.invitations {
      SettledCloses(r, id, r.invitations[id].(status := RevokedInvite, revokedAt := Some(now)), Revoked, ids, now);
    }
    hide Settled, ClosedWith, Taken;
  }

  /** The member the acceptance adds: the actor with the role of the invitation, unless a member already. */
  function JoinedBy(r: Rows, i: Invitation, actor: nat): map<(nat, nat), Role> {
    if (i.house, actor) in r.members then r.members else r.members[(i.house, actor) := i.role]
  }

  /**
   An invitation is accepted by its own token and address while pending and in time, or again by whoever
   accepted it; anything else is an error.
   */
  lemma {:induction false} Acceptance(r: Rows, id: nat, token: nat, actor: nat, email: string, ids: Ids, now: Instant)
    ensures match AcceptInvitation(r, id, token, actor, email, ids, now)
            case Failure(e) =>
              e == (if id !in r.invitations || r.invitations[id].token != token then Unavailable
                    else if r.invitations[id].house !in r.houses then NotFound
                    else if r.invitations[id].email != email || r.invitations[id].status != PendingInvite
                            || r.invitations[id].expiresAt < now then Unavailable
                    else Duplicate)
              && (e == Duplicate ==> Taken(r.tables, ids, InvitationKey(id, Accepted)))
              && (id in r.invitations && r.invitations[id].token == token && r.invitations[id].email == email
                  && r.invitations[id].status == AcceptedInvite && e == Unavailable ==>
                    r.invitations[id].acceptedBy != Some(actor))
            case Success(u) =>
              && id in r.invitations && r.invitations[id].token == token && r.invitations[id].email == email
              && r.invitations[id].house in r.houses
              && if r.invitations[id].status == AcceptedInvite
                 then u == r && r.invitations[id].acceptedBy == Some(actor)
                 else
                   && r.invitations[id].status == PendingInvite && now <= r.invitations[id].expiresAt
                   && u.members == JoinedBy(r, r.invitations[id], actor)
                   && ClosedWith(r, u, id, r.invitations[id].(status := AcceptedInvite, acceptedBy := Some(actor),
                                                              acceptedAt := Some(now)), Accepted, ids, now)
  {
    if id in r.invitations && r.invitations[id].status == PendingInvite {
      var i := r.invitations[id];
      var joined := r.(members := JoinedBy(r, i, actor));
      var row := i.(status := AcceptedInvite, acceptedBy := Some(actor), acceptedAt := Some(now));
      SettledCloses(joined, id, row, Accepted, ids, now);
      hide Settled, Taken, LinkDropped, Noted;
      assert AcceptInvitation(r, id, token, actor, email, ids, now).Success? ==>
          AcceptInvitation(r, id, token, actor, email, ids, now) == Settled(joined, id, row, Accepted, ids, now);
    }
    hide Settled, Taken, LinkDropped, Noted;
  }

  /** Available while pending and in time; an overdue invitation is expired here, for good. */
  lemma {:induction false} Availability(r: Rows, id: nat, now: Instant)
    ensures var (u, available) := CheckDelivery(r, id, now);
            && (available <==>
                  && id in r.invitations && r.invitations[id].house in r.houses
                  && r.invitations[id].status == PendingInvite && now <= r.invitations[id].expiresAt)
            && u.houses == r.houses && u.members == r.members && u.tables.jobs == r.tables.jobs
            && if id in r.invitations && r.invitations[id].house in r.houses
                  && r.invitations[id].status == PendingInvite && r.invitations[id].expiresAt < now
               then && u.invitations == r.invitations[id := r.invitations[id].(status := ExpiredInvite)]
                    && LinkDropped(r.tables.messages, u.tables.messages, id)
               else u == r
  {
    DropsLink(r.tables.messages, id);
    hide LinkDropped;
  }
}
