/** The membership and invitation transactions as they run on their tables. */
module InvitationStore {
  import opened Basics
  import opened JobQueue
  import opened Invitations
  import opened InvitationColumns
  import JobStore

  predicate IsAdmin(r: Rows, house: nat, user: nat) {
    (house, user) in r.members && r.members[(house, user)] == Admin
  }

  ghost predicate HasTwoAdmins(r: Rows, house: nat) {
    exists u, v :: u != v && IsAdmin(r, house, u) && IsAdmin(r, house, v)
  }

  lemma {:induction false} TwoAdmins(r: Rows, house: nat)
    ensures |Admins(r, house)| > 1 <==> HasTwoAdmins(r, house)
  {
    var admins := Admins(r, house);
    if |admins| > 1 {
      var a :| a in admins;
      assert |admins - {a}| == |admins| - 1;
      var b :| b in admins - {a};
      assert a.1 != b.1 && IsAdmin(r, house, a.1) && IsAdmin(r, house, b.1);
    }
    if u, v :| u != v && IsAdmin(r, house, u) && IsAdmin(r, house, v) {
      assert {(house, u), (house, v)} <= admins;
      Within({(house, u), (house, v)}, admins);
    }
  }

  class HouseholdRepository {
    const queue: JobStore.ReliabilityRepository
    var houses: set<nat>
    var members: map<(nat, nat), Role>
    var invitations: map<nat, Invitation>

    function All(): Rows
      reads this, queue
    {
      Rows(queue.Rows(), houses, members, invitations)
    }

    constructor (q: JobStore.ReliabilityRepository)
      ensures queue == q && All() == Rows(q.Rows(), {}, map[], map[])
    {
      queue := q;
      houses, members, invitations := {}, map[], map[];
    }

    method RemoveMember(house: nat, user: nat) returns (error: Option<InviteError>)
      modifies this`members
      ensures match Invitations.RemoveMember(old(All()), house, user)
              case Success(r) => error.None? && All() == r
              case Failure(e) => error == Some(e) && All() == old(All())
      ensures error == if house !in houses || (house, user) !in old(members) then Some(NotFound)
                       else if old(members)[(house, user)] == Admin && !OtherAdmin(old(All()), house, user)
                       then Some(LastAdmin) else None
      ensures members == if error.None? then old(members) - {(house, user)} else old(members)
    {
      Removal(All(), house, user);
      hide OtherAdmin;
      if house !in houses || (house, user) !in members {
        return Some(NotFound);
      }
      if members[(house, user)] == Admin {
        TwoAdmins(All(), house);
        var another := EnsureAnotherAdmin(house);
        if !another {
          return Some(LastAdmin);
        }
      }
      members := members - {(house, user)};
      return None;
    }

    method UpdateMemberRole(house: nat, user: nat, role: Role) returns (error: Option<InviteError>)
      modifies this`members
      ensures match Invitations.UpdateMemberRole(old(All()), house, user, role)
              case Success(r) => error.None? && All() == r
              case Failure(e) => error == Some(e) && All() == old(All())
      ensures error == if house !in houses || (house, user) !in old(members) then Some(NotFound)
                       else if && old(members)[(house, user)] == Admin && role != Admin
                               && !OtherAdmin(old(All()), house, user)
                       then Some(LastAdmin) else None
      ensures members == if error.None? then old(members)[(house, user) := role] else old(members)
    {
      RoleChange(All(), house, user, role);
      hide OtherAdmin;
      if house !in houses || (house, user) !in members {
        return Some(NotFound);
      }
      if members[(house, user)] == Admin && role != Admin {
        TwoAdmins(All(), house);
        var another := EnsureAnotherAdmin(house);
        if !another {
          return Some(LastAdmin);
        }
      }
      members := members[(house, user) := role];
      return None;
    }

    /** True exactly when two different users are admins of the house, so one can go. */
    method EnsureAnotherAdmin(house: nat) returns (another: bool)
      ensures another <==> HasTwoAdmins(All(), house)
    {
      TwoAdmins(All(), house);
      var count := |Admins(All(), house)|;
      return !(count <= 1);
    }

    /** Marks the overdue invitations of a house, then clears their messages one by one. */
    method ExpirePendingInvitations(house: nat, now: Instant)
      requires queue.Valid()
      modifies this`invitations, queue
      ensures queue.Valid()
      ensures All() == ExpirePending(old(All()), house, now)
      ensures Swept(old(All()), All(), house, now)
    {
      Sweep(All(), house, now);
      hide RedactAll, Swept;
      var ids := OverdueIds(All(), house, now);
      NothingRedacted(queue.messages);
      invitations := map i | i in invitations ::
        if i in ids then invitations[i].(status := ExpiredInvite) else invitations[i];
      ghost var swept := invitations;
      var rest := ids;
      assert ids - rest == {};
      while rest != {}
        invariant queue.Valid() && rest <= ids && invitations == swept && queue.jobs == old(queue.jobs)
        invariant queue.messages == RedactAll(old(queue.messages), ids - rest)
        decreases |rest|
      {
        var id :| id in rest;
        RedactOneMore(old(queue.messages), ids - rest, id);
        assert ids - (rest - {id}) == ids - rest + {id};
        ClearInvitationDeliveryPayload(id);
        rest := rest - {id};
      }
      assert ids - rest == ids;
      assert invitations == ExpirePending(old(All()), house, now).invitations;
    }

    lemma {:induction false} NothingRedacted(messages: map<nat, Message>)
      ensures RedactAll(messages, {}) == messages
    {
    }

    lemma {:induction false} RedactOneMore(messages: map<nat, Message>, done: set<nat>, id: nat)
      ensures RedactAll(RedactAll(messages, done), {id}) == RedactAll(messages, done + {id})
    {
    }

    method ClearInvitationDeliveryPayload(id: nat)
      requires queue.Valid()
      modifies queue
      ensures queue.Valid()
      ensures queue.jobs == old(queue.jobs)
      ensures queue.messages == Redact(old(queue.messages), InvitationKey(id, Created))
      ensures queue.messages == RedactAll(old(queue.messages), {id})
    {
      queue.ClearOutboxDeliveryPayload(InvitationKey(id, Created));
    }

    method Enqueue(invitation: nat, kind: NoteKind, house: nat, material: Option<string>, ids: Ids, now: Instant)
      returns (error: Option<InviteError>)
      requires queue.Valid()
      modifies queue
      ensures queue.Valid()
      ensures match Enqueued(old(All()), invitation, kind, house, material, ids, now)
              case Success(r) => error.None? && All() == r
              case Failure(e) => error == Some(e) && All() == old(All())
    {
      var ok := queue.Enqueue(ids.job, ids.message, InvitationKey(invitation, kind),
                              InvitationNote(invitation, house, material), now, MAX_ATTEMPTS, now);
      return if ok then None else Some(Duplicate);
    }

    method CreateInvitation(q: Request, ids: Ids, now: Instant) returns (error: Option<InviteError>)
      requires queue.Valid()
      modifies this`invitations, queue
      ensures queue.Valid()
      ensures match Invitations.CreateInvitation(old(All()), q, ids, now)
              case Success(r) => error.None? && All() == r
              case Failure(e) => error == Some(e) && All() == old(All())
      ensures error.None? ==>
        && q.email != "" && q.house in houses && !Conflicts(old(All()), q, now)
        && q.id in invitations
        && invitations[q.id] == Invitation(q.house, q.email, q.role, q.token, PendingInvite, q.expiresAt, None, None,
                                           None)
        && exists mid :: CreatedAsAsked(old(All()), mid, All(), q, ids, now)
      ensures error.Some? ==>
        && error.value == (if q.email == "" then InvalidInput else if q.house !in houses then NotFound
                           else if Conflicts(old(All()), q, now) then PendingExists else Duplicate)
        && (error.value == Duplicate ==> Taken(old(queue.Rows()), ids, InvitationKey(q.id, Created)))
    {
      Creation(All(), q, ids, now);
      hide Conflicts, Taken, Swept, Noted;
      if q.email == "" {
        return Some(InvalidInput);
      }
      if q.house !in houses {
        return Some(NotFound);
      }
      var saved, savedJobs, savedMessages := invitations, queue.jobs, queue.messages;
      ExpirePendingInvitations(q.house, now);
      if HasPendingFor(All(), q.house, q.email) || q.id in invitations || TokenTaken(All(), q.token) {
        error := Some(PendingExists);
      } else {
        invitations := invitations[q.id := NewInvitation(q)];
        error := Enqueue(q.id, Created, q.house, q.material, ids, now);
      }
      if error.Some? {
        invitations, queue.jobs, queue.messages := saved, savedJobs, savedMessages;
      }
    }

    /** An overdue invitation is marked expired, and the mark rolled back with the error. */
    method RevokeInvitation(house: nat, id: nat, ids: Ids, now: Instant) returns (error: Option<InviteError>)
      requires queue.Valid()
      modifies this`invitations, queue
      ensures queue.Valid()
      ensures match Invitations.RevokeInvitation(old(All()), house, id, ids, now)
              case Success(r) => error.None? && All() == r
              case Failure(e) => error == Some(e) && All() == old(All())
      ensures error.None? ==>
        && house in houses && id in old(invitations) && old(invitations)[id].house == house
        && if old(invitations)[id].status == RevokedInvite then All() == old(All())
           else
             && old(invitations)[id].status == PendingInvite && now <= old(invitations)[id].expiresAt
             && ClosedWith(old(All()), All(), id,
                           old(invitations)[id].(status := RevokedInvite, revokedAt := Some(now)), Revoked, ids, now)
      ensures error.Some? ==>
        && error.value == (if house !in houses then NotFound
                           else if id !in old(invitations) || old(invitations)[id].house != house then Unavailable
                           else if old(invitations)[id].status != PendingInvite || old(invitations)[id].expiresAt < now
                           then StateConflict else Duplicate)
        && (error.value == Duplicate ==> Taken(old(queue.Rows()), ids, InvitationKey(id, Revoked)))
    {
      Revocation(All(), house, id, ids, now);
      hide ClosedWith, Taken;
      if house !in houses {
        return Some(NotFound);
      }
      if id !in invitations || invitations[id].house != house {
        return Some(Unavailable);
      }
      var invite := invitations[id];
      if invite.status == RevokedInvite {
        return None;
      }
      if invite.status == AcceptedInvite {
        return Some(StateConflict);
      }
      var saved, savedJobs, savedMessages := invitations, queue.jobs, queue.messages;
      if invite.status == PendingInvite && invite.expiresAt < now {
        invitations := invitations[id := invite.(status := ExpiredInvite)];
        ClearInvitationDeliveryPayload(id);
        invitations, queue.jobs, queue.messages := saved, savedJobs, savedMessages;
        return Some(StateConflict);
      }
      if invite.status == ExpiredInvite {
        return Some(StateConflict);
      }
      invitations := invitations[id := invite.(status := RevokedInvite, revokedAt := Some(now))];
      ClearInvitationDeliveryPayload(id);
      error := Enqueue(id, Revoked, house, None, ids, now);
      if error.Some? {
        invitations, queue.jobs, queue.messages := saved, savedJobs, savedMessages;
      }
    }

    /** Looks the invitation up by its token; an expiry found here is marked and then rolled back. */
    method AcceptInvitation(token: nat, actor: nat, email: string, ids: Ids, now: Instant)
      returns (error: Option<InviteError>)
      requires forall i, j | i in invitations && j in invitations
               && invitations[i].token == invitations[j].token :: i == j
      requires queue.Valid()
      modifies this`invitations, this`members, queue
      ensures queue.Valid()
      ensures !TokenTaken(old(All()), token) ==> error == Some(Unavailable) && All() == old(All())
      ensures forall id | id in old(invitations) && old(invitations)[id].token == token ::
                match Invitations.AcceptInvitation(old(All()), id, token, actor, email, ids, now)
                case Success(r) => error.None? && All() == r
                case Failure(e) => error == Some(e) && All() == old(All())
      ensures forall id | id in old(invitations) && old(invitations)[id].token == token ::
                var i := old(invitations)[id];
                && (error.None? ==>
                      && i.house in houses && i.email == email
                      && (i.status == AcceptedInvite || i.status == PendingInvite))
                && (error.None? && i.status == AcceptedInvite ==>
                      All() == old(All()) && i.acceptedBy == Some(actor))
                && (error.None? && i.status == PendingInvite ==>
                      && now <= i.expiresAt
                      && members == (if (i.house, actor) in old(members) then old(members)
                                     else old(members)[(i.house, actor) := i.role])
                      && ClosedWith(old(All()), All(), id,
                                    i.(status := AcceptedInvite, acceptedBy := Some(actor), acceptedAt := Some(now)),
                                    Accepted, ids, now))
                && (error.Some? ==>
                      error.value == if i.house !in houses then NotFound
                                     else if i.email != email || i.status != PendingInvite || i.expiresAt < now
                                     then Unavailable else Duplicate)
    {
      hide ClosedWith, Taken;
      if id :| id in invitations && invitations[id].token == token {
        Acceptance(All(), id, token, actor, email, ids, now);
        var invite := invitations[id];
        if invite.house !in houses {
          return Some(NotFound);
        }
        if invite.email != email {
          return Some(Unavailable);
        }
        if invite.status == AcceptedInvite {
          return if invite.acceptedBy == Some(actor) then None else Some(Unavailable);
        }
        if invite.status == RevokedInvite || invite.status == ExpiredInvite {
          return Some(Unavailable);
        }
        var saved, savedMembers, savedJobs, savedMessages := invitations, members, queue.jobs, queue.messages;
        if invite.expiresAt < now {
          invitations := invitations[id := invite.(status := ExpiredInvite)];
          ClearInvitationDeliveryPayload(id);
          invitations, queue.jobs, queue.messages := saved, savedJobs, savedMessages;
          return Some(Unavailable);
        }
        if (invite.house, actor) !in members {
          members := members[(invite.house, actor) := invite.role];
        }
        invitations := invitations[
          id := invite.(status := AcceptedInvite, acceptedBy := Some(actor), acceptedAt := Some(now))];
        ClearInvitationDeliveryPayload(id);
        error := Enqueue(id, Accepted, invite.house, None, ids, now);
        if error.Some? {
          invitations, members := saved, savedMembers;
          queue.jobs, queue.messages := savedJobs, savedMessages;
        }
      } else {
        return Some(Unavailable);
      }
    }

    method InvitationDeliveryAvailable(id: nat, now: Instant) returns (available: bool)
      requires queue.Valid()
      modifies this`invitations, queue
      ensures queue.Valid()
      ensures (All(), available) == CheckDelivery(old(All()), id, now)
      ensures available <==>
        && id in old(invitations) && old(invitations)[id].house in houses
        && old(invitations)[id].status == PendingInvite && now <= old(invitations)[id].expiresAt
      ensures if && id in old(invitations) && old(invitations)[id].house in houses
                 && old(invitations)[id].status == PendingInvite && old(invitations)[id].expiresAt < now
              then && invitations == old(invitations)[id := old(invitations)[id].(status := ExpiredInvite)]
                   && LinkDropped(old(queue.messages), queue.messages, id)
              else All() == old(All())
    {
      Availability(All(), id, now);
      hide LinkDropped;
      if id !in invitations || invitations[id].house !in houses || invitations[id].status != PendingInvite {
        return false;
      }
      if invitations[id].expiresAt < now {
        invitations := invitations[id := invitations[id].(status := ExpiredInvite)];
        ClearInvitationDeliveryPayload(id);
        assert invitations == ExpireAll(old(All()), {id}).invitations;
        return false;
      }
      return true;
    }
  }
}
