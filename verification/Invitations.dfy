/**
 Houses, members and invitations: the transactions of repository/houses.go and
 repository/reliability.go as functions from rows to rows. A Failure rolls back
 everything the transaction did, including an expiry it had already marked.
 */
module Invitations {
  import opened Basics
  import opened JobQueue
  import W = Worker

  datatype Role = Admin | Member | Monitor

  datatype InviteStatus = PendingInvite | AcceptedInvite | RevokedInvite | ExpiredInvite

  datatype Invitation = Invitation(
    house: nat, email: string, role: Role, token: nat, status: InviteStatus, expiresAt: Instant,
    acceptedBy: Option<nat>, acceptedAt: Option<Instant>, revokedAt: Option<Instant>)

  datatype Rows = Rows(
    tables: Tables, houses: set<nat>, members: map<(nat, nat), Role>, invitations: map<nat, Invitation>)

  datatype InviteError = NotFound | InvalidInput | PendingExists | Unavailable | StateConflict | LastAdmin | Duplicate

  datatype Ids = Ids(message: nat, job: nat)

  const MAX_ATTEMPTS := 5

  // ---- houses.go

  function Admins(r: Rows, house: nat): set<(nat, nat)> {
    set k | k in r.members && k.0 == house && r.members[k] == Admin
  }

  function CreateWithAdmin(r: Rows, house: nat, user: nat): Result<Rows, InviteError> {
    if house in r.houses || (house, user) in r.members then Failure(Duplicate)
    else Success(r.(houses := r.houses + {house}, members := r.members[(house, user) := Admin]))
  }

  function UpdateMemberRole(r: Rows, house: nat, user: nat, role: Role): Result<Rows, InviteError> {
    if house !in r.houses || (house, user) !in r.members then Failure(NotFound)
    else if r.members[(house, user)] == Admin && role != Admin && |Admins(r, house)| <= 1 then Failure(LastAdmin)
    else Success(r.(members := r.members[(house, user) := role]))
  }

  function RemoveMember(r: Rows, house: nat, user: nat): Result<Rows, InviteError> {
    if house !in r.houses || (house, user) !in r.members then Failure(NotFound)
    else if r.members[(house, user)] == Admin && |Admins(r, house)| <= 1 then Failure(LastAdmin)
    else Success(r.(members := r.members - {(house, user)}))
  }

  // ---- reliability.go

  predicate Overdue(i: Invitation, house: nat, now: Instant) {
    i.house == house && i.status == PendingInvite && i.expiresAt < now
  }

  function OverdueIds(r: Rows, house: nat, now: Instant): set<nat> {
    set i | i in r.invitations && Overdue(r.invitations[i], house, now)
  }

  /** The sealed link of every listed invitation is dropped from its own message. */
  function RedactAll(messages: map<nat, Message>, invitations: set<nat>): map<nat, Message> {
    map m | m in messages ::
      if messages[m].key.InvitationKey? && messages[m].key.kind == Created && messages[m].key.invitation in invitations
      then messages[m].(payload := WithoutMaterial(messages[m].payload)) else messages[m]
  }

  function ExpireAll(r: Rows, ids: set<nat>): Rows {
    r.(invitations := map i | i in r.invitations ::
         if i in ids then r.invitations[i].(status := ExpiredInvite) else r.invitations[i],
       tables := r.tables.(messages := RedactAll(r.tables.messages, ids)))
  }

  /** expirePendingInvitations, as ListInvitations runs it. */
  function ExpirePending(r: Rows, house: nat, now: Instant): Rows {
    ExpireAll(r, OverdueIds(r, house, now))
  }

  predicate HasPendingFor(r: Rows, house: nat, email: string) {
    exists i :: i in r.invitations && r.invitations[i].status == PendingInvite
                && r.invitations[i].house == house && r.invitations[i].email == email
  }

  predicate TokenTaken(r: Rows, token: nat) {
    exists i :: i in r.invitations && r.invitations[i].token == token
  }

  function Enqueued(r: Rows, invitation: nat, kind: NoteKind, house: nat, material: Option<string>, ids: Ids,
                    now: Instant): Result<Rows, InviteError>
  {
    if !CanInsert(r.tables, ids.job, ids.message, InvitationKey(invitation, kind)) then Failure(Duplicate)
    else Success(r.(tables := Insert(r.tables, ids.job, ids.message, InvitationKey(invitation, kind),
                                     InvitationNote(invitation, house, material), now, MAX_ATTEMPTS, now)))
  }

  datatype Request = Request(id: nat, house: nat, email: string, role: Role, token: nat, expiresAt: Instant,
                             material: Option<string>)

  function NewInvitation(q: Request): Invitation {
    Invitation(q.house, q.email, q.role, q.token, PendingInvite, q.expiresAt, None, None, None)
  }

  /** `material` is the sealed acceptance link, None when no delivery cipher is configured. */
  function CreateInvitation(r: Rows, q: Request, ids: Ids, now: Instant): Result<Rows, InviteError> {
    if q.email == "" then Failure(InvalidInput)
    else if q.house !in r.houses then Failure(NotFound)
    else
      var swept := ExpirePending(r, q.house, now);
      if HasPendingFor(swept, q.house, q.email) || q.id in swept.invitations || TokenTaken(swept, q.token)
      then Failure(PendingExists)
      else Enqueued(swept.(invitations := swept.invitations[q.id := NewInvitation(q)]),
                    q.id, Created, q.house, q.material, ids, now)
  }

  /** The update of one pending invitation, with its sealed link cleared and a note about the change queued. */
  function Settled(r: Rows, id: nat, after: Invitation, kind: NoteKind, ids: Ids, now: Instant)
    : Result<Rows, InviteError>
  {
    Enqueued(r.(invitations := r.invitations[id := after],
                tables := r.tables.(messages := RedactAll(r.tables.messages, {id}))),
             id, kind, after.house, None, ids, now)
  }

  function RevokeInvitation(r: Rows, house: nat, id: nat, ids: Ids, now: Instant): Result<Rows, InviteError> {
    if house !in r.houses then Failure(NotFound)
    else if id !in r.invitations || r.invitations[id].house != house then Failure(Unavailable)
    else
      var i := r.invitations[id];
      match i.status
      case RevokedInvite => Success(r)
      case AcceptedInvite => Failure(StateConflict)
      case ExpiredInvite => Failure(StateConflict)
      case PendingInvite =>
        if i.expiresAt < now then Failure(StateConflict)
        else Settled(r, id, i.(status := RevokedInvite, revokedAt := Some(now)), Revoked, ids, now)
  }

  function AcceptInvitation(r: Rows, id: nat, token: nat, actor: nat, email: string, ids: Ids,
                            now: Instant): Result<Rows, InviteError> {
    if id !in r.invitations || r.invitations[id].token != token then Failure(Unavailable)
    else if r.invitations[id].house !in r.houses then Failure(NotFound)
    else if r.invitations[id].email != email then Failure(Unavailable)
    else
      var i := r.invitations[id];
      match i.status
      case AcceptedInvite => if i.acceptedBy == Some(actor) then Success(r) else Failure(Unavailable)
      case RevokedInvite => Failure(Unavailable)
      case ExpiredInvite => Failure(Unavailable)
      case PendingInvite =>
        if i.expiresAt < now then Failure(Unavailable)
        else
          var joined := if (i.house, actor) in r.members then r.members else r.members[(i.house, actor) := i.role];
          Settled(r.(members := joined), id,
                  i.(status := AcceptedInvite, acceptedBy := Some(actor), acceptedAt := Some(now)), Accepted, ids, now)
  }

  /** InvitationDeliveryAvailable: the one expiry inside a lookup that does commit. */
  function CheckDelivery(r: Rows, id: nat, now: Instant): (Rows, bool) {
    if id !in r.invitations || r.invitations[id].house !in r.houses
        || r.invitations[id].status != PendingInvite then (r, false)
    else if r.invitations[id].expiresAt < now then (ExpireAll(r, {id}), false)
    else (r, true)
  }
}
