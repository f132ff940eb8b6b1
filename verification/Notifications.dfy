/**
 Deliveries on top of the job queue: EnqueueTx and WithAuthorizedDispatch of
 repository/notifications.go as functions on rows, and the system in which any
 number of workers deliver them.
 */
module Notifications {
  import opened Basics
  import opened JobQueue
  import opened QuietHours
  import W = Worker

  datatype Resource = Expense(id: nat) | ScheduledEvent(event: nat)

  datatype Delivery = Delivery(
    house: nat, user: nat, category: Category, resource: Resource, occurrence: Instant,
    cadence: Cadence, availableAt: Instant, dispatchedAt: Option<Instant>)

  /** The tables a notification transaction reads and writes. */
  datatype Rows = Rows(
    tables: Tables, members: set<(nat, nat)>, preferences: map<(nat, nat), Preferences>,
    deliveries: map<nat, Delivery>)

  /** One pass of the recipient loop: the three ids it draws and the clock it reads. */
  datatype Draw = Draw(delivery: nat, message: nat, job: nat, now: Instant)

  const MAX_ATTEMPTS := 8

  function PreferencesOf(r: Rows, house: nat, user: nat): Preferences {
    if (house, user) in r.preferences then r.preferences[(house, user)] else DEFAULT_PREFERENCES
  }

  predicate CategoryEnabled(p: Preferences, category: Category) {
    match category
    case ExpenseCreated => p.expenseCreatedEnabled
    case Reminder => p.reminderEnabled
  }

  // ---- EnqueueTx

  predicate Wants(r: Rows, house: nat, user: nat, category: Category) {
    (house, user) in r.members && CategoryEnabled(PreferencesOf(r, house, user), category)
  }

  datatype Event = Event(house: nat, category: Category, resource: Resource, occurrence: Instant)

  /** The unique index: one row per house, user, category, resource and occurrence. */
  predicate IsFor(d: Delivery, e: Event, user: nat) {
    && d.house == e.house && d.user == user && d.category == e.category
    && d.resource == e.resource && d.occurrence == e.occurrence
  }

  predicate HasDelivery(r: Rows, e: Event, user: nat) {
    exists d :: d in r.deliveries && IsFor(r.deliveries[d], e, user)
  }

  function NewDelivery(r: Rows, e: Event, user: nat, now: Instant): Delivery {
    var p := PreferencesOf(r, e.house, user);
    var deliveryTime := if now > e.occurrence then now else e.occurrence;
    Delivery(e.house, user, e.category, e.resource, e.occurrence, p.cadence, AvailableAt(deliveryTime, p), None)
  }

  function NoteOf(d: nat, row: Delivery): Payload {
    DeliveryNote(d, row.house, row.user, row.cadence == DailyDigest)
  }

  predicate KeyTaken(t: Tables, key: DedupeKey) {
    exists m :: m in t.messages && t.messages[m].key == key
  }

  /** One user's share of EnqueueTx; None when an id is taken and the transaction aborts. */
  function InsertDelivery(r: Rows, e: Event, user: nat, draw: Draw): Option<Rows> {
    if HasDelivery(r, e, user) then Some(r) else
    if draw.delivery in r.deliveries then None else
    var row := NewDelivery(r, e, user, draw.now);
    var inserted := r.(deliveries := r.deliveries[draw.delivery := row]);
    var key := DeliveryKey(draw.delivery);
    if KeyTaken(r.tables, key) then Some(inserted) else
    if !CanInsert(r.tables, draw.job, draw.message, key) then None else
    Some(inserted.(tables := Insert(r.tables, draw.job, draw.message, key, NoteOf(draw.delivery, row), row.availableAt,
                                    MAX_ATTEMPTS, draw.now)))
  }

  function InsertDeliveries(r: Rows, e: Event, users: seq<nat>, draws: seq<Draw>): Option<Rows>
    requires |users| == |draws|
  {
    if users == [] then Some(r)
    else
      var n := |users| - 1;
      match InsertDeliveries(r, e, users[..n], draws[..n])
      case None => None
      case Some(done) => InsertDelivery(done, e, users[n], draws[n])
  }

  /** The query lists each member who wants the category once, in any order. */
  ghost predicate Recipients(r: Rows, e: Event, users: seq<nat>) {
    && (forall i, j | 0 <= i < j < |users| :: users[i] != users[j])
    && (forall u :: u in users <==> Wants(r, e.house, u, e.category))
  }

  // ---- WithAuthorizedDispatch

  predicate Undispatched(r: Rows, d: nat) {
    d in r.deliveries && r.deliveries[d].dispatchedAt.None?
  }

  /** The rows a dispatch locks: the one delivery, or for a digest everything due by then. */
  function DueRows(r: Rows, note: Payload, now: Instant): set<nat>
    requires note.DeliveryNote?
  {
    set d | d in r.deliveries && Undispatched(r, d)
            && r.deliveries[d].house == note.noteHouse && r.deliveries[d].user == note.user
            && (if note.digest then r.deliveries[d].cadence == DailyDigest && r.deliveries[d].availableAt <= now
                else d == note.notification)
  }

  /** The rows of a snapshot the recipient still wants to hear about. */
  function EnabledRows(r: Rows, note: Payload, ids: set<nat>): set<nat>
    requires note.DeliveryNote? && ids <= r.deliveries.Keys
  {
    set d | d in ids && CategoryEnabled(PreferencesOf(r, note.noteHouse, note.user), r.deliveries[d].category)
  }

  function EnabledCount(r: Rows, note: Payload, ids: set<nat>): nat
    requires note.DeliveryNote? && ids <= r.deliveries.Keys
  {
    |EnabledRows(r, note, ids)|
  }

  function Mark(deliveries: map<nat, Delivery>, ids: set<nat>, now: Instant): map<nat, Delivery> {
    map d | d in deliveries ::
      if d in ids then deliveries[d].(dispatchedAt := Some(now)) else deliveries[d]
  }

  /** What a committed dispatch leaves in the tables. */
  function AfterDispatch(r: Rows, note: Payload, now: Instant): Rows
    requires note.DeliveryNote?
  {
    if (note.noteHouse, note.user) !in r.members then r
    else r.(deliveries := Mark(r.deliveries, DueRows(r, note, now), now))
  }

  // ---- the system: rows, workers and what they did

  /** One committed dispatch: the rows it marked and the number its text reported. */
  datatype Dispatch = Dispatch(ids: set<nat>, total: nat)

  /**
   `trigger` names the message and job of each delivery; `cleared` holds the workers whose
   WithAuthorizedDispatch returned without error; `skipped` the deliveries it passed over
   because the recipient was not a member.
   */
  datatype System = System(
    rows: Rows, workers: map<nat, W.Local>, history: map<nat, seq<W.Attempt>>,
    trigger: map<nat, Draw>, cleared: set<nat>, skipped: set<(nat, nat, nat)>, dispatches: seq<Dispatch>)

  datatype Step =
    | Queue(step: W.Step)
    | Announce(event: Event, users: seq<nat>, draws: seq<Draw>)
    | Deliver(worker: nat, now: Instant, sent: bool)
    | Join(house: nat, user: nat)
    | Leave(house: nat, user: nat)
    | PutPreferences(house: nat, user: nat, preferences: Preferences)

  const INITIAL := System(Rows(Tables(map[], map[]), {}, map[], map[]), map[], map[], map[], {}, {}, [])

  function Core(s: System): W.System {
    W.System(s.rows.tables, s.workers, s.history)
  }

  function WithCore(s: System, core: W.System): System {
    s.(rows := s.rows.(tables := core.tables), workers := core.workers, history := core.history,
       cleared := s.cleared * core.workers.Keys)
  }

  /** A worker that has read a pending delivery note. */
  predicate HasNote(s: System, worker: nat) {
    && worker in s.workers && s.workers[worker].Looked?
    && s.workers[worker].seen.status == Pending && s.workers[worker].seen.payload.DeliveryNote?
  }

  /** dispatchNotification completes the job exactly when the dispatch returned no error. */
  predicate QueueStepAllowed(s: System, step: W.Step) {
    match step
    case Enqueue(_, _, key, payload, _, _, _) => !key.DeliveryKey? && !payload.DeliveryNote?
    case Settle(worker, call, _) => HasNote(s, worker) ==> (call.CompleteCall? <==> worker in s.cleared)
    case _ => true
  }

  function EnqueueOne(s: System, e: Event, user: nat, draw: Draw): Option<System> {
    match InsertDelivery(s.rows, e, user, draw)
    case None => None
    case Some(r) =>
      Some(s.(rows := r,
              history := if draw.job in r.tables.jobs && draw.job !in s.history then s.history[draw.job := []]
                         else s.history,
              trigger := if draw.delivery in r.deliveries && draw.delivery !in s.trigger
                         then s.trigger[draw.delivery := draw] else s.trigger))
  }

  function EnqueueAll(s: System, e: Event, users: seq<nat>, draws: seq<Draw>): Option<System>
    requires |users| == |draws|
  {
    if users == [] then Some(s)
    else
      var n := |users| - 1;
      match EnqueueAll(s, e, users[..n], draws[..n])
      case None => None
      case Some(done) => EnqueueOne(done, e, users[n], draws[n])
  }

  /** WithAuthorizedDispatch for the note a worker holds; an error leaves no trace. */
  function RunDispatch(s: System, worker: nat, now: Instant, sent: bool): System
    requires HasNote(s, worker)
  {
    var note := s.workers[worker].seen.payload;
    if (note.noteHouse, note.user) !in s.rows.members then
      s.(cleared := s.cleared + {worker},
         skipped := s.skipped + {(note.notification, note.noteHouse, note.user)})
    else
      var ids := DueRows(s.rows, note, now);
      if ids == {} then s.(cleared := s.cleared + {worker})
      else if !sent then s
      else s.(rows := AfterDispatch(s.rows, note, now),
              cleared := s.cleared + {worker},
              dispatches := s.dispatches + [Dispatch(ids, EnabledCount(s.rows, note, ids))])
  }

  ghost function Apply(s: System, step: Step): System {
    match step
    case Queue(q) => if QueueStepAllowed(s, q) then WithCore(s, W.Apply(Core(s), q)) else s
    case Announce(e, users, draws) =>
      if |users| == |draws| && Recipients(s.rows, e, users) then
        (match EnqueueAll(s, e, users, draws) case None => s case Some(done) => done)
      else s
    case Deliver(worker, now, sent) =>
      if HasNote(s, worker) && worker !in s.cleared && now >= s.workers[worker].snap.row.updatedAt
      then RunDispatch(s, worker, now, sent) else s
    case Join(house, user) => s.(rows := s.rows.(members := s.rows.members + {(house, user)}))
    case Leave(house, user) => s.(rows := s.rows.(members := s.rows.members - {(house, user)}))
    case PutPreferences(house, user, p) =>
      if Valid(p) then s.(rows := s.rows.(preferences := s.rows.preferences[(house, user) := p])) else s
  }

  ghost function Run(steps: seq<Step>): System {
    if steps == [] then INITIAL else Apply(Run(steps[..|steps| - 1]), steps[|steps| - 1])
  }
}
