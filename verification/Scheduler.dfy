/**
 Scheduled house events (repository/scheduler.go, saveScheduledEvent of repository/notifications.go).
 A recurrence is a finite set of instants; firing an occurrence claims the row, enqueues the
 reminders and advances to the next occurrence in one transaction.
 */
module Scheduler {
  import opened Basics
  import opened QuietHours
  import opened Notifications
  import opened NotificationStore
  import opened Announcements

  // ---- the recurrence

  predicate IsNext(occurrences: set<Instant>, after: Instant, x: Instant) {
    x in occurrences && x > after && forall y | y in occurrences && y > after :: x <= y
  }

  lemma {:induction false} NextExists(occurrences: set<Instant>, after: Instant, some: Instant)
    requires some in occurrences && some > after
    ensures exists x :: IsNext(occurrences, after, x)
    decreases occurrences
  {
    if y :| y in occurrences && y > after && y < some {
      NextExists(occurrences - {some}, after, y);
      var x :| IsNext(occurrences - {some}, after, x);
      assert x <= y;
      assert forall z | z in occurrences && z != some :: z in occurrences - {some};
      assert IsNext(occurrences, after, x);
    } else {
      assert IsNext(occurrences, after, some);
    }
  }

  /** recurrence.Next: the least occurrence strictly after the instant. */
  function Next(occurrences: set<Instant>, after: Instant): (r: Option<Instant>)
    ensures r.Some? ==> IsNext(occurrences, after, r.value)
    ensures r.None? ==> forall y | y in occurrences :: y <= after
  {
    if exists some :: some in occurrences && some > after then
      assert exists x :: IsNext(occurrences, after, x) by {
        var some :| some in occurrences && some > after;
        NextExists(occurrences, after, some);
      }
      var x :| IsNext(occurrences, after, x);
      Some(x)
    else None
  }

  function From(occurrences: set<Instant>, from: Instant): set<Instant> {
    set x | x in occurrences && x >= from
  }

  /** The occurrences from an instant on, earliest first. */
  function Listing(occurrences: set<Instant>, from: Instant): seq<Instant>
    decreases |From(occurrences, from)|
  {
    match Next(occurrences, from - 1)
    case None => []
    case Some(x) =>
      assert x in From(occurrences, from) && x !in From(occurrences, x + 1);
      Smaller(From(occurrences, x + 1), From(occurrences, from));
      [x] + Listing(occurrences, x + 1)
  }

  predicate Increasing(s: seq<Instant>) {
    forall i, j | 0 <= i < j < |s| :: s[i] < s[j]
  }

  /** The listing is strictly increasing and holds exactly the occurrences from the instant on. */
  lemma {:induction false} ListingIsExact(occurrences: set<Instant>, from: Instant)
    ensures var l := Listing(occurrences, from);
            && Increasing(l)
            && (forall x :: x in l <==> x in occurrences && x >= from)
    decreases |From(occurrences, from)|
  {
    match Next(occurrences, from - 1)
    case None =>
    case Some(x) =>
      assert x in From(occurrences, from) && x !in From(occurrences, x + 1);
      Smaller(From(occurrences, x + 1), From(occurrences, from));
      ListingIsExact(occurrences, x + 1);
      var rest := Listing(occurrences, x + 1);
      assert Listing(occurrences, from) == [x] + rest;
      hide Listing;
      assert forall i | 0 <= i < |rest| :: rest[i] in rest;
  }

  // ---- one transaction

  datatype EventRow = EventRow(
    house: nat, occurrences: set<Instant>, next: Option<Instant>, enabled: bool,
    owner: Option<string>, expires: Option<Instant>, generation: nat)

  predicate Due(row: EventRow, now: Instant) {
    row.enabled && row.next.Some? && row.next.value <= now && (row.expires.None? || row.expires.value <= now)
  }

  function ReminderOf(id: nat, row: EventRow): Event
    requires row.next.Some?
  {
    Event(row.house, Reminder, ScheduledEvent(id), row.next.value)
  }

  /** The row once its current occurrence has been enqueued. */
  function Advanced(row: EventRow): EventRow
    requires row.next.Some?
  {
    var next := Next(row.occurrences, row.next.value);
    row.(next := next, enabled := next.Some?, owner := None, expires := None, generation := row.generation + 1)
  }

  /** The row waits for its next occurrence and stays enabled, or waits for none and is switched off. */
  ghost predicate MovedOn(row: EventRow, after: EventRow) {
    && row.next.Some? && after.house == row.house && after.occurrences == row.occurrences
    && (after.next.Some? ==>
          && after.next.value in row.occurrences && after.next.value > row.next.value
          && forall y | y in row.occurrences && y > row.next.value :: after.next.value <= y)
    && (after.next.None? ==> forall y | y in row.occurrences :: y <= row.next.value)
    && (after.enabled <==> after.next.Some?)
    && after.owner.None? && after.expires.None? && after.generation == row.generation + 1
  }

  lemma {:induction false} AdvancedMovesOn(row: EventRow)
    requires row.next.Some?
    ensures MovedOn(row, Advanced(row))
  {
  }

  /** The row waits for the first of these occurrences not before `now`, and is switched on or off as asked. */
  ghost predicate Aimed(row: EventRow, occurrences: set<Instant>, enabled: bool, now: Instant) {
    && row.occurrences == occurrences && row.enabled == enabled
    && (row.next.Some? ==>
          && row.next.value in occurrences && row.next.value >= now
          && forall y | y in occurrences && y >= now :: row.next.value <= y)
    && (row.next.None? ==> forall y | y in occurrences :: y < now)
  }

  datatype Outcome = Idle | Ran | LeaseLost | Aborted

  /** Claiming needs a lease that outlives the claim's own clock reading; enqueueing needs unused ids. */
  function OutcomeOf(rows: Rows, id: nat, row: EventRow, lease: Duration, users: seq<nat>, draws: seq<Draw>): Outcome
    requires row.next.Some? && |users| == |draws|
  {
    if InsertDeliveries(rows, ReminderOf(id, row), users, draws).None? then Aborted
    else if lease > 0 then Ran
    else Outcome.LeaseLost
  }

  /** saveScheduledEvent: the first occurrence not before `now`; a lease in the row is left alone. */
  function Saved(row: EventRow, occurrences: set<Instant>, enabled: bool, now: Instant): EventRow {
    row.(occurrences := occurrences, next := Next(occurrences, now - 1), enabled := enabled)
  }

  function NewRow(house: nat, occurrences: set<Instant>, enabled: bool, now: Instant): EventRow {
    Saved(EventRow(house, {}, None, false, None, None, 0), occurrences, enabled, now)
  }

  /** Earliest next occurrence first, then lowest id, among due rows no other transaction has locked. */
  predicate IsPick(events: map<nat, EventRow>, locked: set<nat>, now: Instant, id: nat) {
    && id in events && id !in locked && Due(events[id], now)
    && forall other | other in events && other !in locked && Due(events[other], now) ::
         events[id].next.value < events[other].next.value
         || (events[id].next.value == events[other].next.value && id <= other)
  }

  class ScheduledEvents {
    const notifications: NotificationRepository
    var events: map<nat, EventRow>

    constructor (n: NotificationRepository)
      ensures notifications == n && events == map[]
    {
      notifications := n;
      events := map[];
    }

    /**
     `locked` are the rows other transactions hold and `draws` what the enqueue loop draws for each
     user; `users` is the order in which it goes through everyone who wants reminders.
     */
    method RunDueScheduledEvent(owner: string, lease: Duration, now: Instant, locked: set<nat>, draws: nat -> Draw)
      returns (outcome: Outcome, id: nat, ghost users: seq<nat>)
      requires notifications.queue.Valid()
      modifies this`events, notifications`deliveries, notifications.queue
      ensures notifications.queue.Valid()
      ensures outcome == Idle <==> forall k | k in old(events) && k !in locked :: !Due(old(events)[k], now)
      ensures outcome != Idle ==>
        && IsPick(old(events), locked, now, id)
        && Recipients(old(notifications.All()), ReminderOf(id, old(events)[id]), users)
        && outcome == OutcomeOf(old(notifications.All()), id, old(events)[id], lease, users, Drawn(users, draws))
      ensures outcome == Ran ==>
        && events == old(events)[id := Advanced(old(events)[id])]
        && Some(notifications.All())
           == InsertDeliveries(old(notifications.All()), ReminderOf(id, old(events)[id]), users, Drawn(users, draws))
      ensures outcome != Ran ==> events == old(events) && notifications.All() == old(notifications.All())
      ensures outcome == Idle <==> forall k | k in old(events) && k !in locked ::
        var row := old(events)[k];
        || !row.enabled || row.next.None? || now < row.next.value || (row.expires.Some? && now < row.expires.value)
      ensures outcome != Idle ==>
        && (forall k | k in old(events) && k !in locked && k != id && Due(old(events)[k], now) ::
              || old(events)[id].next.value < old(events)[k].next.value
              || (old(events)[id].next.value == old(events)[k].next.value && id < k))
        && (outcome == Outcome.LeaseLost ==> lease <= 0) && (outcome == Ran ==> lease > 0)
      ensures outcome == Ran ==>
        && events.Keys == old(events).Keys && (forall k | k in events && k != id :: events[k] == old(events)[k])
        && MovedOn(old(events)[id], events[id])
        && Announced(old(notifications.All()), notifications.All(),
                     Event(old(events)[id].house, Reminder, Resource.ScheduledEvent(id), old(events)[id].next.value),
                     users, Drawn(users, draws))
    {
      hide Announced, Blocked, Notified, DistinctDraws, MovedOn, Next, Recipients, InsertDeliveries;
      users := [];
      var pick := SelectDue(now, locked);
      if pick.None? {
        return Idle, 0, users;
      }
      id := pick.value;
      var queue := notifications.queue;
      var saved, savedJobs, savedMessages, savedDeliveries := events, queue.jobs, queue.messages,
          notifications.deliveries;
      var row := events[id];
      events := events[id := row.(owner := Some(owner), expires := Some(now + lease),
                                  generation := row.generation + 1)];
      var generation := row.generation + 1;
      var next := Next(row.occurrences, row.next.value);
      var e := ReminderOf(id, row);
      var ok;
      ok, users := notifications.EnqueueTx(e, draws);
      if !ok {
        events := saved;
        return Aborted, id, users;
      }
      var claimed := events[id];
      if claimed.owner == Some(owner) && claimed.generation == generation && claimed.expires.Some?
          && claimed.expires.value > now {
        AdvancedMovesOn(row);
        events := events[id := claimed.(next := next, enabled := next.Some?, owner := None, expires := None)];
        return Ran, id, users;
      }
      events, queue.jobs, queue.messages, notifications.deliveries := saved, savedJobs, savedMessages, savedDeliveries;
      return Outcome.LeaseLost, id, users;
    }

    method SelectDue(now: Instant, locked: set<nat>) returns (pick: Option<nat>)
      ensures pick.None? <==> forall k | k in events && k !in locked :: !Due(events[k], now)
      ensures pick.Some? ==> IsPick(events, locked, now, pick.value)
    {
      pick := None;
      var rest := events.Keys - locked;
      while rest != {}
        invariant rest <= events.Keys - locked
        invariant pick.None? ==> forall k | k in events.Keys - locked - rest :: !Due(events[k], now)
        invariant pick.Some? ==> IsPick(events, locked + rest, now, pick.value)
        decreases |rest|
      {
        var k :| k in rest;
        rest := rest - {k};
        if Due(events[k], now) {
          if pick.None? || events[k].next.value < events[pick.value].next.value
             || (events[k].next.value == events[pick.value].next.value && k < pick.value) {
            pick := Some(k);
          }
        }
      }
      assert locked + rest == locked;
    }

    method CreateScheduledEvent(id: nat, house: nat, occurrences: set<Instant>, enabled: bool, now: Instant)
      requires id !in events
      modifies this`events
      ensures events == old(events)[id := NewRow(house, occurrences, enabled, now)]
      ensures Aimed(events[id], occurrences, enabled, now)
      ensures events[id].house == house && events[id].owner.None? && events[id].expires.None?
      ensures events[id].generation == 0
    {
      var next := Next(occurrences, now - 1);
      events := events[id := EventRow(house, occurrences, next, enabled, None, None, 0)];
    }

    method UpdateScheduledEvent(id: nat, house: nat, occurrences: set<Instant>, enabled: bool, now: Instant)
        returns (found: bool)
      modifies this`events
      ensures found <==> id in old(events) && old(events)[id].house == house
      ensures events == if found then old(events)[id := Saved(old(events)[id], occurrences, enabled, now)]
              else old(events)
      ensures found ==>
        && Aimed(events[id], occurrences, enabled, now) && events[id].house == old(events)[id].house
        && events[id].owner == old(events)[id].owner && events[id].expires == old(events)[id].expires
        && events[id].generation == old(events)[id].generation
    {
      var next := Next(occurrences, now - 1);
      if id !in events || events[id].house != house {
        return false;
      }
      events := events[id := events[id].(occurrences := occurrences, next := next, enabled := enabled)];
      return true;
    }
  }
}
