/** What any interleaving of scheduler runs, edits and notification traffic fires. */
module ScheduleRuns {
  import opened Basics
  import opened QuietHours
  import opened Notifications
  import opened Scheduler
  import opened Announcements
  import D = Deliveries

  /**
   An event's history: the instant of its last save, whether that switched it on, and everything it
   fired, the last `fired[first..]` since then.
   */
  datatype Track = Track(since: Instant, on: bool, first: nat, fired: seq<Instant>)

  datatype World = World(n: System, events: map<nat, EventRow>, tracks: map<nat, Track>)

  datatype Move =
    | Fire(id: nat, lease: Duration, now: Instant, users: seq<nat>, draws: seq<Draw>)
    | Create(id: nat, house: nat, occurrences: set<Instant>, enabled: bool, now: Instant)
    | Edit(id: nat, house: nat, occurrences: set<Instant>, enabled: bool, now: Instant)
    | Delete(id: nat, house: nat)
    | Notify(step: Step)

  /** The claim may take any due row: others can be locked by transactions in flight. */
  ghost predicate CanFire(w: World, m: Move)
    requires m.Fire?
  {
    && m.id in w.events && Due(w.events[m.id], m.now) && |m.users| == |m.draws|
    && Recipients(w.n.rows, ReminderOf(m.id, w.events[m.id]), m.users)
  }

  /** The transaction commits: the ids were unused and the lease positive. */
  ghost predicate Fires(w: World, m: Move)
    requires m.Fire?
  {
    CanFire(w, m) && OutcomeOf(w.n.rows, m.id, w.events[m.id], m.lease, m.users, m.draws) == Ran
  }

  ghost function MoveOne(w: World, m: Move): World {
    match m
    case Fire(id, lease, now, users, draws) =>
      if !Fires(w, m) then w
      else
        var row := w.events[id];
        World(Apply(w.n, Announce(ReminderOf(id, row), users, draws)),
              w.events[id := Advanced(row)],
              if id !in w.tracks then w.tracks
              else w.tracks[id := w.tracks[id].(fired := w.tracks[id].fired + [row.next.value])])
    case Create(id, house, occurrences, enabled, now) =>
      if id in w.tracks then w
      else w.(events := w.events[id := NewRow(house, occurrences, enabled, now)],
              tracks := w.tracks[id := Track(now, enabled, 0, [])])
    case Edit(id, house, occurrences, enabled, now) =>
      if id !in w.events || w.events[id].house != house || id !in w.tracks then w
      else w.(events := w.events[id := Saved(w.events[id], occurrences, enabled, now)],
              tracks := w.tracks[id := w.tracks[id].(since := now, on := enabled, first := |w.tracks[id].fired|)])
    case Delete(id, house) =>
      if id in w.events && w.events[id].house == house then w.(events := w.events - {id}) else w
    case Notify(step) => w.(n := Apply(w.n, step))
  }

  ghost function History(moves: seq<Move>): World {
    if moves == [] then World(INITIAL, map[], map[])
    else MoveOne(History(moves[..|moves| - 1]), moves[|moves| - 1])
  }

  // ---- the invariant

  function Remaining(row: EventRow): seq<Instant> {
    if row.next.None? then [] else Listing(row.occurrences, row.next.value)
  }

  /** What fired since the last save, followed by what remains, is the whole listing from that save. */
  ghost predicate TrackOk(row: EventRow, t: Track) {
    && t.first <= |t.fired| && t.fired[t.first..] + Remaining(row) == Listing(row.occurrences, t.since)
    && (row.next.Some? ==> row.next.value in row.occurrences && (row.enabled <==> t.on))
    && row.generation == |t.fired| && row.owner.None? && row.expires.None?
  }

  ghost predicate Inv(w: World) {
    w.events.Keys <= w.tracks.Keys && forall id | id in w.events :: TrackOk(w.events[id], w.tracks[id])
  }

  lemma {:induction false} SavedKeepsTrack(row: EventRow, t: Track, occurrences: set<Instant>, enabled: bool,
                                           now: Instant)
    requires row.generation == |t.fired| && row.owner.None? && row.expires.None?
    ensures TrackOk(Saved(row, occurrences, enabled, now), t.(since := now, on := enabled, first := |t.fired|))
  {
  }

  lemma {:induction false} ListingStartsAt(occurrences: set<Instant>, x: Instant)
    requires x in occurrences
    ensures var next := Next(occurrences, x);
            Listing(occurrences, x) == [x] + if next.None? then [] else Listing(occurrences, next.value)
  {
  }

  lemma {:induction false} AdvancedKeepsTrack(row: EventRow, t: Track)
    requires TrackOk(row, t) && row.next.Some? && row.enabled
    ensures TrackOk(Advanced(row), t.(fired := t.fired + [row.next.value]))
    ensures Remaining(row) == [row.next.value] + Remaining(Advanced(row))
  {
    hide Listing;
    var x := row.next.value;
    ListingStartsAt(row.occurrences, x);
    var done, rest := t.fired[t.first..], Remaining(Advanced(row));
    assert (t.fired + [x])[t.first..] == done + [x];
    assert done + ([x] + rest) == (done + [x]) + rest;
  }

  lemma {:induction false} MoveKeeps(w: World, m: Move)
    requires Inv(w)
    ensures Inv(MoveOne(w, m))
  {
    hide TrackOk, Advanced, Saved, Apply, Recipients;
    match m
    case Fire(id, _, _, _, _) =>
      if Fires(w, m) {
        AdvancedKeepsTrack(w.events[id], w.tracks[id]);
      }
    case Create(id, house, occurrences, enabled, now) =>
      SavedKeepsTrack(EventRow(house, {}, None, false, None, None, 0), Track(now, enabled, 0, []), occurrences,
                      enabled, now);
    case Edit(id, house, occurrences, enabled, now) =>
      if id in w.events {
        TrackFacts(w.events[id], w.tracks[id]);
        SavedKeepsTrack(w.events[id], w.tracks[id], occurrences, enabled, now);
      }
    case Delete(_, _) =>
    case Notify(_) =>
  }

  lemma {:induction false} TrackFacts(row: EventRow, t: Track)
    requires TrackOk(row, t)
    ensures row.generation == |t.fired| && row.owner.None? && row.expires.None?
  {
  }

  lemma {:induction false} Reachable(moves: seq<Move>)
    ensures Inv(History(moves))
  {
    if moves != [] {
      Reachable(moves[..|moves| - 1]);
      MoveKeeps(History(moves[..|moves| - 1]), moves[|moves| - 1]);
    }
  }

  // ---- what fires

  /**
   Since its last save an event has fired, each once and in order, exactly the occurrences from
   that save up to the one it waits for (or all of them, once it waits for none).
   */
  lemma {:induction false} FiresInOrderEachOnce(moves: seq<Move>, id: nat)
    requires id in History(moves).events
    ensures var w := History(moves);
            && id in w.tracks
            && var row, t := w.events[id], w.tracks[id];
            && t.first <= |t.fired| && Increasing(t.fired[t.first..])
            && forall x :: x in t.fired[t.first..] <==>
                 x in row.occurrences && t.since <= x && (row.next.Some? ==> x < row.next.value)
  {
    hide MoveOne;
    Reachable(moves);
    var row, t := History(moves).events[id], History(moves).tracks[id];
    assert TrackOk(row, t);
    SplitListing(row, t);
  }

  lemma {:induction false} SplitListing(row: EventRow, t: Track)
    requires TrackOk(row, t)
    ensures Increasing(t.fired[t.first..])
    ensures forall x :: x in t.fired[t.first..] <==>
              x in row.occurrences && t.since <= x && (row.next.Some? ==> x < row.next.value)
  {
    hide Listing;
    var done, all := t.fired[t.first..], Listing(row.occurrences, t.since);
    ListingIsExact(row.occurrences, t.since);
    assert forall i | 0 <= i < |done| :: done[i] == all[i];
    if row.next.Some? {
      ListingIsExact(row.occurrences, row.next.value);
      var rest := Remaining(row);
      assert forall i | 0 <= i < |rest| :: rest[i] == all[|done| + i];
      assert row.next.value in rest;
      forall x
        ensures x in done <==> x in row.occurrences && t.since <= x < row.next.value
      {
        if x in done {
          assert x in all;
          var i :| 0 <= i < |rest| && rest[i] == row.next.value;
        }
        if x in row.occurrences && t.since <= x < row.next.value {
          assert x in all && x !in rest;
        }
      }
    } else {
      assert done + [] == done;
    }
  }

  predicate Created(moves: seq<Move>, i: int, id: nat, since: Instant, occurrences: set<Instant>) {
    0 <= i < |moves| && moves[i].Create? && moves[i].id == id && moves[i].now == since
        && moves[i].occurrences == occurrences
  }

  predicate Edited(moves: seq<Move>, i: int, id: nat) {
    0 <= i < |moves| && moves[i].Edit? && moves[i].id == id
  }

  /** An event nobody has edited started its history when it was created. */
  lemma {:induction false} UneditedStartsAtCreation(moves: seq<Move>, id: nat)
    requires id in History(moves).events && forall i :: !Edited(moves, i, id)
    ensures var w := History(moves);
            && id in w.tracks && w.tracks[id].first == 0
            && exists i :: Created(moves, i, id, w.tracks[id].since, w.events[id].occurrences)
  {
    hide Apply, Recipients, TrackOk, Fires;
    var n := |moves| - 1;
    var before := History(moves[..n]);
    Reachable(moves[..n]);
    Reachable(moves);
    assert !Edited(moves, n, id);
    if id in before.events {
      assert forall i | Edited(moves[..n], i, id) :: Edited(moves, i, id);
      UneditedStartsAtCreation(moves[..n], id);
      var i :| Created(moves[..n], i, id, before.tracks[id].since, before.events[id].occurrences);
      assert Created(moves, i, id, before.tracks[id].since, before.events[id].occurrences);
      MoveKeepsOrigin(before, moves[n], id);
    } else {
      AppearsByCreation(before, moves[n], id);
      assert Created(moves, n, id, moves[n].now, moves[n].occurrences);
    }
  }

  lemma {:induction false} AppearsByCreation(w: World, m: Move, id: nat)
    requires id !in w.events && id in MoveOne(w, m).events
    ensures m.Create? && m.id == id
    ensures id in MoveOne(w, m).tracks && MoveOne(w, m).tracks[id] == Track(m.now, m.enabled, 0, [])
    ensures MoveOne(w, m).events[id].occurrences == m.occurrences
  {
  }

  lemma {:induction false} MoveKeepsOrigin(w: World, m: Move, id: nat)
    requires id in w.events && id in w.tracks && id in MoveOne(w, m).events && !(m.Edit? && m.id == id)
    ensures id in MoveOne(w, m).tracks
    ensures var w' := MoveOne(w, m);
            && w'.tracks[id].first == w.tracks[id].first && w'.tracks[id].since == w.tracks[id].since
            && w'.events[id].occurrences == w.events[id].occurrences
  {
  }

  /**
   What is left to fire shrinks by one each time the event fires, is refilled only by an edit of
   it, and no other move touches it.
   */
  lemma {:induction false} RemainingIsAMeasure(moves: seq<Move>, m: Move, id: nat)
    requires var w := History(moves); id in w.events && id in MoveOne(w, m).events && !(m.Edit? && m.id == id)
    ensures var w := History(moves);
            |Remaining(MoveOne(w, m).events[id])|
            == |Remaining(w.events[id])| - if m.Fire? && m.id == id && Fires(w, m) then 1 else 0
  {
    Reachable(moves);
    hide History, Apply, Recipients, Listing;
    var w := History(moves);
    assert TrackOk(w.events[id], w.tracks[id]);
    if m.Fire? && m.id == id && Fires(w, m) {
      AdvancedKeepsTrack(w.events[id], w.tracks[id]);
    }
  }

  /** A due event is never held up by a lease: with unused ids, it fires exactly when its lease is positive. */
  lemma {:induction false} DueEventsCanFire(moves: seq<Move>, m: Move)
    requires m.Fire? && |m.users| == |m.draws|
    requires var w := History(moves);
             && m.id in w.events && w.events[m.id].enabled && w.events[m.id].next.Some?
                 && w.events[m.id].next.value <= m.now
             && Recipients(w.n.rows, ReminderOf(m.id, w.events[m.id]), m.users)
             && InsertDeliveries(w.n.rows, ReminderOf(m.id, w.events[m.id]), m.users, m.draws).Some?
    ensures Fires(History(moves), m) <==> m.lease > 0
  {
    Reachable(moves);
    assert TrackOk(History(moves).events[m.id], History(moves).tracks[m.id]);
  }

  // ---- an event runs as it was last saved

  /** The move is a creation or an edit of the event that takes effect. */
  predicate Saves(w: World, m: Move, id: nat) {
    || (m.Create? && m.id == id && id !in w.tracks)
    || (m.Edit? && m.id == id && id in w.events && w.events[id].house == m.house)
  }

  /** Move i is the last one that saved the event. */
  ghost predicate LastSave(moves: seq<Move>, i: int, id: nat) {
    && 0 <= i < |moves| && Saves(History(moves[..i]), moves[i], id)
    && forall j | i < j < |moves| :: !Saves(History(moves[..j]), moves[j], id)
  }

  /** What the save asked for; the event stays switched on or off as it said for as long as it waits. */
  ghost predicate AsSaved(w: World, m: Move, id: nat) {
    && (m.Create? || m.Edit?) && id in w.events && id in w.tracks
    && w.events[id].occurrences == m.occurrences && w.tracks[id].since == m.now && w.tracks[id].on == m.enabled
    && (w.events[id].next.Some? ==> w.events[id].enabled == m.enabled)
  }

  lemma {:induction false} RunsAsLastSaved(moves: seq<Move>, id: nat)
    requires id in History(moves).events
    ensures exists i :: LastSave(moves, i, id) && AsSaved(History(moves), moves[i], id)
  {
    var n := |moves| - 1;
    var before, m := History(moves[..n]), moves[n];
    Reachable(moves[..n]);
    Reachable(moves);
    assert History(moves) == MoveOne(before, m);
    hide MoveOne, Inv, Saves, History;
    SavedEnabled(History(moves), id);
    if Saves(before, m, id) {
      SaveIsRecorded(before, m, id);
      assert LastSave(moves, n, id);
    } else {
      OtherMovesLeave(before, m, id);
      RunsAsLastSaved(moves[..n], id);
      var i :| LastSave(moves[..n], i, id) && AsSaved(before, moves[..n][i], id);
      LastSaveExtends(moves, i, id);
    }
  }

  lemma {:induction false} LastSaveExtends(moves: seq<Move>, i: int, id: nat)
    requires moves != [] && LastSave(moves[..|moves| - 1], i, id)
    requires !Saves(History(moves[..|moves| - 1]), moves[|moves| - 1], id)
    ensures LastSave(moves, i, id)
  {
    hide History, Saves;
    var n := |moves| - 1;
    forall j | i < j < |moves|
      ensures !Saves(History(moves[..j]), moves[j], id)
    {
      assert j < n ==> moves[..n][..j] == moves[..j];
    }
    assert moves[..n][..i] == moves[..i];
  }

  lemma {:induction false} SavedEnabled(w: World, id: nat)
    requires Inv(w) && id in w.events
    ensures id in w.tracks && (w.events[id].next.Some? ==> w.events[id].enabled == w.tracks[id].on)
  {
    assert TrackOk(w.events[id], w.tracks[id]);
  }

  lemma {:induction false} SaveIsRecorded(w: World, m: Move, id: nat)
    requires Saves(w, m, id) && Inv(w)
    ensures var u := MoveOne(w, m);
            && id in u.events && id in u.tracks && u.events[id].occurrences == m.occurrences
            && u.tracks[id].since == m.now && u.tracks[id].on == m.enabled
  {
  }

  lemma {:induction false} OtherMovesLeave(w: World, m: Move, id: nat)
    requires Inv(w) && !Saves(w, m, id) && id in MoveOne(w, m).events
    ensures id in w.events && id in w.tracks
    ensures var u := MoveOne(w, m);
            && id in u.tracks && u.events[id].occurrences == w.events[id].occurrences
            && u.tracks[id].since == w.tracks[id].since && u.tracks[id].on == w.tracks[id].on
  {
  }

  /** The event is switched on and the occurrence it waits for has come. */
  predicate Awaits(w: World, id: nat, now: Instant) {
    && id in w.events && id in w.tracks && w.tracks[id].on
    && w.events[id].next.Some? && w.events[id].next.value <= now
  }

  lemma {:induction false} AwaitingIsDue(w: World, id: nat, now: Instant)
    requires Inv(w) && id in w.events
    ensures Due(w.events[id], now) <==> Awaits(w, id, now)
  {
    assert TrackOk(w.events[id], w.tracks[id]);
  }

  /**
   An event last saved switched on whose occurrence has come is the one the scheduler picks as soon as
   no earlier one is ahead of it, and with ids that are free it fires exactly when its lease is positive.
   */
  lemma {:induction false} SwitchedOnEventsFire(moves: seq<Move>, m: Move, locked: set<nat>, pick: nat)
    requires m.Fire? && Awaits(History(moves), m.id, m.now) && m.id !in locked
    requires var w := History(moves);
             forall k | k in w.events && k !in locked && k != m.id && Awaits(w, k, m.now) ::
               || w.events[m.id].next.value < w.events[k].next.value
               || (w.events[m.id].next.value == w.events[k].next.value && m.id < k)
    ensures IsPick(History(moves).events, locked, m.now, pick) <==> pick == m.id
    ensures var w := History(moves);
            && |m.users| == |m.draws| && DistinctDraws(m.draws)
            && Recipients(w.n.rows, ReminderOf(m.id, w.events[m.id]), m.users)
            && (forall i | 0 <= i < |m.draws| :: !Blocked(w.n.rows, m.draws[i]))
            ==> (Fires(w, m) <==> m.lease > 0)
  {
    Reachable(moves);
    var w := History(moves);
    forall k | k in w.events
      ensures Due(w.events[k], m.now) <==> Awaits(w, k, m.now)
    {
      AwaitingIsDue(w, k, m.now);
    }
    if && |m.users| == |m.draws| && DistinctDraws(m.draws)
       && Recipients(w.n.rows, ReminderOf(m.id, w.events[m.id]), m.users)
       && (forall i | 0 <= i < |m.draws| :: !Blocked(w.n.rows, m.draws[i])) {
      FailsExactlyOnTakenIds(w.n.rows, ReminderOf(m.id, w.events[m.id]), m.users, m.draws);
      hide Recipients, InsertDeliveries, Blocked, History;
    }
  }

  /** An event saved switched off fires nothing until a save switches it on. */
  lemma {:induction false} SwitchedOffEventsRest(moves: seq<Move>, more: seq<Move>, id: nat)
    requires id in History(moves).tracks && !History(moves).tracks[id].on
    requires forall j: nat | j < |more| ::
               Saves(History(moves + more[..j]), more[j], id) ==> !more[j].enabled
    ensures var w := History(moves + more);
            id in w.tracks && !w.tracks[id].on && w.tracks[id].fired == History(moves).tracks[id].fired
  {
    hide MoveOne;
    if more == [] {
      assert moves + more == moves;
    } else {
      var n := |more| - 1;
      forall j: nat | j < n
        ensures Saves(History(moves + more[..n][..j]), more[..n][j], id) ==> !more[..n][j].enabled
      {
        assert more[..n][..j] == more[..j];
      }
      SwitchedOffEventsRest(moves, more[..n], id);
      assert (moves + more)[..|moves| + n] == moves + more[..n];
      Reachable(moves + more[..n]);
      hide History;
      RestsOneMove(History(moves + more[..n]), more[n], id);
    }
  }

  lemma {:induction false} RestsOneMove(w: World, m: Move, id: nat)
    requires Inv(w) && id in w.tracks && !w.tracks[id].on && (Saves(w, m, id) ==> !m.enabled)
    ensures var u := MoveOne(w, m); id in u.tracks && !u.tracks[id].on && u.tracks[id].fired == w.tracks[id].fired
  {
    if id in w.events {
      SavedEnabled(w, id);
    }
  }

  // ---- what the recipients see

  /** Every run of the scheduler is, for the notification tables, a run of theirs. */
  lemma {:induction false} IsANotificationRun(moves: seq<Move>) returns (steps: seq<Step>)
    ensures History(moves).n == Run(steps)
  {
    if moves == [] {
      steps := [];
    } else {
      var last := moves[|moves| - 1];
      var w := History(moves[..|moves| - 1]);
      steps := IsANotificationRun(moves[..|moves| - 1]);
      var added := if last.Notify? then [last.step]
                   else if last.Fire? && Fires(w, last)
                       then [Announce(ReminderOf(last.id, w.events[last.id]), last.users, last.draws)]
                   else [];
      hide Apply, Recipients;
      if added == [] {
        assert History(moves).n == w.n;
        assert steps + [] == steps;
      } else {
        assert History(moves).n == Apply(w.n, added[0]);
        assert (steps + added)[..|steps|] == steps && (steps + added)[|steps|] == added[0];
      }
      steps := steps + added;
    }
  }

  /** Even when edits make an occurrence fire again, a user has one delivery for it. */
  lemma {:induction false} OneReminderPerOccurrence(moves: seq<Move>, a: nat, b: nat, e: Event, user: nat)
    requires var r := History(moves).n.rows;
             a in r.deliveries && b in r.deliveries && IsFor(r.deliveries[a], e, user)
                 && IsFor(r.deliveries[b], e, user)
    ensures a == b
  {
    var steps := IsANotificationRun(moves);
    D.OneDeliveryPerEvent(steps, a, b, e, user);
  }

  lemma {:induction false} StepKeepsDelivery(s: System, step: Step, e: Event, user: nat)
    requires HasDelivery(s.rows, e, user)
    ensures HasDelivery(Apply(s, step).rows, e, user)
  {
    var d :| d in s.rows.deliveries && IsFor(s.rows.deliveries[d], e, user);
    var r := Apply(s, step).rows;
    if step.Announce? && |step.users| == |step.draws| {
      D.EnqueueProjects(s, step.event, step.users, step.draws);
      if InsertDeliveries(s.rows, step.event, step.users, step.draws).Some? {
        D.EveryListedUserIsReached(s.rows, step.event, step.users, step.draws);
      }
    }
    assert d in r.deliveries && IsFor(r.deliveries[d], e, user);
  }

  lemma {:induction false} FiringReaches(w: World, m: Move, user: nat)
    requires m.Fire? && Fires(w, m) && Wants(w.n.rows, w.events[m.id].house, user, Reminder)
    ensures HasDelivery(MoveOne(w, m).n.rows, ReminderOf(m.id, w.events[m.id]), user)
  {
    var e := ReminderOf(m.id, w.events[m.id]);
    D.EnqueueProjects(w.n, e, m.users, m.draws);
    D.EveryListedUserIsReached(w.n.rows, e, m.users, m.draws);
  }

  /** Everyone who wanted reminders when an occurrence fired has a delivery for it from then on. */
  lemma {:induction false} FiredOccurrencesReachEveryone(moves: seq<Move>, k: nat, user: nat)
    requires k < |moves| && moves[k].Fire? && Fires(History(moves[..k]), moves[k])
    requires var w := History(moves[..k]); Wants(w.n.rows, w.events[moves[k].id].house, user, Reminder)
    ensures var w := History(moves[..k]);
            HasDelivery(History(moves).n.rows, ReminderOf(moves[k].id, w.events[moves[k].id]), user)
  {
    hide Apply, Recipients, HasDelivery, Wants;
    var n := |moves| - 1;
    var before := History(moves[..n]);
    if k == n {
      FiringReaches(before, moves[n], user);
    } else {
      assert moves[..n][..k] == moves[..k];
      FiredOccurrencesReachEveryone(moves[..n], k, user);
      var w := History(moves[..k]);
      var e := ReminderOf(moves[k].id, w.events[moves[k].id]);
      if moves[n].Notify? {
        StepKeepsDelivery(before.n, moves[n].step, e, user);
      } else if moves[n].Fire? && Fires(before, moves[n]) {
        StepKeepsDelivery(before.n, Announce(ReminderOf(moves[n].id, before.events[moves[n].id]), moves[n].users,
                                             moves[n].draws), e, user);
      }
    }
  }
}
