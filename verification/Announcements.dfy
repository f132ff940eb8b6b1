/** Column by column: what EnqueueTx inserts and when it fails, and what WithAuthorizedDispatch marks. */
module Announcements {
  import opened Basics
  import opened JobQueue
  import opened QuietHours
  import opened Notifications

  /** Announced to are the members who have not switched the category off; nobody starts with it off. */
  lemma {:induction false} RecipientsAreTheWilling(r: Rows, e: Event, users: seq<nat>)
    ensures Recipients(r, e, users) <==>
            && (forall i, j | 0 <= i < j < |users| :: users[i] != users[j])
            && (forall u :: u in users <==>
                  && (e.house, u) in r.members
                  && ((e.house, u) in r.preferences && e.category == ExpenseCreated ==>
                        r.preferences[(e.house, u)].expenseCreatedEnabled)
                  && ((e.house, u) in r.preferences && e.category == Reminder ==>
                        r.preferences[(e.house, u)].reminderEnabled))
  {
  }

  /** The user already has a row for the event. */
  ghost predicate Notified(r: Rows, e: Event, user: nat) {
    exists d :: d in r.deliveries
      && r.deliveries[d].house == e.house && r.deliveries[d].user == user && r.deliveries[d].category == e.category
      && r.deliveries[d].resource == e.resource && r.deliveries[d].occurrence == e.occurrence
  }

  lemma {:induction false} NotifiedIsDelivered(r: Rows, e: Event, user: nat)
    ensures HasDelivery(r, e, user) <==> Notified(r, e, user)
  {
    if HasDelivery(r, e, user) {
      var d :| d in r.deliveries && IsFor(r.deliveries[d], e, user);
    }
    if Notified(r, e, user) {
      var d :| d in r.deliveries && r.deliveries[d].house == e.house && r.deliveries[d].user == user
               && r.deliveries[d].category == e.category && r.deliveries[d].resource == e.resource
               && r.deliveries[d].occurrence == e.occurrence;
      assert IsFor(r.deliveries[d], e, user);
    }
  }

  predicate KeyFree(t: Tables, d: nat) {
    forall m | m in t.messages :: t.messages[m].key != DeliveryKey(d)
  }

  /**
   The draw has become a delivery for the user, undispatched, due when the user's own preferences allow
   it from the event or the clock on, whichever is later, with a pending message about it and a job of
   eight attempts.
   */
  predicate NewFor(before: Rows, after: Rows, e: Event, user: nat, draw: Draw) {
    var p := if (e.house, user) in before.preferences then before.preferences[(e.house, user)]
             else Preferences(true, true, Immediate, 0, None, 480);
    var at := AvailableAt(if draw.now > e.occurrence then draw.now else e.occurrence, p);
    && draw.delivery !in before.deliveries && draw.delivery in after.deliveries
    && after.deliveries[draw.delivery]
       == Delivery(e.house, user, e.category, e.resource, e.occurrence, p.cadence, at, None)
    && (KeyFree(before.tables, draw.delivery) ==>
          && draw.message !in before.tables.messages && draw.message in after.tables.messages
          && after.tables.messages[draw.message]
             == Message(DeliveryKey(draw.delivery),
                        DeliveryNote(draw.delivery, e.house, user, p.cadence == DailyDigest), Pending, at, None, None)
          && draw.job !in before.tables.jobs && draw.job in after.tables.jobs
          && after.tables.jobs[draw.job]
             == Job(Some(draw.message), at, None, None, 0, 0, 8, None, None, None, draw.now, draw.now))
  }

  /** Rows that were there stay as they are. */
  ghost predicate Kept(before: Rows, after: Rows) {
    && after.members == before.members && after.preferences == before.preferences
    && (forall d | d in before.deliveries :: d in after.deliveries && after.deliveries[d] == before.deliveries[d])
    && (forall m | m in before.tables.messages ::
          m in after.tables.messages && after.tables.messages[m] == before.tables.messages[m])
    && (forall j | j in before.tables.jobs ::
          j in after.tables.jobs && after.tables.jobs[j] == before.tables.jobs[j])
  }

  /** Every new row is one drawn for a listed user who had none. */
  ghost predicate OnlyDrawn(before: Rows, after: Rows, e: Event, users: seq<nat>, draws: seq<Draw>)
    requires |users| == |draws|
  {
    && (forall d | d in after.deliveries && d !in before.deliveries ::
          exists i :: DrewDelivery(before, e, users, draws, i, d))
    && (forall m | m in after.tables.messages && m !in before.tables.messages ::
          exists i :: DrewMessage(before, after, e, users, draws, i, m))
    && (forall j | j in after.tables.jobs && j !in before.tables.jobs ::
          exists i :: 0 <= i < |users| && draws[i].job == j && !Notified(before, e, users[i]))
  }

  ghost predicate DrewDelivery(before: Rows, e: Event, users: seq<nat>, draws: seq<Draw>, i: int, d: nat)
    requires |users| == |draws|
  {
    0 <= i < |users| && draws[i].delivery == d && !Notified(before, e, users[i])
  }

  ghost predicate DrewMessage(before: Rows, after: Rows, e: Event, users: seq<nat>, draws: seq<Draw>, i: int, m: nat)
    requires |users| == |draws|
  {
    && 0 <= i < |users| && draws[i].message == m && !Notified(before, e, users[i])
    && m in after.tables.messages && after.tables.messages[m].key == DeliveryKey(draws[i].delivery)
    && draws[i].delivery in after.deliveries
  }

  lemma {:induction false} OneInserted(r: Rows, e: Event, user: nat, draw: Draw)
    requires InsertDelivery(r, e, user, draw).Some?
    ensures var done := InsertDelivery(r, e, user, draw).value;
            && Kept(r, done)
            && (if Notified(r, e, user) then done == r else NewFor(r, done, e, user, draw))
            && done.deliveries.Keys <= r.deliveries.Keys + {draw.delivery}
            && done.tables.messages.Keys <= r.tables.messages.Keys + {draw.message}
            && done.tables.jobs.Keys <= r.tables.jobs.Keys + {draw.job}
            && (draw.message in done.tables.messages && draw.message !in r.tables.messages ==>
                  && done.tables.messages[draw.message].key == DeliveryKey(draw.delivery)
                  && draw.delivery in done.deliveries && !Notified(r, e, user))
  {
    NotifiedIsDelivered(r, e, user);
    hide AvailableAt;
  }

  lemma {:induction false} NewForLater(before: Rows, mid: Rows, after: Rows, e: Event, user: nat, draw: Draw)
    requires NewFor(before, mid, e, user, draw) && Kept(mid, after)
    ensures NewFor(before, after, e, user, draw)
  {
    hide AvailableAt;
  }

  lemma {:induction false} NewForEarlier(before: Rows, mid: Rows, after: Rows, e: Event, user: nat, draw: Draw)
    requires NewFor(mid, after, e, user, draw) && Kept(before, mid)
    requires KeyFree(before.tables, draw.delivery) ==> KeyFree(mid.tables, draw.delivery)
    ensures NewFor(before, after, e, user, draw)
  {
    hide AvailableAt;
  }

  /** Everyone listed had a row or got one. */
  ghost predicate EachServed(before: Rows, after: Rows, e: Event, users: seq<nat>, draws: seq<Draw>)
    requires |users| == |draws|
  {
    forall i | 0 <= i < |users| :: Notified(before, e, users[i]) || NewFor(before, after, e, users[i], draws[i])
  }

  ghost predicate Announced(before: Rows, after: Rows, e: Event, users: seq<nat>, draws: seq<Draw>)
    requires |users| == |draws|
  {
    Kept(before, after) && EachServed(before, after, e, users, draws) && OnlyDrawn(before, after, e, users, draws)
  }

  lemma {:induction false} OthersNotNotified(r: Rows, done: Rows, e: Event, users: seq<nat>, draws: seq<Draw>,
                                             user: nat)
    requires |users| == |draws| && Announced(r, done, e, users, draws) && user !in users
    ensures Notified(done, e, user) <==> Notified(r, e, user)
  {
    hide AvailableAt;
    if Notified(r, e, user) {
      NotifiedStays(r, done, e, user);
    }
    if Notified(done, e, user) {
      NotifiedIsDelivered(done, e, user);
      var d :| d in done.deliveries && IsFor(done.deliveries[d], e, user);
      assert forall i | 0 <= i < |users| && draws[i].delivery == d ::
          Notified(r, e, users[i]) || done.deliveries[d].user == users[i];
      assert d in r.deliveries;
      NotifiedIsDelivered(r, e, user);
    }
  }

  lemma {:induction false} NotifiedStays(r: Rows, done: Rows, e: Event, user: nat)
    requires Kept(r, done) && Notified(r, e, user)
    ensures Notified(done, e, user)
  {
    NotifiedIsDelivered(r, e, user);
    var d :| d in r.deliveries && IsFor(r.deliveries[d], e, user);
    assert IsFor(done.deliveries[d], e, user);
    NotifiedIsDelivered(done, e, user);
  }

  lemma {:induction false} KeyStaysFree(r: Rows, done: Rows, e: Event, users: seq<nat>, draws: seq<Draw>, d: nat)
    requires |users| == |draws| && OnlyDrawn(r, done, e, users, draws) && Kept(r, done) && d !in done.deliveries
    ensures KeyFree(r.tables, d) <==> KeyFree(done.tables, d)
  {
    if KeyFree(r.tables, d) {
      forall m | m in done.tables.messages
        ensures done.tables.messages[m].key != DeliveryKey(d)
      {
        if m !in r.tables.messages {
          var i :| DrewMessage(r, done, e, users, draws, i, m);
        }
      }
    }
    if KeyFree(done.tables, d) {
      forall m | m in r.tables.messages
        ensures r.tables.messages[m].key != DeliveryKey(d)
      {
        assert done.tables.messages[m] == r.tables.messages[m];
      }
    }
  }

  /**
   A committed announcement gives each listed user without a row for the event exactly one, as drawn for
   that user, and does nothing else.
   */
  lemma {:induction false} WhatIsAnnounced(r: Rows, e: Event, users: seq<nat>, draws: seq<Draw>)
    requires |users| == |draws| && InsertDeliveries(r, e, users, draws).Some?
    requires forall i, j | 0 <= i < j < |users| :: users[i] != users[j]
    ensures Announced(r, InsertDeliveries(r, e, users, draws).value, e, users, draws)
  {
    if users != [] {
      var n := |users| - 1;
      WhatIsAnnounced(r, e, users[..n], draws[..n]);
      var mid := InsertDeliveries(r, e, users[..n], draws[..n]).value;
      var done := InsertDeliveries(r, e, users, draws).value;
      OneInserted(mid, e, users[n], draws[n]);
      OthersNotNotified(r, mid, e, users[..n], draws[..n], users[n]);
      if !Notified(mid, e, users[n]) {
        KeyStaysFree(r, mid, e, users[..n], draws[..n], draws[n].delivery);
      }
      OneMoreAnnounced(r, mid, done, e, users, draws);
    }
  }

  lemma {:induction false} OneMoreAnnounced(r: Rows, mid: Rows, done: Rows, e: Event, users: seq<nat>, draws: seq<Draw>)
    requires |users| == |draws| > 0
    requires var n := |users| - 1;
             && Announced(r, mid, e, users[..n], draws[..n]) && Kept(mid, done)
             && (Notified(mid, e, users[n]) <==> Notified(r, e, users[n]))
             && (if Notified(mid, e, users[n]) then done == mid
                 else && NewFor(mid, done, e, users[n], draws[n])
                      && (KeyFree(r.tables, draws[n].delivery) ==> KeyFree(mid.tables, draws[n].delivery)))
             && done.deliveries.Keys <= mid.deliveries.Keys + {draws[n].delivery}
             && done.tables.messages.Keys <= mid.tables.messages.Keys + {draws[n].message}
             && done.tables.jobs.Keys <= mid.tables.jobs.Keys + {draws[n].job}
             && (draws[n].message in done.tables.messages && draws[n].message !in mid.tables.messages ==>
                   && done.tables.messages[draws[n].message].key == DeliveryKey(draws[n].delivery)
                   && draws[n].delivery in done.deliveries && !Notified(mid, e, users[n]))
    ensures Announced(r, done, e, users, draws)
  {
    hide Notified, NewFor, KeyFree;
    var n := |users| - 1;
    forall i | 0 <= i < |users|
      ensures Notified(r, e, users[i]) || NewFor(r, done, e, users[i], draws[i])
    {
      if i < n {
        assert users[..n][i] == users[i] && draws[..n][i] == draws[i];
        if NewFor(r, mid, e, users[i], draws[i]) {
          NewForLater(r, mid, done, e, users[i], draws[i]);
        }
      } else if !Notified(mid, e, users[n]) {
        NewForEarlier(r, mid, done, e, users[n], draws[n]);
      }
    }
    OneMoreFromDraws(r, mid, done, e, users, draws);
  }

  lemma {:induction false} OneMoreFromDraws(r: Rows, mid: Rows, done: Rows, e: Event, users: seq<nat>, draws: seq<Draw>)
    requires |users| == |draws| > 0
    requires var n := |users| - 1;
             && OnlyDrawn(r, mid, e, users[..n], draws[..n]) && Kept(r, mid) && Kept(mid, done)
             && (Notified(r, e, users[n]) ==> done == mid)
             && done.deliveries.Keys <= mid.deliveries.Keys + {draws[n].delivery}
             && done.tables.messages.Keys <= mid.tables.messages.Keys + {draws[n].message}
             && done.tables.jobs.Keys <= mid.tables.jobs.Keys + {draws[n].job}
             && (draws[n].message in done.tables.messages && draws[n].message !in mid.tables.messages ==>
                   && done.tables.messages[draws[n].message].key == DeliveryKey(draws[n].delivery)
                   && draws[n].delivery in done.deliveries)
    ensures OnlyDrawn(r, done, e, users, draws)
  {
    hide Notified;
    var n := |users| - 1;
    forall d | d in done.deliveries && d !in r.deliveries
      ensures exists i :: DrewDelivery(r, e, users, draws, i, d)
    {
      if d in mid.deliveries {
        var i :| DrewDelivery(r, e, users[..n], draws[..n], i, d);
        assert DrewDelivery(r, e, users, draws, i, d);
      } else {
        assert DrewDelivery(r, e, users, draws, n, d);
      }
    }
    forall m | m in done.tables.messages && m !in r.tables.messages
      ensures exists i :: DrewMessage(r, done, e, users, draws, i, m)
    {
      if m in mid.tables.messages {
        var i :| DrewMessage(r, mid, e, users[..n], draws[..n], i, m);
        assert DrewMessage(r, done, e, users, draws, i, m);
      } else {
        assert DrewMessage(r, done, e, users, draws, n, m);
      }
    }
    forall j | j in done.tables.jobs && j !in r.tables.jobs
      ensures exists i :: 0 <= i < |users| && draws[i].job == j && !Notified(r, e, users[i])
    {
      if j in mid.tables.jobs {
        var i :| 0 <= i < n && draws[..n][i].job == j && !Notified(r, e, users[..n][i]);
        assert draws[i].job == j && users[i] == users[..n][i];
      } else {
        assert draws[n].job == j;
      }
    }
  }

  // ---- when it fails

  /** The id of the delivery is taken, or those of the message and job it would need. */
  predicate Blocked(r: Rows, draw: Draw) {
    || draw.delivery in r.deliveries
    || (KeyFree(r.tables, draw.delivery) && (draw.message in r.tables.messages || draw.job in r.tables.jobs))
  }

  predicate DistinctDraws(draws: seq<Draw>) {
    forall i, j | 0 <= i < j < |draws| ::
      draws[i].delivery != draws[j].delivery && draws[i].message != draws[j].message && draws[i].job != draws[j].job
  }

  lemma {:induction false} OneFailsIff(r: Rows, e: Event, user: nat, draw: Draw)
    ensures InsertDelivery(r, e, user, draw).None? <==> !Notified(r, e, user) && Blocked(r, draw)
  {
    NotifiedIsDelivered(r, e, user);
    hide Notified, AvailableAt;
  }

  lemma {:induction false} StillBlocked(r: Rows, mid: Rows, e: Event, users: seq<nat>, draws: seq<Draw>)
    requires |users| == |draws| > 0 && DistinctDraws(draws)
    requires Announced(r, mid, e, users[..|users| - 1], draws[..|users| - 1])
    ensures Blocked(mid, draws[|users| - 1]) <==> Blocked(r, draws[|users| - 1])
  {
    var n := |users| - 1;
    var draw := draws[n];
    hide NewFor, Notified;
    assert forall i | 0 <= i < n :: draws[..n][i] == draws[i];
    assert draw.delivery in mid.deliveries ==> draw.delivery in r.deliveries;
    assert draw.message in mid.tables.messages ==> draw.message in r.tables.messages;
    assert draw.job in mid.tables.jobs ==> draw.job in r.tables.jobs;
    if draw.delivery !in mid.deliveries {
      KeyStaysFree(r, mid, e, users[..n], draws[..n], draw.delivery);
    }
  }

  /** With distinct draws, the transaction aborts exactly when some user without a row drew a taken id. */
  lemma {:induction false} FailsExactlyOnTakenIds(r: Rows, e: Event, users: seq<nat>, draws: seq<Draw>)
    requires |users| == |draws| && DistinctDraws(draws)
    requires forall i, j | 0 <= i < j < |users| :: users[i] != users[j]
    ensures InsertDeliveries(r, e, users, draws).None?
       <==> exists i :: 0 <= i < |users| && !Notified(r, e, users[i]) && Blocked(r, draws[i])
  {
    if users != [] {
      var n := |users| - 1;
      FailsExactlyOnTakenIds(r, e, users[..n], draws[..n]);
      var before := InsertDeliveries(r, e, users[..n], draws[..n]);
      hide Notified, Blocked;
      if before.None? {
        var i :| 0 <= i < n && !Notified(r, e, users[..n][i]) && Blocked(r, draws[..n][i]);
        assert !Notified(r, e, users[i]) && Blocked(r, draws[i]);
      } else {
        forall i | 0 <= i < n
          ensures Notified(r, e, users[i]) || !Blocked(r, draws[i])
        {
          assert users[..n][i] == users[i] && draws[..n][i] == draws[i];
        }
        WhatIsAnnounced(r, e, users[..n], draws[..n]);
        OthersNotNotified(r, before.value, e, users[..n], draws[..n], users[n]);
        StillBlocked(r, before.value, e, users, draws);
        OneFailsIff(before.value, e, users[n], draws[n]);
      }
    }
  }

  // ---- what a dispatch marks

  /** The undispatched row of the note's member that the note names, or for a digest every such row already due. */
  predicate RowDue(row: Delivery, d: nat, note: Payload, now: Instant)
    requires note.DeliveryNote?
  {
    && row.dispatchedAt.None? && row.house == note.noteHouse && row.user == note.user
    && (if note.digest then row.cadence == DailyDigest && row.availableAt <= now else d == note.notification)
  }

  /** The member has not switched the row's category off. */
  predicate RowWanted(r: Rows, row: Delivery) {
    (row.house, row.user) in r.preferences ==>
      && (row.category == ExpenseCreated ==> r.preferences[(row.house, row.user)].expenseCreatedEnabled)
      && (row.category == Reminder ==> r.preferences[(row.house, row.user)].reminderEnabled)
  }

  /** A dispatch marks the due rows of a member and no others, and counts those among them that are wanted. */
  lemma {:induction false} DispatchMarksTheDue(r: Rows, note: Payload, now: Instant)
    requires note.DeliveryNote?
    ensures AfterDispatch(r, note, now) == r.(deliveries := AfterDispatch(r, note, now).deliveries)
    ensures AfterDispatch(r, note, now).deliveries == map d | d in r.deliveries ::
              if (note.noteHouse, note.user) in r.members && RowDue(r.deliveries[d], d, note, now)
              then r.deliveries[d].(dispatchedAt := Some(now)) else r.deliveries[d]
    ensures EnabledCount(r, note, DueRows(r, note, now))
         == |set d | d in r.deliveries && RowDue(r.deliveries[d], d, note, now) && RowWanted(r, r.deliveries[d])|
  {
    assert EnabledRows(r, note, DueRows(r, note, now))
        == set d | d in r.deliveries && RowDue(r.deliveries[d], d, note, now) && RowWanted(r, r.deliveries[d]);
  }
}
