/** The notification transactions as they run: loops over recipients, due rows and push targets. */
module NotificationStore {
  import opened Basics
  import opened JobQueue
  import opened QuietHours
  import opened Notifications
  import opened Subscriptions
  import opened Announcements
  import JobStore

  datatype Summary = Summary(sent: seq<nat>, invalid: seq<nat>, total: nat)

  predicate Targeted(s: Subscription, note: Payload)
    requires note.DeliveryNote?
  {
    Live(s, note.noteHouse, note.user)
  }

  function TargetsOf(subscriptions: map<nat, Subscription>, note: Payload): set<nat>
    requires note.DeliveryNote?
  {
    set t | t in subscriptions && Targeted(subscriptions[t], note)
  }

  predicate Refuses(subscriptions: map<nat, Subscription>, t: nat, note: Payload, cipher: Cipher,
                    provider: nat -> Answer)
    requires note.DeliveryNote?
  {
    && t in subscriptions && Targeted(subscriptions[t], note) && Readable(cipher, subscriptions[t])
    && provider(t).Refused?
  }

  /** The first target by id that refuses. */
  ghost predicate RefusesFirst(subscriptions: map<nat, Subscription>, t: nat, note: Payload, cipher: Cipher,
                               provider: nat -> Answer)
    requires note.DeliveryNote?
  {
    && Refuses(subscriptions, t, note, cipher, provider)
    && forall u: nat | u < t :: !Refuses(subscriptions, u, note, cipher, provider)
  }

  /** Pushes go out in the order of the target ids, each target once. */
  predicate Ascending(ids: seq<nat>) {
    forall i, j | 0 <= i < j < |ids| :: ids[i] < ids[j]
  }

  lemma {:induction false} AscendingAppend(ids: seq<nat>, id: nat)
    requires Ascending(ids) && forall x | x in ids :: x < id
    ensures Ascending(ids + [id])
  {
    forall i | 0 <= i < |ids|
      ensures ids[i] < id
    {
      assert ids[i] in ids;
    }
  }

  predicate IsLeast(ids: set<nat>, t: nat) {
    t in ids && forall u | u in ids :: t <= u
  }

  lemma {:induction false} HasLeast(ids: set<nat>)
    requires ids != {}
    ensures exists t :: IsLeast(ids, t)
  {
    var x :| x in ids;
    if ids == {x} {
      assert IsLeast(ids, x);
    } else {
      HasLeast(ids - {x});
      var y :| IsLeast(ids - {x}, y);
      assert forall u | u in ids :: u == x || u in ids - {x};
      assert IsLeast(ids, if x < y then x else y);
    }
  }

  predicate AllBelow(done: set<nat>, rest: set<nat>) {
    forall t, u | t in done && u in rest :: t < u
  }

  lemma {:induction false} NoneBelow(rest: set<nat>)
    ensures AllBelow({}, rest)
  {
  }

  lemma {:induction false} NextIsAbove(done: set<nat>, rest: set<nat>, t: nat)
    requires AllBelow(done, rest) && IsLeast(rest, t)
    ensures t in rest && t !in done && AllBelow(done + {t}, rest - {t}) && forall u | u in done :: u < t
  {
    forall u, v | u in done + {t} && v in rest - {t}
      ensures u < v
    {
      assert t <= v && (u == t || u in done);
    }
  }

  lemma {:induction false} FirstToRefuse(subscriptions: map<nat, Subscription>, rest: set<nat>, t: nat, note: Payload,
                                         cipher: Cipher, provider: nat -> Answer)
    requires note.DeliveryNote? && Refuses(subscriptions, t, note, cipher, provider)
    requires IsLeast(rest, t)
    requires forall u | u in subscriptions && Targeted(subscriptions[u], note) && u !in rest ::
               !Refuses(subscriptions, u, note, cipher, provider)
    ensures RefusesFirst(subscriptions, t, note, cipher, provider)
  {
  }

  /** The subscriptions after a dispatch that reached every live target of the recipient. */
  function AllSent(subscriptions: map<nat, Subscription>, note: Payload, cipher: Cipher, provider: nat -> Answer):
    map<nat, Subscription>
    requires note.DeliveryNote?
  {
    map t | t in subscriptions ::
      if Targeted(subscriptions[t], note) then AfterSend(cipher, subscriptions[t], provider(t)) else subscriptions[t]
  }

  /** Column by column: every live target of the recipient is left as its answer demands, every other row as it was. */
  ghost predicate TargetsLeft(was: map<nat, Subscription>, now: map<nat, Subscription>, note: Payload, cipher: Cipher,
                              provider: nat -> Answer)
    requires note.DeliveryNote?
  {
    && now.Keys == was.Keys
    && forall t | t in was ::
         if was[t].house == note.noteHouse && was[t].user == note.user && !was[t].revoked
         then Left(was[t], now[t], cipher, provider(t)) else now[t] == was[t]
  }

  lemma {:induction false} AllSentLeaves(was: map<nat, Subscription>, note: Payload, cipher: Cipher,
                                         provider: nat -> Answer)
    requires note.DeliveryNote?
    ensures TargetsLeft(was, AllSent(was, note, cipher, provider), note, cipher, provider)
  {
    forall t | t in was && !was[t].revoked
      ensures Left(was[t], AfterSend(cipher, was[t], provider(t)), cipher, provider(t))
    {
      AfterSendLeaves(cipher, was[t], provider(t));
    }
    hide AfterSend, Left;
  }

  /** The loop so far: the targets done with are as their answers demand, the other rows as they were. */
  ghost predicate SentTo(was: map<nat, Subscription>, now: map<nat, Subscription>, done: set<nat>, cipher: Cipher,
                         provider: nat -> Answer)
  {
    && now.Keys == was.Keys
    && forall t | t in was :: now[t] == if t in done then AfterSend(cipher, was[t], provider(t)) else was[t]
  }

  lemma {:induction false} SentToNone(was: map<nat, Subscription>, cipher: Cipher, provider: nat -> Answer)
    ensures SentTo(was, was, {}, cipher, provider)
  {
  }

  lemma {:induction false} SentToOneMore(was: map<nat, Subscription>, now: map<nat, Subscription>, done: set<nat>,
                                         t: nat, cipher: Cipher, provider: nat -> Answer)
    requires SentTo(was, now, done, cipher, provider) && t in was && t !in done
    ensures t in now && now[t] == was[t]
    ensures SentTo(was, now[t := AfterSend(cipher, now[t], provider(t))], done + {t}, cipher, provider)
  {
    hide AfterSend;
  }

  lemma {:induction false} SentToAll(was: map<nat, Subscription>, now: map<nat, Subscription>, done: set<nat>,
                                     note: Payload, cipher: Cipher, provider: nat -> Answer)
    requires note.DeliveryNote? && done == TargetsOf(was, note)
    requires SentTo(was, now, done, cipher, provider)
    ensures now == AllSent(was, note, cipher, provider)
  {
    hide AfterSend;
  }

  /** The recipient is a member and wants at least one of the due rows. */
  predicate Reaches(r: Rows, note: Payload, now: Instant)
    requires note.DeliveryNote?
  {
    (note.noteHouse, note.user) in r.members && EnabledCount(r, note, DueRows(r, note, now)) > 0
  }

  lemma {:induction false} ReachesTheWilling(r: Rows, note: Payload, now: Instant)
    requires note.DeliveryNote?
    ensures Reaches(r, note, now) <==>
      && (note.noteHouse, note.user) in r.members
      && exists d :: d in r.deliveries && RowDue(r.deliveries[d], d, note, now) && RowWanted(r, r.deliveries[d])
  {
    DispatchMarksTheDue(r, note, now);
    var wanted := set d | d in r.deliveries && RowDue(r.deliveries[d], d, note, now) && RowWanted(r, r.deliveries[d]);
    hide RowDue, RowWanted;
    if |wanted| > 0 {
      var d :| d in wanted;
      assert d in r.deliveries;
    }
    if d :| d in r.deliveries && RowDue(r.deliveries[d], d, note, now) && RowWanted(r, r.deliveries[d]) {
      assert d in wanted;
    }
  }

  predicate Distinct(ids: seq<nat>) {
    forall i, j | 0 <= i < j < |ids| :: ids[i] != ids[j]
  }

  lemma {:induction false} DistinctAppend(ids: seq<nat>, id: nat)
    requires Distinct(ids) && id !in ids
    ensures Distinct(ids + [id])
  {
  }

  lemma {:induction false} DistinctConcat(a: seq<nat>, b: seq<nat>)
    requires Distinct(a) && Distinct(b) && forall x | x in a :: x !in b
    ensures Distinct(a + b)
  {
    forall i, j | 0 <= i < j < |a + b|
      ensures (a + b)[i] != (a + b)[j]
    {
      assert i < |a| ==> (a + b)[i] in a;
      assert j >= |a| ==> (a + b)[j] in b;
    }
  }

  /** The summary names the target as pushed to, or as unreadable. */
  predicate Reported(summary: Summary, t: nat, readable: bool) {
    t in (if readable then summary.sent else summary.invalid)
  }

  /** The summary names exactly the targets done with: the readable ones in order, and the others. */
  ghost predicate Sums(summary: Summary, was: map<nat, Subscription>, done: set<nat>, cipher: Cipher) {
    && done <= was.Keys && Ascending(summary.sent)
    && (forall t | t in summary.sent :: t in done && Readable(cipher, was[t]))
    && (forall t | t in summary.invalid :: t in done && !Readable(cipher, was[t]))
    && (forall t | t in done :: Reported(summary, t, Readable(cipher, was[t])))
  }

  function Noted(summary: Summary, t: nat, reached: bool): Summary {
    if reached then summary.(sent := summary.sent + [t]) else summary.(invalid := summary.invalid + [t])
  }

  lemma {:induction false} SumsOneMore(summary: Summary, was: map<nat, Subscription>, done: set<nat>, cipher: Cipher,
                                       t: nat)
    requires Sums(summary, was, done, cipher) && t in was && t !in done && forall u | u in done :: u < t
    ensures Sums(Noted(summary, t, Readable(cipher, was[t])), was, done + {t}, cipher)
  {
    hide Ascending, Readable;
    AscendingAppend(summary.sent, t);
  }

  lemma {:induction false} SumsNone(summary: Summary, was: map<nat, Subscription>, cipher: Cipher)
    requires summary.sent == [] && summary.invalid == []
    ensures Sums(summary, was, {}, cipher)
  {
  }

  lemma {:induction false} SumsEach(summary: Summary, was: map<nat, Subscription>, done: set<nat>, note: Payload,
                                    cipher: Cipher)
    requires note.DeliveryNote? && done == TargetsOf(was, note) && Sums(summary, was, done, cipher)
    ensures forall t | t in was && Targeted(was[t], note) :: Reported(summary, t, Readable(cipher, was[t]))
  {
  }

  lemma {:induction false} SumsWithin(summary: Summary, was: map<nat, Subscription>, done: set<nat>, note: Payload,
                                      cipher: Cipher)
    requires note.DeliveryNote? && done <= TargetsOf(was, note) && Sums(summary, was, done, cipher)
    ensures Names(summary, was, note, cipher)
  {
    hide Ascending, Readable;
  }

  /** Pushes went to readable targets in ascending order, and the targets called invalid are unreadable. */
  predicate Names(summary: Summary, was: map<nat, Subscription>, note: Payload, cipher: Cipher)
    requires note.DeliveryNote?
  {
    && Ascending(summary.sent)
    && (forall t | t in summary.sent :: t in was && Targeted(was[t], note) && Readable(cipher, was[t]))
    && (forall t | t in summary.invalid :: t in was && Targeted(was[t], note) && !Readable(cipher, was[t]))
  }

  /** What the recipient loop draws for each user of a listing. */
  function Drawn(users: seq<nat>, draws: nat -> Draw): (r: seq<Draw>)
    ensures |r| == |users|
  {
    seq(|users|, i requires 0 <= i < |users| => draws(users[i]))
  }

  lemma {:induction false} DrawnPrefix(users: seq<nat>, more: seq<nat>, draws: nat -> Draw)
    ensures Drawn(users + more, draws)[..|users|] == Drawn(users, draws) && (users + more)[..|users|] == users
  {
  }

  lemma {:induction false} NothingDrawn(r: Rows, e: Event, draws: nat -> Draw)
    ensures InsertDeliveries(r, e, [], Drawn([], draws)) == Some(r)
  {
  }

  lemma {:induction false} EmptyIsDistinct()
    ensures Distinct([])
  {
  }

  lemma {:induction false} DistinctIsPairwise(ids: seq<nat>)
    requires Distinct(ids)
    ensures forall i, j | 0 <= i < j < |ids| :: ids[i] != ids[j]
  {
  }

  lemma {:induction false} OneMoreDrawn(r: Rows, e: Event, users: seq<nat>, user: nat, draws: nat -> Draw, done: Rows)
    requires InsertDeliveries(r, e, users, Drawn(users, draws)) == Some(done)
    ensures InsertDeliveries(r, e, users + [user], Drawn(users + [user], draws)) ==
            InsertDelivery(done, e, user, draws(user))
  {
    hide InsertDelivery;
    DrawnPrefix(users, [user], draws);
  }

  /** Which users are listed, what a committed announcement did for them, and when it fails. */
  lemma {:induction false} Told(r: Rows, e: Event, users: seq<nat>, draws: nat -> Draw)
    requires Recipients(r, e, users)
    ensures forall u :: u in users <==>
      && (e.house, u) in r.members
      && ((e.house, u) in r.preferences && e.category == ExpenseCreated ==>
            r.preferences[(e.house, u)].expenseCreatedEnabled)
      && ((e.house, u) in r.preferences && e.category == Reminder ==> r.preferences[(e.house, u)].reminderEnabled)
    ensures InsertDeliveries(r, e, users, Drawn(users, draws)).Some? ==>
      Announced(r, InsertDeliveries(r, e, users, Drawn(users, draws)).value, e, users, Drawn(users, draws))
    ensures DistinctDraws(Drawn(users, draws)) ==>
      (InsertDeliveries(r, e, users, Drawn(users, draws)).None?
       <==> exists i :: 0 <= i < |users| && !Notified(r, e, users[i]) && Blocked(r, draws(users[i])))
  {
    hide InsertDeliveries, Announced, DistinctDraws, Blocked, Notified;
    RecipientsAreTheWilling(r, e, users);
    if InsertDeliveries(r, e, users, Drawn(users, draws)).Some? {
      WhatIsAnnounced(r, e, users, Drawn(users, draws));
    }
    if DistinctDraws(Drawn(users, draws)) {
      FailsExactlyOnTakenIds(r, e, users, Drawn(users, draws));
      assert forall i | 0 <= i < |users| :: Drawn(users, draws)[i] == draws(users[i]);
    }
  }

  /** Some order of a finite set. */
  lemma {:induction false} SomeOrder(ids: set<nat>) returns (order: seq<nat>)
    ensures Distinct(order) && forall x :: x in order <==> x in ids
  {
    order := [];
    var rest := ids;
    while rest != {}
      invariant rest <= ids && Distinct(order) && forall x :: x in order <==> x in ids - rest
      decreases |rest|
    {
      var x :| x in rest;
      DistinctAppend(order, x);
      order, rest := order + [x], rest - {x};
    }
  }

  const NO_CIPHER := Refusal("notification delivery encryption is not configured", None)

  class NotificationRepository {
    const queue: JobStore.ReliabilityRepository
    var members: set<(nat, nat)>
    var preferences: map<(nat, nat), Preferences>
    var deliveries: map<nat, Delivery>
    var subscriptions: map<nat, Subscription>

    function All(): Rows
      reads this, queue
    {
      Rows(queue.Rows(), members, preferences, deliveries)
    }

    constructor (q: JobStore.ReliabilityRepository)
      ensures queue == q && All() == Rows(q.Rows(), {}, map[], map[]) && subscriptions == map[]
    {
      queue := q;
      members, preferences, deliveries, subscriptions := {}, map[], map[], map[];
    }

    /**
     One transaction for everyone who wants the category, in whatever order the query lists them
     (`users`); a taken id rolls every insert back.
     */
    method EnqueueTx(e: Event, draws: nat -> Draw) returns (ok: bool, ghost users: seq<nat>)
      requires queue.Valid()
      modifies this`deliveries, queue
      ensures queue.Valid()
      ensures Recipients(old(All()), e, users)
      ensures match InsertDeliveries(old(All()), e, users, Drawn(users, draws))
              case Some(r) => ok && All() == r
              case None => !ok && All() == old(All())
      ensures forall u :: u in users <==>
        && (e.house, u) in members
        && ((e.house, u) in preferences && e.category == ExpenseCreated ==>
              preferences[(e.house, u)].expenseCreatedEnabled)
        && ((e.house, u) in preferences && e.category == Reminder ==> preferences[(e.house, u)].reminderEnabled)
      ensures ok ==> Announced(old(All()), All(), e, users, Drawn(users, draws))
      ensures DistinctDraws(Drawn(users, draws)) ==>
        (!ok <==> exists i :: 0 <= i < |users| && !Notified(old(All()), e, users[i])
                    && Blocked(old(All()), draws(users[i])))
    {
      hide InsertDelivery, InsertDeliveries, Drawn, Distinct, UniqueKeys, Announced, DistinctDraws, Blocked, Notified;
      NothingDrawn(All(), e, draws);
      var savedJobs, savedMessages, savedDeliveries := queue.jobs, queue.messages, deliveries;
      var rest := set k | k in members && Wants(All(), e.house, k.1, e.category) && k.0 == e.house :: k.1;
      users := [];
      EmptyIsDistinct();
      while rest != {}
        invariant queue.Valid() && members == old(members) && preferences == old(preferences)
        invariant Distinct(users)
        invariant forall u :: u in users || u in rest <==> Wants(old(All()), e.house, u, e.category)
        invariant forall u | u in users :: u !in rest
        invariant InsertDeliveries(old(All()), e, users, Drawn(users, draws)) == Some(All())
        decreases |rest|
      {
        var user :| user in rest;
        ghost var listed := users;
        rest, users := rest - {user}, users + [user];
        DistinctAppend(listed, user);
        OneMoreDrawn(old(All()), e, listed, user, draws, All());
        var ok := InsertOne(e, user, draws(user));
        if !ok {
          queue.jobs, queue.messages, deliveries := savedJobs, savedMessages, savedDeliveries;
          ghost var others := SomeOrder(rest);
          DistinctConcat(users, others);
          DrawnPrefix(users, others, draws);
          DistinctIsPairwise(users + others);
          AbortsAll(old(All()), e, users + others, Drawn(users + others, draws), |users|);
          Told(old(All()), e, users + others, draws);
          return false, users + others;
        }
      }
      DistinctIsPairwise(users);
      Told(old(All()), e, users, draws);
      return true, users;
    }

    /** One pass of the loop; on a false result the caller rolls back. */
    method InsertOne(e: Event, user: nat, draw: Draw) returns (ok: bool)
      requires queue.Valid()
      modifies this`deliveries, queue
      ensures queue.Valid()
      ensures match InsertDelivery(old(All()), e, user, draw)
              case Some(r) => ok && All() == r
              case None => !ok
    {
      if HasDelivery(All(), e, user) {
        return true;
      }
      if draw.delivery in deliveries {
        return false;
      }
      var row := NewDelivery(All(), e, user, draw.now);
      var key := DeliveryKey(draw.delivery);
      deliveries := deliveries[draw.delivery := row];
      if KeyTaken(queue.Rows(), key) {
        return true;
      }
      ok := queue.Enqueue(draw.job, draw.message, key, NoteOf(draw.delivery, row), row.availableAt, MAX_ATTEMPTS,
                          draw.now);
    }

    lemma {:induction false} AbortsAll(r: Rows, e: Event, users: seq<nat>, draws: seq<Draw>, n: nat)
      requires |users| == |draws| && n <= |users| && InsertDeliveries(r, e, users[..n], draws[..n]).None?
      ensures InsertDeliveries(r, e, users, draws).None?
    {
      if n == |users| {
        assert users[..n] == users && draws[..n] == draws;
      } else {
        var m := |users| - 1;
        assert users[..m][..n] == users[..n] && draws[..m][..n] == draws[..n];
        AbortsAll(r, e, users[..m], draws[..m], n);
      }
    }

    /** Tallies a locked snapshot by category and adds the tallies up. */
    method CountEnabled(note: Payload, ids: set<nat>) returns (counts: map<Category, nat>, total: nat)
      requires note.DeliveryNote? && ids <= deliveries.Keys
      ensures total == EnabledCount(All(), note, ids)
      ensures counts == map[] <==> total == 0
    {
      var r := All();
      counts := map[];
      var rest, seen := ids, {};
      while rest != {}
        invariant rest <= ids && seen == ids - rest
        invariant TotalCount(counts) == EnabledCount(r, note, seen)
        invariant forall c | c in counts :: counts[c] > 0
        decreases |rest|
      {
        var d :| d in rest;
        CountOneMore(r, note, seen, d);
        rest, seen := rest - {d}, seen + {d};
        var category := r.deliveries[d].category;
        if CategoryEnabled(PreferencesOf(r, note.noteHouse, note.user), category) {
          TallyOneMore(counts, category);
          counts := counts[category := Tally(counts, category) + 1];
        }
      }
      total := TotalCount(counts);
      assert seen == ids;
      EmptyTally(counts);
    }

    lemma {:induction false} CountOneMore(r: Rows, note: Payload, seen: set<nat>, d: nat)
      requires note.DeliveryNote? && seen <= r.deliveries.Keys && d in r.deliveries && d !in seen
      ensures EnabledCount(r, note, seen + {d}) == EnabledCount(r, note, seen)
        + if CategoryEnabled(PreferencesOf(r, note.noteHouse, note.user), r.deliveries[d].category) then 1 else 0
    {
      assert EnabledRows(r, note, seen + {d}) == EnabledRows(r, note, seen)
        + if CategoryEnabled(PreferencesOf(r, note.noteHouse, note.user), r.deliveries[d].category) then {d} else {};
    }

    function Tally(counts: map<Category, nat>, category: Category): nat {
      if category in counts then counts[category] else 0
    }

    /** totalNotificationCount: there are two categories. */
    function TotalCount(counts: map<Category, nat>): nat {
      Tally(counts, ExpenseCreated) + Tally(counts, Reminder)
    }

    lemma {:induction false} TallyOneMore(counts: map<Category, nat>, category: Category)
      ensures TotalCount(counts[category := Tally(counts, category) + 1]) == TotalCount(counts) + 1
    {
    }

    lemma {:induction false} EmptyTally(counts: map<Category, nat>)
      requires forall c | c in counts :: counts[c] > 0
      ensures counts == map[] <==> TotalCount(counts) == 0
    {
      if counts != map[] {
        var c :| c in counts;
        assert c == ExpenseCreated || c == Reminder;
      }
    }

    /**
     Sends to every live target of the recipient, by ascending id, and marks the snapshot, or fails on
     a missing cipher or the first refused target and leaves every row as it was. `sent` is the
     provider's view: pushes it accepted before a failure are not recalled.
     */
    method WithAuthorizedDispatch(note: Payload, now: Instant, cipher: Option<Cipher>, provider: nat -> Answer)
      returns (error: Option<Refusal>, summary: Summary)
      requires note.DeliveryNote?
      modifies this`deliveries, this`subscriptions
      ensures error.None? ==> All() == AfterDispatch(old(All()), note, now)
      ensures error.Some? ==> All() == old(All()) && subscriptions == old(subscriptions)
      ensures summary.sent != [] || summary.invalid != [] ==>
        (note.noteHouse, note.user) in members && cipher.Some?
      ensures cipher.Some? ==> Names(summary, old(subscriptions), note, cipher.value)
      ensures error.None? ==>
        subscriptions == (if Reaches(old(All()), note, now) && cipher.Some?
                          then AllSent(old(subscriptions), note, cipher.value, provider) else old(subscriptions))
      ensures error.None? && Reaches(old(All()), note, now) ==>
        && cipher.Some? && summary.total == EnabledCount(old(All()), note, DueRows(old(All()), note, now))
        && forall t | t in old(subscriptions) && Targeted(old(subscriptions)[t], note) ::
             Reported(summary, t, Readable(cipher.value, old(subscriptions)[t]))
      ensures error.Some? <==>
        && Reaches(old(All()), note, now)
        && (cipher.None? || exists t :: Refuses(old(subscriptions), t, note, cipher.value, provider))
      ensures error.Some? ==>
        if cipher.None? then error.value == NO_CIPHER
        else exists t ::
              RefusesFirst(old(subscriptions), t, note, cipher.value, provider) && provider(t) == Refused(error.value)
      ensures error.Some? ==> deliveries == old(deliveries)
      ensures error.None? ==>
        deliveries == map d | d in old(deliveries) ::
                if (note.noteHouse, note.user) in members && RowDue(old(deliveries)[d], d, note, now)
                then old(deliveries)[d].(dispatchedAt := Some(now)) else old(deliveries)[d]
      ensures Reaches(old(All()), note, now) <==>
        && (note.noteHouse, note.user) in members
        && exists d :: d in old(deliveries) && RowDue(old(deliveries)[d], d, note, now)
                       && RowWanted(old(All()), old(deliveries)[d])
      ensures error.None? && Reaches(old(All()), note, now) ==>
        && TargetsLeft(old(subscriptions), subscriptions, note, cipher.value, provider)
        && summary.total == |set d | d in old(deliveries) && RowDue(old(deliveries)[d], d, note, now)
                                     && RowWanted(old(All()), old(deliveries)[d])|
      ensures error.None? && !Reaches(old(All()), note, now) ==> subscriptions == old(subscriptions)
    {
      DispatchMarksTheDue(All(), note, now);
      ReachesTheWilling(All(), note, now);
      hide TargetsLeft, RowDue, RowWanted;
      summary := Summary([], [], 0);
      if (note.noteHouse, note.user) !in members {
        return None, summary;
      }
      var due := DueRows(All(), note, now);
      var counts, total := CountEnabled(note, due);
      summary := summary.(total := total);
      if counts != map[] {
        if cipher.None? {
          return Some(NO_CIPHER), summary;
        }
        var saved := subscriptions;
        error, summary := SendAll(note, cipher.value, provider, total);
        if error.Some? {
          subscriptions := saved;
          return;
        }
      }
      deliveries := Mark(deliveries, due, now);
      return None, summary;
    }

    /** Revokes a live subscription of the user and wipes its secret; anything else is not found. */
    method RevokeSubscription(house: nat, user: nat, id: nat) returns (found: bool)
      modifies this`subscriptions
      ensures found <==> id in old(subscriptions) && Live(old(subscriptions)[id], house, user)
      ensures subscriptions ==
        if found then old(subscriptions)[id := Subscription(house, user, None, true)] else old(subscriptions)
    {
      if id !in subscriptions || subscriptions[id].house != house || subscriptions[id].user != user
          || subscriptions[id].revoked {
        return false;
      }
      subscriptions := subscriptions[id := subscriptions[id].(revoked := true, sealed := None)];
      return true;
    }

    /** One target: quarantined if it cannot be read, else sealed with the current key and pushed to. */
    method SendOne(t: nat, cipher: Cipher, provider: nat -> Answer) returns (refusal: Option<Refusal>, reached: bool)
      requires t in subscriptions
      modifies this`subscriptions
      ensures reached <==> Readable(cipher, old(subscriptions)[t])
      ensures refusal == if reached && provider(t).Refused? then Some(provider(t).refusal) else None
      ensures refusal.None? ==>
            subscriptions == old(subscriptions)[t := AfterSend(cipher, old(subscriptions)[t], provider(t))]
      ensures refusal.None? && !old(subscriptions)[t].revoked ==>
            Left(old(subscriptions)[t], subscriptions[t], cipher, provider(t))
    {
      var row := subscriptions[t];
      if !Readable(cipher, row) {
        subscriptions := subscriptions[t := row.(revoked := true, sealed := None)];
        return None, false;
      }
      if row.sealed.value.key != cipher.current {
        row := row.(sealed := Some(Sealed(row.sealed.value.secret, cipher.current, true)));
        subscriptions := subscriptions[t := row];
      }
      var answer := provider(t);
      if answer.Refused? {
        return Some(answer.refusal), true;
      }
      if answer.AcceptedAndRevoke? {
        subscriptions := subscriptions[t := row.(revoked := true, sealed := None)];
      }
      return None, true;
    }

    /** The target loop: quarantine what cannot be read, seal anew what is sealed with an old key, and push. */
    method SendAll(note: Payload, cipher: Cipher, provider: nat -> Answer, total: nat)
        returns (error: Option<Refusal>, summary: Summary)
      requires note.DeliveryNote?
      modifies this`subscriptions
      ensures summary.total == total
      ensures Names(summary, old(subscriptions), note, cipher)
      ensures error.None? ==> subscriptions == AllSent(old(subscriptions), note, cipher, provider)
      ensures error.None? ==> TargetsLeft(old(subscriptions), subscriptions, note, cipher, provider)
      ensures error.None? ==> forall t | t in old(subscriptions) && Targeted(old(subscriptions)[t], note) ::
        Reported(summary, t, Readable(cipher, old(subscriptions)[t]))
      ensures error.None? ==> forall t :: !Refuses(old(subscriptions), t, note, cipher, provider)
      ensures error.Some? ==>
        exists t :: RefusesFirst(old(subscriptions), t, note, cipher, provider) && provider(t) == Refused(error.value)
    {
      hide AllBelow, RefusesFirst, AfterSend, Readable, SentTo, AllSent, IsLeast, Sums, Names, TargetsLeft, Left;
      summary := Summary([], [], total);
      ghost var done := {};
      var rest := TargetsOf(subscriptions, note);
      NoneBelow(rest);
      SentToNone(subscriptions, cipher, provider);
      SumsNone(summary, subscriptions, cipher);
      while rest != {}
        invariant done + rest == TargetsOf(old(subscriptions), note)
        invariant AllBelow(done, rest) && Sums(summary, old(subscriptions), done, cipher)
        invariant summary.total == total && SentTo(old(subscriptions), subscriptions, done, cipher, provider)
        invariant forall t | t in done :: !Refuses(old(subscriptions), t, note, cipher, provider)
        decreases |rest|
      {
        HasLeast(rest);
        var t :| IsLeast(rest, t);
        NextIsAbove(done, rest, t);
        SentToOneMore(old(subscriptions), subscriptions, done, t, cipher, provider);
        var refusal, reached := SendOne(t, cipher, provider);
        if refusal.Some? {
          assert Refuses(old(subscriptions), t, note, cipher, provider);
          assert forall u | u in old(subscriptions) && Targeted(old(subscriptions)[u], note) && u !in rest :: u in done;
          FirstToRefuse(old(subscriptions), rest, t, note, cipher, provider);
          SumsWithin(summary, old(subscriptions), done, note, cipher);
          return refusal, summary;
        }
        SumsOneMore(summary, old(subscriptions), done, cipher, t);
        if reached {
          summary := summary.(sent := summary.sent + [t]);
        } else {
          summary := summary.(invalid := summary.invalid + [t]);
        }
        rest, done := rest - {t}, done + {t};
      }
      SumsWithin(summary, old(subscriptions), done, note, cipher);
      SumsEach(summary, old(subscriptions), done, note, cipher);
      SentToAll(old(subscriptions), subscriptions, done, note, cipher, provider);
      AllSentLeaves(old(subscriptions), note, cipher, provider);
      return None, summary;
    }
  }
}
