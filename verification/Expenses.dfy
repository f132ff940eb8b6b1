/**
 Splitting an expense and storing it: buildSplits and buildCustomSplits of
 handlers/expenses.go and the aggregate transactions of repository/expenses.go.
 */
module Expenses {
  import opened Basics
  import opened Balances
  import opened NotificationStore
  import opened Announcements
  import opened QuietHours
  import N = Notifications

  /** One requested share; `cents` is what moneyToCents makes of its amount, None when it refuses. */
  datatype SplitEntry = SplitEntry(user: nat, cents: Option<int>)

  datatype SplitError = NoEligibleMember | EmptySplit | NotEligible | DuplicateUser | BadAmount | WrongTotal

  /** The range of moneyToCents: tiny positive amounts round to zero. */
  predicate InRange(cents: int) {
    0 <= cents <= MAX_MONEY_CENTS
  }

  function Active(members: seq<HouseMember>): seq<nat> {
    if members == [] then []
    else Active(members[..|members| - 1]) + if members[|members| - 1].monitor then [] else [members[|members| - 1].user]
  }

  lemma {:induction false} ActiveMembers(members: seq<HouseMember>, user: nat)
    ensures user in Active(members) <==> HouseMember(user, false) in members
  {
    if members != [] {
      var n := |members| - 1;
      ActiveMembers(members[..n], user);
      assert members == members[..n] + [members[n]];
    }
  }

  lemma {:induction false} ShareSumAppend(splits: seq<Share>, s: Share)
    ensures ShareSum(splits + [s]) == ShareSum(splits) + s.cents
  {
  }

  method ListActive(members: seq<HouseMember>) returns (active: seq<nat>)
    ensures active == Active(members)
  {
    active := [];
    for i := 0 to |members|
      invariant active == Active(members[..i])
    {
      assert members[..i + 1][..i] == members[..i];
      if !members[i].monitor {
        active := active + [members[i].user];
      }
    }
    assert members[..|members|] == members;
  }

  /** Shares of two members differ by at most a cent, earlier members carrying the extra ones. */
  predicate Even(splits: seq<Share>) {
    forall i, j | 0 <= i < j < |splits| :: 0 <= splits[i].cents - splits[j].cents <= 1
  }

  /** What the first i members of n are dealt together. */
  function Dealt(i: nat, base: int, remainder: int): int {
    if i == 0 then 0 else Dealt(i - 1, base, remainder) + if i - 1 < remainder then base + 1 else base
  }

  lemma {:induction false} DealtClosedForm(i: nat, base: int, remainder: nat)
    ensures Dealt(i, base, remainder) == i * base + if i < remainder then i else remainder
  {
    if i > 0 {
      DealtClosedForm(i - 1, base, remainder);
      assert i * base == (i - 1) * base + base;
    }
  }

  lemma {:induction false} DealsEverything(amount: int, n: nat)
    requires n > 0
    ensures Dealt(n, amount / n, amount % n) == amount
  {
    DealtClosedForm(n, amount / n, amount % n);
  }

  /** An even split gives every active member a share, in order, and loses no cent. */
  method BuildEvenSplits(amount: int, members: seq<HouseMember>) returns (result: Result<seq<Share>, SplitError>)
    requires amount >= 0
    ensures result == Failure(NoEligibleMember) <==> Active(members) == []
    ensures result.Failure? ==> result.error == NoEligibleMember
    ensures result.Success? ==>
      && |result.value| == |Active(members)|
          && (forall i | 0 <= i < |result.value| :: result.value[i].user == Active(members)[i])
      && ShareSum(result.value) == amount && Even(result.value)
          && (forall i | 0 <= i < |result.value| :: result.value[i].cents >= 0)
  {
    var active := ListActive(members);
    if active == [] {
      return Failure(NoEligibleMember);
    }
    DealsEverything(amount, |active|);
    var splits := Deal(active, amount / |active|, amount % |active|);
    result := Success(splits);
  }

  method Deal(active: seq<nat>, base: int, remainder: int) returns (splits: seq<Share>)
    ensures |splits| == |active| && ShareSum(splits) == Dealt(|active|, base, remainder)
    ensures forall k | 0 <= k < |active| :: splits[k] == Share(active[k], if k < remainder then base + 1 else base)
  {
    splits := [];
    for i := 0 to |active|
      invariant |splits| == i
      invariant forall k | 0 <= k < i :: splits[k] == Share(active[k], if k < remainder then base + 1 else base)
      invariant ShareSum(splits) == Dealt(i, base, remainder)
    {
      var share := base;
      if i < remainder {
        share := share + 1;
      }
      ShareSumAppend(splits, Share(active[i], share));
      splits := splits + [Share(active[i], share)];
    }
  }

  /** buildSplits: custom when shares were requested, even otherwise. */
  method BuildSplits(amount: int, requested: seq<SplitEntry>, members: seq<HouseMember>)
    returns (result: Result<seq<Share>, SplitError>)
    requires amount >= 0
    ensures result.Success? ==> result.value != [] && ShareSum(result.value) == amount
    ensures result.Success? ==> forall i | 0 <= i < |result.value| :: result.value[i].user in Active(members)
    ensures result.Success? <==>
            if requested == [] then Active(members) != [] else Acceptable(requested, amount, members)
  {
    if requested != [] {
      result := BuildCustomSplits(amount, requested, members);
    } else {
      result := BuildEvenSplits(amount, members);
    }
  }

  // ---- custom splits

  predicate Repeats(entries: seq<SplitEntry>, i: nat)
    requires i < |entries|
  {
    exists k :: 0 <= k < i && entries[k].user == entries[i].user
  }

  /** What the handler answers about one entry, given those before it. */
  function EntryError(entries: seq<SplitEntry>, i: nat, members: seq<HouseMember>): Option<SplitError>
    requires i < |entries|
  {
    if entries[i].user !in Active(members) then Some(NotEligible)
    else if Repeats(entries, i) then Some(DuplicateUser)
    else if entries[i].cents.None? then Some(BadAmount)
    else None
  }

  function CentsOf(e: SplitEntry): int {
    if e.cents.Some? then e.cents.value else 0
  }

  function Shares(entries: seq<SplitEntry>): seq<Share> {
    seq(|entries|, i requires 0 <= i < |entries| => Share(entries[i].user, CentsOf(entries[i])))
  }

  /** A custom split is accepted exactly when it names distinct eligible members and adds up. */
  ghost predicate Acceptable(entries: seq<SplitEntry>, amount: int, members: seq<HouseMember>) {
    && entries != []
    && (forall i | 0 <= i < |entries| :: entries[i].user in Active(members) && entries[i].cents.Some?)
    && (forall i, j | 0 <= i < j < |entries| :: entries[i].user != entries[j].user)
    && ShareSum(Shares(entries)) == amount
  }

  /** Entry i is the first with an ineligible user, a user named before, or no valid amount. */
  ghost predicate FirstBad(entries: seq<SplitEntry>, i: int, members: seq<HouseMember>) {
    && 0 <= i < |entries| && Bad(entries, i, members)
    && forall k | 0 <= k < i :: !Bad(entries, k, members)
  }

  predicate Bad(entries: seq<SplitEntry>, i: int, members: seq<HouseMember>)
    requires 0 <= i < |entries|
  {
    || HouseMember(entries[i].user, false) !in members
    || (exists k :: 0 <= k < i && entries[k].user == entries[i].user) || entries[i].cents.None?
  }

  lemma {:induction false} BadIsAnError(entries: seq<SplitEntry>, i: nat, members: seq<HouseMember>)
    requires i < |entries|
    ensures EntryError(entries, i, members).Some? <==> Bad(entries, i, members)
    ensures Bad(entries, i, members) ==>
      EntryError(entries, i, members) == Some(
        if HouseMember(entries[i].user, false) !in members then NotEligible
        else if exists k :: 0 <= k < i && entries[k].user == entries[i].user then DuplicateUser
        else BadAmount)
  {
    ActiveMembers(members, entries[i].user);
  }

  method BuildCustomSplits(amount: int, entries: seq<SplitEntry>, members: seq<HouseMember>)
    returns (result: Result<seq<Share>, SplitError>)
    ensures result.Success? <==> Acceptable(entries, amount, members)
    ensures result.Success? ==> result.value == Shares(entries)
    ensures result.Failure? ==>
      || (entries == [] && result.error == EmptySplit)
      || (exists i: nat :: i < |entries| && EntryError(entries, i, members) == Some(result.error)
            && forall k: nat | k < i :: EntryError(entries, k, members).None?)
      || ((forall k: nat | k < |entries| :: EntryError(entries, k, members).None?)
            && ShareSum(Shares(entries)) != amount && result.error == WrongTotal)
    ensures result.Success? ==>
      && |result.value| == |entries| && ShareSum(result.value) == amount
      && forall i | 0 <= i < |entries| ::
           entries[i].cents.Some? && result.value[i] == Share(entries[i].user, entries[i].cents.value)
    ensures result.Failure? && entries != [] && result.error != WrongTotal ==>
      exists i :: 0 <= i < |entries| && FirstBad(entries, i, members)
        && result.error == if HouseMember(entries[i].user, false) !in members then NotEligible
                           else if exists k :: 0 <= k < i && entries[k].user == entries[i].user then DuplicateUser
                           else BadAmount
  {
    if entries == [] {
      return Failure(EmptySplit);
    }
    forall i: nat | i < |entries|
      ensures EntryError(entries, i, members).Some? <==> Bad(entries, i, members)
    {
      BadIsAnError(entries, i, members);
    }
    var active := ListActive(members);
    var eligible := set u | u in active;
    var seen: set<nat>, splits: seq<Share>, total := {}, [], 0;
    for i := 0 to |entries|
      invariant forall u :: u in seen <==> exists k :: 0 <= k < i && entries[k].user == u
      invariant forall k: nat | k < i :: EntryError(entries, k, members).None?
      invariant splits == Shares(entries[..i]) && total == ShareSum(splits)
    {
      var entry := entries[i];
      BadIsAnError(entries, i, members);
      if entry.user !in eligible {
        assert EntryError(entries, i, members) == Some(NotEligible);
        return Failure(NotEligible);
      }
      if entry.user in seen {
        assert EntryError(entries, i, members) == Some(DuplicateUser);
        return Failure(DuplicateUser);
      }
      if entry.cents.None? {
        assert EntryError(entries, i, members) == Some(BadAmount);
        return Failure(BadAmount);
      }
      total := total + entry.cents.value;
      seen := seen + {entry.user};
      ShareSumAppend(splits, Share(entry.user, entry.cents.value));
      splits := splits + [Share(entry.user, entry.cents.value)];
      assert splits == Shares(entries[..i + 1]);
    }
    assert entries[..|entries|] == entries;
    forall i, j | 0 <= i < j < |entries|
      ensures entries[i].user != entries[j].user
    {
      assert EntryError(entries, j, members).None?;
    }
    forall i | 0 <= i < |entries|
      ensures entries[i].user in Active(members) && entries[i].cents.Some?
    {
      assert EntryError(entries, i, members).None?;
    }
    if total != amount {
      return Failure(WrongTotal);
    }
    return Success(splits);
  }

  // ---- the store

  datatype StoreError = InvalidParticipant | InvalidAmount | NotFound | Duplicate

  /** Who may see an expense: everyone in the house, or the payer and the listed users. */
  datatype Visibility = Visibility(shared: bool, users: set<nat>)

  datatype Store = Store(rows: map<nat, Expense>, visible: map<nat, Visibility>)

  /** `eligible` are the members who are not monitors. */
  datatype People = People(members: set<nat>, eligible: set<nat>)

  /** Visibility users must be members, split users eligible members. */
  predicate ParticipantsOk(people: People, visibleTo: seq<nat>, splits: seq<Share>) {
    && (forall i | 0 <= i < |visibleTo| :: visibleTo[i] in people.members)
    && (forall i | 0 <= i < |splits| :: splits[i].user in people.eligible)
  }

  predicate MoneyOk(amount: int, splits: seq<Share>) {
    && amount > 0 && splits != [] && ShareSum(splits) == amount
    && forall i | 0 <= i < |splits| :: splits[i].cents >= 0
  }

  function UserSet(users: seq<nat>): set<nat> {
    set u | u in users
  }

  predicate NoRepeats(users: seq<nat>) {
    forall i, j | 0 <= i < j < |users| :: users[i] != users[j]
  }

  function CreateAggregate(store: Store, people: People, id: nat, e: Expense, shared: bool, visibleTo: seq<nat>):
    Result<Store, StoreError>
  {
    if !ParticipantsOk(people, visibleTo, e.splits) then Failure(InvalidParticipant)
    else if !MoneyOk(e.amount, e.splits) then Failure(InvalidAmount)
    else if id in store.rows || !NoRepeats(visibleTo) then Failure(Duplicate)
    else Success(Store(store.rows[id := e], store.visible[id := Visibility(shared, UserSet(visibleTo))]))
  }

  /** The amount is always written; the splits only when the request replaces them. */
  function UpdateAggregate(rows: map<nat, Expense>, people: People, id: nat, amount: int, splits: Option<seq<Share>>):
    Result<map<nat, Expense>, StoreError>
  {
    if splits.Some? && !ParticipantsOk(people, [], splits.value) then Failure(InvalidParticipant)
    else if splits.Some? && !MoneyOk(amount, splits.value) then Failure(InvalidAmount)
    else if id !in rows then Failure(NotFound)
    else
      var stored := if splits.Some? then splits.value else rows[id].splits;
      Success(rows[id := rows[id].(amount := amount, splits := stored)])
  }

  /** What a new expense announces: only a shared one, and only when notifications are configured. */
  predicate Announces(shared: bool, notifications: NotificationRepository?) {
    shared && notifications != null
  }

  class ExpenseRepository {
    const house: nat
    const notifications: NotificationRepository?
    var rows: map<nat, Expense>
    var visible: map<nat, Visibility>
    var people: People

    constructor (h: nat, n: NotificationRepository?)
      ensures house == h && notifications == n && All() == Store(map[], map[]) && people == People({}, {})
    {
      house, notifications := h, n;
      rows, visible, people := map[], map[], People({}, {});
    }

    function All(): Store
      reads this
    {
      Store(rows, visible)
    }

    /** The tables of the notification transaction a new expense joins. */
    function Tables(): set<object>
    {
      if notifications == null then {} else {notifications, notifications.queue}
    }

    method ValidateMoneyAmounts(amount: int, splits: seq<Share>) returns (ok: bool)
      ensures ok <==> MoneyOk(amount, splits)
    {
      if amount <= 0 {
        return false;
      }
      if splits == [] {
        return false;
      }
      var splitTotal := 0;
      for i := 0 to |splits|
        invariant splitTotal == ShareSum(splits[..i]) && forall k | 0 <= k < i :: splits[k].cents >= 0
      {
        if splits[i].cents < 0 {
          return false;
        }
        assert splits[..i + 1][..i] == splits[..i];
        splitTotal := splitTotal + splits[i].cents;
      }
      assert splits[..|splits|] == splits;
      return splitTotal == amount;
    }

    method ValidateParticipants(visibleTo: seq<nat>, splits: seq<Share>) returns (ok: bool)
      ensures ok <==> ParticipantsOk(people, visibleTo, splits)
    {
      for i := 0 to |visibleTo|
        invariant forall k | 0 <= k < i :: visibleTo[k] in people.members
      {
        if visibleTo[i] !in people.members {
          return false;
        }
      }
      for i := 0 to |splits|
        invariant forall k | 0 <= k < i :: splits[k].user in people.eligible
      {
        if splits[i].user !in people.eligible {
          return false;
        }
      }
      return true;
    }

    /** The inserts into expense_visibility, whose key admits each user once. */
    method InsertVisibility(id: nat, shared: bool, visibleTo: seq<nat>) returns (ok: bool)
      modifies this`visible
      ensures ok <==> NoRepeats(visibleTo)
      ensures ok ==> visible == old(visible)[id := Visibility(shared, UserSet(visibleTo))]
    {
      var users := {};
      for i := 0 to |visibleTo|
        invariant NoRepeats(visibleTo[..i]) && users == UserSet(visibleTo[..i])
      {
        assert visibleTo[..i + 1] == visibleTo[..i] + [visibleTo[i]];
        if visibleTo[i] in users {
          var k :| 0 <= k < i && visibleTo[k] == visibleTo[i];
          return false;
        }
        users := users + {visibleTo[i]};
      }
      assert visibleTo[..|visibleTo|] == visibleTo;
      visible := visible[id := Visibility(shared, users)];
      return true;
    }

    /**
     One transaction: the expense, who may see it and its splits, and for a shared expense the
     deliveries announcing it to `users`; whatever fails, none of it is kept.
     */
    method Create(id: nat, e: Expense, shared: bool, visibleTo: seq<nat>, createdAt: Instant, draws: nat -> N.Draw)
      returns (error: Option<StoreError>, ghost users: seq<nat>)
      requires notifications != null ==> notifications.queue.Valid()
      modifies this`rows, this`visible, Tables()
      ensures notifications != null ==> notifications.queue.Valid()
      ensures CreateAggregate(old(All()), people, id, e, shared, visibleTo).Failure? ==>
        error == Some(CreateAggregate(old(All()), people, id, e, shared, visibleTo).error)
      ensures error.None? ==> Success(All()) == CreateAggregate(old(All()), people, id, e, shared, visibleTo)
      ensures error.Some? ==> All() == old(All())
      ensures notifications != null && (error.Some? || !shared) ==> notifications.All() == old(notifications.All())
      ensures Announces(shared, notifications)
              && CreateAggregate(old(All()), people, id, e, shared, visibleTo).Success? ==>
        var event := N.Event(house, ExpenseCreated, N.Resource.Expense(id), createdAt);
        && N.Recipients(old(notifications.All()), event, users)
        && match N.InsertDeliveries(old(notifications.All()), event, users, Drawn(users, draws))
           case Some(r) => error.None? && notifications.All() == r
           case None => error == Some(Duplicate)
      ensures !Announces(shared, notifications)
              && CreateAggregate(old(All()), people, id, e, shared, visibleTo).Success? ==>
        error.None?
      ensures error.None? ==>
        && id !in old(rows) && rows == old(rows)[id := e] && id in visible && visible == old(visible)[id := visible[id]]
        && visible[id].shared == shared && (forall u :: u in visible[id].users <==> u in visibleTo)
        && e.amount > 0 && e.splits != [] && ShareSum(e.splits) == e.amount
        && (forall i | 0 <= i < |visibleTo| :: visibleTo[i] in people.members)
        && (forall i | 0 <= i < |e.splits| :: e.splits[i].user in people.eligible && e.splits[i].cents >= 0)
        && (forall i, j | 0 <= i < j < |visibleTo| :: visibleTo[i] != visibleTo[j])
      ensures error == Some(InvalidParticipant) <==>
        || (exists i :: 0 <= i < |visibleTo| && visibleTo[i] !in people.members)
        || (exists i :: 0 <= i < |e.splits| && e.splits[i].user !in people.eligible)
      ensures error == Some(InvalidAmount) <==>
        && error != Some(InvalidParticipant)
        && (e.amount <= 0 || e.splits == [] || ShareSum(e.splits) != e.amount
            || exists i :: 0 <= i < |e.splits| && e.splits[i].cents < 0)
      ensures error != Some(NotFound)
      ensures error == Some(Duplicate) && (notifications == null || !shared) ==>
        id in old(rows) || exists i, j :: 0 <= i < j < |visibleTo| && visibleTo[i] == visibleTo[j]
      ensures shared && notifications != null && error.None? ==>
        Announced(old(notifications.All()), notifications.All(),
                  N.Event(house, ExpenseCreated, N.Resource.Expense(id), createdAt), users, Drawn(users, draws))
    {
      hide Announced, NewFor, N.InsertDeliveries, N.Recipients;
      users := [];
      var participants := ValidateParticipants(visibleTo, e.splits);
      if !participants {
        return Some(InvalidParticipant), users;
      }
      var money := ValidateMoneyAmounts(e.amount, e.splits);
      if !money {
        return Some(InvalidAmount), users;
      }
      if id in rows {
        return Some(Duplicate), users;
      }
      var savedRows, savedVisible := rows, visible;
      rows := rows[id := e];
      var inserted := InsertVisibility(id, shared, visibleTo);
      if !inserted {
        rows, visible := savedRows, savedVisible;
        return Some(Duplicate), users;
      }
      if shared && notifications != null {
        var ok;
        ok, users := notifications.EnqueueTx(N.Event(house, ExpenseCreated, N.Resource.Expense(id), createdAt), draws);
        if !ok {
          rows, visible := savedRows, savedVisible;
          return Some(Duplicate), users;
        }
      }
      return None, users;
    }

    method Update(id: nat, amount: int, splits: Option<seq<Share>>) returns (error: Option<StoreError>)
      modifies this`rows
      ensures match UpdateAggregate(old(rows), people, id, amount, splits)
              case Success(r) => error.None? && rows == r
              case Failure(why) => error == Some(why) && rows == old(rows)
      ensures error.None? ==>
        && id in old(rows)
        && rows == old(rows)[id := Expense(old(rows)[id].payer, amount,
                                           if splits.Some? then splits.value else old(rows)[id].splits)]
      ensures error != Some(Duplicate) && (error.Some? ==> rows == old(rows))
      ensures error == Some(InvalidParticipant) <==>
        splits.Some? && exists i :: 0 <= i < |splits.value| && splits.value[i].user !in people.eligible
      ensures error == Some(InvalidAmount) <==>
        && error != Some(InvalidParticipant) && splits.Some?
        && (amount <= 0 || splits.value == [] || ShareSum(splits.value) != amount
            || exists i :: 0 <= i < |splits.value| && splits.value[i].cents < 0)
      ensures error == Some(NotFound) <==>
        error != Some(InvalidParticipant) && error != Some(InvalidAmount) && id !in old(rows)
    {
      if splits.Some? {
        var participants := ValidateParticipants([], splits.value);
        if !participants {
          return Some(InvalidParticipant);
        }
        var money := ValidateMoneyAmounts(amount, splits.value);
        if !money {
          return Some(InvalidAmount);
        }
      }
      if id !in rows {
        return Some(NotFound);
      }
      rows := rows[id := rows[id].(amount := amount)];
      if splits.Some? {
        rows := rows[id := rows[id].(splits := splits.value)];
      }
      return None;
    }
  }

  // ---- the update handler reads first and writes later

  /** A request may name a new amount, replacement splits, both or neither. */
  datatype UpdateRequest = UpdateRequest(amount: Option<int>, splits: Option<seq<Share>>)

  /** The handler's rule, applied to the row it read: a changed amount needs replacement splits. */
  function PlanUpdate(read: Expense, q: UpdateRequest): Option<int> {
    var amount := if q.amount.Some? then q.amount.value else read.amount;
    if amount != read.amount && q.splits.None? then None else Some(amount)
  }

  predicate ValidRequest(q: UpdateRequest) {
    q.amount.Some? ==> InRange(q.amount.value)
  }

  /**
   When the row may have changed since the handler read it, the update leaves a balanced row
   if and only if it brings its own splits or the amount it read is still the stored one.
   */
  lemma {:induction false} StaleUpdateBalancesIff(rows: map<nat, Expense>, people: People, id: nat, read: Expense,
                                                  q: UpdateRequest)
    requires id in rows && Stored(rows[id]) && Stored(read) && ValidRequest(q)
    requires PlanUpdate(read, q).Some?
    requires UpdateAggregate(rows, people, id, PlanUpdate(read, q).value, q.splits).Success?
    ensures Stored(UpdateAggregate(rows, people, id, PlanUpdate(read, q).value, q.splits).value[id])
       <==> q.splits.Some? || read.amount == rows[id].amount
  {
  }

  // ---- runs in which each handler call is one step

  datatype Step =
    | CreateExpense(id: nat, expense: Expense, shared: bool, visibleTo: seq<nat>)
    | UpdateExpense(id: nat, request: UpdateRequest)
    | DeleteExpense(id: nat)
    | SetPeople(people: People)

  datatype State = State(store: Store, people: People)

  const INITIAL := State(Store(map[], map[]), People({}, {}))

  function Apply(s: State, step: Step): State {
    match step
    case CreateExpense(id, e, shared, visibleTo) =>
      if !InRange(e.amount) then s
      else (match CreateAggregate(s.store, s.people, id, e, shared, visibleTo)
            case Success(r) => s.(store := r) case Failure(_) => s)
    case UpdateExpense(id, q) =>
      if id !in s.store.rows || !ValidRequest(q) || PlanUpdate(s.store.rows[id], q).None? then s
      else (match UpdateAggregate(s.store.rows, s.people, id, PlanUpdate(s.store.rows[id], q).value, q.splits)
            case Success(r) => s.(store := s.store.(rows := r)) case Failure(_) => s)
    case DeleteExpense(id) => s.(store := Store(s.store.rows - {id}, s.store.visible - {id}))
    case SetPeople(people) => s.(people := people)
  }

  function Run(steps: seq<Step>): State {
    if steps == [] then INITIAL else Apply(Run(steps[..|steps| - 1]), steps[|steps| - 1])
  }

  /** The request names a valid amount, and replacement splits that fit it wherever it changes the stored one. */
  ghost predicate UpdateFits(s: State, id: nat, q: UpdateRequest) {
    && id in s.store.rows
    && var amount := if q.amount.Some? then q.amount.value else s.store.rows[id].amount;
    && (q.amount.Some? ==> 0 <= amount <= 9_999_999_999)
    && (q.splits.None? ==> amount == s.store.rows[id].amount)
    && (q.splits.Some? ==>
          && amount > 0 && q.splits.value != [] && ShareSum(q.splits.value) == amount
          && forall i | 0 <= i < |q.splits.value| ::
               q.splits.value[i].cents >= 0 && q.splits.value[i].user in s.people.eligible)
  }

  /** An update handled without interference is carried out exactly when it fits, and changes nothing otherwise. */
  lemma {:induction false} UpdatesWhatFits(s: State, id: nat, q: UpdateRequest)
    ensures UpdateFits(s, id, q) ==>
      var row := s.store.rows[id];
      Apply(s, UpdateExpense(id, q)) == s.(store := s.store.(rows := s.store.rows[id :=
        Expense(row.payer, if q.amount.Some? then q.amount.value else row.amount,
                if q.splits.Some? then q.splits.value else row.splits)]))
    ensures !UpdateFits(s, id, q) ==> Apply(s, UpdateExpense(id, q)) == s
  {
  }

  /** Every stored expense keeps split sum = amount, so GetBalances never rejects one of them. */
  lemma {:induction false} StoredExpensesBalance(steps: seq<Step>, id: nat)
    requires id in Run(steps).store.rows
    ensures Stored(Run(steps).store.rows[id])
  {
    var s := Run(steps[..|steps| - 1]);
    if id in s.store.rows {
      StoredExpensesBalance(steps[..|steps| - 1], id);
    }
  }

  /** GetExpensesForBalance selects the shared ones. */
  predicate ForBalance(store: Store, id: nat) {
    id in store.rows && id in store.visible && store.visible[id].shared
  }

  /** So the running totals GetBalances makes of any 922,337,203 shared expenses stay inside int64. */
  lemma {:induction false} StoredBalancesFitInt64(steps: seq<Step>, ids: seq<nat>, user: nat)
    requires |ids| <= 922_337_203
    requires forall k | 0 <= k < |ids| :: ids[k] in Run(steps).store.rows && ForBalance(Run(steps).store, ids[k])
    ensures var es := seq(|ids|, k requires 0 <= k < |ids| => Run(steps).store.rows[ids[k]]);
            && (forall k | 0 <= k < |es| :: Balanced(es[k]))
            && 0 <= PaidBy(es, user) <= MAX_INT64 && 0 <= OwedBy(es, user) <= MAX_INT64
  {
    var es := seq(|ids|, k requires 0 <= k < |ids| => Run(steps).store.rows[ids[k]]);
    forall k | 0 <= k < |es|
      ensures Stored(es[k])
    {
      StoredExpensesBalance(steps, ids[k]);
    }
    BalancesFitInt64(es, user);
  }

  // ---- a stale update, step by step

  /** One member pays a euro alone, then changes the amount to two with a new split. */
  function FirstEdits(): seq<Step> {
    [SetPeople(People({1}, {1})), CreateExpense(7, Expense(1, 100, [Share(1, 100)]), true, []),
     UpdateExpense(7, UpdateRequest(Some(200), Some([Share(1, 200)])))]
  }

  lemma {:induction false} SingleShare(cents: int)
    ensures ShareSum([Share(1, cents)]) == cents
  {
    ShareSumAppend([], Share(1, cents));
    assert [] + [Share(1, cents)] == [Share(1, cents)];
  }

  lemma {:induction false} AfterCreation()
    ensures Run(FirstEdits()[..2]).people == People({1}, {1})
    ensures 7 in Run(FirstEdits()[..2]).store.rows
    ensures Run(FirstEdits()[..2]).store.rows[7] == Expense(1, 100, [Share(1, 100)])
  {
    var steps := FirstEdits();
    SingleShare(100);
    assert steps[..2][..1] == steps[..1] && steps[..1][..0] == [];
    assert Run(steps[..1]) == INITIAL.(people := People({1}, {1}));
  }

  /**
   A second update that read the row before the first one was written keeps the amount it read: it
   succeeds, and the splits no longer sum to the amount.
   */
  lemma {:induction false} StaleUpdateCanUnbalance()
    ensures var before, s := Run(FirstEdits()[..2]), Run(FirstEdits());
            var nothing := UpdateRequest(None, None);
            && 7 in before.store.rows && 7 in s.store.rows && Stored(before.store.rows[7]) && Stored(s.store.rows[7])
            && PlanUpdate(before.store.rows[7], nothing) == Some(100)
            && UpdateAggregate(s.store.rows, s.people, 7, 100, None).Success?
            && !Stored(UpdateAggregate(s.store.rows, s.people, 7, 100, None).value[7])
  {
    var steps := FirstEdits();
    AfterCreation();
    SingleShare(100);
    SingleShare(200);
    assert steps[..|steps| - 1] == steps[..2];
    assert Run(steps).store.rows[7] == Expense(1, 200, [Share(1, 200)]);
  }
}
