/**
 Balances and settlements of a house: the accumulation loop of GetBalances and the
 in-place settlement loop of calculateSettlements (handlers/balances.go), in integer cents.
 */
module Balances {
  import opened Basics

  datatype Share = Share(user: nat, cents: int)

  datatype Expense = Expense(payer: nat, amount: int, splits: seq<Share>)

  datatype Balance = Balance(user: nat, net: int)

  datatype Settlement = Settlement(debtor: nat, creditor: nat, amount: int)

  datatype BalanceError = NoEligibleMembers | NoSplits | SplitMismatch

  // ---- what the loops add up to

  function ShareSum(splits: seq<Share>): int {
    if splits == [] then 0 else ShareSum(splits[..|splits| - 1]) + splits[|splits| - 1].cents
  }

  function ShareOf(splits: seq<Share>, user: nat): int {
    if splits == [] then 0
    else
      ShareOf(splits[..|splits| - 1], user)
      + if splits[|splits| - 1].user == user then splits[|splits| - 1].cents else 0
  }

  function PaidBy(es: seq<Expense>, user: nat): int {
    if es == [] then 0
    else PaidBy(es[..|es| - 1], user) + if es[|es| - 1].payer == user then es[|es| - 1].amount else 0
  }

  function OwedBy(es: seq<Expense>, user: nat): int {
    if es == [] then 0 else OwedBy(es[..|es| - 1], user) + ShareOf(es[|es| - 1].splits, user)
  }

  /** An expense adds its amount to what its payer paid, and each of its shares to what that user owes. */
  lemma {:induction false} PaidAndOwedAdd(es: seq<Expense>, e: Expense, splits: seq<Share>, s: Share, user: nat)
    ensures PaidBy([], user) == 0
    ensures PaidBy(es + [e], user) == PaidBy(es, user) + if e.payer == user then e.amount else 0
    ensures OwedBy([], user) == 0 && OwedBy(es + [e], user) == OwedBy(es, user) + ShareOf(e.splits, user)
    ensures ShareOf([], user) == 0
    ensures ShareOf(splits + [s], user) == ShareOf(splits, user) + if s.user == user then s.cents else 0
    ensures ShareSum([]) == 0 && ShareSum(splits + [s]) == ShareSum(splits) + s.cents
  {
    assert (es + [e])[..|es|] == es && (splits + [s])[..|splits|] == splits;
  }

  function NetSum(bs: seq<Balance>): int {
    if bs == [] then 0 else NetSum(bs[..|bs| - 1]) + bs[|bs| - 1].net
  }

  function Received(ss: seq<Settlement>, user: nat): int {
    if ss == [] then 0
    else Received(ss[..|ss| - 1], user) + if ss[|ss| - 1].creditor == user then ss[|ss| - 1].amount else 0
  }

  function Sent(ss: seq<Settlement>, user: nat): int {
    if ss == [] then 0
    else Sent(ss[..|ss| - 1], user) + if ss[|ss| - 1].debtor == user then ss[|ss| - 1].amount else 0
  }

  function TotalSettled(ss: seq<Settlement>): int {
    if ss == [] then 0 else TotalSettled(ss[..|ss| - 1]) + ss[|ss| - 1].amount
  }

  ghost predicate DistinctUsers(bs: seq<Balance>) {
    forall i, j | 0 <= i < j < |bs| :: bs[i].user != bs[j].user
  }

  /** The expense passes the checks GetBalances makes while it reads the splits. */
  predicate Balanced(e: Expense) {
    e.splits != [] && ShareSum(e.splits) == e.amount
  }

  predicate Involves(e: Expense, user: nat) {
    e.payer == user || exists i :: 0 <= i < |e.splits| && e.splits[i].user == user
  }

  // ---- conservation

  function SumOver(users: seq<nat>, es: seq<Expense>): int {
    if users == [] then 0
    else SumOver(users[..|users| - 1], es) + PaidBy(es, users[|users| - 1]) - OwedBy(es, users[|users| - 1])
  }

  function SpreadShares(users: seq<nat>, splits: seq<Share>): int {
    if users == [] then 0 else SpreadShares(users[..|users| - 1], splits) + ShareOf(splits, users[|users| - 1])
  }

  function Hits(users: seq<nat>, user: nat, amount: int): int {
    if users == [] then 0
    else Hits(users[..|users| - 1], user, amount) + if users[|users| - 1] == user then amount else 0
  }

  ghost predicate Distinct(users: seq<nat>) {
    forall i, j | 0 <= i < j < |users| :: users[i] != users[j]
  }

  lemma {:induction false} OneHit(users: seq<nat>, user: nat, amount: int)
    requires Distinct(users)
    ensures Hits(users, user, amount) == if user in users then amount else 0
  {
    if users != [] {
      var init := users[..|users| - 1];
      OneHit(init, user, amount);
      assert user in users <==> user in init || user == users[|users| - 1];
    }
  }

  lemma {:induction false} SharesReachTheirUsers(users: seq<nat>, splits: seq<Share>)
    requires Distinct(users) && forall i | 0 <= i < |splits| :: splits[i].user in users
    ensures SpreadShares(users, splits) == ShareSum(splits)
  {
    if splits == [] {
      NothingSpread(users);
    } else {
      var init, last := splits[..|splits| - 1], splits[|splits| - 1];
      SharesReachTheirUsers(users, init);
      OneHit(users, last.user, last.cents);
      SpreadSplits(users, splits);
      assert last.user in users;
    }
  }

  lemma {:induction false} NothingSpread(users: seq<nat>)
    ensures SpreadShares(users, []) == 0
  {
    if users != [] {
      NothingSpread(users[..|users| - 1]);
    }
  }

  lemma {:induction false} SpreadSplits(users: seq<nat>, splits: seq<Share>)
    requires splits != []
    ensures SpreadShares(users, splits)
         == SpreadShares(users, splits[..|splits| - 1])
             + Hits(users, splits[|splits| - 1].user, splits[|splits| - 1].cents)
  {
    if users != [] {
      SpreadSplits(users[..|users| - 1], splits);
    }
  }

  lemma {:induction false} SumOverLast(users: seq<nat>, es: seq<Expense>)
    requires es != []
    ensures SumOver(users, es)
         == SumOver(users, es[..|es| - 1])
             + Hits(users, es[|es| - 1].payer, es[|es| - 1].amount) - SpreadShares(users, es[|es| - 1].splits)
  {
    if users != [] {
      SumOverLast(users[..|users| - 1], es);
    }
  }

  lemma {:induction false} SumOverNothing(users: seq<nat>)
    ensures SumOver(users, []) == 0
  {
    if users != [] {
      SumOverNothing(users[..|users| - 1]);
    }
  }

  /** Whatever was spent, the nets of all participants cancel out. */
  lemma {:induction false} NetsCancelOut(users: seq<nat>, es: seq<Expense>)
    requires Distinct(users) && forall k | 0 <= k < |es| :: Balanced(es[k])
    requires forall k, u | 0 <= k < |es| && Involves(es[k], u) :: u in users
    ensures SumOver(users, es) == 0
  {
    if es == [] {
      SumOverNothing(users);
    } else {
      var n := |es| - 1;
      var e := es[n];
      forall k, u | 0 <= k < n && Involves(es[..n][k], u)
        ensures u in users
      {
        assert Involves(es[k], u);
      }
      NetsCancelOut(users, es[..n]);
      SumOverLast(users, es);
      assert Involves(e, e.payer);
      OneHit(users, e.payer, e.amount);
      assert forall i | 0 <= i < |e.splits| :: Involves(e, e.splits[i].user);
      SharesReachTheirUsers(users, e.splits);
    }
  }

  // ---- int64

  const MAX_MONEY_CENTS := 9_999_999_999
  const MAX_INT64 := 0x7fff_ffff_ffff_ffff

  /** What the expense store guarantees about every stored expense. */
  predicate Stored(e: Expense) {
    && 0 < e.amount <= MAX_MONEY_CENTS && Balanced(e)
    && forall i | 0 <= i < |e.splits| :: e.splits[i].cents >= 0
  }

  lemma {:induction false} ShareOfRange(splits: seq<Share>, user: nat)
    requires forall i | 0 <= i < |splits| :: splits[i].cents >= 0
    ensures 0 <= ShareOf(splits, user) <= ShareSum(splits)
  {
    if splits != [] {
      ShareOfRange(splits[..|splits| - 1], user);
    }
  }

  /** Up to 922,337,203 stored expenses, no running total of the accumulation loop leaves int64. */
  lemma {:induction false} BalancesFitInt64(es: seq<Expense>, user: nat)
    requires forall k | 0 <= k < |es| :: Stored(es[k])
    ensures 0 <= PaidBy(es, user) <= |es| * MAX_MONEY_CENTS
    ensures 0 <= OwedBy(es, user) <= |es| * MAX_MONEY_CENTS
    ensures |es| <= 922_337_203 ==>
      PaidBy(es, user) <= MAX_INT64 && OwedBy(es, user) <= MAX_INT64
          && -MAX_INT64 <= PaidBy(es, user) - OwedBy(es, user) <= MAX_INT64
  {
    if es != [] {
      var n := |es| - 1;
      BalancesFitInt64(es[..n], user);
      assert Stored(es[n]);
      ShareOfRange(es[n].splits, user);
    }
  }

  // ---- calculateSettlements

  lemma {:induction false} NetSumUpdate(bs: seq<Balance>, i: nat, b: Balance)
    requires i < |bs|
    ensures NetSum(bs[i := b]) == NetSum(bs) - bs[i].net + b.net
  {
    var n := |bs| - 1;
    if i < n {
      NetSumUpdate(bs[..n], i, b);
      assert bs[i := b][..n] == bs[..n][i := b];
    } else {
      assert bs[i := b][..n] == bs[..n];
    }
  }

  lemma {:induction false} NetSumSigned(bs: seq<Balance>, sign: int)
    requires (sign == 1 || sign == -1) && forall i | 0 <= i < |bs| :: sign * bs[i].net >= 0
    ensures sign * NetSum(bs) >= 0
    ensures NetSum(bs) == 0 <==> forall i | 0 <= i < |bs| :: bs[i].net == 0
  {
    if bs != [] {
      NetSumSigned(bs[..|bs| - 1], sign);
      assert forall i | 0 <= i < |bs| - 1 :: bs[i] == bs[..|bs| - 1][i];
      assert NetSum(bs) == 0 ==> NetSum(bs[..|bs| - 1]) == 0 && bs[|bs| - 1].net == 0;
    }
  }

  /** Every transfer is positive and goes from a debtor to a creditor. */
  ghost predicate TransfersBetween(ss: seq<Settlement>, debtors: seq<Balance>, creditors: seq<Balance>) {
    forall s | s in ss ::
      && s.amount > 0
      && (exists j :: 0 <= j < |debtors| && debtors[j].user == s.debtor)
      && (exists i :: 0 <= i < |creditors| && creditors[i].user == s.creditor)
  }

  /** `now` is `was` with every net moved by what the settlements moved for that user. */
  ghost predicate MovedBy(was: seq<Balance>, now: seq<Balance>, ss: seq<Settlement>) {
    && |now| == |was|
    && forall k | 0 <= k < |was| ::
         now[k].user == was[k].user && now[k].net == was[k].net - Received(ss, was[k].user) + Sent(ss, was[k].user)
  }

  /** Everyone before index i is settled, everyone after it untouched. */
  ghost predicate SettledUpTo(was: seq<Balance>, now: seq<Balance>, i: int) {
    && |now| == |was|
    && (forall k | 0 <= k < i && k < |was| :: now[k].net == 0)
    && (forall k | i < k < |was| && 0 <= k :: now[k] == was[k])
    && (0 <= i < |was| ==> now[i].net != 0 && (now[i].net > 0 <==> was[i].net > 0))
  }

  ghost predicate Apart(a: seq<Balance>, b: seq<Balance>) {
    DistinctUsers(a) && DistinctUsers(b) && forall i, j | 0 <= i < |a| && 0 <= j < |b| :: a[i].user != b[j].user
  }

  /** What one side looks like once it has been run down: nobody overshoots zero. */
  ghost predicate RunDown(was: seq<Balance>, now: seq<Balance>) {
    |now| == |was| && forall k | 0 <= k < |was| ::
      now[k].user == was[k].user && (now[k].net != 0 ==> (now[k].net > 0 <==> was[k].net > 0))
  }

  /** The state of the two-pointer loop: `was` before it, `now` in it. */
  ghost predicate Progress(was: seq<Balance>, wasDebt: seq<Balance>, now: seq<Balance>, nowDebt: seq<Balance>,
                           ss: seq<Settlement>, i: int, j: int)
  {
    && 0 <= i <= |was| && 0 <= j <= |wasDebt|
    && SettledUpTo(was, now, i) && SettledUpTo(wasDebt, nowDebt, j)
    && MovedBy(was, now, ss) && MovedBy(wasDebt, nowDebt, ss) && TransfersBetween(ss, wasDebt, was)
    && NetSum(now) + NetSum(nowDebt) == NetSum(was) + NetSum(wasDebt)
    && TotalSettled(ss) == NetSum(was) - NetSum(now)
    && |ss| <= i + j && (ss != [] && i == |was| && j == |wasDebt| ==> |ss| < i + j)
  }

  ghost predicate Opposed(was: seq<Balance>, wasDebt: seq<Balance>) {
    && Apart(was, wasDebt)
    && (forall k | 0 <= k < |was| :: was[k].net > 0) && (forall k | 0 <= k < |wasDebt| :: wasDebt[k].net < 0)
  }

  /**
   The two-pointer loop, for creditors and debtors in any order: it runs one side down to
   zero with at most |creditors| + |debtors| - 1 positive transfers.
   */
  method SettleDebts(creditors: array<Balance>, debtors: array<Balance>) returns (settlements: seq<Settlement>)
    requires creditors != debtors && Opposed(creditors[..], debtors[..])
    modifies creditors, debtors
    ensures TransfersBetween(settlements, old(debtors[..]), old(creditors[..]))
    ensures MovedBy(old(creditors[..]), creditors[..], settlements)
    ensures MovedBy(old(debtors[..]), debtors[..], settlements)
    ensures RunDown(old(creditors[..]), creditors[..]) && RunDown(old(debtors[..]), debtors[..])
    ensures (forall k | 0 <= k < creditors.Length :: creditors[k].net == 0)
            || (forall k | 0 <= k < debtors.Length :: debtors[k].net == 0)
    ensures NetSum(creditors[..]) + NetSum(debtors[..]) == NetSum(old(creditors[..])) + NetSum(old(debtors[..]))
    ensures TotalSettled(settlements) == NetSum(old(creditors[..])) - NetSum(creditors[..])
    ensures settlements == [] || |settlements| <= creditors.Length + debtors.Length - 1
  {
    hide *;
    ghost var was, wasDebt := creditors[..], debtors[..];
    settlements := [];
    var i, j := 0, 0;
    NothingMoved(was, wasDebt);
    while i < creditors.Length && j < debtors.Length
      invariant Progress(was, wasDebt, creditors[..], debtors[..], settlements, i, j)
      decreases creditors.Length + debtors.Length - i - j
    {
      ghost var now, nowDebt := creditors[..], debtors[..];
      var amount := creditors[i].net;
      if -debtors[j].net < amount {
        amount := -debtors[j].net;
      }
      OneTransfer(was, wasDebt, now, nowDebt, settlements, i, j, amount);
      settlements := settlements + [Settlement(debtors[j].user, creditors[i].user, amount)];
      creditors[i] := creditors[i].(net := creditors[i].net - amount);
      debtors[j] := debtors[j].(net := debtors[j].net + amount);
      assert creditors[..] == now[i := now[i].(net := now[i].net - amount)];
      assert debtors[..] == nowDebt[j := nowDebt[j].(net := nowDebt[j].net + amount)];
      if creditors[i].net == 0 {
        i := i + 1;
      }
      if debtors[j].net == 0 {
        j := j + 1;
      }
    }
    LoopDone(was, wasDebt, creditors[..], debtors[..], settlements, i, j);
  }

  lemma {:induction false} NothingMoved(was: seq<Balance>, wasDebt: seq<Balance>)
    requires Opposed(was, wasDebt)
    ensures Progress(was, wasDebt, was, wasDebt, [], 0, 0)
  {
  }

  lemma {:induction false} LoopDone(was: seq<Balance>, wasDebt: seq<Balance>, now: seq<Balance>, nowDebt: seq<Balance>,
                 ss: seq<Settlement>, i: int, j: int)
    requires Opposed(was, wasDebt) && Progress(was, wasDebt, now, nowDebt, ss, i, j) && (i >= |was| || j >= |wasDebt|)
    ensures TransfersBetween(ss, wasDebt, was) && MovedBy(was, now, ss) && MovedBy(wasDebt, nowDebt, ss)
    ensures RunDown(was, now) && RunDown(wasDebt, nowDebt)
    ensures (forall k | 0 <= k < |was| :: now[k].net == 0) || (forall k | 0 <= k < |wasDebt| :: nowDebt[k].net == 0)
    ensures NetSum(now) + NetSum(nowDebt) == NetSum(was) + NetSum(wasDebt)
    ensures TotalSettled(ss) == NetSum(was) - NetSum(now)
    ensures ss == [] || |ss| <= |was| + |wasDebt| - 1
  {
  }

  lemma {:induction false} OneTransfer(was: seq<Balance>, wasDebt: seq<Balance>, now: seq<Balance>,
                                       nowDebt: seq<Balance>,
                    ss: seq<Settlement>, i: nat, j: nat, amount: int)
    requires Opposed(was, wasDebt) && Progress(was, wasDebt, now, nowDebt, ss, i, j) && i < |was| && j < |wasDebt|
    requires amount == if -nowDebt[j].net < now[i].net then -nowDebt[j].net else now[i].net
    ensures var credit, debt := now[i].(net := now[i].net - amount), nowDebt[j].(net := nowDebt[j].net + amount);
            Progress(was, wasDebt, now[i := credit], nowDebt[j := debt],
                     ss + [Settlement(debt.user, credit.user, amount)],
                     if credit.net == 0 then i + 1 else i, if debt.net == 0 then j + 1 else j)
  {
    CurrentSigns(was, now, i);
    CurrentSigns(wasDebt, nowDebt, j);
    hide MovedBy, TransfersBetween, SettledUpTo;
    var credit, debt := now[i].(net := now[i].net - amount), nowDebt[j].(net := nowDebt[j].net + amount);
    MoveOne(was, now, wasDebt, nowDebt, ss, Settlement(debt.user, credit.user, amount), i, j);
    NetSumUpdate(now, i, credit);
    NetSumUpdate(nowDebt, j, debt);
    PointerMoves(was, now, i, credit);
    PointerMoves(wasDebt, nowDebt, j, debt);
  }

  lemma {:induction false} CurrentSigns(was: seq<Balance>, now: seq<Balance>, i: nat)
    requires SettledUpTo(was, now, i)
    requires forall k | 0 <= k < |was| :: was[k].net != 0
    ensures forall k | i <= k < |was| :: now[k].net > 0 <==> was[k].net > 0
    ensures forall k | i <= k < |was| :: now[k].net != 0
  {
  }

  lemma {:induction false} PointerMoves(was: seq<Balance>, now: seq<Balance>, i: nat, b: Balance)
    requires SettledUpTo(was, now, i) && i < |was|
    requires forall k | 0 <= k < |was| :: was[k].net != 0
    requires b.net != 0 ==> (b.net > 0 <==> was[i].net > 0)
    ensures SettledUpTo(was, now[i := b], if b.net == 0 then i + 1 else i)
  {
  }

  /** Moving the amount between the two pointers keeps both sides in step with the transfers made. */
  lemma {:induction false} MoveOne(was: seq<Balance>, now: seq<Balance>, wasDebt: seq<Balance>, nowDebt: seq<Balance>,
                ss: seq<Settlement>, t: Settlement, i: nat, j: nat)
    requires MovedBy(was, now, ss) && MovedBy(wasDebt, nowDebt, ss) && Apart(was, wasDebt) && i < |was| && j < |wasDebt|
    requires TransfersBetween(ss, wasDebt, was) && t == Settlement(nowDebt[j].user, now[i].user, t.amount)
    requires t.amount > 0
    ensures MovedBy(was, now[i := now[i].(net := now[i].net - t.amount)], ss + [t])
    ensures MovedBy(wasDebt, nowDebt[j := nowDebt[j].(net := nowDebt[j].net + t.amount)], ss + [t])
    ensures TransfersBetween(ss + [t], wasDebt, was)
    ensures TotalSettled(ss + [t]) == TotalSettled(ss) + t.amount
  {
  }

  // ---- sorting: only what sort.Slice promises, so every order of ties is covered

  datatype Party = Creditors | Debtors

  /** How much a balance weighs on its own side. */
  function Size(b: Balance, side: Party): int {
    if side == Creditors then b.net else -b.net
  }

  ghost predicate Rearranged(a: seq<Balance>, b: seq<Balance>) {
    && |b| == |a| && NetSum(b) == NetSum(a) && (forall x :: x in b <==> x in a)
    && (DistinctUsers(a) ==> DistinctUsers(b))
  }

  ghost predicate SortedBy(bs: seq<Balance>, side: Party) {
    forall i, j | 0 <= i < j < |bs| :: Size(bs[i], side) >= Size(bs[j], side)
  }

  function Insert(b: Balance, bs: seq<Balance>, side: Party): seq<Balance> {
    if bs == [] || Size(bs[|bs| - 1], side) >= Size(b, side) then bs + [b]
    else Insert(b, bs[..|bs| - 1], side) + [bs[|bs| - 1]]
  }

  lemma {:induction false} NetSumAppend(bs: seq<Balance>, b: Balance)
    ensures NetSum(bs + [b]) == NetSum(bs) + b.net
  {
  }

  lemma {:induction false} InsertKeepsContents(b: Balance, bs: seq<Balance>, side: Party)
    ensures multiset(Insert(b, bs, side)) == multiset(bs) + multiset{b}
    ensures NetSum(Insert(b, bs, side)) == NetSum(bs) + b.net
  {
    if bs == [] || Size(bs[|bs| - 1], side) >= Size(b, side) {
      NetSumAppend(bs, b);
    } else {
      var n := |bs| - 1;
      InsertKeepsContents(b, bs[..n], side);
      NetSumAppend(Insert(b, bs[..n], side), bs[n]);
      assert bs == bs[..n] + [bs[n]];
    }
  }

  lemma {:induction false} InsertSorts(b: Balance, bs: seq<Balance>, side: Party)
    requires SortedBy(bs, side)
    ensures SortedBy(Insert(b, bs, side), side)
  {
    if bs == [] || Size(bs[|bs| - 1], side) >= Size(b, side) {
      SortedAppend(bs, b, side);
    } else {
      var n := |bs| - 1;
      InsertSorts(b, bs[..n], side);
      InsertAddsOne(b, bs[..n], side);
      var inserted := Insert(b, bs[..n], side);
      assert Insert(b, bs, side) == inserted + [bs[n]];
      hide Insert;
      assert forall x | x in bs[..n] :: Size(x, side) >= Size(bs[n], side);
      SortedAppend(inserted, bs[n], side);
    }
  }

  lemma {:induction false} InsertAddsOne(b: Balance, bs: seq<Balance>, side: Party)
    ensures forall x :: x in Insert(b, bs, side) <==> x == b || x in bs
  {
    if bs != [] && Size(bs[|bs| - 1], side) < Size(b, side) {
      var n := |bs| - 1;
      InsertAddsOne(b, bs[..n], side);
      assert bs == bs[..n] + [bs[n]];
    }
  }

  lemma {:induction false} SortedAppend(bs: seq<Balance>, b: Balance, side: Party)
    requires SortedBy(bs, side) && forall x | x in bs :: Size(x, side) >= Size(b, side)
    ensures SortedBy(bs + [b], side)
  {
  }

  /** Distinct users are a matter of contents, not of order. */
  lemma {:induction false} DistinctByContents(a: seq<Balance>, b: seq<Balance>)
    requires multiset(a) == multiset(b) && DistinctUsers(a)
    ensures DistinctUsers(b)
  {
    forall i, j | 0 <= i < j < |b|
      ensures b[i].user != b[j].user
    {
      if b[i].user == b[j].user {
        assert b[i] in multiset(b) && b[j] in multiset(b);
        var k :| 0 <= k < |a| && a[k] == b[i];
        var l :| 0 <= l < |a| && a[l] == b[j];
        OccursTwice(b, i, j);
        OccursOnce(a, k);
      }
    }
  }

  lemma {:induction false} OccursTwice(b: seq<Balance>, i: nat, j: nat)
    requires i < j < |b| && b[i] == b[j]
    ensures multiset(b)[b[i]] >= 2
  {
    assert b == b[..j] + b[j..];
    assert b[i] in b[..j] && b[j] in b[j..];
  }

  lemma {:induction false} OccursOnce(a: seq<Balance>, k: nat)
    requires DistinctUsers(a) && k < |a|
    ensures multiset(a)[a[k]] == 1
  {
    assert a == a[..k] + [a[k]] + a[k + 1..];
    assert a[k] !in a[..k] && a[k] !in a[k + 1..];
  }

  method SortByNet(bs: seq<Balance>, side: Party) returns (sorted: seq<Balance>)
    ensures Rearranged(bs, sorted) && SortedBy(sorted, side)
  {
    sorted := [];
    for i := 0 to |bs|
      invariant SortedCopy(bs[..i], sorted, side)
    {
      SortedOneMore(bs, i, sorted, side);
      sorted := Insert(bs[i], sorted, side);
    }
    assert bs[..|bs|] == bs;
    SameContents(bs, sorted);
  }

  ghost predicate SortedCopy(bs: seq<Balance>, sorted: seq<Balance>, side: Party) {
    multiset(sorted) == multiset(bs) && NetSum(sorted) == NetSum(bs) && SortedBy(sorted, side)
  }

  lemma {:induction false} SortedOneMore(bs: seq<Balance>, i: nat, sorted: seq<Balance>, side: Party)
    requires i < |bs| && SortedCopy(bs[..i], sorted, side)
    ensures SortedCopy(bs[..i + 1], Insert(bs[i], sorted, side), side)
  {
    InsertKeepsContents(bs[i], sorted, side);
    InsertSorts(bs[i], sorted, side);
    NetSumAppend(bs[..i], bs[i]);
    hide Insert, SortedBy, NetSum;
    assert bs[..i + 1] == bs[..i] + [bs[i]];
  }

  lemma {:induction false} SameContents(bs: seq<Balance>, sorted: seq<Balance>)
    requires multiset(sorted) == multiset(bs) && NetSum(sorted) == NetSum(bs)
    ensures Rearranged(bs, sorted)
  {
    assert |multiset(sorted)| == |sorted| && |multiset(bs)| == |bs|;
    assert forall x :: x in sorted <==> x in multiset(sorted);
    if DistinctUsers(bs) {
      DistinctByContents(bs, sorted);
    }
  }

  // ---- the whole of calculateSettlements

  function Side(bs: seq<Balance>, side: Party): seq<Balance> {
    if bs == [] then []
    else Side(bs[..|bs| - 1], side) + if Size(bs[|bs| - 1], side) > 0 then [bs[|bs| - 1]] else []
  }

  lemma {:induction false} SideOf(bs: seq<Balance>, side: Party)
    ensures forall x :: x in Side(bs, side) <==> x in bs && Size(x, side) > 0
  {
    if bs != [] {
      SideOf(bs[..|bs| - 1], side);
      assert bs == bs[..|bs| - 1] + [bs[|bs| - 1]];
    }
  }

  lemma {:induction false} SideKeepsUsersDistinct(bs: seq<Balance>, side: Party)
    requires DistinctUsers(bs)
    ensures DistinctUsers(Side(bs, side))
  {
    if bs != [] {
      var n := |bs| - 1;
      SideKeepsUsersDistinct(bs[..n], side);
      SideOf(bs[..n], side);
      var init := Side(bs[..n], side);
      hide Side;
      assert forall i | 0 <= i < |init| :: init[i] in init && init[i] in bs[..n];
    }
  }

  lemma {:induction false} SidesSum(bs: seq<Balance>)
    ensures NetSum(Side(bs, Creditors)) + NetSum(Side(bs, Debtors)) == NetSum(bs)
  {
    if bs != [] {
      var n := |bs| - 1;
      SidesSum(bs[..n]);
      var c, d := Side(bs[..n], Creditors), Side(bs[..n], Debtors);
      NetSumAppend(c, bs[n]);
      NetSumAppend(d, bs[n]);
      assert c + [] == c && d + [] == d;
    }
  }

  /** Net positions after the transfers are carried out. */
  function After(b: Balance, ss: seq<Settlement>): int {
    b.net + Sent(ss, b.user) - Received(ss, b.user)
  }

  /** Each transfer adds its amount to what its debtor has sent, its creditor has received, and to the total. */
  lemma {:induction false} TransfersAdd(ss: seq<Settlement>, t: Settlement, user: nat)
    ensures Sent([], user) == 0 && Sent(ss + [t], user) == Sent(ss, user) + if t.debtor == user then t.amount else 0
    ensures Received([], user) == 0
    ensures Received(ss + [t], user) == Received(ss, user) + if t.creditor == user then t.amount else 0
    ensures TotalSettled([]) == 0 && TotalSettled(ss + [t]) == TotalSettled(ss) + t.amount
  {
    assert (ss + [t])[..|ss|] == ss;
  }

  /** The promise of calculateSettlements about the balances it was given. */
  ghost predicate Settles(bs: seq<Balance>, ss: seq<Settlement>) {
    && TransfersWithin(bs, ss)
    && (ss == [] || |ss| <= |Side(bs, Creditors)| + |Side(bs, Debtors)| - 1)
    && (NetSum(bs) == 0 ==>
          (forall b | b in bs :: After(b, ss) == 0) && TotalSettled(ss) == NetSum(Side(bs, Creditors)))
  }

  method CalculateSettlements(balances: seq<Balance>) returns (settlements: seq<Settlement>)
    requires DistinctUsers(balances)
    ensures Settles(balances, settlements)
  {
    hide *;
    var creditors, debtors := SplitBySign(balances);
    var sortedCreditors := SortByNet(creditors, Creditors);
    var sortedDebtors := SortByNet(debtors, Debtors);
    SidesAreOpposed(balances, sortedCreditors, sortedDebtors);
    var c := new Balance[|sortedCreditors|](i requires 0 <= i < |sortedCreditors| => sortedCreditors[i]);
    var d := new Balance[|sortedDebtors|](i requires 0 <= i < |sortedDebtors| => sortedDebtors[i]);
    assert c[..] == sortedCreditors && d[..] == sortedDebtors;
    settlements := SettleDebts(c, d);
    SidesSettled(balances, sortedCreditors, sortedDebtors, c[..], d[..], settlements);
  }

  method SplitBySign(balances: seq<Balance>) returns (creditors: seq<Balance>, debtors: seq<Balance>)
    ensures creditors == Side(balances, Creditors) && debtors == Side(balances, Debtors)
  {
    creditors, debtors := [], [];
    for k := 0 to |balances|
      invariant creditors == Side(balances[..k], Creditors) && debtors == Side(balances[..k], Debtors)
    {
      assert balances[..k + 1][..k] == balances[..k];
      if balances[k].net > 0 {
        creditors := creditors + [balances[k]];
      } else if balances[k].net < 0 {
        debtors := debtors + [balances[k]];
      }
    }
    assert balances[..|balances|] == balances;
  }

  lemma {:induction false} SidesAreOpposed(bs: seq<Balance>, creditors: seq<Balance>, debtors: seq<Balance>)
    requires DistinctUsers(bs) && Rearranged(Side(bs, Creditors), creditors) && Rearranged(Side(bs, Debtors), debtors)
    ensures Opposed(creditors, debtors)
  {
    SideOf(bs, Creditors);
    SideOf(bs, Debtors);
    SideKeepsUsersDistinct(bs, Creditors);
    SideKeepsUsersDistinct(bs, Debtors);
    assert forall i | 0 <= i < |creditors| :: creditors[i] in creditors;
    assert forall i | 0 <= i < |debtors| :: debtors[i] in debtors;
    forall x, y | x in bs && y in bs && x.user == y.user
      ensures x == y
    {
    }
  }

  lemma {:induction false} Uninvolved(ss: seq<Settlement>, user: nat)
    ensures (forall s | s in ss :: s.creditor != user) ==> Received(ss, user) == 0
    ensures (forall s | s in ss :: s.debtor != user) ==> Sent(ss, user) == 0
  {
    if ss != [] {
      Uninvolved(ss[..|ss| - 1], user);
      assert ss[|ss| - 1] in ss;
    }
  }

  predicate HasSide(bs: seq<Balance>, user: nat, side: Party) {
    exists i :: 0 <= i < |bs| && bs[i].user == user && Size(bs[i], side) > 0
  }

  /** Every transfer runs between two of the balances, from a negative to a positive one. */
  ghost predicate TransfersWithin(bs: seq<Balance>, ss: seq<Settlement>) {
    forall s | s in ss :: s.amount > 0 && HasSide(bs, s.debtor, Debtors) && HasSide(bs, s.creditor, Creditors)
  }

  lemma {:induction false} TransfersFromSides(bs: seq<Balance>, creditors: seq<Balance>, debtors: seq<Balance>,
                                              ss: seq<Settlement>)
    requires Rearranged(Side(bs, Creditors), creditors) && Rearranged(Side(bs, Debtors), debtors)
    requires TransfersBetween(ss, debtors, creditors)
    ensures TransfersWithin(bs, ss)
  {
    SideOf(bs, Creditors);
    SideOf(bs, Debtors);
    forall s | s in ss
      ensures HasSide(bs, s.debtor, Debtors) && HasSide(bs, s.creditor, Creditors)
    {
      var j :| 0 <= j < |debtors| && debtors[j].user == s.debtor;
      var i :| 0 <= i < |creditors| && creditors[i].user == s.creditor;
      assert debtors[j] in debtors && creditors[i] in creditors;
      assert debtors[j] in bs && creditors[i] in bs;
    }
  }

  lemma {:induction false} SidesSettled(bs: seq<Balance>, creditors: seq<Balance>, debtors: seq<Balance>,
                     c: seq<Balance>, d: seq<Balance>, ss: seq<Settlement>)
    requires DistinctUsers(bs) && Rearranged(Side(bs, Creditors), creditors) && Rearranged(Side(bs, Debtors), debtors)
    requires TransfersBetween(ss, debtors, creditors) && MovedBy(creditors, c, ss) && MovedBy(debtors, d, ss)
    requires RunDown(creditors, c) && RunDown(debtors, d) && Opposed(creditors, debtors)
    requires (forall k | 0 <= k < |c| :: c[k].net == 0) || (forall k | 0 <= k < |d| :: d[k].net == 0)
    requires NetSum(c) + NetSum(d) == NetSum(creditors) + NetSum(debtors)
    requires TotalSettled(ss) == NetSum(creditors) - NetSum(c)
    requires ss == [] || |ss| <= |creditors| + |debtors| - 1
    ensures TransfersWithin(bs, ss) && (ss == [] || |ss| <= |Side(bs, Creditors)| + |Side(bs, Debtors)| - 1)
    ensures NetSum(bs) == 0 ==>
          (forall b | b in bs :: After(b, ss) == 0) && TotalSettled(ss) == NetSum(Side(bs, Creditors))
    ensures Settles(bs, ss)
  {
    hide TransfersBetween, MovedBy, RunDown, Opposed, DistinctUsers, NetSum, Side, Rearranged;
    SameTotals(Side(bs, Creditors), creditors);
    SameTotals(Side(bs, Debtors), debtors);
    TransfersFromSides(bs, creditors, debtors, ss);
    SidesSum(bs);
    if NetSum(bs) == 0 {
      BothSidesEmptied(creditors, debtors, c, d);
      AllSettled(bs, creditors, debtors, c, d, ss);
    }
  }

  lemma {:induction false} AllSettled(bs: seq<Balance>, creditors: seq<Balance>, debtors: seq<Balance>,
                   c: seq<Balance>, d: seq<Balance>, ss: seq<Settlement>)
    requires DistinctUsers(bs) && Rearranged(Side(bs, Creditors), creditors) && Rearranged(Side(bs, Debtors), debtors)
    requires MovedBy(creditors, c, ss) && MovedBy(debtors, d, ss) && TransfersWithin(bs, ss)
    requires (forall k | 0 <= k < |c| :: c[k].net == 0) && (forall k | 0 <= k < |d| :: d[k].net == 0)
    ensures forall b | b in bs :: After(b, ss) == 0
  {
    hide *;
    forall b | b in bs
      ensures After(b, ss) == 0
    {
      SettledOne(bs, creditors, debtors, c, d, ss, b);
    }
  }

  lemma {:induction false} SameTotals(a: seq<Balance>, b: seq<Balance>)
    requires Rearranged(a, b)
    ensures |b| == |a| && NetSum(b) == NetSum(a)
  {
  }

  lemma {:induction false} BothSidesEmptied(creditors: seq<Balance>, debtors: seq<Balance>, c: seq<Balance>,
                                            d: seq<Balance>)
    requires RunDown(creditors, c) && RunDown(debtors, d) && Opposed(creditors, debtors)
    requires (forall k | 0 <= k < |c| :: c[k].net == 0) || (forall k | 0 <= k < |d| :: d[k].net == 0)
    requires NetSum(c) + NetSum(d) == 0
    ensures (forall k | 0 <= k < |c| :: c[k].net == 0) && (forall k | 0 <= k < |d| :: d[k].net == 0) && NetSum(c) == 0
  {
    NetSumSigned(c, 1);
    NetSumSigned(d, -1);
  }

  lemma {:induction false} SettledOne(bs: seq<Balance>, creditors: seq<Balance>, debtors: seq<Balance>,
                   c: seq<Balance>, d: seq<Balance>, ss: seq<Settlement>, b: Balance)
    requires DistinctUsers(bs) && Rearranged(Side(bs, Creditors), creditors) && Rearranged(Side(bs, Debtors), debtors)
    requires MovedBy(creditors, c, ss) && MovedBy(debtors, d, ss) && b in bs && TransfersWithin(bs, ss)
    requires (forall k | 0 <= k < |c| :: c[k].net == 0) && (forall k | 0 <= k < |d| :: d[k].net == 0)
    ensures After(b, ss) == 0
  {
    if b.net == 0 {
      SettledAlready(bs, ss, b);
    } else {
      SideOf(bs, Creditors);
      SideOf(bs, Debtors);
      hide Side, Received, Sent, NetSum, DistinctUsers, TransfersWithin;
      if b.net > 0 {
        assert b in creditors;
      } else {
        assert b in debtors;
      }
    }
  }

  lemma {:induction false} SettledAlready(bs: seq<Balance>, ss: seq<Settlement>, b: Balance)
    requires DistinctUsers(bs) && TransfersWithin(bs, ss) && b in bs && b.net == 0
    ensures After(b, ss) == 0
  {
    forall s | s in ss
      ensures s.creditor != b.user && s.debtor != b.user
    {
      var k :| 0 <= k < |bs| && bs[k] == b;
    }
    Uninvolved(ss, b.user);
  }

  // ---- GetBalances

  datatype HouseMember = HouseMember(user: nat, monitor: bool)

  datatype Entry = Entry(user: nat, paid: int, owed: int)

  datatype Response = Response(entries: seq<Entry>, settlements: seq<Settlement>)

  function At(m: map<nat, int>, user: nat): int {
    if user in m then m[user] else 0
  }

  function NetOf(e: Entry): Balance {
    Balance(e.user, e.paid - e.owed)
  }

  function Nets(entries: seq<Entry>): seq<Balance> {
    seq(|entries|, i requires 0 <= i < |entries| => NetOf(entries[i]))
  }

  /** Everyone the response lists: active members, payers and split users. */
  ghost predicate Participant(members: seq<HouseMember>, es: seq<Expense>, user: nat) {
    (exists i :: 0 <= i < |members| && members[i].user == user && !members[i].monitor)
    || exists k :: 0 <= k < |es| && Involves(es[k], user)
  }

  /** The members' names: a participant set that loop by loop takes in payers and split users. */
  ghost predicate Tracks(names: set<nat>, members: seq<HouseMember>, es: seq<Expense>) {
    forall u :: u in names <==> Participant(members, es, u)
  }

  /** Expense k is the first that has no splits, or splits that do not add up, and the error says which. */
  ghost predicate FirstUnbalanced(es: seq<Expense>, k: int, error: BalanceError) {
    && 0 <= k < |es| && (forall j | 0 <= j < k :: es[j].splits != [] && ShareSum(es[j].splits) == es[j].amount)
    && if error == NoSplits then es[k].splits == [] else es[k].splits != [] && ShareSum(es[k].splits) != es[k].amount
  }

  method GetBalances(members: seq<HouseMember>, expenses: seq<Expense>) returns (result: Result<Response, BalanceError>)
    ensures result == Failure(NoEligibleMembers) <==> forall i | 0 <= i < |members| :: members[i].monitor
    ensures result.Success? <==>
          (exists i :: 0 <= i < |members| && !members[i].monitor)
          && forall k | 0 <= k < |expenses| :: Balanced(expenses[k])
    ensures result.Success? ==>
      var entries := result.value.entries;
      && DistinctEntries(entries) && (forall u: nat :: Participant(members, expenses, u) <==> Listed(entries, u))
      && (forall i | 0 <= i < |entries| ::
           entries[i].paid == PaidBy(expenses, entries[i].user) && entries[i].owed == OwedBy(expenses, entries[i].user))
      && NetSum(Nets(entries)) == 0
      && (forall b | b in Nets(entries) :: After(b, result.value.settlements) == 0)
      && Settles(Nets(entries), result.value.settlements)
    ensures result.Success? ==>
      var entries, ss := result.value.entries, result.value.settlements;
      && (forall i | 0 <= i < |entries| ::
           entries[i].paid - entries[i].owed + Sent(ss, entries[i].user) - Received(ss, entries[i].user) == 0)
      && (forall s | s in ss ::
           && s.amount > 0
           && (exists i :: 0 <= i < |entries| && entries[i].user == s.debtor && entries[i].paid < entries[i].owed)
           && (exists i :: 0 <= i < |entries| && entries[i].user == s.creditor && entries[i].owed < entries[i].paid))
    ensures result.Failure? && result.error != NoEligibleMembers ==>
      exists k :: FirstUnbalanced(expenses, k, result.error)
  {
    hide Settles, NetSum;
    NoTotals(members);
    var names: set<nat> := set i | 0 <= i < |members| && !members[i].monitor :: members[i].user;
    if names == {} {
      assert forall i | 0 <= i < |members| && !members[i].monitor :: members[i].user in names;
      return Failure(NoEligibleMembers);
    }
    hide Tracks, PaidBy, OwedBy, ShareOf;
    var u :| u in names;
    var paid: map<nat, int>, owed: map<nat, int> := map[], map[];
    for k := 0 to |expenses|
      invariant Tracks(names, members, expenses[..k])
      invariant forall x :: At(paid, x) == PaidBy(expenses[..k], x) && At(owed, x) == OwedBy(expenses[..k], x)
      invariant forall j | 0 <= j < k :: Balanced(expenses[j])
    {
      var e := expenses[k];
      ghost var before := names;
      names := names + {e.payer};
      paid := paid[e.payer := At(paid, e.payer) + e.amount];
      if e.splits == [] {
        assert FirstUnbalanced(expenses, k, NoSplits);
        return Failure(NoSplits);
      }
      var splitTotal: int;
      owed, names, splitTotal := AddShares(owed, names, e.splits);
      if splitTotal != e.amount {
        assert FirstUnbalanced(expenses, k, SplitMismatch);
        return Failure(SplitMismatch);
      }
      assert Balanced(e);
      TracksOneMore(before, names, members, expenses[..k], e);
      TotalsOneMore(expenses[..k], e);
      assert expenses[..k] + [e] == expenses[..k + 1];
    }
    assert expenses[..|expenses|] == expenses;
    var entries := ListEntries(names, paid, owed);
    var users := seq(|entries|, i requires 0 <= i < |entries| => entries[i].user);
    ConservedNets(users, entries, expenses, names, members);
    NetsDistinct(entries);
    var settlements := CalculateSettlements(Nets(entries));
    SettledByEntry(entries, settlements);
    result := Success(Response(entries, settlements));
  }

  /** What the settlement of the nets means for the entries they are made of. */
  lemma {:induction false} SettledByEntry(entries: seq<Entry>, ss: seq<Settlement>)
    requires Settles(Nets(entries), ss) && NetSum(Nets(entries)) == 0
    ensures forall i | 0 <= i < |entries| ::
              entries[i].paid - entries[i].owed + Sent(ss, entries[i].user) - Received(ss, entries[i].user) == 0
    ensures forall s | s in ss ::
              && s.amount > 0
              && (exists i :: 0 <= i < |entries| && entries[i].user == s.debtor && entries[i].paid < entries[i].owed)
              && (exists i :: 0 <= i < |entries| && entries[i].user == s.creditor && entries[i].owed < entries[i].paid)
  {
    var bs := Nets(entries);
    forall i | 0 <= i < |entries|
      ensures entries[i].paid - entries[i].owed + Sent(ss, entries[i].user) - Received(ss, entries[i].user) == 0
    {
      assert bs[i] in bs && After(bs[i], ss) == 0;
    }
    forall s | s in ss
      ensures s.amount > 0
      ensures exists i :: 0 <= i < |entries| && entries[i].user == s.debtor && entries[i].paid < entries[i].owed
      ensures exists i :: 0 <= i < |entries| && entries[i].user == s.creditor && entries[i].owed < entries[i].paid
    {
      assert HasSide(bs, s.debtor, Debtors) && HasSide(bs, s.creditor, Creditors);
      var d :| 0 <= d < |bs| && bs[d].user == s.debtor && Size(bs[d], Debtors) > 0;
      var c :| 0 <= c < |bs| && bs[c].user == s.creditor && Size(bs[c], Creditors) > 0;
      assert entries[d].user == s.debtor && entries[c].user == s.creditor;
    }
  }

  method AddShares(before: map<nat, int>, known: set<nat>, splits: seq<Share>)
    returns (owed: map<nat, int>, names: set<nat>, splitTotal: int)
    ensures splitTotal == ShareSum(splits)
    ensures forall x :: At(owed, x) == At(before, x) + ShareOf(splits, x)
    ensures forall x :: x in names <==> x in known || exists i :: 0 <= i < |splits| && splits[i].user == x
  {
    owed, names, splitTotal := before, known, 0;
    for i := 0 to |splits|
      invariant splitTotal == ShareSum(splits[..i])
      invariant forall x :: At(owed, x) == At(before, x) + ShareOf(splits[..i], x)
      invariant forall x :: x in names <==> x in known || exists j :: 0 <= j < i && splits[j].user == x
    {
      assert splits[..i + 1][..i] == splits[..i];
      names := names + {splits[i].user};
      owed := owed[splits[i].user := At(owed, splits[i].user) + splits[i].cents];
      splitTotal := splitTotal + splits[i].cents;
    }
    assert splits[..|splits|] == splits;
  }

  lemma {:induction false} NoTotals(members: seq<HouseMember>)
    ensures forall x :: PaidBy([], x) == 0 && OwedBy([], x) == 0
    ensures Tracks(set i | 0 <= i < |members| && !members[i].monitor :: members[i].user, members, [])
  {
  }

  lemma {:induction false} TotalsOneMore(es: seq<Expense>, e: Expense)
    ensures forall x ::
              && PaidBy(es + [e], x) == PaidBy(es, x) + (if e.payer == x then e.amount else 0)
              && OwedBy(es + [e], x) == OwedBy(es, x) + ShareOf(e.splits, x)
  {
    assert (es + [e])[..|es|] == es;
  }

  lemma {:induction false} TracksOneMore(before: set<nat>, names: set<nat>, members: seq<HouseMember>,
                                         es: seq<Expense>, e: Expense)
    requires Tracks(before, members, es)
    requires forall x :: x in names <==>
            x in before + {e.payer} || exists i :: 0 <= i < |e.splits| && e.splits[i].user == x
    ensures Tracks(names, members, es + [e])
  {
    forall x
      ensures x in names <==> Participant(members, es + [e], x)
    {
      assert x in names <==> x in before || Involves(e, x);
      assert Participant(members, es, x) || Involves(e, x) ==> Participant(members, es + [e], x) by {
        if k :| 0 <= k < |es| && Involves(es[k], x) {
          assert Involves((es + [e])[k], x);
        } else if Involves(e, x) {
          assert Involves((es + [e])[|es|], x);
        }
      }
    }
  }

  predicate Listed(entries: seq<Entry>, user: nat) {
    exists i :: 0 <= i < |entries| && entries[i].user == user
  }

  ghost predicate DistinctEntries(entries: seq<Entry>) {
    forall i, j | 0 <= i < j < |entries| :: entries[i].user != entries[j].user
  }

  /** One entry per participant, in some order. */
  method ListEntries(names: set<nat>, paid: map<nat, int>, owed: map<nat, int>) returns (entries: seq<Entry>)
    ensures DistinctEntries(entries)
    ensures forall x: nat :: x in names <==> Listed(entries, x)
    ensures forall i | 0 <= i < |entries| ::
            entries[i] == Entry(entries[i].user, At(paid, entries[i].user), At(owed, entries[i].user))
  {
    entries := [];
    var rest := names;
    while rest != {}
      invariant rest <= names && DistinctEntries(entries)
      invariant forall x: nat :: x in names - rest <==> Listed(entries, x)
      invariant forall i | 0 <= i < |entries| ::
                entries[i] == Entry(entries[i].user, At(paid, entries[i].user), At(owed, entries[i].user))
      decreases |rest|
    {
      var x :| x in rest;
      assert !Listed(entries, x);
      ListOneMore(entries, Entry(x, At(paid, x), At(owed, x)));
      entries := entries + [Entry(x, At(paid, x), At(owed, x))];
      rest := rest - {x};
    }
  }

  lemma {:induction false} ListOneMore(entries: seq<Entry>, e: Entry)
    requires DistinctEntries(entries) && !Listed(entries, e.user)
    ensures DistinctEntries(entries + [e])
    ensures forall x: nat :: Listed(entries + [e], x) <==> Listed(entries, x) || x == e.user
  {
    forall x: nat
      ensures Listed(entries + [e], x) <==> Listed(entries, x) || x == e.user
    {
      if i :| 0 <= i < |entries| && entries[i].user == x {
        assert (entries + [e])[i].user == x;
      }
      assert (entries + [e])[|entries|] == e;
    }
  }

  lemma {:induction false} NetsDistinct(entries: seq<Entry>)
    requires DistinctEntries(entries)
    ensures DistinctUsers(Nets(entries))
  {
  }

  lemma {:induction false} ConservedNets(users: seq<nat>, entries: seq<Entry>, es: seq<Expense>, names: set<nat>,
                                         members: seq<HouseMember>)
    requires |users| == |entries| && forall i | 0 <= i < |users| :: users[i] == entries[i].user
    requires DistinctEntries(entries)
    requires forall i | 0 <= i < |entries| ::
            entries[i].paid == PaidBy(es, entries[i].user) && entries[i].owed == OwedBy(es, entries[i].user)
    requires Tracks(names, members, es) && forall x: nat :: x in names <==> Listed(entries, x)
    requires forall k | 0 <= k < |es| :: Balanced(es[k])
    ensures NetSum(Nets(entries)) == 0
  {
    forall k, u | 0 <= k < |es| && Involves(es[k], u)
      ensures u in users
    {
      assert Participant(members, es, u);
      var i :| 0 <= i < |entries| && entries[i].user == u;
      assert users[i] == u;
    }
    NetsCancelOut(users, es);
    NetsAreSums(users, entries, es);
  }

  lemma {:induction false} NetsAreSums(users: seq<nat>, entries: seq<Entry>, es: seq<Expense>)
    requires |users| == |entries| && forall i | 0 <= i < |users| :: users[i] == entries[i].user
    requires forall i | 0 <= i < |entries| ::
            entries[i].paid == PaidBy(es, entries[i].user) && entries[i].owed == OwedBy(es, entries[i].user)
    ensures NetSum(Nets(entries)) == SumOver(users, es)
  {
    if users != [] {
      var n := |users| - 1;
      NetsAreSums(users[..n], entries[..n], es);
      assert Nets(entries)[..n] == Nets(entries[..n]);
    }
  }
}
