/**
 The sliding-window limiter of middleware/ratelimit.go, with the instant of each call
 passed in, checked against a log that never forgets.
 */
module Limiter {
  import opened Basics

  /** One counted call; calls with no key or no limit are let through uncounted. */
  datatype Hit = Hit(key: string, at: Instant, limit: int, allowed: bool)

  function After(stamps: seq<Instant>, cutoff: Instant): seq<Instant> {
    if stamps == [] then []
    else After(stamps[..|stamps| - 1], cutoff) + if stamps[|stamps| - 1] > cutoff then [stamps[|stamps| - 1]] else []
  }

  /** The full-history answer: the allowed hits of a key later than the cutoff. */
  function AllowedAfter(log: seq<Hit>, key: string, cutoff: Instant): seq<Instant> {
    if log == [] then []
    else
      var last := log[|log| - 1];
      AllowedAfter(log[..|log| - 1], key, cutoff)
      + if last.allowed && last.key == key && last.at > cutoff then [last.at] else []
  }

  function Positions(log: seq<Hit>, p: Hit -> bool): set<nat> {
    set i: nat | i < |log| && p(log[i])
  }

  lemma {:induction false} LastPosition(log: seq<Hit>, p: Hit -> bool)
    requires log != []
    ensures var n := |log| - 1;
            |Positions(log, p)| == |Positions(log[..n], p)| + if p(log[n]) then 1 else 0
  {
    var n := |log| - 1;
    assert forall i: nat | i < n :: log[..n][i] == log[i];
    assert Positions(log, p) == Positions(log[..n], p) + if p(log[n]) then {n} else {};
  }

  /** It counts the positions of the log that hold an allowed hit of the key later than the cutoff. */
  lemma {:induction false} AllowedAfterCounts(log: seq<Hit>, key: string, cutoff: Instant)
    ensures |AllowedAfter(log, key, cutoff)|
         == |set i: nat | i < |log| && log[i].allowed && log[i].key == key && log[i].at > cutoff|
  {
    var p := (h: Hit) => h.allowed && h.key == key && h.at > cutoff;
    AllowedAfterPositions(log, key, cutoff, p);
    assert Positions(log, p) == set i: nat | i < |log| && log[i].allowed && log[i].key == key && log[i].at > cutoff;
  }

  lemma {:induction false} AllowedAfterPositions(log: seq<Hit>, key: string, cutoff: Instant, p: Hit -> bool)
    requires forall h :: p(h) <==> h.allowed && h.key == key && h.at > cutoff
    ensures |AllowedAfter(log, key, cutoff)| == |Positions(log, p)|
  {
    hide Positions;
    if log == [] {
      NoPositions(p);
    } else {
      AllowedAfterPositions(log[..|log| - 1], key, cutoff, p);
      LastPosition(log, p);
    }
  }

  lemma {:induction false} NoPositions(p: Hit -> bool)
    ensures Positions([], p) == {}
  {
  }

  predicate Sorted(stamps: seq<Instant>) {
    forall i, j | 0 <= i < j < |stamps| :: stamps[i] <= stamps[j]
  }

  lemma {:induction false} AfterComposes(stamps: seq<Instant>, first: Instant, second: Instant)
    requires first <= second
    ensures After(After(stamps, first), second) == After(stamps, second)
  {
    if stamps != [] {
      AfterComposes(stamps[..|stamps| - 1], first, second);
      var kept := After(stamps[..|stamps| - 1], first);
      assert (kept + [stamps[|stamps| - 1]])[..|kept|] == kept;
      assert kept + [] == kept;
    }
  }

  lemma {:induction false} AllowedComposes(log: seq<Hit>, key: string, first: Instant, second: Instant)
    requires first <= second
    ensures After(AllowedAfter(log, key, first), second) == AllowedAfter(log, key, second)
  {
    if log != [] {
      var n := |log| - 1;
      AllowedComposes(log[..n], key, first, second);
      var kept := AllowedAfter(log[..n], key, first);
      assert (kept + [log[n].at])[..|kept|] == kept;
      assert kept + [] == kept;
    }
  }

  lemma {:induction false} NothingAfter(stamps: seq<Instant>, cutoff: Instant)
    requires forall i | 0 <= i < |stamps| :: stamps[i] <= cutoff
    ensures After(stamps, cutoff) == []
  {
    if stamps != [] {
      NothingAfter(stamps[..|stamps| - 1], cutoff);
    }
  }

  lemma {:induction false} AfterIsFiltered(stamps: seq<Instant>, cutoff: Instant)
    ensures forall i | 0 <= i < |After(stamps, cutoff)| ::
            After(stamps, cutoff)[i] > cutoff && After(stamps, cutoff)[i] in stamps
    ensures Sorted(stamps) ==> Sorted(After(stamps, cutoff))
  {
    if stamps != [] {
      var n := |stamps| - 1;
      AfterIsFiltered(stamps[..n], cutoff);
      var kept := After(stamps[..n], cutoff);
      assert forall x | x in stamps[..n] :: exists k :: 0 <= k < n && stamps[k] == x;
      assert forall i | 0 <= i < |kept| :: kept[i] in stamps[..n];
    }
  }

  function StampsOf(hits: map<string, seq<Instant>>, key: string): seq<Instant> {
    if key in hits then hits[key] else []
  }

  /** The call was let through exactly when fewer than `limit` allowed hits lay in the window before it. */
  predicate AnsweredByLog(earlier: seq<Hit>, hit: Hit, window: Duration) {
    hit.allowed <==> |AllowedAfter(earlier, hit.key, hit.at - window)| < hit.limit
  }

  /** Every call of the log was answered by the log before it, and no call came before an earlier one. */
  ghost predicate Exact(log: seq<Hit>, window: Duration) {
    log != [] ==>
      var n := |log| - 1;
      && Exact(log[..n], window) && AnsweredByLog(log[..n], log[n], window)
      && (n > 0 ==> log[n - 1].at <= log[n].at)
  }

  /** The stored stamps agree with the log on everything later than the cutoff. */
  ghost predicate Agrees(hits: map<string, seq<Instant>>, log: seq<Hit>, cutoff: Instant) {
    forall k :: After(StampsOf(hits, k), cutoff) == AllowedAfter(log, k, cutoff)
  }

  predicate Stored(stamps: seq<Instant>, oldest: Instant, newest: Instant) {
    stamps != [] && Sorted(stamps) && oldest < stamps[|stamps| - 1] <= newest
  }

  predicate AllStored(hits: map<string, seq<Instant>>, oldest: Instant, newest: Instant) {
    forall k | k in hits :: Stored(hits[k], oldest, newest)
  }

  /** The stored stamps still agree with the log once the window has moved on. */
  lemma {:induction false} AgreesLater(hits: map<string, seq<Instant>>, log: seq<Hit>, first: Instant, second: Instant)
    requires Agrees(hits, log, first) && first <= second
    ensures Agrees(hits, log, second)
  {
    forall k
      ensures After(StampsOf(hits, k), second) == AllowedAfter(log, k, second)
    {
      AfterComposes(StampsOf(hits, k), first, second);
      AllowedComposes(log, k, first, second);
    }
  }

  lemma {:induction false} AgreesOn(hits: map<string, seq<Instant>>, log: seq<Hit>, key: string, cutoff: Instant)
    requires Agrees(hits, log, cutoff)
    ensures After(StampsOf(hits, key), cutoff) == AllowedAfter(log, key, cutoff)
  {
  }

  lemma {:induction false} NothingStored(cutoff: Instant)
    ensures Agrees(map[], [], cutoff)
  {
  }

  /** A key whose newest stamp is outside the window can be forgotten. */
  lemma {:induction false} Forgettable(hits: map<string, seq<Instant>>, log: seq<Hit>, key: string, cutoff: Instant)
    requires key in hits && Sorted(hits[key]) && (hits[key] != [] ==> hits[key][|hits[key]| - 1] <= cutoff)
    requires Agrees(hits, log, cutoff)
    ensures Agrees(hits - {key}, log, cutoff)
  {
    NothingAfter(hits[key], cutoff);
    forall k
      ensures After(StampsOf(hits - {key}, k), cutoff) == AllowedAfter(log, k, cutoff)
    {
      assert After(StampsOf(hits, k), cutoff) == AllowedAfter(log, k, cutoff);
    }
  }

  /** Storing the kept stamps, with the new one if it was allowed, keeps step with the longer log. */
  lemma {:induction false} RecordHit(hits: map<string, seq<Instant>>, log: seq<Hit>, hit: Hit, cutoff: Instant)
    requires hit.at > cutoff && Agrees(hits, log, cutoff)
    ensures var kept := After(StampsOf(hits, hit.key), cutoff);
            Agrees(hits[hit.key := if hit.allowed then kept + [hit.at] else kept], log + [hit], cutoff)
  {
    var prev := StampsOf(hits, hit.key);
    var kept := After(prev, cutoff);
    var hits' := hits[hit.key := if hit.allowed then kept + [hit.at] else kept];
    assert (log + [hit])[..|log|] == log;
    forall k
      ensures After(StampsOf(hits', k), cutoff) == AllowedAfter(log + [hit], k, cutoff)
    {
      assert After(StampsOf(hits, k), cutoff) == AllowedAfter(log, k, cutoff);
      if k == hit.key {
        AfterComposes(prev, cutoff, cutoff);
        assert (kept + [hit.at])[..|kept|] == kept;
        assert kept + [] == kept;
      } else {
        assert StampsOf(hits', k) == StampsOf(hits, k);
        assert AllowedAfter(log, k, cutoff) + [] == AllowedAfter(log, k, cutoff);
      }
    }
  }

  /** What is stored for the key afterwards is sorted and ends inside the window. */
  lemma {:induction false} StoresHit(hits: map<string, seq<Instant>>, oldest: Instant, hit: Hit, cutoff: Instant)
    requires AllStored(hits, oldest, hit.at) && oldest <= cutoff < hit.at
    requires hit.allowed || After(StampsOf(hits, hit.key), cutoff) != []
    ensures var kept := After(StampsOf(hits, hit.key), cutoff);
            AllStored(hits[hit.key := if hit.allowed then kept + [hit.at] else kept], oldest, hit.at)
  {
    var prev := StampsOf(hits, hit.key);
    AfterIsFiltered(prev, cutoff);
    var kept := After(prev, cutoff);
    assert forall i | 0 <= i < |kept| :: kept[i] in prev && kept[i] <= hit.at;
  }

  lemma {:induction false} ExactGrows(log: seq<Hit>, hit: Hit, window: Duration)
    requires Exact(log, window) && AnsweredByLog(log, hit, window)
    requires log != [] ==> log[|log| - 1].at <= hit.at
    ensures Exact(log + [hit], window)
  {
  }

  class WindowLimiter {
    const window: Duration
    var hits: map<string, seq<Instant>>
    var lastSweep: Option<Instant>
    ghost var log: seq<Hit>

    ghost function Latest(): Option<Instant>
      reads this
    {
      if log == [] then None else Some(log[|log| - 1].at)
    }

    /** The stored stamps agree with the log on everything inside the current window. */
    ghost predicate Valid()
      reads this
    {
      && window > 0 && Exact(log, window) && (log == [] ==> hits == map[] && lastSweep.None?)
      && (log != [] ==>
            var now := log[|log| - 1].at;
            && lastSweep.Some? && lastSweep.value <= now < lastSweep.value + window
            && Agrees(hits, log, now - window) && AllStored(hits, lastSweep.value - window, now))
    }

    constructor (w: Duration)
      ensures Valid() && log == [] && window == if w <= 0 then MINUTE else w
    {
      window := if w <= 0 then MINUTE else w;
      hits := map[];
      lastSweep := None;
      log := [];
    }

    /**
     Answers as the full log would, for serial calls whose instants do not go back. Afterwards
     every stored key has a hit younger than two windows.
     */
    method Allow(key: string, limit: int, now: Instant) returns (ok: bool)
      requires Valid() && (Latest().Some? ==> Latest().value <= now)
      modifies this
      ensures Valid()
      ensures limit <= 0 || key == "" ==> ok && log == old(log) && hits == old(hits)
      ensures limit > 0 && key != "" ==>
        && ok == (|AllowedAfter(old(log), key, now - window)| < limit)
        && ok == (|set i: nat | i < |old(log)| && old(log)[i].allowed && old(log)[i].key == key
                                && old(log)[i].at > now - window| < limit)
        && log == old(log) + [Hit(key, now, limit, ok)]
        && AllStored(hits, now - 2 * window, now)
    {
      hide After, AllowedAfter, Exact, Sorted, Agrees;
      if limit <= 0 || key == "" {
        return true;
      }
      var cutoff := now - window;
      if log != [] {
        AgreesLater(hits, log, log[|log| - 1].at - window, cutoff);
      } else {
        NothingStored(cutoff);
      }
      if lastSweep.None? || now - lastSweep.value >= window {
        Sweep(cutoff, if lastSweep.None? then cutoff else lastSweep.value - window, now);
        lastSweep := Some(now);
      }
      AllowedAfterCounts(log, key, cutoff);
      var prev := StampsOf(hits, key);
      var kept := Keep(prev, cutoff);
      AgreesOn(hits, log, key, cutoff);
      ok := |kept| < limit;
      ghost var hit := Hit(key, now, limit, ok);
      RecordHit(hits, log, hit, cutoff);
      StoresHit(hits, lastSweep.value - window, hit, cutoff);
      ExactGrows(log, hit, window);
      hits := hits[key := if ok then kept + [now] else kept];
      log := log + [hit];
      assert AllStored(hits, lastSweep.value - window, now);
    }

    /** Forgets every key with no stamp after the cutoff. */
    method Sweep(cutoff: Instant, ghost oldest: Instant, ghost newest: Instant)
      requires AllStored(hits, oldest, newest)
      modifies this`hits
      ensures hits.Keys <= old(hits).Keys && forall k | k in hits :: hits[k] == old(hits)[k]
      ensures AllStored(hits, cutoff, newest)
      ensures Agrees(old(hits), log, cutoff) ==> Agrees(hits, log, cutoff)
    {
      hide After, AllowedAfter, Agrees;
      var rest := hits.Keys;
      while rest != {}
        invariant rest <= hits.Keys <= old(hits).Keys && forall k | k in hits :: hits[k] == old(hits)[k]
        invariant forall k | k in hits && k !in rest :: Stored(hits[k], cutoff, newest)
        invariant Agrees(old(hits), log, cutoff) ==> Agrees(hits, log, cutoff)
        decreases |rest|
      {
        var k :| k in rest;
        var stamps := hits[k];
        assert Stored(stamps, oldest, newest);
        if |stamps| == 0 || !(stamps[|stamps| - 1] > cutoff) {
          if Agrees(hits, log, cutoff) {
            Forgettable(hits, log, k, cutoff);
          }
          hits := hits - {k};
        }
        rest := rest - {k};
      }
    }

    method Keep(prev: seq<Instant>, cutoff: Instant) returns (kept: seq<Instant>)
      ensures kept == After(prev, cutoff)
    {
      kept := [];
      for i := 0 to |prev|
        invariant kept == After(prev[..i], cutoff)
      {
        assert prev[..i + 1][..i] == prev[..i];
        if prev[i] > cutoff {
          kept := kept + [prev[i]];
        }
      }
      assert prev[..|prev|] == prev;
    }
  }

  // ---- what the log says about every window

  /** Allowed hits of a key in the half-open interval (from, to]. */
  function AllowedIn(log: seq<Hit>, key: string, from: Instant, to: Instant): nat {
    if log == [] then 0
    else
      var last := log[|log| - 1];
      AllowedIn(log[..|log| - 1], key, from, to)
      + if last.allowed && last.key == key && from < last.at <= to then 1 else 0
  }

  lemma {:induction false} AllowedInCounts(log: seq<Hit>, key: string, from: Instant, to: Instant)
    ensures AllowedIn(log, key, from, to)
         == |set i: nat | i < |log| && log[i].allowed && log[i].key == key && from < log[i].at <= to|
  {
    var p := (h: Hit) => h.allowed && h.key == key && from < h.at <= to;
    AllowedInPositions(log, key, from, to, p);
    assert Positions(log, p) == set i: nat | i < |log| && log[i].allowed && log[i].key == key && from < log[i].at <= to;
  }

  lemma {:induction false} AllowedInPositions(log: seq<Hit>, key: string, from: Instant, to: Instant, p: Hit -> bool)
    requires forall h :: p(h) <==> h.allowed && h.key == key && from < h.at <= to
    ensures AllowedIn(log, key, from, to) == |Positions(log, p)|
  {
    hide Positions;
    if log == [] {
      NoPositions(p);
    } else {
      AllowedInPositions(log[..|log| - 1], key, from, to, p);
      LastPosition(log, p);
    }
  }

  lemma {:induction false} AllowedInIsAfter(log: seq<Hit>, key: string, from: Instant, to: Instant, cutoff: Instant)
    requires cutoff <= from
    ensures AllowedIn(log, key, from, to) <= |AllowedAfter(log, key, cutoff)|
  {
    if log != [] {
      AllowedInIsAfter(log[..|log| - 1], key, from, to, cutoff);
    }
  }

  /** With one limit per key, no interval of one window's length holds more than `limit` allowed hits. */
  lemma {:induction false} NoWindowExceedsItsLimit(log: seq<Hit>, window: Duration, key: string, limit: int,
                                                   to: Instant)
    requires Exact(log, window) && limit > 0
    requires forall i | 0 <= i < |log| && log[i].key == key :: log[i].limit == limit
    ensures AllowedIn(log, key, to - window, to) <= limit
    ensures |set i: nat | i < |log| && log[i].allowed && log[i].key == key && to - window < log[i].at <= to| <= limit
  {
    AllowedInCounts(log, key, to - window, to);
    if log != [] {
      var n := |log| - 1;
      NoWindowExceedsItsLimit(log[..n], window, key, limit, to);
      if log[n].allowed && log[n].key == key && log[n].at <= to {
        AllowedInIsAfter(log[..n], key, to - window, to, log[n].at - window);
      }
    }
  }
}
