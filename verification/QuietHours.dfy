/**
 When a notification may be delivered: notificationAvailableAt of
 repository/notifications.go, in a time zone with a fixed offset from UTC.
 */
module QuietHours {
  import opened Basics

  datatype Cadence = Immediate | DailyDigest

  /** Minutes of the local day; the window wraps past midnight when start >= end. */
  datatype Window = Window(start: int, end: int)

  datatype Category = ExpenseCreated | Reminder

  datatype Preferences = Preferences(
    expenseCreatedEnabled: bool, reminderEnabled: bool, cadence: Cadence,
    offset: Duration, quiet: Option<Window>, digestMinutes: int)

  /** What a house member gets who never stored any preferences. */
  const DEFAULT_PREFERENCES := Preferences(true, true, Immediate, 0, None, 480)

  /** The ranges PutPreferences enforces. */
  predicate Valid(p: Preferences) {
    && 0 <= p.digestMinutes < 1440
    && (p.quiet.Some? ==> 0 <= p.quiet.value.start < 1440 && 0 <= p.quiet.value.end < 1440)
  }

  function MinuteOfDay(local: Instant): int {
    (local % DAY) / MINUTE
  }

  predicate InWindow(w: Window, minute: int) {
    if w.start < w.end then w.start <= minute < w.end else minute >= w.start || minute < w.end
  }

  function StartOfDay(local: Instant): Instant {
    local - local % DAY
  }

  function AvailableAt(at: Instant, p: Preferences): Instant {
    var local := at + p.offset;
    if p.cadence == DailyDigest then
      var candidate := StartOfDay(local) + p.digestMinutes * MINUTE;
      (if candidate > local then candidate else candidate + DAY) - p.offset
    else if p.quiet.None? then at
    else
      var w, minute := p.quiet.value, MinuteOfDay(local);
      if !InWindow(w, minute) then at
      else
        var days := if w.start >= w.end && minute >= w.start then 1 else 0;
        StartOfDay(local) + days * DAY + w.end * MINUTE - p.offset
  }

  /** The local minute of an instant lies in the quiet window. */
  predicate Quiet(t: Instant, p: Preferences) {
    p.quiet.Some? && InWindow(p.quiet.value, MinuteOfDay(t + p.offset))
  }

  /**
   By the second: the local time of day lies from the first minute of the window up to its last, past
   midnight when the window wraps.
   */
  lemma {:induction false} QuietIsTheWindow(t: Instant, p: Preferences)
    requires Valid(p)
    ensures var time := (t + p.offset) % DAY;
            Quiet(t, p) <==>
              && p.quiet.Some?
              && var from, to := p.quiet.value.start * MINUTE, p.quiet.value.end * MINUTE;
              if from < to then from <= time < to else from <= time || time < to
  {
    var time := (t + p.offset) % DAY;
    assert MinuteOfDay(t + p.offset) * MINUTE <= time < (MinuteOfDay(t + p.offset) + 1) * MINUTE;
  }

  /** The local time of day is exactly the digest minute. */
  predicate OnDigestMinute(t: Instant, p: Preferences) {
    (t + p.offset) % DAY == p.digestMinutes * MINUTE
  }

  lemma {:induction false} DayRemainder(days: int, within: int)
    requires 0 <= within < DAY
    ensures (days * DAY + within) % DAY == within
  {
  }

  /** Every instant less than a day after `local` is on the same day or on the next one. */
  lemma {:induction false} RemainderAfter(local: Instant, k: int)
    requires 0 <= k < DAY
    ensures (local + k) % DAY == if local % DAY + k < DAY then local % DAY + k else local % DAY + k - DAY
  {
  }

  lemma {:induction false} NeverEarly(at: Instant, p: Preferences)
    requires Valid(p)
    ensures at <= AvailableAt(at, p) <= at + DAY
  {
  }

  lemma {:induction false} LandsOnTheEndMinute(at: Instant, p: Preferences)
    requires Valid(p) && p.cadence == Immediate && AvailableAt(at, p) != at
    ensures (AvailableAt(at, p) + p.offset) % DAY == p.quiet.value.end * MINUTE
  {
    var local := at + p.offset;
    var w := p.quiet.value;
    var days := if w.start >= w.end && MinuteOfDay(local) >= w.start then 1 else 0;
    DayRemainder(local / DAY + days, w.end * MINUTE);
  }

  /**
   An immediate delivery lands outside the quiet window exactly when the window is not
   the all-day one; with start == end it is put off and still lands inside.
   */
  lemma {:induction false} LandsOutsideQuietHours(at: Instant, p: Preferences)
    requires Valid(p) && p.cadence == Immediate
    ensures !Quiet(AvailableAt(at, p), p) <==> (p.quiet.None? || p.quiet.value.start != p.quiet.value.end)
  {
    if AvailableAt(at, p) != at {
      LandsOnTheEndMinute(at, p);
    }
  }

  /** It waits no longer than it must: every instant passed over is quiet. */
  lemma {:induction false} PassesOverOnlyQuietInstants(at: Instant, p: Preferences, t: Instant)
    requires Valid(p) && p.cadence == Immediate && at <= t < AvailableAt(at, p)
    ensures Quiet(t, p)
  {
    var local := at + p.offset;
    NeverEarly(at, p);
    assert MinuteOfDay(local) * MINUTE <= local % DAY < (MinuteOfDay(local) + 1) * MINUTE;
    RemainderAfter(local, t - at);
    var rest := (t + p.offset) % DAY;
    assert MinuteOfDay(t + p.offset) * MINUTE <= rest < (MinuteOfDay(t + p.offset) + 1) * MINUTE;
  }

  /** With an all-day window the delivery waits for the next end of the window, strictly later and within a day. */
  lemma {:induction false} AllDayWindowWaitsForItsEnd(at: Instant, p: Preferences)
    requires Valid(p) && p.cadence == Immediate && p.quiet.Some? && p.quiet.value.start == p.quiet.value.end
    ensures at < AvailableAt(at, p) <= at + DAY
    ensures (AvailableAt(at, p) + p.offset) % DAY == p.quiet.value.end * MINUTE
  {
    var local := at + p.offset;
    NeverEarly(at, p);
    assert MinuteOfDay(local) * MINUTE <= local % DAY < (MinuteOfDay(local) + 1) * MINUTE;
    LandsOnTheEndMinute(at, p);
  }

  /** Asking again at the granted instant changes nothing. */
  lemma {:induction false} ImmediateIsIdempotent(at: Instant, p: Preferences)
    requires Valid(p) && p.cadence == Immediate
    requires p.quiet.Some? ==> p.quiet.value.start != p.quiet.value.end
    ensures AvailableAt(AvailableAt(at, p), p) == AvailableAt(at, p)
  {
    LandsOutsideQuietHours(at, p);
  }

  /** A digest goes out at the first instant strictly after `at` on the digest minute, within a day. */
  lemma {:induction false} DigestIsTheNextDigestMinute(at: Instant, p: Preferences, t: Instant)
    requires Valid(p) && p.cadence == DailyDigest
    ensures var r := AvailableAt(at, p);
            at < r <= at + DAY && OnDigestMinute(r, p) && (at < t < r ==> !OnDigestMinute(t, p))
  {
    var r := AvailableAt(at, p);
    var local := at + p.offset;
    DigestLands(at, p);
    if at < t < r {
      RemainderAfter(local, t - at);
      assert (local + (t - at)) % DAY == (t + p.offset) % DAY;
    }
  }

  lemma {:induction false} DigestLands(at: Instant, p: Preferences)
    requires Valid(p) && p.cadence == DailyDigest
    ensures at < AvailableAt(at, p) <= at + DAY && OnDigestMinute(AvailableAt(at, p), p)
  {
    var local := at + p.offset;
    var days := if StartOfDay(local) + p.digestMinutes * MINUTE > local then 0 else 1;
    DayRemainder(local / DAY + days, p.digestMinutes * MINUTE);
    assert AvailableAt(at, p) + p.offset == (local / DAY + days) * DAY + p.digestMinutes * MINUTE;
  }

  /** Later requests are never granted earlier, even for the all-day window start == end. */
  lemma {:induction false} Monotone(a: Instant, b: Instant, p: Preferences)
    requires Valid(p) && a <= b
    ensures AvailableAt(a, p) <= AvailableAt(b, p)
  {
    NeverEarly(a, p);
    NeverEarly(b, p);
    if b - a < DAY {
      var la, lb := a + p.offset, b + p.offset;
      RemainderAfter(la, b - a);
      assert StartOfDay(lb) == StartOfDay(la) || StartOfDay(lb) == StartOfDay(la) + DAY;
      assert MinuteOfDay(la) * MINUTE <= la % DAY < (MinuteOfDay(la) + 1) * MINUTE;
      assert MinuteOfDay(lb) * MINUTE <= lb % DAY < (MinuteOfDay(lb) + 1) * MINUTE;
    }
  }
}
