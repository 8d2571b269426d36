/**
 Processing windows of internal/schema/iso20022.go, for zones at a fixed offset from UTC.
 `open` and `close` are minutes after local midnight; a window whose open time is later
 than its close time wraps around midnight.
 */
module Cutoff {
  import opened Clock
  import opened Config

  const MINUTES_PER_DAY := 1440

  predicate ValidWindow(w: CutoffWindow) {
    w.open < MINUTES_PER_DAY && w.close < MINUTES_PER_DAY
  }

  function LocalMidnight(w: CutoffWindow, t: Time): Time {
    (t + w.offset) / DAY * DAY - w.offset
  }

  /** `timeOfDay`: whole minutes since local midnight. */
  function TimeOfDay(w: CutoffWindow, t: Time): (m: nat)
    ensures m < MINUTES_PER_DAY
    ensures LocalMidnight(w, t) + m * MINUTE <= t < LocalMidnight(w, t) + (m + 1) * MINUTE
  {
    (t + w.offset) % DAY / MINUTE
  }

  predicate IsInWindow(w: CutoffWindow, t: Time) {
    var now := TimeOfDay(w, t);
    if w.open <= w.close then w.open <= now < w.close else now >= w.open || now < w.close
  }

  function NextOpen(w: CutoffWindow, t: Time): Time {
    var openToday := LocalMidnight(w, t) + w.open * MINUTE;
    if w.open <= w.close then
      if TimeOfDay(w, t) < w.open then openToday else openToday + 24 * HOUR
    else
      openToday
  }

  /** The instants from the opening on local day `day` until the closing that follows it. */
  ghost predicate OpenOn(w: CutoffWindow, t: Time, day: int) {
    var midnight := day * 86_400_000_000_000 - w.offset;
    midnight + w.open * 60_000_000_000 <= t
      < midnight + w.close * 60_000_000_000 + (if w.close < w.open then 86_400_000_000_000 else 0)
  }

  /**
   A window is the time from an opening to the closing that follows it, on the same day or,
   for a window that wraps around midnight, on the next.
   */
  lemma InWindowIff(w: CutoffWindow, t: Time)
    requires ValidWindow(w)
    ensures IsInWindow(w, t) <==> exists day: int :: OpenOn(w, t, day)
  {
    var day := (t + w.offset) / DAY;
    if IsInWindow(w, t) {
      InsideIsOpen(w, t, day);
    } else {
      forall d: int
        ensures !OpenOn(w, t, d)
      {
        OutsideIsClosed(w, t, day, d);
      }
    }
  }

  lemma InsideIsOpen(w: CutoffWindow, t: Time, day: int)
    requires ValidWindow(w) && day == (t + w.offset) / DAY && IsInWindow(w, t)
    ensures OpenOn(w, t, day) || OpenOn(w, t, day - 1)
  {
    assert LocalMidnight(w, t) == day * DAY - w.offset;
  }

  lemma OutsideIsClosed(w: CutoffWindow, t: Time, day: int, d: int)
    requires ValidWindow(w) && day == (t + w.offset) / DAY && !IsInWindow(w, t)
    ensures !OpenOn(w, t, d)
  {
    assert LocalMidnight(w, t) == day * DAY - w.offset <= t < (day + 1) * DAY - w.offset;
    if d > day {
      assert d * DAY >= (day + 1) * DAY;
    } else if d < day - 1 {
      assert (d + 2) * DAY <= day * DAY;
    }
  }

  /** An instant within `minutes` after some local midnight has that time of day. */
  lemma TimeOfDayAt(w: CutoffWindow, midnight: Time, m: nat, t: Time)
    requires exists day: int :: midnight == day * DAY - w.offset
    requires m < MINUTES_PER_DAY && midnight + m * MINUTE <= t < midnight + (m + 1) * MINUTE
    ensures LocalMidnight(w, t) == midnight && TimeOfDay(w, t) == m
  {
    var day: int :| midnight == day * DAY - w.offset;
    assert day * DAY <= t + w.offset < (day + 1) * DAY;
    assert (t + w.offset) / DAY == day;
  }

  lemma MidnightsAreDays(w: CutoffWindow, t: Time)
    ensures LocalMidnight(w, t) == (t + w.offset) / DAY * DAY - w.offset
    ensures LocalMidnight(w, t) + DAY == ((t + w.offset) / DAY + 1) * DAY - w.offset
  {
  }

  /** From t to a later u before the next midnight the day does not change and the clock does not go back. */
  lemma SameDay(w: CutoffWindow, t: Time, u: Time)
    requires t <= u < LocalMidnight(w, t) + DAY
    ensures LocalMidnight(w, u) == LocalMidnight(w, t) && TimeOfDay(w, t) <= TimeOfDay(w, u)
  {
    assert (u + w.offset) / DAY == (t + w.offset) / DAY;
  }

  lemma NextDay(w: CutoffWindow, t: Time, u: Time)
    requires LocalMidnight(w, t) + DAY <= u < LocalMidnight(w, t) + 2 * DAY
    ensures LocalMidnight(w, u) == LocalMidnight(w, t) + DAY
  {
    assert (u + w.offset) / DAY == (t + w.offset) / DAY + 1;
  }

  /**
   Outside a window that is ever open, `NextOpen` is the first instant inside it: later than
   t by at most a day, and nothing in between is inside. Normal and wrapping windows alike.
   */
  lemma NextOpenIsFirst(w: CutoffWindow, t: Time)
    requires ValidWindow(w) && w.open != w.close && !IsInWindow(w, t)
    ensures t < NextOpen(w, t) <= t + 24 * HOUR
    ensures IsInWindow(w, NextOpen(w, t))
    ensures forall u :: t <= u < NextOpen(w, t) ==> !IsInWindow(w, u)
  {
    NextOpenHasOpenTime(w, t);
    forall u | t <= u < NextOpen(w, t)
      ensures !IsInWindow(w, u)
    {
      ClosedUntilNextOpen(w, t, u);
    }
  }

  lemma NextOpenHasOpenTime(w: CutoffWindow, t: Time)
    requires ValidWindow(w)
    ensures TimeOfDay(w, NextOpen(w, t)) == w.open
  {
    MidnightsAreDays(w, t);
    var n := NextOpen(w, t);
    if n == LocalMidnight(w, t) + w.open * MINUTE {
      TimeOfDayAt(w, LocalMidnight(w, t), w.open, n);
    } else {
      TimeOfDayAt(w, LocalMidnight(w, t) + DAY, w.open, n);
    }
  }

  lemma ClosedUntilNextOpen(w: CutoffWindow, t: Time, u: Time)
    requires ValidWindow(w) && !IsInWindow(w, t) && t <= u < NextOpen(w, t)
    ensures !IsInWindow(w, u)
  {
    if u < LocalMidnight(w, t) + DAY {
      SameDay(w, t, u);
    } else {
      NextDay(w, t, u);
    }
  }

  /** What is false without `open != close`: a window that never opens has a "next opening" all the same. */
  lemma NextOpenInsideIff(w: CutoffWindow, t: Time)
    requires ValidWindow(w) && !IsInWindow(w, t)
    ensures IsInWindow(w, NextOpen(w, t)) <==> w.open != w.close
    ensures w.open == w.close ==> forall u :: !IsInWindow(w, u)
  {
    NextOpenHasOpenTime(w, t);
  }

  /**
   `NextOpen` is documented to return an opening at or after t, and its caller asks only when
   t is outside the window. For an arbitrary t it keeps that promise except after the day's
   opening of a wrapping window, when it returns the opening that has passed.
   */
  lemma NextOpenAtOrAfterIff(w: CutoffWindow, t: Time)
    requires ValidWindow(w)
    ensures NextOpen(w, t) >= t <==> w.open <= w.close || t <= LocalMidnight(w, t) + w.open * MINUTE
  {
    assert LocalMidnight(w, t) <= t < LocalMidnight(w, t) + DAY;
  }

  /** One nanosecond into the window from 22:00 to 06:00 the promise fails; at 22:00 sharp and at 03:00 it holds. */
  lemma NextOpenHasPassed()
    ensures var w := CutoffWindow(22 * 60, 6 * 60, 0);
      && NextOpen(w, 22 * HOUR + 1) == 22 * HOUR
      && NextOpen(w, 22 * HOUR) == 22 * HOUR
      && NextOpen(w, 3 * HOUR) == 22 * HOUR
  {
  }
}
