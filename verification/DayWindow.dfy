/**
 * The local calendar day of a tenant as a UTC window. A time zone is a function
 * from an instant (integer milliseconds) to the offset of its wall clock.
 */
module DayWindow {
  type Zone = int -> int

  datatype Window = Window(start: int, end: int)

  // ---- The code -----------------------------------------------------------

  /** The wall clock read to the second, minus the instant truncated to the second. */
  function OffsetMsAt(zone: Zone, t: int): int {
    (t + zone(t)) / 1_000 * 1_000 - t / 1_000 * 1_000
  }

  function LocalTime(zone: Zone, t: int): int {
    t + zone(t)
  }

  /** Midnight of the wall clock's date at t, read as if it were UTC. */
  function LocalMidnight(zone: Zone, t: int): (l: int)
    ensures l % 86_400_000 == 0
    ensures l <= LocalTime(zone, t) < l + 86_400_000
  {
    LocalTime(zone, t) / 86_400_000 * 86_400_000
  }

  /** Two passes: the offset at t, then the offset at the guess it gives. */
  function ZonedMidnight(zone: Zone, t: int): int {
    var midnight := LocalMidnight(zone, t);
    var guess := midnight - OffsetMsAt(zone, t);
    midnight - OffsetMsAt(zone, guess)
  }

  function ResolveDayWindow(zone: Zone, now: int): Window {
    var start := ZonedMidnight(zone, now);
    Window(start, ZonedMidnight(zone, start + 25 * 3_600_000))
  }

  // ---- Zones with at most one change in two days, by at most d -------------

  const ONE_HOUR := 3_600_000
  const EIGHT_HOURS := 28_800_000

  predicate OneChange(zone: Zone, d: int, s: int, t: int, u: int) {
    s <= t <= u <= s + 172_800_000 ==>
      && (zone(t) == zone(s) || zone(t) == zone(u))
      && -d <= zone(u) - zone(s) <= d
  }

  ghost predicate Regular(zone: Zone, d: int) {
    && 0 <= d <= EIGHT_HOURS
    && (forall t :: zone(t) % 1_000 == 0)
    && (forall s, t, u :: OneChange(zone, d, s, t, u))
  }

  /** At x the clock goes back over the midnight l, or forward across it. */
  predicate StraddledAt(zone: Zone, l: int, x: int) {
    var a, b := zone(x - 1), zone(x);
    (b < a && x + b <= l < x + a) || (a < b && x + a < l < x + b)
  }

  ghost predicate Clean(zone: Zone, l: int) {
    forall x :: !StraddledAt(zone, l, x)
  }

  ghost predicate IsFirstInstant(zone: Zone, l: int, m: int) {
    && LocalMidnight(zone, m) == l
    && forall s :: s < m ==> LocalTime(zone, s) < l
  }

  lemma OffsetIsZone(zone: Zone, d: int, t: int)
    requires Regular(zone, d)
    ensures OffsetMsAt(zone, t) == zone(t)
  {
    assert zone(t) % 1_000 == 0;
  }

  lemma MidnightUnique(zone: Zone, t: int, l: int)
    requires l % 86_400_000 == 0 && l <= LocalTime(zone, t) < l + 86_400_000
    ensures LocalMidnight(zone, t) == l
  {
  }

  /** Two offsets less than two days apart that differ have one change point between them. */
  lemma {:induction false} FindChange(zone: Zone, d: int, s: int, u: int) returns (x: int)
    requires Regular(zone, d) && s < u <= s + 172_800_000 && zone(s) != zone(u)
    ensures s < x <= u && zone(x - 1) == zone(s) && zone(x) == zone(u)
    ensures forall y :: s <= y < x ==> zone(y) == zone(s)
    ensures forall y :: x <= y <= u ==> zone(y) == zone(u)
    decreases u - s
  {
    assert OneChange(zone, d, s, u - 1, u);
    if zone(u - 1) == zone(s) {
      x := u;
      forall y | s <= y < x ensures zone(y) == zone(s) { assert OneChange(zone, d, s, y, u - 1); }
    } else {
      x := FindChange(zone, d, s, u - 1);
    }
  }

  /** A whole day moves the wall clock by at least 23 hours, however far apart. */
  lemma {:induction false} DayMovesClock(zone: Zone, d: int, s: int, t: int)
    requires Regular(zone, d) && s + 86_400_000 <= t
    ensures LocalTime(zone, s) + 86_400_000 - d <= LocalTime(zone, t)
    decreases t - s
  {
    if t <= s + 172_800_000 {
      assert OneChange(zone, d, s, s, t);
    } else {
      assert OneChange(zone, d, t - 86_400_000, t, t);
      DayMovesClock(zone, d, s, t - 86_400_000);
    }
  }

  /** Two hours or more before an instant at most an hour past midnight, the clock has not reached that midnight. */
  lemma EarlierDay(zone: Zone, d: int, l: int, m: int, s: int)
    requires Regular(zone, d) && LocalTime(zone, m) <= l + d && s < m - 2 * d
    ensures LocalTime(zone, s) < l
  {
    if s + 86_400_000 <= m {
      DayMovesClock(zone, d, s, m);
    } else {
      assert OneChange(zone, d, s, s, m);
    }
  }

  // ---- The start of a day -------------------------------------------------

  /** Where the second pass lands, as seen from an instant of the day. */
  lemma Landing(zone: Zone, d: int, t: int)
    requires Regular(zone, d)
    ensures var l := LocalMidnight(zone, t);
            var g := l - zone(t);
            && t - 86_400_000 < g <= t
            && ZonedMidnight(zone, t) == l - zone(g)
            && -d <= zone(g) - zone(t) <= d
  {
    var l := LocalMidnight(zone, t);
    OffsetIsZone(zone, d, t);
    OffsetIsZone(zone, d, l - zone(t));
    assert OneChange(zone, d, l - zone(t), t, t);
  }

  /** The offset did not change since the guess. */
  lemma StartSameOffset(zone: Zone, d: int, t: int)
    requires Regular(zone, d) && Clean(zone, LocalMidnight(zone, t))
    requires var l := LocalMidnight(zone, t); zone(l - zone(t)) == zone(t)
    ensures IsFirstInstant(zone, LocalMidnight(zone, t), ZonedMidnight(zone, t)) && ZonedMidnight(zone, t) <= t
  {
    var l := LocalMidnight(zone, t);
    Landing(zone, d, t);
    var m := l - zone(t);
    MidnightUnique(zone, m, l);
    forall s | s < m ensures LocalTime(zone, s) < l {
      if s < m - 2 * d {
        EarlierDay(zone, d, l, m, s);
      } else if zone(s) > zone(m) {
        var x := FindChange(zone, d, s, m);
        assert !StraddledAt(zone, l, x);
      }
    }
  }

  /** It changed in between: forward after the true midnight or just at it, or back later in the day. */
  lemma StartOtherOffset(zone: Zone, d: int, t: int)
    requires Regular(zone, d) && Clean(zone, LocalMidnight(zone, t))
    requires var l := LocalMidnight(zone, t); zone(l - zone(t)) != zone(t)
    ensures IsFirstInstant(zone, LocalMidnight(zone, t), ZonedMidnight(zone, t)) && ZonedMidnight(zone, t) <= t
  {
    var l := LocalMidnight(zone, t);
    Landing(zone, d, t);
    var g := l - zone(t);
    var x := FindChange(zone, d, g, t);
    var m := l - zone(g);
    assert !StraddledAt(zone, l, x);
    assert m <= x;
    forall y | m - 2 * d <= y < g ensures zone(y) == zone(g) { assert OneChange(zone, d, y, g, t); }
    MidnightUnique(zone, m, l);
    forall s | s < m ensures LocalTime(zone, s) < l {
      if s < m - 2 * d { EarlierDay(zone, d, l, m, s); }
    }
  }

  /** When no change straddles the midnight, the start is the first instant of the local day. */
  lemma StartIsFirstInstant(zone: Zone, d: int, t: int)
    requires Regular(zone, d) && Clean(zone, LocalMidnight(zone, t))
    ensures IsFirstInstant(zone, LocalMidnight(zone, t), ZonedMidnight(zone, t)) && ZonedMidnight(zone, t) <= t
  {
    var l := LocalMidnight(zone, t);
    if zone(l - zone(t)) == zone(t) { StartSameOffset(zone, d, t); } else { StartOtherOffset(zone, d, t); }
  }

  /** All instants of one local date share one start, and none lies before it. */
  ghost predicate OneStart(zone: Zone, l: int) {
    forall t, u :: LocalMidnight(zone, t) == l && LocalMidnight(zone, u) == l ==>
      ZonedMidnight(zone, t) == ZonedMidnight(zone, u) && ZonedMidnight(zone, t) <= t
  }

  lemma BeforeGoingBack(zone: Zone, d: int, l: int, x: int)
    requires Regular(zone, d) && l % 86_400_000 == 0 && StraddledAt(zone, l, x) && zone(x) < zone(x - 1)
    ensures LocalMidnight(zone, x - 1) == l && ZonedMidnight(zone, x - 1) == l - zone(x - 1)
  {
    assert OneChange(zone, d, x - 1, x, x);
    assert OneChange(zone, d, l - zone(x - 1), x - 1, x);
    MidnightUnique(zone, x - 1, l);
    Landing(zone, d, x - 1);
  }

  lemma AfterGoingBack(zone: Zone, d: int, l: int, x: int)
    requires Regular(zone, d) && l % 86_400_000 == 0 && StraddledAt(zone, l, x) && zone(x) < zone(x - 1)
    ensures LocalMidnight(zone, l - zone(x)) == l && ZonedMidnight(zone, l - zone(x)) == l - zone(x)
  {
    var u := l - zone(x);
    assert OneChange(zone, d, x - 1, x, x);
    assert OneChange(zone, d, x - 1, x, u);
    MidnightUnique(zone, u, l);
    Landing(zone, d, u);
  }

  lemma ForwardStraddle(zone: Zone, d: int, l: int, x: int)
    requires Regular(zone, d) && l % 86_400_000 == 0 && StraddledAt(zone, l, x) && zone(x - 1) < zone(x)
    ensures LocalMidnight(zone, x) == l && ZonedMidnight(zone, x) > x
  {
    var a, b := zone(x - 1), zone(x);
    assert OneChange(zone, d, x - 1, x, x);
    assert OneChange(zone, d, l - b, x - 1, x);
    MidnightUnique(zone, x, l);
    Landing(zone, d, x);
  }

  /** Exactly the dates whose midnight no clock change straddles have one shared bucket key. */
  lemma OneStartIffClean(zone: Zone, d: int, l: int)
    requires Regular(zone, d) && l % 86_400_000 == 0
    ensures OneStart(zone, l) <==> Clean(zone, l)
  {
    if Clean(zone, l) {
      forall t, u | LocalMidnight(zone, t) == l && LocalMidnight(zone, u) == l
        ensures ZonedMidnight(zone, t) == ZonedMidnight(zone, u) && ZonedMidnight(zone, t) <= t
      {
        StartIsFirstInstant(zone, d, t);
        StartIsFirstInstant(zone, d, u);
      }
    } else {
      var x :| StraddledAt(zone, l, x);
      if zone(x) < zone(x - 1) {
        BeforeGoingBack(zone, d, l, x);
        AfterGoingBack(zone, d, l, x);
      } else {
        ForwardStraddle(zone, d, l, x);
      }
    }
  }

  // ---- The windows --------------------------------------------------------

  function Probe(zone: Zone, now: int): int {
    ZonedMidnight(zone, now) + 25 * 3_600_000
  }

  /** 25 hours after the start the next local date has begun. */
  predicate ProbesTomorrow(zone: Zone, now: int) {
    LocalMidnight(zone, Probe(zone, now)) == LocalMidnight(zone, now) + 86_400_000
  }

  lemma FirstInstantNear(zone: Zone, d: int, l: int, m: int)
    requires Regular(zone, d) && IsFirstInstant(zone, l, m)
    ensures l <= LocalTime(zone, m) <= l + d
    ensures LocalTime(zone, m) == l || zone(m - 1) != zone(m)
  {
    assert LocalTime(zone, m - 1) < l;
    assert OneChange(zone, d, m - 1, m, m);
  }

  lemma StartNear(zone: Zone, d: int, now: int)
    requires Regular(zone, d) && Clean(zone, LocalMidnight(zone, now))
    ensures var l, m := LocalMidnight(zone, now), ZonedMidnight(zone, now);
            && l <= LocalTime(zone, m) <= l + d
            && (LocalTime(zone, m) == l || zone(m - 1) != zone(m))
            && -d <= zone(Probe(zone, now)) - zone(m) <= d
  {
    var l, m := LocalMidnight(zone, now), ZonedMidnight(zone, now);
    StartIsFirstInstant(zone, d, now);
    FirstInstantNear(zone, d, l, m);
    assert OneChange(zone, d, m, m, Probe(zone, now));
  }

  /** So it has when changes are of an hour at most. */
  lemma ProbeIsTomorrow(zone: Zone, d: int, now: int)
    requires d <= ONE_HOUR && Regular(zone, d) && Clean(zone, LocalMidnight(zone, now))
    ensures ProbesTomorrow(zone, now)
  {
    var l, m := LocalMidnight(zone, now), ZonedMidnight(zone, now);
    StartNear(zone, d, now);
    assert OneChange(zone, d, m - 1, m, Probe(zone, now));
    MidnightUnique(zone, Probe(zone, now), l + 86_400_000);
  }

  /** And otherwise it may still be the same date, but no later one. */
  lemma ProbeIsTodayOrTomorrow(zone: Zone, d: int, now: int)
    requires Regular(zone, d) && Clean(zone, LocalMidnight(zone, now))
    ensures ProbesTomorrow(zone, now) || LocalMidnight(zone, Probe(zone, now)) == LocalMidnight(zone, now)
  {
    StartNear(zone, d, now);
  }

  /** Once a clean midnight has passed the clock never shows an earlier date again. */
  lemma NeverBack(zone: Zone, d: int, l: int, m: int, t: int)
    requires Regular(zone, d) && Clean(zone, l) && IsFirstInstant(zone, l, m) && m <= t
    ensures l <= LocalTime(zone, t)
  {
    if t >= m + 86_400_000 {
      DayMovesClock(zone, d, m, t);
    } else {
      assert OneChange(zone, d, m, m, t);
      if zone(t) < zone(m) {
        var x := FindChange(zone, d, m, t);
        assert !StraddledAt(zone, l, x);
      }
    }
  }

  lemma WindowEnds(zone: Zone, d: int, now: int)
    requires Regular(zone, d) && Clean(zone, LocalMidnight(zone, now)) && Clean(zone, LocalMidnight(zone, now) + 86_400_000)
    requires ProbesTomorrow(zone, now)
    ensures var w := ResolveDayWindow(zone, now);
            var l := LocalMidnight(zone, now);
            IsFirstInstant(zone, l, w.start) && IsFirstInstant(zone, l + 86_400_000, w.end)
  {
    StartIsFirstInstant(zone, d, now);
    StartIsFirstInstant(zone, d, Probe(zone, now));
  }

  /**
   * The window of `now` runs from the first instant of the local date to the first
   * instant of the next one, holds exactly the instants of that date, and is the
   * window of each of them, to the millisecond; the window of its end starts there.
   */
  ghost predicate Partitions(zone: Zone, now: int) {
    var w := ResolveDayWindow(zone, now);
    var l := LocalMidnight(zone, now);
    && IsFirstInstant(zone, l, w.start) && IsFirstInstant(zone, l + 86_400_000, w.end)
    && w.start <= now < w.end
    && (forall t :: w.start <= t < w.end <==> LocalMidnight(zone, t) == l)
    && (forall t :: w.start <= t < w.end ==> ResolveDayWindow(zone, t) == w)
    && ResolveDayWindow(zone, w.end).start == w.end
  }

  lemma CleanPartitions(zone: Zone, d: int, now: int)
    requires Regular(zone, d) && Clean(zone, LocalMidnight(zone, now)) && Clean(zone, LocalMidnight(zone, now) + 86_400_000)
    requires ProbesTomorrow(zone, now)
    ensures Partitions(zone, now)
  {
    var w := ResolveDayWindow(zone, now);
    var l := LocalMidnight(zone, now);
    WindowEnds(zone, d, now);
    forall t ensures w.start <= t < w.end <==> LocalMidnight(zone, t) == l { Between(zone, d, l, w.start, w.end, t); }
    forall t | w.start <= t < w.end ensures ResolveDayWindow(zone, t) == w { SameWindow(zone, d, now, t); }
    assert ResolveDayWindow(zone, w.end).start == w.end by { StartIsFirstInstant(zone, d, w.end); }
  }

  lemma SameWindow(zone: Zone, d: int, t: int, u: int)
    requires Regular(zone, d) && LocalMidnight(zone, t) == LocalMidnight(zone, u) && Clean(zone, LocalMidnight(zone, t))
    ensures ResolveDayWindow(zone, t) == ResolveDayWindow(zone, u)
  {
    SameStart(zone, d, LocalMidnight(zone, t), t, u);
  }

  /** Between clean midnights the window partitions time if and only if the probe lands on the next date. */
  lemma ProbeDecides(zone: Zone, d: int, now: int)
    requires Regular(zone, d) && Clean(zone, LocalMidnight(zone, now)) && Clean(zone, LocalMidnight(zone, now) + 86_400_000)
    ensures Partitions(zone, now) <==> ProbesTomorrow(zone, now)
  {
    if ProbesTomorrow(zone, now) {
      CleanPartitions(zone, d, now);
    } else {
      ProbeIsTodayOrTomorrow(zone, d, now);
      SameStart(zone, d, LocalMidnight(zone, now), now, Probe(zone, now));
    }
  }

  lemma PartitionIsClean(zone: Zone, d: int, now: int)
    requires Regular(zone, d) && Partitions(zone, now)
    ensures Clean(zone, LocalMidnight(zone, now))
  {
    var w := ResolveDayWindow(zone, now);
    var l := LocalMidnight(zone, now);
    forall t, u | LocalMidnight(zone, t) == l && LocalMidnight(zone, u) == l
      ensures ZonedMidnight(zone, t) == ZonedMidnight(zone, u) && ZonedMidnight(zone, t) <= t
    {
      assert ResolveDayWindow(zone, t) == w && ResolveDayWindow(zone, u) == w;
    }
    OneStartIffClean(zone, d, l);
  }

  /** Where the window of a partitioned date starts when the clock goes back over the next midnight. */
  lemma StartBeforeGoingBack(zone: Zone, d: int, now: int, x: int)
    requires Regular(zone, d) && Partitions(zone, now) && zone(x) < zone(x - 1)
    requires StraddledAt(zone, LocalMidnight(zone, now) + 86_400_000, x)
    ensures var l := LocalMidnight(zone, now);
            && ResolveDayWindow(zone, now).end < x
            && x + zone(x) == l + 86_400_000
            && ResolveDayWindow(zone, now).start == l - zone(x - 1)
  {
    var w := ResolveDayWindow(zone, now);
    var l := LocalMidnight(zone, now);
    var a := zone(x - 1);
    assert OneChange(zone, d, x - 1, x, x);
    assert LocalTime(zone, x - 1) >= l + 86_400_000;
    if x + zone(x) < l + 86_400_000 { MidnightUnique(zone, x, l); }
    if w.start + 172_800_000 <= x - 1 {
      DayMovesClock(zone, d, w.start, x - 1 - 86_400_000);
      DayMovesClock(zone, d, x - 1 - 86_400_000, x - 1);
    }
    assert OneChange(zone, d, w.start, x - 1, x);
    assert OneChange(zone, d, w.start - 1, x - 1, x);
    assert LocalTime(zone, w.start - 1) < l;
  }

  /** The probe 25 hours on lands after the change, and finds the midnight that comes second. */
  lemma EndAfterGoingBack(zone: Zone, d: int, now: int, x: int)
    requires d <= ONE_HOUR && Regular(zone, d) && zone(x) < zone(x - 1)
    requires var l := LocalMidnight(zone, now);
             ZonedMidnight(zone, now) == l - zone(x - 1) && x + zone(x) == l + 86_400_000
    ensures ResolveDayWindow(zone, now).end == x
  {
    var p := Probe(zone, now);
    assert OneChange(zone, d, x - 1, x, x);
    assert OneChange(zone, d, x - 1, x, p);
    MidnightUnique(zone, p, LocalMidnight(zone, now) + 86_400_000);
    Landing(zone, d, p);
  }

  lemma NotBackOverNext(zone: Zone, d: int, now: int, x: int)
    requires d <= ONE_HOUR && Regular(zone, d) && zone(x) < zone(x - 1) && StraddledAt(zone, LocalMidnight(zone, now) + 86_400_000, x)
    ensures !Partitions(zone, now)
  {
    if Partitions(zone, now) {
      StartBeforeGoingBack(zone, d, now, x);
      EndAfterGoingBack(zone, d, now, x);
    }
  }

  /** The first instant of the next date is the change that skips its midnight. */
  lemma EndAtForward(zone: Zone, d: int, now: int, x: int)
    requires Regular(zone, d) && Partitions(zone, now) && zone(x - 1) < zone(x)
    requires StraddledAt(zone, LocalMidnight(zone, now) + 86_400_000, x)
    ensures ResolveDayWindow(zone, now).end == x
  {
    var end := ResolveDayWindow(zone, now).end;
    assert LocalTime(zone, x) >= LocalMidnight(zone, now) + 86_400_000;
    assert OneChange(zone, d, end, x - 1, x);
    if end + 86_400_000 <= x - 1 { DayMovesClock(zone, d, end, x - 1); }
  }

  lemma NotForwardOverNext(zone: Zone, d: int, now: int, x: int)
    requires Regular(zone, d) && zone(x - 1) < zone(x) && StraddledAt(zone, LocalMidnight(zone, now) + 86_400_000, x)
    ensures !Partitions(zone, now)
  {
    if Partitions(zone, now) {
      EndAtForward(zone, d, now, x);
      ForwardStraddle(zone, d, LocalMidnight(zone, now) + 86_400_000, x);
    }
  }

  /** With changes of an hour at most, it does if and only if no change straddles either of the date's midnights. */
  lemma WindowsPartition(zone: Zone, d: int, now: int)
    requires d <= ONE_HOUR && Regular(zone, d)
    ensures Partitions(zone, now) <==> Clean(zone, LocalMidnight(zone, now)) && Clean(zone, LocalMidnight(zone, now) + 86_400_000)
  {
    var next := LocalMidnight(zone, now) + 86_400_000;
    if Clean(zone, LocalMidnight(zone, now)) && Clean(zone, next) {
      ProbeIsTomorrow(zone, d, now);
      CleanPartitions(zone, d, now);
    } else if Partitions(zone, now) {
      PartitionIsClean(zone, d, now);
      var x :| StraddledAt(zone, next, x);
      if zone(x) < zone(x - 1) { NotBackOverNext(zone, d, now, x); } else { NotForwardOverNext(zone, d, now, x); }
    }
  }

  lemma Between(zone: Zone, d: int, l: int, m: int, n: int, t: int)
    requires Regular(zone, d) && Clean(zone, l) && Clean(zone, l + 86_400_000)
    requires l % 86_400_000 == 0 && IsFirstInstant(zone, l, m) && IsFirstInstant(zone, l + 86_400_000, n)
    ensures m <= t < n <==> LocalMidnight(zone, t) == l
  {
    if m <= t { NeverBack(zone, d, l, m, t); }
    if n <= t { NeverBack(zone, d, l + 86_400_000, n, t); }
    if m <= t < n { MidnightUnique(zone, t, l); }
  }

  lemma SameStart(zone: Zone, d: int, l: int, t: int, u: int)
    requires Regular(zone, d) && Clean(zone, l) && LocalMidnight(zone, t) == l == LocalMidnight(zone, u)
    ensures ZonedMidnight(zone, t) == ZonedMidnight(zone, u)
  {
    OneStartIffClean(zone, d, l);
  }

  // ---- Where it fails -----------------------------------------------------

  /** A zone whose clock goes back from 01:00 to 00:00 five hours after the epoch's midnight. */
  function BackAtOne(t: int): int {
    if t < 18_000_000 then -14_400_000 else -18_000_000
  }

  /** Two instants of one local date, one millisecond apart, get different starts and so different buckets. */
  lemma BackAtOneSplitsADay()
    ensures Regular(BackAtOne, ONE_HOUR)
    ensures LocalMidnight(BackAtOne, 17_999_999) == 0 == LocalMidnight(BackAtOne, 18_000_000)
    ensures ZonedMidnight(BackAtOne, 17_999_999) == 14_400_000
    ensures ZonedMidnight(BackAtOne, 18_000_000) == 18_000_000
  {
  }

  /** A zone whose clock goes back from 03:00 to 01:00, as in a zone with a summer time of two hours. */
  function BackTwoHours(t: int): int {
    if t < 3_600_000 then 7_200_000 else 0
  }

  /** The date then lasts 26 hours, the probe is still on it, and the window is empty: it ends where it starts. */
  lemma BackTwoHoursEmptiesADay()
    ensures Regular(BackTwoHours, 2 * ONE_HOUR) && Clean(BackTwoHours, 0) && Clean(BackTwoHours, 86_400_000)
    ensures LocalMidnight(BackTwoHours, 36_000_000) == 0
    ensures ResolveDayWindow(BackTwoHours, 36_000_000) == Window(-7_200_000, -7_200_000)
  {
  }
}
