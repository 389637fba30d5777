/** The operating clock of src/operations/daily-schedule.ts, with the three places that build on it:
  * `releaseAtFor` (exception-notice-rhythm.ts), `nextExpectedRun` and the previous-occurrence
  * arithmetic (daily-operations-scheduler.ts).
  *
  * An instant is a number of milliseconds since the epoch. An operating-day date is the number of
  * civil days since 1970-01-01 in the operating zone; calendar dates and day numbers correspond one
  * to one, so the number loses nothing. The zone is a fixed 480 minutes ahead of UTC.
  */
module OperatingClock {

  const MS_PER_MINUTE: int := 60_000
  const MS_PER_HOUR: int := 3_600_000
  const MS_PER_DAY: int := 86_400_000
  const ZONE_OFFSET_MS: int := 480 * 60_000

  const DO_NOT_DISTURB_END_HOUR: int := 7
  const DO_NOT_DISTURB_START_MINUTE: int := 23 * 60
  const DO_NOT_DISTURB_END_MINUTE: int := 7 * 60

  type Instant = int
  type OperatingDay = int

  datatype DailyOccurrence = DailyOccurrence(day: OperatingDay, scheduledAt: Instant)
  datatype DayWindow = DayWindow(timeMin: Instant, timeMax: Instant)

  function OperatingDayOf(instant: Instant): OperatingDay {
    (instant + ZONE_OFFSET_MS) / MS_PER_DAY
  }

  function MinutesIntoDay(instant: Instant): int {
    (instant + ZONE_OFFSET_MS) % MS_PER_DAY / MS_PER_MINUTE
  }

  function InstantAtLocalTime(day: OperatingDay, hour: int, minute: int): Instant {
    day * MS_PER_DAY + (hour * 60 + minute) * MS_PER_MINUTE - ZONE_OFFSET_MS
  }

  function OccurrenceAt(now: Instant, hour: int, minute: int): DailyOccurrence {
    var day := OperatingDayOf(now);
    DailyOccurrence(day, InstantAtLocalTime(day, hour, minute))
  }

  function OperatingDayWindow(day: OperatingDay): DayWindow {
    var timeMin := InstantAtLocalTime(day, 0, 0);
    DayWindow(timeMin, timeMin + MS_PER_DAY)
  }

  /** Day zero was a Thursday, so a day's weekday number (Sunday is 0) is four ahead of it. */
  predicate IsWeekend(day: OperatingDay) {
    var weekday := (day + 4) % 7;
    weekday == 0 || weekday == 6
  }

  predicate IsDoNotDisturb(now: Instant) {
    var minute := MinutesIntoDay(now);
    minute >= DO_NOT_DISTURB_START_MINUTE || minute < DO_NOT_DISTURB_END_MINUTE
  }

  function ReleaseAtFor(now: Instant): Instant {
    var heldBeforeMidnight := MinutesIntoDay(now) >= DO_NOT_DISTURB_START_MINUTE;
    var releaseDay := OperatingDayOf(if heldBeforeMidnight then now + MS_PER_DAY else now);
    InstantAtLocalTime(releaseDay, DO_NOT_DISTURB_END_HOUR, 0)
  }

  function NextExpectedRun(now: Instant, hour: int, minute: int): Instant {
    var today := OccurrenceAt(now, hour, minute);
    if today.scheduledAt > now then today.scheduledAt
    else OccurrenceAt(now + MS_PER_DAY, hour, minute).scheduledAt
  }

  predicate WallClock(hour: int, minute: int) {
    0 <= hour < 24 && 0 <= minute < 60
  }

  /** What it means for an instant to show a wall-clock time: some operating day has it there. */
  ghost predicate ShowsLocalTime(instant: Instant, hour: int, minute: int) {
    exists day :: instant == InstantAtLocalTime(day, hour, minute)
  }

  /** Reading back the instant of a wall-clock time gives that day and that time. */
  lemma LocalTimeRoundTrip(day: OperatingDay, hour: int, minute: int)
    requires WallClock(hour, minute)
    ensures OperatingDayOf(InstantAtLocalTime(day, hour, minute)) == day
    ensures MinutesIntoDay(InstantAtLocalTime(day, hour, minute)) == hour * 60 + minute
  {
    var offset := (hour * 60 + minute) * MS_PER_MINUTE;
    assert InstantAtLocalTime(day, hour, minute) + ZONE_OFFSET_MS == day * MS_PER_DAY + offset;
    assert 0 <= offset < MS_PER_DAY;
  }

  /** Conversely an instant lies in the minute that its own day and minutes name. */
  lemma InstantWithinItsMinute(instant: Instant)
    ensures var minutes := MinutesIntoDay(instant);
            0 <= minutes < 24 * 60 &&
            var start := InstantAtLocalTime(OperatingDayOf(instant), minutes / 60, minutes % 60);
            start <= instant < start + MS_PER_MINUTE
  {
    var local := instant + ZONE_OFFSET_MS;
    var minutes := local % MS_PER_DAY / MS_PER_MINUTE;
    assert local == local / MS_PER_DAY * MS_PER_DAY + local % MS_PER_DAY;
    assert minutes / 60 * 60 + minutes % 60 == minutes;
  }

  /** The day windows tile time: an instant lies in a day's window exactly when it is of that day,
    * and each window ends where the next begins. */
  lemma WindowsTileTime(instant: Instant, day: OperatingDay)
    ensures var window := OperatingDayWindow(day);
            window.timeMin <= instant < window.timeMax <==> OperatingDayOf(instant) == day
    ensures OperatingDayWindow(day).timeMax == OperatingDayWindow(day + 1).timeMin
  {
    var local := instant + ZONE_OFFSET_MS;
    assert local == local / MS_PER_DAY * MS_PER_DAY + local % MS_PER_DAY;
  }

  /** An instant given by its operating day and the milliseconds into it. */
  lemma LocalParts(instant: Instant, day: OperatingDay, into: int)
    requires instant + ZONE_OFFSET_MS == day * MS_PER_DAY + into && 0 <= into < MS_PER_DAY
    ensures OperatingDayOf(instant) == day && MinutesIntoDay(instant) == into / MS_PER_MINUTE
  {
    assert (instant + ZONE_OFFSET_MS) / MS_PER_DAY == day && (instant + ZONE_OFFSET_MS) % MS_PER_DAY == into;
  }

  /** Where the release lies: at seven, of the next day for the hour before midnight. */
  lemma ReleaseParts(now: Instant, day: OperatingDay, into: int)
    requires now + ZONE_OFFSET_MS == day * MS_PER_DAY + into && 0 <= into < MS_PER_DAY
    ensures ReleaseAtFor(now) == InstantAtLocalTime(if into >= 23 * MS_PER_HOUR then day + 1 else day, 7, 0)
    ensures IsDoNotDisturb(now) <==> into >= 23 * MS_PER_HOUR || into < 7 * MS_PER_HOUR
  {
    LocalParts(now, day, into);
    LocalParts(now + MS_PER_DAY, day + 1, into);
  }

  lemma QuietUntilRelease(now: Instant, day: OperatingDay, into: int, later: Instant)
    requires now + ZONE_OFFSET_MS == day * MS_PER_DAY + into && 0 <= into < MS_PER_DAY
    requires IsDoNotDisturb(now) && now <= later < ReleaseAtFor(now)
    ensures IsDoNotDisturb(later)
  {
    ReleaseParts(now, day, into);
    var on := into + (later - now);
    if on < MS_PER_DAY {
      ReleaseParts(later, day, on);
    } else {
      ReleaseParts(later, day + 1, on - MS_PER_DAY);
    }
  }

  /** A notice held in do-not-disturb is released at the first later instant outside the window,
    * no more than eight hours on. */
  lemma ReleaseIsFirstInstantOutside(now: Instant)
    requires IsDoNotDisturb(now)
    ensures now < ReleaseAtFor(now) <= now + 8 * MS_PER_HOUR
    ensures !IsDoNotDisturb(ReleaseAtFor(now))
    ensures forall later :: now <= later < ReleaseAtFor(now) ==> IsDoNotDisturb(later)
  {
    var local := now + ZONE_OFFSET_MS;
    var day, into := local / MS_PER_DAY, local % MS_PER_DAY;
    assert local == day * MS_PER_DAY + into;
    ReleaseParts(now, day, into);
    LocalTimeRoundTrip(if into >= 23 * MS_PER_HOUR then day + 1 else day, 7, 0);
    forall later | now <= later < ReleaseAtFor(now)
      ensures IsDoNotDisturb(later)
    {
      QuietUntilRelease(now, day, into, later);
    }
  }

  /** The next expected run is the only instant of the next twenty-four hours that shows the job's
    * wall-clock time. */
  lemma NextExpectedRunIsUnique(now: Instant, hour: int, minute: int, instant: Instant)
    requires WallClock(hour, minute)
    ensures instant == NextExpectedRun(now, hour, minute) <==>
            now < instant <= now + MS_PER_DAY && ShowsLocalTime(instant, hour, minute)
  {
    var day := OperatingDayOf(now);
    var local := now + ZONE_OFFSET_MS;
    assert local == day * MS_PER_DAY + local % MS_PER_DAY;
    assert OperatingDayOf(now + MS_PER_DAY) == day + 1;
    var today := InstantAtLocalTime(day, hour, minute);
    var tomorrow := InstantAtLocalTime(day + 1, hour, minute);
    assert NextExpectedRun(now, hour, minute) == if today > now then today else tomorrow;
    assert ShowsLocalTime(today, hour, minute) && ShowsLocalTime(tomorrow, hour, minute);
    if now < instant <= now + MS_PER_DAY && ShowsLocalTime(instant, hour, minute) {
      var other :| instant == InstantAtLocalTime(other, hour, minute);
      LocalTimeRoundTrip(other, hour, minute);
      assert day <= other <= day + 1;
    }
  }

  /** The instant a day earlier always names the operating day before, so the scheduler's guard
    * against meeting the current occurrence again never fires in a zone without clock changes. */
  lemma PreviousOccurrenceIsYesterday(now: Instant, hour: int, minute: int)
    ensures var previous := OccurrenceAt(now - MS_PER_DAY, hour, minute);
            var current := OccurrenceAt(now, hour, minute);
            previous.day == current.day - 1 && previous.scheduledAt == current.scheduledAt - MS_PER_DAY
  {
    var local := now + ZONE_OFFSET_MS;
    assert local == local / MS_PER_DAY * MS_PER_DAY + local % MS_PER_DAY;
    assert (local - MS_PER_DAY) / MS_PER_DAY == local / MS_PER_DAY - 1;
  }

  /** Day 2 was a Saturday and day 3 a Sunday: the weekend is those two days of every week. */
  lemma WeekendRecursWeekly(day: OperatingDay)
    ensures IsWeekend(day) <==> (day - 2) % 7 == 0 || (day - 3) % 7 == 0
    ensures IsWeekend(day + 7) <==> IsWeekend(day)
  {
    var week, rest := (day + 4) / 7, (day + 4) % 7;
    assert day - 2 == 7 * (week - 1) + (rest + 1) && day - 3 == 7 * (week - 1) + rest;
    assert (day - 3) % 7 == rest && (day + 11) % 7 == rest;
    assert (day - 2) % 7 == (rest + 1) % 7;
  }
}
