/** A shop's weekly opening hours: whether it is open at an instant, and when that next changes. */
module Availability {
  import Calendar
  import opened Options

  const MINUTE_MS := 60_000
  const DAY_MINUTES := 1440
  const DAY_MS := 86_400_000

  // ---------------------------------------------------------------- hours

  /** Times of day are minutes after midnight. */
  datatype DayHours = DayHours(open: bool, from: nat, to: nat)

  /** Seven days, Monday first. */
  type Week = w: seq<DayHours> | |w| == 7 witness seq(7, _ => DayHours(false, 0, 0))

  /** What saving the hours lets through: an open day closes after it opens, on the same day. */
  predicate ValidDay(d: DayHours) {
    d.from < DAY_MINUTES && d.to < DAY_MINUTES && (d.open ==> d.from < d.to)
  }

  predicate ValidWeek(week: Week) {
    forall d :: 0 <= d < 7 ==> ValidDay(week[d])
  }

  predicate HasOpenDay(week: Week) {
    exists d :: 0 <= d < 7 && week[d].open
  }

  // ------------------------------------------------------- times as text

  predicate IsDigit(c: char) { '0' <= c <= '9' }

  function Digit(c: char): nat
    requires IsDigit(c)
  {
    c as int - '0' as int
  }

  /** HH:MM on the 24-hour clock. */
  predicate IsTime(s: string) {
    && |s| == 5 && IsDigit(s[0]) && IsDigit(s[1]) && s[2] == ':' && IsDigit(s[3]) && IsDigit(s[4])
    && (s[0] in {'0', '1'} || (s[0] == '2' && s[1] <= '3'))
    && s[3] <= '5'
  }

  function MinutesOf(s: string): nat
    requires IsTime(s)
  {
    (Digit(s[0]) * 10 + Digit(s[1])) * 60 + Digit(s[3]) * 10 + Digit(s[4])
  }

  /** How strings compare: at the first character that differs, the shorter one first if there is none. */
  predicate TextLess(a: string, b: string) {
    if b == [] then false
    else if a == [] then true
    else if a[0] != b[0] then a[0] < b[0]
    else TextLess(a[1..], b[1..])
  }

  /** Comparing times as text is comparing them as times. */
  lemma TextOrderIsTimeOrder(a: string, b: string)
    requires IsTime(a) && IsTime(b)
    ensures TextLess(a, b) <==> MinutesOf(a) < MinutesOf(b)
  {
    TextStep(a, b, 0);
    TextStep(a, b, 1);
    TextStep(a, b, 2);
    TextStep(a, b, 3);
    TextStep(a, b, 4);
  }

  lemma TextStep(a: string, b: string, k: nat)
    requires |a| == |b| && k < |a|
    ensures a[0..] == a && b[0..] == b
    ensures TextLess(a[k..], b[k..]) <==>
              a[k] < b[k] || (a[k] == b[k] && k + 1 < |a| && TextLess(a[k + 1..], b[k + 1..]))
  {
    assert a[k..][1..] == a[k + 1..] && b[k..][1..] == b[k + 1..];
  }

  /** One day of the hours a shop sends in; a time that is left out gets a default. */
  datatype DayInput = DayInput(open: bool, from: Option<string>, to: Option<string>)

  function FromText(d: DayInput): string { d.from.GetOr("09:00") }

  function ToText(d: DayInput): string { d.to.GetOr("18:00") }

  predicate Accepted(d: Option<DayInput>) {
    && d.Some? && IsTime(FromText(d.value)) && IsTime(ToText(d.value))
    && (d.value.open ==> MinutesOf(FromText(d.value)) < MinutesOf(ToText(d.value)))
  }

  function Saved(d: DayInput): DayHours
    requires Accepted(Some(d))
  {
    DayHours(d.open, MinutesOf(FromText(d)), MinutesOf(ToText(d)))
  }

  /** Hours are refused as a whole; what is saved is a valid week with the days as sent. */
  method ValidateHours(days: seq<Option<DayInput>>) returns (week: Option<Week>)
    requires |days| == 7
    ensures week.Some? <==> forall d :: 0 <= d < 7 ==> Accepted(days[d])
    ensures week.Some? ==> ValidWeek(week.value) && forall d :: 0 <= d < 7 ==> week.value[d] == Saved(days[d].value)
  {
    var out := [];
    var i := 0;
    while i < 7
      invariant 0 <= i <= 7 && |out| == i
      invariant forall d :: 0 <= d < i ==> Accepted(days[d]) && ValidDay(out[d]) && out[d] == Saved(days[d].value)
    {
      if days[i].None? {
        return None;
      }
      var day := days[i].value;
      var from, to := day.from.GetOr("09:00"), day.to.GetOr("18:00");
      if !IsTime(from) || !IsTime(to) {
        return None;
      }
      TextOrderIsTimeOrder(from, to);
      if day.open && !TextLess(from, to) {
        return None;
      }
      TimeInDay(from);
      TimeInDay(to);
      out := out + [DayHours(day.open, MinutesOf(from), MinutesOf(to))];
      i := i + 1;
    }
    return Some(out);
  }

  lemma TimeInDay(s: string)
    requires IsTime(s)
    ensures MinutesOf(s) < DAY_MINUTES
  {
  }

  // ---------------------------------------------------------- local time

  /** Milliseconds of the local clock, in a zone that is `offset` whole minutes ahead of UTC. */
  function Local(t: int, offset: int): int { t + offset * MINUTE_MS }

  /** Local days count from 1 January 1970, a Thursday. */
  function LocalDay(t: int, offset: int): int { Local(t, offset) / DAY_MS }

  function LocalMinute(t: int, offset: int): (m: int)
    ensures 0 <= m < DAY_MINUTES
  {
    Local(t, offset) % DAY_MS / MINUTE_MS
  }

  function WeekdayOf(day: int): (d: int)
    ensures 0 <= d < 7
  {
    (day + 3) % 7
  }

  /** Open by the hours of the day that `t` falls on. */
  predicate OpenAt(week: Week, offset: int, t: int) {
    var d := week[WeekdayOf(LocalDay(t, offset))];
    d.open && d.from <= LocalMinute(t, offset) < d.to
  }

  /** The instant at which the local clock shows `minutes` on a day. */
  function InstantOf(day: int, minutes: int, offset: int): int {
    day * DAY_MS + (minutes - offset) * MINUTE_MS
  }

  lemma ClockShows(day: int, minutes: nat, offset: int)
    requires minutes < DAY_MINUTES
    ensures var t := InstantOf(day, minutes, offset); LocalDay(t, offset) == day && LocalMinute(t, offset) == minutes
  {
    var t := InstantOf(day, minutes, offset);
    assert Local(t, offset) == day * DAY_MS + minutes * MINUTE_MS;
  }

  /** What the local clock shows at an instant, read as if it were UTC; the clock shows no seconds. */
  function SeenAsUtc(t: int, offset: int): int {
    LocalDay(t, offset) * DAY_MS + LocalMinute(t, offset) * MINUTE_MS
  }

  /** From an instant guessed without the offset, two corrections by what the local clock shows there. */
  method LocalToInstant(day: int, minutes: nat, offset: int) returns (instant: int)
    requires minutes < DAY_MINUTES
    ensures instant == InstantOf(day, minutes, offset)
  {
    hide SeenAsUtc;
    var wallAsUtc := day * DAY_MS + minutes * MINUTE_MS;
    instant := wallAsUtc;
    WallIsWhole(day, minutes);
    var i := 0;
    while i < 2
      invariant 0 <= i <= 2 && instant % MINUTE_MS == 0
      invariant instant == if i == 0 then wallAsUtc else InstantOf(day, minutes, offset)
    {
      WholeMinutes(instant, offset);
      instant := instant + wallAsUtc - SeenAsUtc(instant, offset);
      i := i + 1;
    }
  }

  lemma WallIsWhole(day: int, minutes: nat)
    ensures (day * DAY_MS + minutes * MINUTE_MS) % MINUTE_MS == 0
    ensures forall offset :: InstantOf(day, minutes, offset) % MINUTE_MS == 0
  {
    assert forall offset :: InstantOf(day, minutes, offset) == (day * DAY_MINUTES + minutes - offset) * MINUTE_MS;
  }

  /** On a whole minute the clock shows everything there is. */
  lemma WholeMinutes(t: int, offset: int)
    ensures t % MINUTE_MS == 0 ==> SeenAsUtc(t, offset) == Local(t, offset)
  {
    assert Local(t, offset) % MINUTE_MS == t % MINUTE_MS;
  }

  // --------------------------------------------------------- the schedule

  datatype Schedule = Schedule(open: bool, nextChangeAt: Option<int>)

  /** The scan from `i` days ahead of `now` to the same weekday next week. */
  function Scan(week: Week, offset: int, now: int, i: nat): Schedule
    requires i <= 8
    decreases 8 - i
  {
    if i == 8 then Schedule(false, None)
    else
      var day := LocalDay(now, offset) + i;
      var hours := week[WeekdayOf(day)];
      if !hours.open then Scan(week, offset, now, i + 1)
      else if i > 0 then Schedule(false, Some(InstantOf(day, hours.from, offset)))
      else if LocalMinute(now, offset) < hours.from then Schedule(false, Some(InstantOf(day, hours.from, offset)))
      else if LocalMinute(now, offset) < hours.to then Schedule(true, Some(InstantOf(day, hours.to, offset)))
      else Scan(week, offset, now, i + 1)
  }

  function Scheduled(week: Week, offset: int, now: int): Schedule {
    Scan(week, offset, now, 0)
  }

  method ScheduledStatus(week: Week, now: int, offset: int) returns (status: Schedule)
    requires ValidWeek(week)
    ensures status == Scheduled(week, offset, now)
  {
    var today, minutes := LocalDay(now, offset), LocalMinute(now, offset);
    var i := 0;
    while i <= 7
      invariant 0 <= i <= 8
      invariant Scan(week, offset, now, i) == Scheduled(week, offset, now)
    {
      var hours := week[WeekdayOf(today + i)];
      if hours.open {
        if i > 0 || minutes < hours.from {
          var at := LocalToInstant(today + i, hours.from, offset);
          return Schedule(false, Some(at));
        }
        if minutes < hours.to {
          var at := LocalToInstant(today, hours.to, offset);
          return Schedule(true, Some(at));
        }
      }
      i := i + 1;
    }
    return Schedule(false, None);
  }

  // ---------------------------------------------------- the scan is exact

  /** Later instants of a day show later minutes, and days follow one another. */
  lemma ClockRuns(offset: int, s: int, t: int)
    requires s <= t
    ensures LocalDay(s, offset) <= LocalDay(t, offset)
    ensures LocalDay(s, offset) == LocalDay(t, offset) ==> LocalMinute(s, offset) <= LocalMinute(t, offset)
  {
  }

  /** Before the instant at which the clock shows `minutes` on a day, it shows less or it is an earlier day. */
  lemma BeforeInstant(day: int, minutes: nat, offset: int, t: int)
    requires minutes < DAY_MINUTES
    ensures t < InstantOf(day, minutes, offset) <==>
            LocalDay(t, offset) < day || (LocalDay(t, offset) == day && LocalMinute(t, offset) < minutes)
  {
  }

  /** Nothing is open from `now` on for the rest of today and the next days before the i-th. */
  ghost predicate QuietUntil(week: Week, offset: int, now: int, i: nat) {
    forall t :: now <= t && LocalDay(t, offset) < LocalDay(now, offset) + i ==> !OpenAt(week, offset, t)
  }

  lemma QuietDay(week: Week, offset: int, now: int, i: nat)
    requires QuietUntil(week, offset, now, i) && ValidWeek(week)
    requires var hours := week[WeekdayOf(LocalDay(now, offset) + i)];
             !hours.open || (i == 0 && LocalMinute(now, offset) >= hours.to)
    ensures QuietUntil(week, offset, now, i + 1)
  {
    forall t | now <= t && LocalDay(t, offset) < LocalDay(now, offset) + i + 1 ensures !OpenAt(week, offset, t) {
      if LocalDay(t, offset) == LocalDay(now, offset) + i {
        ClockRuns(offset, now, t);
      }
    }
  }

  /** What a scan promises: the status now, and the first instant it differs, if it ever does. */
  ghost predicate Exact(week: Week, offset: int, now: int, s: Schedule) {
    && s.open == OpenAt(week, offset, now)
    && (s.nextChangeAt.Some? ==>
          && now < s.nextChangeAt.value && OpenAt(week, offset, s.nextChangeAt.value) != s.open
          && forall t :: now <= t < s.nextChangeAt.value ==> OpenAt(week, offset, t) == s.open)
    && (s.nextChangeAt.None? ==> forall t :: !OpenAt(week, offset, t))
  }

  lemma OpensLater(week: Week, offset: int, now: int, i: nat)
    requires ValidWeek(week) && QuietUntil(week, offset, now, i)
    requires var hours := week[WeekdayOf(LocalDay(now, offset) + i)];
             hours.open && (i == 0 ==> LocalMinute(now, offset) < hours.from)
    ensures var day := LocalDay(now, offset) + i;
            Exact(week, offset, now, Schedule(false, Some(InstantOf(day, week[WeekdayOf(day)].from, offset))))
  {
    var day := LocalDay(now, offset) + i;
    var from := week[WeekdayOf(day)].from;
    var opening := InstantOf(day, from, offset);
    ClockShows(day, from, offset);
    BeforeInstant(day, from, offset, now);
    forall t | now <= t < opening ensures !OpenAt(week, offset, t) {
      BeforeInstant(day, from, offset, t);
    }
  }

  lemma ClosesLater(week: Week, offset: int, now: int)
    requires ValidWeek(week) && OpenAt(week, offset, now)
    ensures var day := LocalDay(now, offset);
            Exact(week, offset, now, Schedule(true, Some(InstantOf(day, week[WeekdayOf(day)].to, offset))))
  {
    var day := LocalDay(now, offset);
    var to := week[WeekdayOf(day)].to;
    ClockShows(day, to, offset);
    BeforeInstant(day, to, offset, now);
    forall t | now <= t < InstantOf(day, to, offset) ensures OpenAt(week, offset, t) {
      BeforeInstant(day, to, offset, t);
      ClockRuns(offset, now, t);
    }
  }

  predicate ClosedOn(week: Week, day: int) { !week[WeekdayOf(day)].open }

  lemma WeekdayComes(today: int, d: int) returns (day: int)
    requires 0 <= d < 7
    ensures today < day < today + 8 && WeekdayOf(day) == d
  {
    day := today + (d - WeekdayOf(today) + 6) % 7 + 1;
  }

  /** Seven days in a row that are closed leave none in the week. */
  lemma NeverOpen(week: Week, offset: int, today: int)
    requires forall day :: today < day < today + 8 ==> ClosedOn(week, day)
    ensures !HasOpenDay(week)
    ensures forall t :: !OpenAt(week, offset, t)
  {
    hide WeekdayOf;
    forall d | 0 <= d < 7 ensures !week[d].open {
      var day := WeekdayComes(today, d);
      assert ClosedOn(week, day);
    }
  }

  lemma {:induction false} ScanIsExact(week: Week, offset: int, now: int, i: nat)
    requires ValidWeek(week) && i <= 8 && QuietUntil(week, offset, now, i)
    requires forall day :: LocalDay(now, offset) < day < LocalDay(now, offset) + i ==> ClosedOn(week, day)
    ensures Exact(week, offset, now, Scan(week, offset, now, i))
    ensures Scan(week, offset, now, i).nextChangeAt.None? ==> !HasOpenDay(week)
    decreases 8 - i
  {
    hide Exact, OpenAt, QuietUntil, LocalDay, LocalMinute, WeekdayOf, InstantOf;
    if i == 8 {
      NeverOpen(week, offset, LocalDay(now, offset));
      NeverExact(week, offset, now);
    } else {
      var hours := week[WeekdayOf(LocalDay(now, offset) + i)];
      if hours.open && (i > 0 || LocalMinute(now, offset) < hours.from) {
        OpensLater(week, offset, now, i);
      } else if hours.open && LocalMinute(now, offset) < hours.to {
        OpenNow(week, offset, now);
        ClosesLater(week, offset, now);
      } else {
        QuietDay(week, offset, now, i);
        ScanIsExact(week, offset, now, i + 1);
      }
    }
  }

  lemma NeverExact(week: Week, offset: int, now: int)
    requires forall t :: !OpenAt(week, offset, t)
    ensures Exact(week, offset, now, Schedule(false, None))
  {
  }

  lemma OpenNow(week: Week, offset: int, now: int)
    requires var d := week[WeekdayOf(LocalDay(now, offset))];
             d.open && d.from <= LocalMinute(now, offset) < d.to
    ensures OpenAt(week, offset, now) && LocalDay(now, offset) + 0 == LocalDay(now, offset)
  {
  }

  /**
   * For every valid week, zone offset and instant: the status is what the hours say, it stays so up to the next
   * change and is different there, and there is no next change exactly when no day is open.
   */
  lemma ScheduleIsExact(week: Week, offset: int, now: int)
    requires ValidWeek(week)
    ensures Exact(week, offset, now, Scheduled(week, offset, now))
    ensures Scheduled(week, offset, now).nextChangeAt.None? <==> !HasOpenDay(week)
  {
    assert QuietUntil(week, offset, now, 0) by { QuietToday(week, offset, now); }
    ScanIsExact(week, offset, now, 0);
    if Scheduled(week, offset, now).nextChangeAt.Some? {
      var next := Scheduled(week, offset, now).nextChangeAt.value;
      SomeoneOpens(week, offset, now, next);
    }
  }

  lemma QuietToday(week: Week, offset: int, now: int)
    ensures QuietUntil(week, offset, now, 0)
  {
    forall t | now <= t ensures LocalDay(now, offset) <= LocalDay(t, offset) {
      ClockRuns(offset, now, t);
    }
  }

  lemma SomeoneOpens(week: Week, offset: int, s: int, t: int)
    requires OpenAt(week, offset, s) != OpenAt(week, offset, t)
    ensures HasOpenDay(week)
  {
    var d := WeekdayOf(LocalDay(if OpenAt(week, offset, s) then s else t, offset));
    assert week[d].open;
  }

  // ------------------------------------------------------ the real week

  /** The local day number of the Monday of a week, counted from 5 January 1970. */
  function MondayOf(week: int): int {
    Calendar.DayInYear(1970, 0, 5) + 7 * week
  }

  lemma FirstMonday()
    ensures Calendar.DayInYear(1970, 0, 5) == 4
  {
    Calendar.DayFromYearClosedForm(1970);
  }

  /** 5 January 1970 was a Monday, the first day of the week; days follow in turn, Monday after Sunday. */
  lemma WeekTurns(day: int)
    ensures WeekdayOf(Calendar.DayInYear(1970, 0, 5)) == 0
    ensures WeekdayOf(day + 1) == if WeekdayOf(day) < 6 then WeekdayOf(day) + 1 else 0
  {
    FirstMonday();
  }

  /** So the d-th day of every week has the d-th hours. */
  lemma DayOfWeek(week: int, d: nat)
    requires d < 7
    ensures WeekdayOf(MondayOf(week) + d) == d
  {
    FirstMonday();
  }

  /**
   * At `minutes` past local midnight on the d-th day of any week, the clock being `offset` minutes ahead of UTC, the
   * shop is open exactly within that day's hours.
   */
  lemma OpenByTheWeek(hours: Week, offset: int, week: int, d: nat, minutes: nat, ms: nat)
    requires ValidWeek(hours) && d < 7 && minutes < 1440 && ms < 60_000
    ensures var now := ((MondayOf(week) + d) * 1440 + minutes - offset) * 60_000 + ms;
            Scheduled(hours, offset, now).open <==> hours[d].open && hours[d].from <= minutes < hours[d].to
  {
    var day := MondayOf(week) + d;
    var now := (day * 1440 + minutes - offset) * 60_000 + ms;
    DayOfWeek(week, d);
    ClockReads(day, minutes, ms, offset);
    hide WeekdayOf, LocalDay, LocalMinute, Scheduled, MondayOf;
    ScheduleIsExact(hours, offset, now);
  }

  lemma ClockReads(day: int, minutes: nat, ms: nat, offset: int)
    requires minutes < 1440 && ms < 60_000
    ensures var now := (day * 1440 + minutes - offset) * 60_000 + ms;
            LocalDay(now, offset) == day && LocalMinute(now, offset) == minutes
  {
    var now := (day * 1440 + minutes - offset) * 60_000 + ms;
    assert Local(now, offset) == day * DAY_MS + (minutes * MINUTE_MS + ms);
  }
}
