/** A shop's Online / Offline switch: set by hand, or driven by its opening hours with temporary overrides. */
module ShopSwitch {
  import opened Options
  import opened Availability

  datatype Source = Manual | BySchedule | Override

  datatype Effective = Effective(online: bool, source: Source, nextChangeAt: Option<int>)

  datatype Settings = Settings(
    acceptingOrders: bool,
    autoSchedule: bool,
    scheduleOverride: Option<bool>,
    scheduleOverrideUntil: Option<int>)

  predicate HoursOpen(hours: Option<Week>) {
    hours.Some? && HasOpenDay(hours.value)
  }

  predicate OverrideActive(s: Settings, now: int) {
    s.scheduleOverride.Some? && (s.scheduleOverrideUntil.Some? ==> now < s.scheduleOverrideUntil.value)
  }

  function EffectiveAvailability(s: Settings, hours: Option<Week>, offset: int, now: int): Effective {
    if !s.autoSchedule || !HoursOpen(hours) then Effective(s.acceptingOrders, Manual, None)
    else if OverrideActive(s, now) then Effective(s.scheduleOverride.value, Override, s.scheduleOverrideUntil)
    else
      var scheduled := Scheduled(hours.value, offset, now);
      Effective(scheduled.open, BySchedule, scheduled.nextChangeAt)
  }

  function Online(s: Settings, hours: Option<Week>, offset: int, now: int): bool {
    EffectiveAvailability(s, hours, offset, now).online
  }

  /** No override for what the schedule says anyway, otherwise one until the next scheduled change. */
  function WithOverride(s: Settings, online: bool, week: Week, offset: int, now: int): Settings {
    var scheduled := Scheduled(week, offset, now);
    if scheduled.open == online then s.(scheduleOverride := None, scheduleOverrideUntil := None)
    else s.(scheduleOverride := Some(online), scheduleOverrideUntil := scheduled.nextChangeAt)
  }

  /** What a shop asks for: flip the switch, turn the schedule on or off, or both. */
  datatype Request = Request(acceptingOrders: Option<bool>, autoSchedule: Option<bool>)

  /** The settings after a request; a schedule needs hours with an open day. */
  function Changed(s: Settings, r: Request, hours: Option<Week>, offset: int, now: int): Option<Settings> {
    var autoSchedule := r.autoSchedule.GetOr(s.autoSchedule);
    if autoSchedule && !HoursOpen(hours) then None
    else
      var turned :=
        if autoSchedule == s.autoSchedule then s
        else Settings(if autoSchedule then s.acceptingOrders else Online(s, hours, offset, now), autoSchedule, None, None);
      Some(if r.acceptingOrders.None? then turned
           else if autoSchedule then WithOverride(turned, r.acceptingOrders.value, hours.value, offset, now)
           else turned.(acceptingOrders := r.acceptingOrders.value))
  }

  // ------------------------------------------------------------ the switch

  class ShopSettings {
    var acceptingOrders: bool
    var autoSchedule: bool
    var scheduleOverride: Option<bool>
    var scheduleOverrideUntil: Option<int>

    constructor ()
      ensures Current() == Settings(true, false, None, None)
    {
      acceptingOrders, autoSchedule, scheduleOverride, scheduleOverrideUntil := true, false, None, None;
    }

    function Current(): Settings
      reads this
    {
      Settings(acceptingOrders, autoSchedule, scheduleOverride, scheduleOverrideUntil)
    }

    method OnlineChanges(r: Request, hours: Option<Week>, offset: int, now: int) returns (ok: bool)
      requires hours.Some? ==> ValidWeek(hours.value)
      modifies this
      ensures var after := Changed(old(Current()), r, hours, offset, now);
              ok == after.Some? && Current() == after.GetOr(old(Current()))
    {
      var wanted := r.autoSchedule.GetOr(autoSchedule);
      if wanted && !HoursOpen(hours) {
        return false;
      }
      var online := Online(Current(), hours, offset, now);
      if r.autoSchedule.Some? && r.autoSchedule.value != autoSchedule {
        autoSchedule := r.autoSchedule.value;
        scheduleOverride, scheduleOverrideUntil := None, None;
        if !autoSchedule {
          acceptingOrders := online;
        }
      }
      if r.acceptingOrders.Some? {
        if wanted {
          SetOverride(r.acceptingOrders.value, hours.value, offset, now);
        } else {
          acceptingOrders := r.acceptingOrders.value;
        }
      }
      ok := true;
    }

    method SetOverride(online: bool, week: Week, offset: int, now: int)
      requires ValidWeek(week)
      modifies this`scheduleOverride, this`scheduleOverrideUntil
      ensures Current() == WithOverride(old(Current()), online, week, offset, now)
    {
      var scheduled := ScheduledStatus(week, now, offset);
      if scheduled.open == online {
        scheduleOverride, scheduleOverrideUntil := None, None;
      } else {
        scheduleOverride, scheduleOverrideUntil := Some(online), scheduled.nextChangeAt;
      }
    }
  }

  // ----------------------------------------------------- what it promises

  /** Who decides: the manual switch without a schedule or an open day, else an override that still runs, else the hours. */
  lemma EffectiveMeans(s: Settings, hours: Option<Week>, offset: int, now: int)
    requires hours.Some? ==> ValidWeek(hours.value)
    ensures var scheduled := s.autoSchedule && hours.Some? && exists d :: 0 <= d < 7 && hours.value[d].open;
            var held := s.scheduleOverride.Some?
                        && (s.scheduleOverrideUntil == None || now < s.scheduleOverrideUntil.value);
            Online(s, hours, offset, now) ==
              if !scheduled then s.acceptingOrders
              else if held then s.scheduleOverride.value
              else OpenAt(hours.value, offset, now)
    ensures var shown := EffectiveAvailability(s, hours, offset, now);
            match shown.source
            case Manual => shown.nextChangeAt.None?
            case Override => s.scheduleOverride == Some(shown.online) && shown.nextChangeAt == s.scheduleOverrideUntil
            case BySchedule =>
              hours.Some? && Exact(hours.value, offset, now, Schedule(shown.online, shown.nextChangeAt))
  {
    if hours.Some? {
      hide Scheduled;
      ScheduleIsExact(hours.value, offset, now);
    }
  }

  /** With the schedule on, an override is kept exactly if the switch goes against the hours, up to their next change. */
  lemma SwitchStores(s: Settings, r: Request, week: Week, offset: int, now: int)
    requires ValidWeek(week) && HasOpenDay(week)
    requires r.acceptingOrders.Some? && r.autoSchedule.GetOr(s.autoSchedule)
    ensures var after, online := Changed(s, r, Some(week), offset, now), r.acceptingOrders.value;
            && after.Some?
            && if OpenAt(week, offset, now) == online then
                 after.value.scheduleOverride.None? && after.value.scheduleOverrideUntil.None?
               else
                 && after.value.scheduleOverride == Some(online) && after.value.scheduleOverrideUntil.Some?
                 && Exact(week, offset, now, Schedule(!online, after.value.scheduleOverrideUntil))
  {
    hide Scheduled, Exact, OpenAt;
    ScheduleIsExact(week, offset, now);
    ExactStatus(week, offset, now);
  }

  lemma ExactStatus(week: Week, offset: int, now: int)
    requires Exact(week, offset, now, Scheduled(week, offset, now))
    ensures Scheduled(week, offset, now).open == OpenAt(week, offset, now)
  {
  }

  /** A schedule needs hours with an open day, and nothing else is refused. */
  lemma RequestRefused(s: Settings, r: Request, hours: Option<Week>, offset: int, now: int)
    ensures Changed(s, r, hours, offset, now).None? <==>
              r.autoSchedule.GetOr(s.autoSchedule) && !(hours.Some? && exists d :: 0 <= d < 7 && hours.value[d].open)
  {
  }

  /** A request changes the schedule only as it asks, and keeps the manual switch while the schedule stays on. */
  lemma RequestKeeps(s: Settings, r: Request, hours: Option<Week>, offset: int, now: int)
    requires Changed(s, r, hours, offset, now).Some?
    ensures var after := Changed(s, r, hours, offset, now).value;
            && after.autoSchedule == (if r.autoSchedule.Some? then r.autoSchedule.value else s.autoSchedule)
            && (r.acceptingOrders.None? && after.autoSchedule == s.autoSchedule ==> after == s)
            && (after.autoSchedule ==> after.acceptingOrders == s.acceptingOrders)
  {
  }

  /** Flipping the switch takes effect at once, whatever mode the shop is in or changes to. */
  lemma SwitchTakesEffect(s: Settings, r: Request, hours: Option<Week>, offset: int, now: int)
    requires hours.Some? ==> ValidWeek(hours.value)
    requires r.acceptingOrders.Some? && Changed(s, r, hours, offset, now).Some?
    ensures Online(Changed(s, r, hours, offset, now).value, hours, offset, now) == r.acceptingOrders.value
  {
    hide Scheduled;
    if r.autoSchedule.GetOr(s.autoSchedule) {
      ScheduleIsExact(hours.value, offset, now);
    }
  }

  /** The end of a switch: the next scheduled change, or the one after it if the switch went against the schedule. */
  function HoldsUntil(week: Week, online: bool, offset: int, now: int): int
    requires ValidWeek(week) && HasOpenDay(week)
  {
    ScheduleIsExact(week, offset, now);
    var first := Scheduled(week, offset, now);
    if first.open == online then first.nextChangeAt.value
    else
      ScheduleIsExact(week, offset, first.nextChangeAt.value);
      Scheduled(week, offset, first.nextChangeAt.value).nextChangeAt.value
  }

  /**
   * With the schedule on, the shop stays as it was switched, without a glitch when an override runs out: up to the
   * next scheduled change, and against the schedule even up to the second one.
   */
  lemma SwitchHolds(s: Settings, r: Request, week: Week, offset: int, now: int, t: int)
    requires ValidWeek(week) && HasOpenDay(week)
    requires r.acceptingOrders.Some? && r.autoSchedule.GetOr(s.autoSchedule)
    requires now <= t < HoldsUntil(week, r.acceptingOrders.value, offset, now)
    ensures Changed(s, r, Some(week), offset, now).Some?
    ensures Online(Changed(s, r, Some(week), offset, now).value, Some(week), offset, t) == r.acceptingOrders.value
  {
    hide Scheduled, OpenAt;
    var first := Scheduled(week, offset, now);
    ScheduleIsExact(week, offset, now);
    ScheduleIsExact(week, offset, t);
    if first.open != r.acceptingOrders.value && first.nextChangeAt.value <= t {
      ScheduleIsExact(week, offset, first.nextChangeAt.value);
    }
  }

  /** The end of the hold is real: there the schedule says the opposite of the switch. */
  lemma SwitchEnds(s: Settings, r: Request, week: Week, offset: int, now: int)
    requires ValidWeek(week) && HasOpenDay(week)
    requires r.acceptingOrders.Some? && r.autoSchedule.GetOr(s.autoSchedule)
    ensures var until := HoldsUntil(week, r.acceptingOrders.value, offset, now);
            && now < until
            && Online(Changed(s, r, Some(week), offset, now).value, Some(week), offset, until) != r.acceptingOrders.value
  {
    hide Scheduled, OpenAt;
    var first := Scheduled(week, offset, now);
    ScheduleIsExact(week, offset, now);
    ScheduleIsExact(week, offset, first.nextChangeAt.value);
    ScheduleIsExact(week, offset, HoldsUntil(week, r.acceptingOrders.value, offset, now));
  }

  /** Turning the schedule off keeps the status of that moment, for good. */
  lemma TurningOffKeeps(s: Settings, hours: Option<Week>, offset: int, now: int, t: int)
    requires s.autoSchedule
    ensures var after := Changed(s, Request(None, Some(false)), hours, offset, now);
            after.Some? && Online(after.value, hours, offset, t) == Online(s, hours, offset, now)
  {
  }

  /** Turning the schedule on keeps the status exactly if the hours agree with the manual switch. */
  lemma TurningOnKeepsWhen(s: Settings, week: Week, offset: int, now: int)
    requires ValidWeek(week) && HasOpenDay(week) && !s.autoSchedule
    ensures var after := Changed(s, Request(None, Some(true)), Some(week), offset, now);
            && after.Some?
            && var kept := Online(after.value, Some(week), offset, now) == Online(s, Some(week), offset, now);
               kept <==> OpenAt(week, offset, now) == s.acceptingOrders
  {
    hide Scheduled;
    ScheduleIsExact(week, offset, now);
  }

  /** So it may change the status: an online shop goes offline as its schedule is turned on before opening time. */
  lemma TurningOnCanChange()
    ensures exists s: Settings, week: Week, now: int ::
              && ValidWeek(week) && HasOpenDay(week) && !s.autoSchedule
              && var after := Changed(s, Request(None, Some(true)), Some(week), 330, now);
                 after.Some? && Online(after.value, Some(week), 330, now) != Online(s, Some(week), 330, now)
  {
    var s := Settings(true, false, None, None);
    var week: Week := seq(7, _ => DayHours(true, 540, 1080));
    var now := 0;
    assert week[0].open;
    assert LocalMinute(now, 330) == 330;
    TurningOnKeepsWhen(s, week, 330, now);
  }
}
