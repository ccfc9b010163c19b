/** Maintenance windows by calendar and clock: weekdays, hours and minutes. */
module MaintenanceClock {
  import opened Api
  import opened Maintenance

  const NANOS_PER_DAY: int := 86_400_000_000_000

  /** The minute of the day, in UTC, at that instant. */
  function MinuteOfDay(t: int): int { t % NANOS_PER_DAY / 60_000_000_000 }

  /** The first day counted was a Thursday, and the weekdays go round. */
  lemma WeekdaysGoRound(day: int)
    ensures Weekday(0) == 4 && 0 <= Weekday(day) <= 6
    ensures Weekday(day + 1) == if Weekday(day) == 6 then 0 else Weekday(day) + 1
  {
  }

  /** The window is for that day of the week: without days it is for every day. */
  predicate IsFor(w: Window, weekday: int) {
    |w.days| == 0 || exists i :: 0 <= i < |w.days| && (w.days[i] == AnyDay || w.days[i] == On(weekday))
  }

  lemma DayMatches(w: Window, day: int)
    ensures IsDayMatch(w.days, day) <==> IsFor(w, Weekday(day))
  {
    if AnyDay in w.days {
      var i :| 0 <= i < |w.days| && w.days[i] == AnyDay;
    }
    if On(Weekday(day)) in w.days {
      var i :| 0 <= i < |w.days| && w.days[i] == On(Weekday(day));
    }
  }

  /** The instant has come to that time of its day exactly when the clock shows that minute or a later one. */
  lemma OffsetInMinutes(time: TimeOfDay, minutes: int, day: int, t: int)
    requires time.At? && minutes == 60 * time.hour + time.minute && day == t / NANOS_PER_DAY
    ensures DayOf(t) == day
    ensures day * DAY + Offset(time) <= t <==> minutes <= MinuteOfDay(t)
  {
    var rest := t % NANOS_PER_DAY;
    assert t == day * NANOS_PER_DAY + rest;
    assert Offset(time) == minutes * 60_000_000_000;
  }

  /**
   * A window is open from its start to its end on the days it is for; one that ends before it starts runs past midnight
   * into the day after.
   */
  lemma OpenByTheClock(w: Window, t: int)
    requires Validated(w)
    ensures
      var day, minute := t / NANOS_PER_DAY, MinuteOfDay(t);
      var from, to := 60 * w.start.hour + w.start.minute, 60 * w.end.hour + w.end.minute;
      IsInWindow(w, t) == Some(
                            if from <= to then from <= minute < to && IsFor(w, Weekday(day))
                            else (from <= minute && IsFor(w, Weekday(day)))
                                 || (minute < to && IsFor(w, Weekday(day - 1))))
  {
    var day := t / NANOS_PER_DAY;
    OffsetInMinutes(w.start, 60 * w.start.hour + w.start.minute, day, t);
    OffsetInMinutes(w.end, 60 * w.end.hour + w.end.minute, day, t);
    DayMatches(w, day);
    DayMatches(w, day - 1);
  }

  /** Patching is allowed without a spec; with one, not on an excluded date, and only in an enabled window if any. */
  lemma AllowedByTheClock(spec: Option<MaintenanceSpec>, t: int)
    ensures IsInMaintenanceWindow(spec, t) <==>
              (spec.Some? ==>
                 && t / NANOS_PER_DAY !in spec.value.excludeDates
                 && (|spec.value.windows| == 0
                     || exists i :: 0 <= i < |spec.value.windows| && !spec.value.windows[i].disabled
                                    && IsInWindow(spec.value.windows[i], t) == Some(true)))
  {
    if spec.Some? && exists w <- spec.value.windows :: !w.disabled && IsInWindow(w, t) == Some(true) {
      var w :| w in spec.value.windows && !w.disabled && IsInWindow(w, t) == Some(true);
      var i :| 0 <= i < |spec.value.windows| && spec.value.windows[i] == w;
    }
  }

  // ---------------------------------------------------------------- the end of the week

  /** The start of an enabled window on a day it is for, and which is not excluded. */
  predicate StartsAt(spec: MaintenanceSpec, i: nat, day: int, t: int)
    requires i < |spec.windows|
  {
    var w := spec.windows[i];
    && !w.disabled && day !in spec.excludeDates && IsFor(w, Weekday(day)) && w.start.At?
    && t == day * NANOS_PER_DAY + (60 * w.start.hour + w.start.minute) * 60_000_000_000
  }

  lemma StartsByTheClock(spec: MaintenanceSpec, day: int, t: int)
    ensures OpensOn(spec, spec.windows, day, t) <==> exists i: nat :: i < |spec.windows| && StartsAt(spec, i, day, t)
  {
    forall w | w in spec.windows ensures IsDayMatch(w.days, day) <==> IsFor(w, Weekday(day)) {
      DayMatches(w, day);
    }
    if w :| w in spec.windows && StartsOn(spec, w, day, t) {
      var i :| 0 <= i < |spec.windows| && spec.windows[i] == w;
      assert StartsAt(spec, i, day, t);
    }
    if i: nat :| i < |spec.windows| && StartsAt(spec, i, day, t) {
      assert StartsOn(spec, spec.windows[i], day, t);
    }
  }

  /** The search finds nothing exactly when no window starts from now to the end of the seventh day. */
  lemma NothingFoundIff(spec: MaintenanceSpec, now: int, r: Option<int>)
    requires EarliestOpening(spec, now, 7, r)
    ensures r.None? <==>
              forall i: nat, day, t ::
                (i < |spec.windows| && now / NANOS_PER_DAY <= day < now / NANOS_PER_DAY + 7
                 && StartsAt(spec, i, day, t)) ==> t < now
  {
    if r.Some? {
      var day: int :| DayOf(now) <= day < DayOf(now) + 7 && OpensOn(spec, spec.windows, day, r.value);
      StartsByTheClock(spec, day, r.value);
      var i: nat :| i < |spec.windows| && StartsAt(spec, i, day, r.value);
    } else {
      forall i: nat, day, t |
        i < |spec.windows| && now / NANOS_PER_DAY <= day < now / NANOS_PER_DAY + 7 && StartsAt(spec, i, day, t)
        ensures t < now
      {
        StartsByTheClock(spec, day, t);
        assert now <= t ==> Opening(spec, now, 7, t);
      }
    }
  }

  /**
   * The search gives up too soon by up to a day: on a Thursday at 10:00 it knows of no window that is for Thursdays
   * from 02:00 to 04:00, although that opens within seven times 24 hours.
   */
  lemma WeeklyWindowIsMissed()
    ensures
      var spec := MaintenanceSpec([], [Window([On(4)], At(2, 0), At(4, 0), false)]);
      var now, opens := 10 * HOUR, 7 * DAY + 2 * HOUR;
      && EarliestOpening(spec, now, 7, None)
      && now < opens < now + 7 * DAY && IsInMaintenanceWindow(Some(spec), opens)
  {
    var w := Window([On(4)], At(2, 0), At(4, 0), false);
    var spec := MaintenanceSpec([], [w]);
    forall day: int, t: int | 0 <= day < 7 && OpensOn(spec, spec.windows, day, t) ensures t == 2 * HOUR {
      assert StartsOn(spec, w, day, t);
      assert Weekday(day) == 4;
      assert day == 0;
    }
    assert IsInWindow(w, 7 * DAY + 2 * HOUR) == Some(true) && w in spec.windows;
  }

  /** What it misses are starts on the eighth day, no others: the same weekday as today, earlier than now. */
  lemma MissedIffOnEighthDay(spec: MaintenanceSpec, now: int, eighth: int)
    requires EarliestOpening(spec, now, 7, None) && ValidatedSpec(spec) && eighth == now / NANOS_PER_DAY + 7
    ensures (exists day, t :: now <= t < now + 7 * NANOS_PER_DAY && OpensOn(spec, spec.windows, day, t))
            <==> exists t :: t < now + 7 * NANOS_PER_DAY && OpensOn(spec, spec.windows, eighth, t)
  {
    DayBounds(now);
    forall day, t | now <= t < now + 7 * NANOS_PER_DAY && OpensOn(spec, spec.windows, day, t) ensures day == eighth {
      var w :| w in spec.windows && StartsOn(spec, w, day, t);
      OffsetBounds(w);
      DayOfInstant(day, Offset(w.start));
      DayBounds(t);
      assert !Opening(spec, now, 7, t);
    }
    if t :| t < now + 7 * NANOS_PER_DAY && OpensOn(spec, spec.windows, eighth, t) {
      var w :| w in spec.windows && StartsOn(spec, w, eighth, t);
      OffsetBounds(w);
      assert now <= t;
    }
  }
}
