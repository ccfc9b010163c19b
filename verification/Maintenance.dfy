/** Maintenance windows (internal/maintenance). Days are counted from 1970-01-01 UTC. */
module Maintenance {
  import opened Api

  /** What parsing an HH:MM string yields. */
  datatype TimeOfDay = Unparsable | At(hour: int, minute: int)

  /** A day entry: "Any"/"All", a weekday name (0 is Sunday), or neither. */
  datatype DayName = AnyDay | On(weekday: int) | UnknownDay

  datatype Window = Window(days: seq<DayName>, start: TimeOfDay, end: TimeOfDay, disabled: bool)

  datatype MaintenanceSpec = MaintenanceSpec(excludeDates: seq<int>, windows: seq<Window>)

  const SEARCHED_DAYS := 7
  const SEARCHED_YEAR := 366

  function DayOf(t: int): int { t / DAY }

  /** 1970-01-01 was a Thursday. */
  function Weekday(day: int): int { (day + 4) % 7 }

  function Offset(t: TimeOfDay): int
    requires t.At?
  {
    t.hour * HOUR + t.minute * MINUTE
  }

  predicate IsExcluded(spec: MaintenanceSpec, day: int) { day in spec.excludeDates }

  predicate IsDayMatch(days: seq<DayName>, day: int) {
    days == [] || AnyDay in days || On(Weekday(day)) in days
  }

  /** None when a time does not parse. A window whose end is before its start spans midnight. */
  function IsInWindow(w: Window, now: int): Option<bool> {
    if w.start.Unparsable? || w.end.Unparsable? then None
    else
      var day := DayOf(now);
      var start, end := day * DAY + Offset(w.start), day * DAY + Offset(w.end);
      if end < start then
        // Before midnight the day itself must be listed, after midnight the day before
        var evening := start <= now && IsDayMatch(w.days, day);
        var morning := now < end && IsDayMatch(w.days, day - 1);
        Some(evening || morning)
      else
        Some(start <= now < end && IsDayMatch(w.days, day))
  }

  predicate IsInMaintenanceWindow(spec: Option<MaintenanceSpec>, now: int) {
    spec.None?
    || (&& !IsExcluded(spec.value, DayOf(now))
        && (spec.value.windows == []
            || exists w <- spec.value.windows :: !w.disabled && IsInWindow(w, now) == Some(true)))
  }

  // ---------------------------------------------------------------- interval semantics

  /** What the CRD patterns of startTime and endTime admit. */
  predicate Validated(w: Window) {
    && w.start.At? && 0 <= w.start.hour < 24 && 0 <= w.start.minute < 60
    && w.end.At? && 0 <= w.end.hour < 24 && 0 <= w.end.minute < 60
  }

  predicate SpansMidnight(w: Window)
    requires Validated(w)
  {
    Offset(w.end) < Offset(w.start)
  }

  /** The window as opened on one day: from start to end, with end on the next day if it is before start. */
  predicate OpenSince(w: Window, day: int, t: int)
    requires Validated(w)
  {
    && IsDayMatch(w.days, day)
    && day * DAY + Offset(w.start) <= t
    && t < day * DAY + Offset(w.end) + if SpansMidnight(w) then DAY else 0
  }

  lemma DayBounds(t: int)
    ensures DayOf(t) * DAY <= t < DayOf(t) * DAY + DAY
  {
  }

  lemma DayOfInstant(day: int, offset: int)
    requires 0 <= offset < DAY
    ensures DayOf(day * DAY + offset) == day
  {
  }

  lemma OffsetBounds(w: Window)
    requires Validated(w)
    ensures 0 <= Offset(w.start) < DAY && 0 <= Offset(w.end) < DAY
  {
  }

  /** Looking at today and yesterday only loses nothing: some matching day, of all there are, has t in its interval. */
  lemma InWindowIffOpenSinceSomeDay(w: Window, t: int)
    requires Validated(w)
    ensures IsInWindow(w, t) == Some(exists day: int :: OpenSince(w, day, t))
  {
    var today := DayOf(t);
    DayBounds(t);
    OffsetBounds(w);
    forall day: int | OpenSince(w, day, t)
      ensures day == today || (day == today - 1 && SpansMidnight(w))
    {
      assert day * DAY <= t < day * DAY + 2 * DAY;
      assert day <= today && today <= day + 1;
    }
    if IsInWindow(w, t) == Some(true) {
      assert OpenSince(w, today, t) || OpenSince(w, today - 1, t);
    }
  }

  // ---------------------------------------------------------------- the next opening

  /** t is the start, on day, of an enabled window listed for that day, and the day is not excluded. */
  predicate StartsOn(spec: MaintenanceSpec, w: Window, day: int, t: int) {
    && !IsExcluded(spec, day) && !w.disabled && IsDayMatch(w.days, day)
    && w.start.At? && t == day * DAY + Offset(w.start)
  }

  ghost predicate OpensOn(spec: MaintenanceSpec, windows: seq<Window>, day: int, t: int) {
    exists w <- windows :: StartsOn(spec, w, day, t)
  }

  ghost predicate Opening(spec: MaintenanceSpec, now: int, days: nat, t: int) {
    && now <= t
    && exists day: int :: DayOf(now) <= day < DayOf(now) + days && OpensOn(spec, spec.windows, day, t)
  }

  lemma OpeningSplits(spec: MaintenanceSpec, now: int, days: nat, more: nat, t: int)
    requires more == days + 1
    ensures Opening(spec, now, more, t) <==>
            Opening(spec, now, days, t) || (now <= t && OpensOn(spec, spec.windows, DayOf(now) + days, t))
  {
    if Opening(spec, now, more, t) {
      var day :| DayOf(now) <= day < DayOf(now) + more && OpensOn(spec, spec.windows, day, t);
      assert day == DayOf(now) + days || Opening(spec, now, days, t);
    }
  }

  /** The earliest start not before now on the given number of days; none means there is no such start. */
  ghost predicate EarliestOpening(spec: MaintenanceSpec, now: int, days: nat, r: Option<int>) {
    && (r.Some? ==> Opening(spec, now, days, r.value))
    && (forall t: int :: Opening(spec, now, days, t) ==> r.Some? && r.value <= t)
  }

  /** The search without windows: now on a free day, else the start of the first free day within a year. */
  ghost predicate EarliestFreeDay(spec: MaintenanceSpec, now: int, r: Option<int>) {
    var today := DayOf(now);
    match r
    case None => forall day: int :: today <= day < today + SEARCHED_YEAR ==> IsExcluded(spec, day)
    case Some(t) =>
      && today <= DayOf(t) < today + SEARCHED_YEAR
      && !IsExcluded(spec, DayOf(t))
      && (forall day: int :: today <= day < DayOf(t) ==> IsExcluded(spec, day))
      && t == if DayOf(t) == today then now else DayOf(t) * DAY
  }

  method NextMaintenanceWindow(spec: Option<MaintenanceSpec>, now: int) returns (next: Option<int>)
    ensures spec.None? ==> next == Some(now)
    ensures spec.Some? && spec.value.windows == [] ==> EarliestFreeDay(spec.value, now, next)
    ensures spec.Some? && spec.value.windows == [] ==>
              (next.None? <==> forall day: int :: DayOf(now) <= day < DayOf(now) + 366 ==> IsExcluded(spec.value, day))
    ensures spec.Some? && spec.value.windows != [] ==> EarliestOpening(spec.value, now, 7, next)
  {
    if spec.None? {
      return Some(now);
    }
    var s := spec.value;
    var today := DayOf(now);
    if s.windows == [] {
      for i := 0 to SEARCHED_YEAR
        invariant forall day: int :: today <= day < today + i ==> IsExcluded(s, day)
      {
        if IsExcluded(s, today + i) {
          continue;
        }
        if i == 0 {
          return Some(now);
        }
        assert DayOf((today + i) * DAY) == today + i;
        return Some((today + i) * DAY);
      }
      return None;
    }

    next := None;
    for i := 0 to SEARCHED_DAYS
      invariant EarliestOpening(s, now, i, next)
    {
      var day := today + i;
      ghost var more := i + 1;
      forall t: int { OpeningSplits(s, now, i, more, t); }
      if IsExcluded(s, day) {
        continue;
      }
      for k := 0 to |s.windows|
        invariant next.Some? ==> Opening(s, now, more, next.value)
        invariant forall t: int :: Opening(s, now, i, t) ==> next.Some? && next.value <= t
        invariant forall t: int :: now <= t && OpensOn(s, s.windows[..k], day, t) ==> next.Some? && next.value <= t
      {
        var w := s.windows[k];
        ghost var passed := s.windows[..k + 1];
        assert passed == s.windows[..k] + [w];
        assert forall t: int :: OpensOn(s, passed, day, t) <==>
                                OpensOn(s, s.windows[..k], day, t) || StartsOn(s, w, day, t);
        if w.disabled || !IsDayMatch(w.days, day) || w.start.Unparsable? {
          continue;
        }
        var start := day * DAY + Offset(w.start);
        assert StartsOn(s, w, day, start);
        assert OpensOn(s, s.windows, day, start);
        if now <= start && (next.None? || start < next.value) {
          next := Some(start);
        }
      }
      assert s.windows[..|s.windows|] == s.windows;
    }
  }

  // ---------------------------------------------------------------- how good the search is

  ghost predicate ValidatedSpec(spec: MaintenanceSpec) { forall w <- spec.windows :: Validated(w) }

  lemma StartIsOpen(spec: MaintenanceSpec, w: Window, day: int, t: int)
    requires w in spec.windows && Validated(w) && Offset(w.start) != Offset(w.end)
    requires StartsOn(spec, w, day, t)
    ensures IsInMaintenanceWindow(Some(spec), t)
  {
    OffsetBounds(w);
    DayOfInstant(day, Offset(w.start));
    assert IsInWindow(w, t) == Some(true);
  }

  /** A window that does not end where it starts opens at t. */
  ghost predicate WindowOpensAt(spec: MaintenanceSpec, t: int)
    requires ValidatedSpec(spec)
  {
    exists w <- spec.windows :: StartsOn(spec, w, DayOf(t), t) && Offset(w.start) != Offset(w.end)
  }

  /** The after-midnight part of a window listed for the day before, an excluded one, reaches past t. */
  ghost predicate TailReaches(spec: MaintenanceSpec, t: int)
    requires ValidatedSpec(spec)
  {
    && IsExcluded(spec, DayOf(t) - 1)
    && exists w <- spec.windows ::
         && !w.disabled && SpansMidnight(w) && IsDayMatch(w.days, DayOf(t) - 1)
         && t < DayOf(t) * DAY + Offset(w.end)
  }

  lemma OpeningDay(spec: MaintenanceSpec, now: int, t: int)
    requires ValidatedSpec(spec) && Opening(spec, now, SEARCHED_DAYS, t)
    ensures DayOf(now) <= DayOf(t) < DayOf(now) + SEARCHED_DAYS && OpensOn(spec, spec.windows, DayOf(t), t)
    ensures !IsExcluded(spec, DayOf(t))
  {
    var day: int :| DayOf(now) <= day < DayOf(now) + SEARCHED_DAYS && OpensOn(spec, spec.windows, day, t);
    var w :| w in spec.windows && StartsOn(spec, w, day, t);
    OffsetBounds(w);
    DayOfInstant(day, Offset(w.start));
  }

  /** At an opening either kind of window makes patching allowed. */
  lemma OpeningIsOpen(spec: MaintenanceSpec, now: int, t: int)
    requires ValidatedSpec(spec) && Opening(spec, now, SEARCHED_DAYS, t)
    requires WindowOpensAt(spec, t) || TailReaches(spec, t)
    ensures IsInMaintenanceWindow(Some(spec), t)
  {
    OpeningDay(spec, now, t);
    if WindowOpensAt(spec, t) {
      var w :| w in spec.windows && StartsOn(spec, w, DayOf(t), t) && Offset(w.start) != Offset(w.end);
      StartIsOpen(spec, w, DayOf(t), t);
    } else {
      var w :|
        && w in spec.windows && !w.disabled && SpansMidnight(w) && IsDayMatch(w.days, DayOf(t) - 1)
        && t < DayOf(t) * DAY + Offset(w.end);
      OffsetBounds(w);
      DayBounds(t);
      assert IsInWindow(w, t) == Some(true);
    }
  }

  /** A returned opening is not in the past, and patching is allowed at it unless a window has start == end. */
  lemma NextOpeningIsOpen(spec: MaintenanceSpec, now: int, r: Option<int>)
    requires spec.windows != [] && ValidatedSpec(spec)
    requires forall w <- spec.windows :: Offset(w.start) != Offset(w.end)
    requires EarliestOpening(spec, now, SEARCHED_DAYS, r)
    ensures r.Some? ==> now <= r.value && IsInMaintenanceWindow(Some(spec), r.value)
  {
    if r.Some? {
      OpeningDay(spec, now, r.value);
      OpeningIsOpen(spec, now, r.value);
    }
  }

  /** The search without windows always names an allowed instant, and no earlier one is allowed. */
  lemma NextFreeDayIsEarliest(spec: MaintenanceSpec, now: int, r: Option<int>)
    requires spec.windows == [] && EarliestFreeDay(spec, now, r)
    ensures r.Some? ==> now <= r.value && IsInMaintenanceWindow(Some(spec), r.value)
    ensures
      var horizon := if r.Some? then r.value else (DayOf(now) + SEARCHED_YEAR) * DAY;
      forall t: int :: now <= t < horizon ==> !IsInMaintenanceWindow(Some(spec), t)
  {
    var horizon := if r.Some? then r.value else (DayOf(now) + SEARCHED_YEAR) * DAY;
    forall t: int | now <= t < horizon ensures IsExcluded(spec, DayOf(t)) {
      DayBounds(t);
      DayBounds(now);
    }
  }

  /**
   * The case the search misses: an enabled window spanning midnight is listed for an excluded day, and the day
   * after is not excluded, so patching is allowed from that midnight on although no start was ever considered.
   */
  ghost predicate OrphanTail(spec: MaintenanceSpec, day: int)
    requires ValidatedSpec(spec)
  {
    && IsExcluded(spec, day) && !IsExcluded(spec, day + 1)
    && exists w <- spec.windows ::
         !w.disabled && SpansMidnight(w) && Offset(w.end) > 0 && IsDayMatch(w.days, day)
  }

  ghost function Horizon(now: int, r: Option<int>): int {
    if r.Some? then r.value else (DayOf(now) + SEARCHED_DAYS) * DAY
  }

  lemma HorizonWithinSearch(spec: MaintenanceSpec, now: int, r: Option<int>, t: int)
    requires ValidatedSpec(spec) && EarliestOpening(spec, now, SEARCHED_DAYS, r)
    requires now <= t < Horizon(now, r)
    ensures DayOf(now) <= DayOf(t) < DayOf(now) + SEARCHED_DAYS
  {
    DayBounds(t);
    DayBounds(now);
    if r.Some? {
      OpeningDay(spec, now, r.value);
      DayBounds(r.value);
    }
  }

  /** The opening that holds t either started before now, or on an excluded day: the search would have found it. */
  lemma MissedStart(spec: MaintenanceSpec, now: int, r: Option<int>, t: int, w: Window, day: int)
    requires ValidatedSpec(spec) && EarliestOpening(spec, now, SEARCHED_DAYS, r)
    requires w in spec.windows && !w.disabled && OpenSince(w, day, t) && day <= DayOf(t)
    requires now <= t < Horizon(now, r)
    ensures day * DAY + Offset(w.start) < now || IsExcluded(spec, day)
  {
    var start := day * DAY + Offset(w.start);
    HorizonWithinSearch(spec, now, r, t);
    OffsetBounds(w);
    DayOfInstant(day, Offset(w.start));
    if now <= start && !IsExcluded(spec, day) {
      DayBounds(now);
      assert StartsOn(spec, w, day, start);
      assert OpensOn(spec, spec.windows, day, start);
      assert Opening(spec, now, SEARCHED_DAYS, start);
    }
  }

  lemma OpenNow(spec: MaintenanceSpec, now: int, t: int, w: Window, day: int)
    requires ValidatedSpec(spec) && w in spec.windows && !w.disabled
    requires OpenSince(w, day, t) && day * DAY + Offset(w.start) < now <= t
    requires !IsInMaintenanceWindow(Some(spec), now)
    ensures IsExcluded(spec, DayOf(now))
  {
    assert OpenSince(w, day, now);
    InWindowIffOpenSinceSomeDay(w, now);
  }

  lemma OpenSinceTodayOrYesterday(w: Window, t: int)
    requires Validated(w) && IsInWindow(w, t) == Some(true)
    ensures OpenSince(w, DayOf(t), t) || (OpenSince(w, DayOf(t) - 1, t) && SpansMidnight(w))
  {
    OffsetBounds(w);
    DayBounds(t);
  }

  /** An instant that is allowed before the search's answer, from a closed now on, is in an orphan tail. */
  lemma OpenEarlyIsOrphanTail(spec: MaintenanceSpec, now: int, r: Option<int>, t: int)
    requires spec.windows != [] && ValidatedSpec(spec)
    requires EarliestOpening(spec, now, SEARCHED_DAYS, r)
    requires !IsInMaintenanceWindow(Some(spec), now)
    requires now <= t < Horizon(now, r) && IsInMaintenanceWindow(Some(spec), t)
    ensures DayOf(now) <= DayOf(t) - 1 && OrphanTail(spec, DayOf(t) - 1)
  {
    var w :| w in spec.windows && !w.disabled && IsInWindow(w, t) == Some(true);
    OffsetBounds(w);
    DayBounds(t);
    DayBounds(now);
    var today := DayOf(t);
    var day := if OpenSince(w, today, t) then today else today - 1;
    OpenSinceTodayOrYesterday(w, t);
    MissedStart(spec, now, r, t, w, day);
    if day * DAY + Offset(w.start) < now {
      OpenNow(spec, now, t, w, day);
    }
  }

  /** An orphan tail within the days searched that begins before any window listed for an allowed day. */
  ghost predicate TailAhead(spec: MaintenanceSpec, now: int, day: int)
    requires ValidatedSpec(spec)
  {
    && DayOf(now) <= day < DayOf(now) + SEARCHED_DAYS - 1 && OrphanTail(spec, day)
    && forall t: int :: Opening(spec, now, SEARCHED_DAYS, t) ==> (day + 1) * DAY < t
  }

  lemma EarlyOpeningHasTail(spec: MaintenanceSpec, now: int, r: Option<int>, t: int)
    requires spec.windows != [] && ValidatedSpec(spec)
    requires EarliestOpening(spec, now, SEARCHED_DAYS, r)
    requires !IsInMaintenanceWindow(Some(spec), now)
    requires now <= t < Horizon(now, r) && IsInMaintenanceWindow(Some(spec), t)
    ensures TailAhead(spec, now, DayOf(t) - 1)
  {
    OpenEarlyIsOrphanTail(spec, now, r, t);
    HorizonWithinSearch(spec, now, r, t);
    DayBounds(t);
  }

  lemma TailIsOpen(spec: MaintenanceSpec, now: int, r: Option<int>, day: int)
    requires ValidatedSpec(spec) && TailAhead(spec, now, day) && EarliestOpening(spec, now, SEARCHED_DAYS, r)
    ensures now <= (day + 1) * DAY < Horizon(now, r) && IsInMaintenanceWindow(Some(spec), (day + 1) * DAY)
  {
    DayBounds(now);
    DayOfInstant(day + 1, 0);
    var w :| w in spec.windows && !w.disabled && SpansMidnight(w) && Offset(w.end) > 0 && IsDayMatch(w.days, day);
    assert IsInWindow(w, (day + 1) * DAY) == Some(true);
  }

  /**
   * From a closed now, no instant before the returned opening (or, when none is found, before the end of the
   * seventh day) is allowed exactly when no excluded day leaves an orphan tail before the first opening.
   */
  lemma NextOpeningIsEarliestIff(spec: MaintenanceSpec, now: int, r: Option<int>)
    requires spec.windows != [] && ValidatedSpec(spec)
    requires EarliestOpening(spec, now, SEARCHED_DAYS, r)
    requires !IsInMaintenanceWindow(Some(spec), now)
    ensures
      (forall t: int :: now <= t < Horizon(now, r) ==> !IsInMaintenanceWindow(Some(spec), t))
      <==> !exists day: int :: TailAhead(spec, now, day)
  {
    forall t: int | now <= t < Horizon(now, r) && IsInMaintenanceWindow(Some(spec), t)
      ensures TailAhead(spec, now, DayOf(t) - 1)
    {
      EarlyOpeningHasTail(spec, now, r, t);
    }
    if day: int :| TailAhead(spec, now, day) {
      TailIsOpen(spec, now, r, day);
    }
  }

  /** The opening that holds t started at t, or before now, or on an excluded day. */
  lemma NoEarlierStart(spec: MaintenanceSpec, now: int, t: int, w: Window, day: int)
    requires ValidatedSpec(spec) && EarliestOpening(spec, now, SEARCHED_DAYS, Some(t))
    requires w in spec.windows && !w.disabled && OpenSince(w, day, t) && day <= DayOf(t)
    ensures day * DAY + Offset(w.start) == t || day * DAY + Offset(w.start) < now || IsExcluded(spec, day)
  {
    var start := day * DAY + Offset(w.start);
    OpeningDay(spec, now, t);
    OffsetBounds(w);
    DayOfInstant(day, Offset(w.start));
    if now <= start < t && !IsExcluded(spec, day) {
      DayBounds(now);
      assert StartsOn(spec, w, day, start);
      assert OpensOn(spec, spec.windows, day, start);
      assert Opening(spec, now, SEARCHED_DAYS, start);
    }
  }

  lemma StartsHere(spec: MaintenanceSpec, t: int, w: Window, day: int)
    requires ValidatedSpec(spec) && w in spec.windows && !w.disabled && !IsExcluded(spec, DayOf(t))
    requires OpenSince(w, day, t) && day * DAY + Offset(w.start) == t
    ensures WindowOpensAt(spec, t)
  {
    OffsetBounds(w);
    DayOfInstant(day, Offset(w.start));
    assert StartsOn(spec, w, DayOf(t), t);
  }

  lemma StartedBefore(spec: MaintenanceSpec, now: int, t: int, w: Window, day: int)
    requires ValidatedSpec(spec) && w in spec.windows && !w.disabled && !IsExcluded(spec, DayOf(t))
    requires OpenSince(w, day, t) && DayOf(t) - 1 <= day <= DayOf(t)
    requires day * DAY + Offset(w.start) < now <= t && !IsInMaintenanceWindow(Some(spec), now)
    ensures IsExcluded(spec, day)
  {
    OpenNow(spec, now, t, w, day);
    OffsetBounds(w);
    DayBounds(now);
    DayBounds(t);
  }

  lemma OpenAnswer(spec: MaintenanceSpec, now: int, t: int)
    requires spec.windows != [] && ValidatedSpec(spec)
    requires EarliestOpening(spec, now, SEARCHED_DAYS, Some(t)) && !IsInMaintenanceWindow(Some(spec), now)
    requires IsInMaintenanceWindow(Some(spec), t)
    ensures WindowOpensAt(spec, t) || TailReaches(spec, t)
  {
    var w :| w in spec.windows && !w.disabled && IsInWindow(w, t) == Some(true);
    OpenSinceTodayOrYesterday(w, t);
    var day := if OpenSince(w, DayOf(t), t) then DayOf(t) else DayOf(t) - 1;
    NoEarlierStart(spec, now, t, w, day);
    var start := day * DAY + Offset(w.start);
    if start == t {
      StartsHere(spec, t, w, day);
    } else {
      if start < now {
        StartedBefore(spec, now, t, w, day);
      }
      TailFromYesterday(spec, t, w, day);
    }
  }

  lemma TailFromYesterday(spec: MaintenanceSpec, t: int, w: Window, day: int)
    requires ValidatedSpec(spec) && w in spec.windows && !w.disabled && !IsExcluded(spec, DayOf(t))
    requires OpenSince(w, day, t) && DayOf(t) - 1 <= day <= DayOf(t) && IsExcluded(spec, day)
    ensures TailReaches(spec, t)
  {
    OffsetBounds(w);
    DayBounds(t);
  }

  /**
   * From a closed now, patching is allowed at the answer exactly when a window that does not end where it starts
   * opens there, or an excluded day before it leaves a tail that reaches past it.
   */
  lemma NextOpeningIsOpenIff(spec: MaintenanceSpec, now: int, t: int)
    requires spec.windows != [] && ValidatedSpec(spec)
    requires EarliestOpening(spec, now, SEARCHED_DAYS, Some(t)) && !IsInMaintenanceWindow(Some(spec), now)
    ensures IsInMaintenanceWindow(Some(spec), t) <==> WindowOpensAt(spec, t) || TailReaches(spec, t)
  {
    if IsInMaintenanceWindow(Some(spec), t) {
      OpenAnswer(spec, now, t);
    } else if WindowOpensAt(spec, t) || TailReaches(spec, t) {
      OpeningIsOpen(spec, now, t);
    }
  }

  /** In particular the answer is the earliest one whenever no date is excluded or no window spans midnight. */
  lemma NextOpeningIsEarliest(spec: MaintenanceSpec, now: int, r: Option<int>, t: int)
    requires spec.windows != [] && ValidatedSpec(spec)
    requires spec.excludeDates == [] || forall w <- spec.windows :: !SpansMidnight(w)
    requires EarliestOpening(spec, now, SEARCHED_DAYS, r)
    requires !IsInMaintenanceWindow(Some(spec), now)
    requires now <= t < Horizon(now, r)
    ensures !IsInMaintenanceWindow(Some(spec), t)
  {
    NextOpeningIsEarliestIff(spec, now, r);
  }

  /** The search can be late: at 10:00 on an excluded day it names 22:00 tomorrow, yet 00:00 tomorrow is allowed. */
  lemma NextOpeningCanBeLate()
    ensures
      var w := Window([], At(22, 0), At(2, 0), false);
      var spec := MaintenanceSpec([0], [w]);
      && !IsInMaintenanceWindow(Some(spec), 10 * HOUR)
      && EarliestOpening(spec, 10 * HOUR, SEARCHED_DAYS, Some(DAY + 22 * HOUR))
      && IsInMaintenanceWindow(Some(spec), DAY)
  {
    var w := Window([], At(22, 0), At(2, 0), false);
    var spec := MaintenanceSpec([0], [w]);
    assert IsInWindow(w, DAY) == Some(true) && w in spec.windows;
    assert StartsOn(spec, w, 1, DAY + 22 * HOUR);
    assert OpensOn(spec, spec.windows, 1, DAY + 22 * HOUR);
    forall t: int | Opening(spec, 10 * HOUR, SEARCHED_DAYS, t) ensures DAY + 22 * HOUR <= t {
      var day: int :| 0 <= day < SEARCHED_DAYS && OpensOn(spec, spec.windows, day, t);
      assert day != 0;
    }
  }

  /** A window whose start equals its end never opens, and its start is returned all the same. */
  lemma EmptyWindowIsReturned()
    ensures
      var w := Window([], At(3, 0), At(3, 0), false);
      var spec := MaintenanceSpec([], [w]);
      && EarliestOpening(spec, 0, SEARCHED_DAYS, Some(3 * HOUR))
      && forall t: int :: !IsInMaintenanceWindow(Some(spec), t)
  {
    var w := Window([], At(3, 0), At(3, 0), false);
    var spec := MaintenanceSpec([], [w]);
    assert StartsOn(spec, w, 0, 3 * HOUR);
    assert OpensOn(spec, spec.windows, 0, 3 * HOUR);
  }
}
