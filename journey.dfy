/** The journey screen: which plan day a calendar date shows, when the
    weekly check-in and review are offered, the swap of a day's practice,
    and the history totals. Dates are day numbers (days since an epoch,
    at local midnight); a date's weekday is given alongside it. */
module Journey {
  import opened Types
  import Seqs
  import PlanEngine

  /** `customPlan || createPersonalizedPlan(preferences)`. */
  function ShownPlan(customPlan: Option<TrainingPlan>, prefs: UserPreferences, now: nat): (plan: TrainingPlan)
    ensures customPlan.Some? ==> plan == customPlan.value
    ensures customPlan.None? ==> plan == PlanEngine.PlanFor(prefs, now)
  {
    if customPlan.Some? then customPlan.value else PlanEngine.PlanFor(prefs, now)
  }

  /** `s[i]`, or nothing when `i` is out of range (JavaScript's `undefined`). */
  function At<T>(s: seq<T>, i: int): (r: Option<T>)
    ensures r.Some? <==> 0 <= i < |s|
    ensures r.Some? ==> r.value == s[i]
  {
    if 0 <= i < |s| then Some(s[i]) else None
  }

  /** The week of the plan a date falls in: whole weeks since the start,
      wrapping around the plan's length; week 0 before the start or with
      no start date. */
  function WeekIndex(startDate: Option<int>, weekCount: nat, date: int): (w: nat)
    requires weekCount > 0
    ensures w < weekCount
    ensures startDate.None? || date < startDate.value ==> w == 0
    ensures startDate.Some? && startDate.value <= date < startDate.value + 7 ==> w == 0
  {
    if startDate.Some? && date - startDate.value >= 0 then ((date - startDate.value) / 7) % weekCount
    else 0
  }

  /** What a calendar date shows: the plan day (absent when the week has no
      entry for the weekday) and, when it comes from the plan's weeks, the
      1-based week label. */
  datatype DayView = DayView(day: Option<PlanDay>, weekLabel: Option<nat>)

  /** `getDayPlan`. An empty `weeks` list makes the week index undefined in
      the source, so it too falls back to the schedule. */
  function GetDayPlan(plan: TrainingPlan, startDate: Option<int>, date: int, weekday: int): (view: DayView)
    requires 0 <= weekday < 7
    ensures plan.weeks.Some? && |plan.weeks.value| > 0 ==>
      var w := WeekIndex(startDate, |plan.weeks.value|, date);
      view == DayView(At(plan.weeks.value[w], weekday), Some(w + 1))
    ensures plan.weeks.None? || |plan.weeks.value| == 0 ==>
      view == DayView(At(plan.schedule, weekday), None)
  {
    if plan.weeks.Some? && |plan.weeks.value| > 0 then
      var w := WeekIndex(startDate, |plan.weeks.value|, date);
      DayView(At(plan.weeks.value[w], weekday), Some(w + 1))
    else DayView(At(plan.schedule, weekday), None)
  }

  /** `a % n` on integers as JavaScript computes it: the remainder takes
      the sign of `a`. */
  function TruncRem(a: int, n: int): (r: int)
    requires n > 0
    ensures -n < r < n
    ensures a >= 0 ==> r == a % n
    ensures a < 0 ==> r <= 0 && (a - r) % n == 0
  {
    if a >= 0 then a % n
    else
      var r := -((-a) % n);
      ModOfOffset(a - r, n, -((-a) / n), 0);
      r
  }

  datatype Marker = Checkin | Review

  /** `checkinStatus` for today's day number. */
  function CheckinStatus(startDate: Option<int>, today: int): (r: Option<Marker>)
    ensures startDate.None? ==> r == Some(Checkin)
    ensures startDate.Some? && today == startDate.value ==> r == Some(Checkin)
    ensures startDate.Some? && today < startDate.value ==> r != Some(Review)
  {
    if startDate.None? then Some(Checkin)
    else
      var dayOfCycle := TruncRem(today - startDate.value, 7);
      if dayOfCycle == 0 then Some(Checkin)
      else if dayOfCycle == 6 then Some(Review)
      else None
  }

  /** With a start date, check-in is offered exactly on whole-week offsets
      (before or after the start), and review exactly on the last day of a
      week on or after the start: never before it. */
  lemma {:induction false} CheckinDays(start: int, today: int)
    ensures CheckinStatus(Some(start), today) == Some(Checkin) <==> (today - start) % 7 == 0
    ensures CheckinStatus(Some(start), today) == Some(Review) <==> today >= start && (today - start) % 7 == 6
  {
    var d := today - start;
    if d < 0 {
      var r := TruncRem(d, 7);
      assert (d - r) % 7 == 0;
      if r == 0 {
        assert d % 7 == 0;
      } else {
        assert d % 7 == r + 7 by {
          assert d == (d - r) + r;
          assert (d - r) == 7 * ((d - r) / 7);
          assert d == 7 * ((d - r) / 7 - 1) + (r + 7);
        }
      }
    }
  }

  /** Multiplying by a positive `n` keeps a non-zero factor at least `n` away from 0. */
  lemma {:induction false} MulBounds(x: int, n: int)
    requires n > 0
    ensures x >= 1 ==> x * n >= n
    ensures x <= -1 ==> x * n <= -n
    decreases if x < 0 then -x else x
  {
    if x > 1 {
      MulBounds(x - 1, n);
      assert x * n == (x - 1) * n + n;
    } else if x < -1 {
      MulBounds(x + 1, n);
      assert x * n == (x + 1) * n - n;
    }
  }

  /** `r` is the remainder of `a` by `n` when `a` is `r` past the `k`-th multiple of `n`. */
  lemma ModOfOffset(a: int, n: int, k: int, r: int)
    requires n > 0 && 0 <= r < n && a == k * n + r
    ensures a % n == r && a / n == k
  {
    var q, m := a / n, a % n;
    assert (q - k) * n == r - m;
    MulBounds(q - k, n);
  }

  /** Counting modulo `n`: one more, then reduced. */
  lemma ModSucc(q: int, n: int)
    requires n > 0
    ensures (q + 1) % n == (q % n + 1) % n
  {
    var c, w := q / n, q % n;
    if w + 1 < n {
      ModOfOffset(q + 1, n, c, w + 1);
      ModOfOffset(w + 1, n, 0, w + 1);
    } else {
      assert (c + 1) * n == c * n + n;
      ModOfOffset(q + 1, n, c + 1, 0);
      ModOfOffset(n, n, 1, 0);
    }
  }

  /** Counting modulo `n`: `n` more changes nothing. */
  lemma ModAddPeriod(q: int, n: int)
    requires n > 0
    ensures (q + n) % n == q % n
  {
    assert (q / n + 1) * n == q / n * n + n;
    ModOfOffset(q + n, n, q / n + 1, q % n);
  }

  /** Seven days later the week index moves on by one, wrapping after the
      plan's last week. */
  lemma WeekIndexAdvances(start: int, weekCount: nat, date: int)
    requires weekCount > 0 && date >= start
    ensures WeekIndex(Some(start), weekCount, date + 7) == (WeekIndex(Some(start), weekCount, date) + 1) % weekCount
  {
    var d := date - start;
    ModOfOffset(d + 7, 7, d / 7 + 1, d % 7);
    ModSucc(d / 7, weekCount);
  }

  /** The week index repeats after as many weeks as the plan has. */
  lemma WeekIndexWraps(start: int, weekCount: nat, date: int)
    requires weekCount > 0 && date >= start
    ensures WeekIndex(Some(start), weekCount, date + 7 * weekCount) == WeekIndex(Some(start), weekCount, date)
  {
    var d := date - start;
    ModOfOffset(d + 7 * weekCount, 7, d / 7 + weekCount, d % 7);
    ModAddPeriod(d / 7, weekCount);
  }

  /** A day after the start is a check-in day exactly when its week index
      moved on from the day before; on every other day it stays the same. */
  lemma CheckinStartsPlanWeek(start: int, weekCount: nat, today: int)
    requires weekCount > 0 && today > start
    ensures var before := WeekIndex(Some(start), weekCount, today - 1);
      var w := WeekIndex(Some(start), weekCount, today);
      if CheckinStatus(Some(start), today) == Some(Checkin) then w == (before + 1) % weekCount
      else w == before
  {
    CheckinDays(start, today);
    var d := today - start;
    var q := (d - 1) / 7;
    var m := (d - 1) % 7;
    if m == 6 {
      ModOfOffset(d, 7, q + 1, 0);
      ModSucc(q, weekCount);
    } else {
      ModOfOffset(d, 7, q, m + 1);
    }
  }

  /** For a generated plan every date shows a day of the right weekday,
      labelled with one of the four weeks. */
  lemma GeneratedPlanDays(prefs: UserPreferences, now: nat, date: int, weekday: int)
    requires 0 <= weekday < 7
    ensures var view := GetDayPlan(PlanEngine.PlanFor(prefs, now), prefs.startDate, date, weekday);
      && view.day.Some? && view.day.value.dayOfWeek == weekday
      && view.weekLabel.Some? && 1 <= view.weekLabel.value <= 4
  {
    var plan := PlanEngine.PlanFor(prefs, now);
    PlanEngine.PlanShape(prefs, now);
    var w := WeekIndex(prefs.startDate, 4, date);
    assert |plan.weeks.value[w]| == 7;
  }

  /** The day `handleSwapPractice` builds: a chosen rest, or an active day
      whose focus defaults when none is given. */
  function SwapDay(dayIndex: int, activity: Activity, focus: Option<string>): (day: PlanDay)
    ensures day.dayOfWeek == dayIndex && day.activityType == activity && !Falsy(day.focus)
    ensures activity == Rest ==> day == PlanDay(dayIndex, Rest, Some("Descanso"), "Dia de recuperação escolhido por você.")
    ensures activity == Active ==> day.description == "Sessão personalizada trocada manualmente."
    ensures activity == Active && !Falsy(focus) ==> day.focus == focus
    ensures activity == Active && Falsy(focus) ==> day.focus == Some("Prática Livre")
  {
    match activity
    case Rest => PlanDay(dayIndex, Rest, Some("Descanso"), "Dia de recuperação escolhido por você.")
    case Active => PlanDay(dayIndex, Active, Some(OrElse(focus, "Prática Livre")), "Sessão personalizada trocada manualmente.")
  }

  /** The update `handleSwapPractice` passes on: the weekday index and its
      new day, or nothing when no date is selected. `selectedWeekday` is the
      weekday of the selected date, absent when none is selected. */
  function HandleSwapPractice(selectedWeekday: Option<int>, activity: Activity, focus: Option<string>): (update: Option<(int, PlanDay)>)
    ensures update.None? <==> selectedWeekday.None?
    ensures update.Some? ==> update.value.0 == selectedWeekday.value && update.value.1 == SwapDay(selectedWeekday.value, activity, focus)
  {
    if selectedWeekday.None? then None
    else Some((selectedWeekday.value, SwapDay(selectedWeekday.value, activity, focus)))
  }

  function Duration(h: SessionRecord): int
  {
    h.duration
  }

  /** `totalMinutes`: the durations of the history, added up. */
  function TotalMinutes(history: seq<SessionRecord>): (total: int)
    ensures history == [] ==> total == 0
    ensures (forall i :: 0 <= i < |history| ==> history[i].duration >= 0) ==> total >= 0
  {
    Seqs.SumOfNonNegative(history, Duration);
    Seqs.SumOf(history, Duration)
  }

  /** Logging a session adds its minutes to the total; the order of the
      history does not matter. */
  lemma TotalMinutesOfLog(history: seq<SessionRecord>, record: SessionRecord, reordered: seq<SessionRecord>)
    requires multiset(reordered) == multiset(history)
    ensures TotalMinutes(history + [record]) == TotalMinutes(history) + record.duration
    ensures TotalMinutes(reordered) == TotalMinutes(history)
  {
    Seqs.SumOfAppend(history, [record], Duration);
    Seqs.SumOfPermutation(reordered, history, Duration);
  }

  predicate OnDate(date: string, h: SessionRecord)
  {
    h.date == date
  }

  /** `selectedDayHistory`: the sessions of the selected date, in history
      order; nothing when no date is selected. */
  function SelectedDayHistory(history: seq<SessionRecord>, selectedDate: Option<string>): (r: seq<SessionRecord>)
    ensures Falsy(selectedDate) ==> r == []
    ensures !Falsy(selectedDate) ==>
      Seqs.IsSubseq(r, history)
      && (forall h :: h in r <==> h in history && h.date == selectedDate.value)
      && (forall h :: multiset(r)[h] == if h.date == selectedDate.value then multiset(history)[h] else 0)
  {
    if Falsy(selectedDate) then []
    else
      var date := selectedDate.value;
      Seqs.FilterIsSubseq(history, h => OnDate(date, h));
      Seqs.FilterCountsAll(history, h => OnDate(date, h));
      Seqs.Filter(history, h => OnDate(date, h))
  }
}
