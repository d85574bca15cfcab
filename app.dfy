/** The app shell's own logic: the discomfort toggle of onboarding and the
    preferences editor, the onboarding step buttons, marking a day done,
    the quick swap of a schedule day, and what happens when a feedback
    story is completed (logging the session and adapting the level, or
    the weekly check-in and review). */
module App {
  import opened Types
  import Text
  import Seqs
  import PlanEngine
  import Journey

  // ---------------------------------------------------------------------
  // Discomfort selection

  predicate NotNone(d: Discomfort)
  {
    d != Nenhum
  }

  /** A click on one discomfort option. 'Nenhum' replaces the whole
      selection; any other option drops 'Nenhum' and flips that option,
      appending it when it was not selected. */
  function ToggleDiscomfort(current: seq<Discomfort>, option: Discomfort): (r: seq<Discomfort>)
    ensures option == Nenhum ==> r == [Nenhum]
    ensures option != Nenhum ==> Nenhum !in r && (option in r <==> option !in current)
    ensures option != Nenhum ==> forall d :: d != option && d != Nenhum ==> (d in r <==> d in current)
    ensures option != Nenhum && option !in current ==> r == Seqs.Filter(current, NotNone) + [option]
    ensures option != Nenhum && option in current ==>
      && Seqs.IsSubseq(r, current)
      && forall d :: multiset(r)[d] == if d == Nenhum || d == option then 0 else multiset(current)[d]
  {
    if option == Nenhum then [Nenhum]
    else
      var kept := Seqs.Filter(current, NotNone);
      if option in kept then
        RemovalKeepsTheRest(current, option);
        Seqs.Filter(kept, d => d != option)
      else kept + [option]
  }

  /** Taking an option out of the selection keeps the other options in
      their order and with their counts. */
  lemma RemovalKeepsTheRest(current: seq<Discomfort>, option: Discomfort)
    ensures var r := Seqs.Filter(Seqs.Filter(current, NotNone), d => d != option);
      && Seqs.IsSubseq(r, current)
      && forall d :: multiset(r)[d] == if d == Nenhum || d == option then 0 else multiset(current)[d]
  {
    var kept := Seqs.Filter(current, NotNone);
    Seqs.FilterIsSubseq(current, NotNone);
    Seqs.FilterIsSubseq(kept, d => d != option);
    Seqs.SubseqTrans(Seqs.Filter(kept, d => d != option), kept, current);
    Seqs.FilterCountsAll(current, NotNone);
    Seqs.FilterCountsAll(kept, d => d != option);
  }

  /** A selection the toggle can produce: no option twice, and 'Nenhum'
      only on its own. */
  predicate WellFormedSelection(ds: seq<Discomfort>)
  {
    (forall d :: multiset(ds)[d] <= 1) && (Nenhum in ds ==> ds == [Nenhum])
  }

  /** The toggle keeps a selection well formed. */
  lemma ToggleKeepsWellFormed(current: seq<Discomfort>, option: Discomfort)
    requires WellFormedSelection(current)
    ensures WellFormedSelection(ToggleDiscomfort(current, option))
  {
    if option != Nenhum {
      var kept := Seqs.Filter(current, NotNone);
      forall d ensures multiset(kept)[d] <= 1 {
        Seqs.FilterCounts(current, NotNone, d);
      }
      var r := ToggleDiscomfort(current, option);
      if option in kept {
        forall d ensures multiset(r)[d] <= 1 {
          Seqs.FilterCounts(kept, x => x != option, d);
        }
      } else {
        assert multiset(kept + [option]) == multiset(kept) + multiset{option};
      }
    }
  }

  /** Clicking the same option twice gives back the same options without
      'Nenhum'. A selected option comes back at the end, so only the set
      of options is restored in general. */
  lemma ToggleTwice(current: seq<Discomfort>, option: Discomfort)
    requires option != Nenhum
    ensures forall d :: d in ToggleDiscomfort(ToggleDiscomfort(current, option), option) <==> d in current && d != Nenhum
  {
  }

  /** Clicking an option that was not selected twice gives back the very
      same list, without 'Nenhum'. */
  lemma ToggleTwiceRestores(current: seq<Discomfort>, option: Discomfort)
    requires option != Nenhum && option !in current
    ensures ToggleDiscomfort(ToggleDiscomfort(current, option), option) == Seqs.Filter(current, NotNone)
  {
    var kept := Seqs.Filter(current, NotNone);
    assert option !in kept;
    var once := kept + [option];
    assert ToggleDiscomfort(current, option) == once;
    assert forall i :: 0 <= i < |once| ==> NotNone(once[i]);
    Seqs.FilterAll(once, NotNone);
    assert option in once;
    Seqs.FilterSnoc(kept, option, d => d != option);
    assert forall i :: 0 <= i < |kept| ==> kept[i] != option;
    Seqs.FilterAll(kept, d => d != option);
  }

  // ---------------------------------------------------------------------
  // Onboarding steps

  /** The 'Próximo' button: one step forward. */
  function NextStep(step: int): (r: int)
    ensures r > step && r - 1 == step
  {
    step + 1
  }

  /** The 'Voltar' button: one step back, never below the first. */
  function PrevStep(step: int): (r: int)
    ensures r >= 0
    ensures step >= 1 ==> r == step - 1
    ensures step <= 1 ==> r == 0
  {
    if step - 1 > 0 then step - 1 else 0
  }

  /** 'Voltar' undoes a step forward from any step. */
  lemma BackUndoesNext(step: int)
    requires step >= 0
    ensures PrevStep(NextStep(step)) == step
  {
  }

  // ---------------------------------------------------------------------
  // Marking a day done

  /** `handleMarkDayComplete`: a record of the plan day's session, put in
      front of the history. `now` stands for `Date.now()`. */
  function MarkDayComplete(history: seq<SessionRecord>, prefs: UserPreferences, userId: Option<string>,
                           now: nat, date: string, planDay: PlanDay): (r: seq<SessionRecord>)
    ensures |r| == |history| + 1 && r[1..] == history
    ensures r[0].date == date && r[0].duration == prefs.duration && r[0].userId == userId
    ensures !Falsy(planDay.focus) ==> r[0].routineName == planDay.focus.value
    ensures Falsy(planDay.focus) ==> r[0].routineName == "Prática de " + GoalName(prefs.goal)
  {
    var record := SessionRecord(Text.NatToString(now), userId, date,
      OrElse(planDay.focus, "Prática de " + GoalName(prefs.goal)), prefs.duration, None, None);
    [record] + history
  }

  /** Marking a day done adds the standard session length to the minutes
      practised, and shows the new record first among that date's sessions. */
  lemma MarkDayCompleteCounts(history: seq<SessionRecord>, prefs: UserPreferences, userId: Option<string>,
                              now: nat, date: string, planDay: PlanDay)
    requires date != ""
    ensures var r := MarkDayComplete(history, prefs, userId, now, date, planDay);
      && Journey.TotalMinutes(r) == Journey.TotalMinutes(history) + prefs.duration
      && Journey.SelectedDayHistory(r, Some(date)) == [r[0]] + Journey.SelectedDayHistory(history, Some(date))
  {
    var r := MarkDayComplete(history, prefs, userId, now, date, planDay);
    assert r[1..] == history;
  }

  // ---------------------------------------------------------------------
  // Quick swap of a day

  /** `handleUpdateDay`: copies the shown plan's schedule, assigns the new
      day at its weekday index, and saves the plan with that schedule. */
  method HandleUpdateDay(customPlan: Option<TrainingPlan>, prefs: UserPreferences, now: nat, dayIndex: nat, newDayData: PlanDay)
    returns (saved: TrainingPlan)
    requires dayIndex < |Journey.ShownPlan(customPlan, prefs, now).schedule|
    ensures var active := Journey.ShownPlan(customPlan, prefs, now);
      saved == active.(schedule := active.schedule[dayIndex := newDayData])
  {
    var activePlan: TrainingPlan;
    if customPlan.Some? {
      activePlan := customPlan.value;
    } else {
      activePlan := PlanEngine.CreatePersonalizedPlan(prefs, now);
    }
    var newSchedule := Seqs.CopyOf(activePlan.schedule);
    newSchedule[dayIndex] := newDayData;
    saved := activePlan.(schedule := newSchedule[..]);
  }

  /** The quick swap as written does not show in the journey calendar
      when the plan has weeks: every date still shows the day it showed
      before, because the calendar reads the weeks and only the schedule
      changed. */
  lemma SwapNotShownWithWeeks(plan: TrainingPlan, dayIndex: nat, newDay: PlanDay, startDate: Option<int>, date: int, weekday: int)
    requires plan.weeks.Some? && |plan.weeks.value| > 0
    requires dayIndex < |plan.schedule| && 0 <= weekday < 7
    ensures Journey.GetDayPlan(plan.(schedule := plan.schedule[dayIndex := newDay]), startDate, date, weekday)
         == Journey.GetDayPlan(plan, startDate, date, weekday)
  {
  }

  /** A concrete case: a one-week plan whose Monday is active, swapped
      to rest on a Monday; the calendar still shows the active Monday. */
  lemma SwapNotShownExample()
    ensures var monday := PlanDay(1, Active, None, "");
      var week := [PlanDay(0, Rest, None, ""), monday, PlanDay(2, Rest, None, ""), PlanDay(3, Rest, None, ""),
                   PlanDay(4, Rest, None, ""), PlanDay(5, Rest, None, ""), PlanDay(6, Rest, None, "")];
      var plan := TrainingPlan("p", None, "", "", week, Some([week]), None, None);
      var rest := Journey.SwapDay(1, Rest, None);
      Journey.GetDayPlan(plan.(schedule := plan.schedule[1 := rest]), Some(0), 1, 1).day == Some(monday) != Some(rest)
  {
  }

  /** The swap as evidently intended: the schedule day changes as before,
      and when the plan has weeks, so does the day of the week the
      selected date falls in. */
  method HandleUpdateDayInWeek(customPlan: Option<TrainingPlan>, prefs: UserPreferences, now: nat,
                               date: int, dayIndex: nat, newDayData: PlanDay)
    returns (saved: TrainingPlan)
    requires var active := Journey.ShownPlan(customPlan, prefs, now);
      && dayIndex < |active.schedule|
      && (active.weeks.Some? ==> forall k :: 0 <= k < |active.weeks.value| ==> dayIndex < |active.weeks.value[k]|)
    ensures var active := Journey.ShownPlan(customPlan, prefs, now);
      && saved.schedule == active.schedule[dayIndex := newDayData]
      && (active.weeks.None? || |active.weeks.value| == 0 ==> saved.weeks == active.weeks)
      && (active.weeks.Some? && |active.weeks.value| > 0 ==>
            var w := Journey.WeekIndex(prefs.startDate, |active.weeks.value|, date);
            saved.weeks == Some(active.weeks.value[w := active.weeks.value[w][dayIndex := newDayData]]))
      && saved.(schedule := active.schedule, weeks := active.weeks) == active
  {
    saved := HandleUpdateDay(customPlan, prefs, now, dayIndex, newDayData);
    if saved.weeks.Some? && |saved.weeks.value| > 0 {
      var weeks := saved.weeks.value;
      var w := Journey.WeekIndex(prefs.startDate, |weeks|, date);
      var week := Seqs.CopyOf(weeks[w]);
      week[dayIndex] := newDayData;
      saved := saved.(weeks := Some(weeks[w := week[..]]));
    }
  }

  /** With the intended swap, the selected date shows the new day. */
  lemma SwapShownInWeek(plan: TrainingPlan, startDate: Option<int>, date: int, dayIndex: nat, newDay: PlanDay)
    requires dayIndex < 7 && dayIndex < |plan.schedule|
    requires plan.weeks.Some? && |plan.weeks.value| > 0 ==>
      var w := Journey.WeekIndex(startDate, |plan.weeks.value|, date);
      dayIndex < |plan.weeks.value[w]|
    ensures var swapped := if plan.weeks.Some? && |plan.weeks.value| > 0 then
        var w := Journey.WeekIndex(startDate, |plan.weeks.value|, date);
        plan.(schedule := plan.schedule[dayIndex := newDay],
              weeks := Some(plan.weeks.value[w := plan.weeks.value[w][dayIndex := newDay]]))
      else plan.(schedule := plan.schedule[dayIndex := newDay]);
      Journey.GetDayPlan(swapped, startDate, date, dayIndex).day == Some(newDay)
  {
  }

  // ---------------------------------------------------------------------
  // Completed feedback stories

  /** Index of the first response whose question contains `key`
      (`responses.find(r => r.question.includes(key))`). */
  function FirstAbout(responses: seq<Response>, key: string): (r: Option<nat>)
    ensures r.Some? ==> r.value < |responses| && Text.Contains(responses[r.value].question, key)
    ensures r.Some? ==> forall j :: 0 <= j < r.value ==> !Text.Contains(responses[j].question, key)
    ensures r.None? ==> forall j :: 0 <= j < |responses| ==> !Text.Contains(responses[j].question, key)
    decreases |responses|
  {
    if |responses| == 0 then None
    else if Text.Contains(responses[0].question, key) then Some(0)
    else
      var rest := FirstAbout(responses[1..], key);
      if rest.None? then None else Some(rest.value + 1)
  }

  function Rank(level: Difficulty): nat
  {
    match level
    case Iniciante => 0
    case Intermediario => 1
    case Avancado => 2
  }

  /** One step of level adaptation: a score of -1 (too hard) lowers the
      level and 1 (too easy) raises it, stopping at either end. */
  function StepLevel(level: Difficulty, score: int): (r: Difficulty)
    ensures score == -1 ==> Rank(r) == if Rank(level) == 0 then 0 else Rank(level) - 1
    ensures score == 1 ==> Rank(r) == if Rank(level) == 2 then 2 else Rank(level) + 1
    ensures score != -1 && score != 1 ==> r == level
  {
    if score == -1 then
      match level
      case Avancado => Intermediario
      case Intermediario => Iniciante
      case Iniciante => Iniciante
    else if score == 1 then
      match level
      case Iniciante => Intermediario
      case Intermediario => Avancado
      case Avancado => Avancado
    else level
  }

  /** Raising a level below the top and then lowering it gives it back;
      so does lowering one above the bottom and then raising it. */
  lemma StepLevelUndo(level: Difficulty)
    ensures level != Avancado ==> StepLevel(StepLevel(level, 1), -1) == level
    ensures level != Iniciante ==> StepLevel(StepLevel(level, -1), 1) == level
  {
  }

  /** The level after a practice's feedback: stepped by the score of the
      first question about intensity, unchanged when there is none or it
      has no score. */
  function AdaptLevel(level: Difficulty, responses: seq<Response>): (r: Difficulty)
    ensures var i := FirstAbout(responses, "intensidade");
      if i.Some? && responses[i.value].score.Some? then r == StepLevel(level, responses[i.value].score.value)
      else r == level
  {
    var i := FirstAbout(responses, "intensidade");
    if i.Some? && responses[i.value].score.Some? then StepLevel(level, responses[i.value].score.value)
    else level
  }

  /** Adaptation moves the level by at most one step. */
  lemma AdaptLevelOneStep(level: Difficulty, responses: seq<Response>)
    ensures var r := AdaptLevel(level, responses);
      Rank(r) <= Rank(level) + 1 && Rank(level) <= Rank(r) + 1
  {
  }

  /** `Math.round(seconds / 60)`: the nearest whole minute, halves rounded up. */
  function SessionMinutes(totalSeconds: int): (minutes: int)
    ensures 60 * minutes - 30 <= totalSeconds < 60 * minutes + 30
  {
    (totalSeconds + 30) / 60
  }

  /** The answer to the first question containing `key`, or `fallback`
      when there is no such question or its answer is empty. */
  function AnswerOr(responses: seq<Response>, key: string, fallback: string): (r: string)
    ensures var i := FirstAbout(responses, key);
      if i.Some? && !Falsy(responses[i.value].answer) then r == responses[i.value].answer.value
      else r == fallback
  {
    var i := FirstAbout(responses, key);
    if i.Some? then OrElse(responses[i.value].answer, fallback) else fallback
  }

  datatype Insight = Rewarded | Progressing | Rerouted

  function InsightText(i: Insight): string
  {
    match i
    case Rewarded => "Sua dedicação foi recompensada! Você conseguiu alinhar sua mente com suas ações. Mantenha esse foco para a próxima semana."
    case Progressing => "Progresso não é linear. Você deu passos importantes, mesmo que o caminho tenha mudado. O importante é a constância."
    case Rerouted => "Tudo bem mudar de rota. Escutar o que o corpo precisa é mais valioso do que seguir um plano rígido. Recomece com gentileza."
  }

  /** The insight for the review's answer about the intention: "Sim" is
      checked first, then "Parcialmente". */
  function ChooseInsight(reality: string): (i: Insight)
    ensures i == Rewarded <==> Text.Contains(reality, "Sim")
    ensures i == Progressing <==> !Text.Contains(reality, "Sim") && Text.Contains(reality, "Parcialmente")
  {
    if Text.Contains(reality, "Sim") then Rewarded
    else if Text.Contains(reality, "Parcialmente") then Progressing
    else Rerouted
  }

  datatype WeeklyReport = WeeklyReport(intention: string, result: string, insight: string)

  /** The report built from the week's check-in (if kept) and its review. */
  function WeeklyReportOf(context: Option<FeedbackRecord>, review: FeedbackRecord): (report: WeeklyReport)
    ensures context.None? ==> report.intention == "Não definida"
    ensures context.Some? ==> report.intention == AnswerOr(context.value.responses, "intenção", "Não definida")
    ensures var reality := AnswerOr(review.responses, "intenção", "Não informado");
      && report.result == reality + " - " + AnswerOr(review.responses, "sentimento", "Neutro")
      && report.insight == InsightText(ChooseInsight(reality))
  {
    var intention := AnswerOr(if context.Some? then context.value.responses else [], "intenção", "Não definida");
    var reality := AnswerOr(review.responses, "intenção", "Não informado");
    var feeling := AnswerOr(review.responses, "sentimento", "Neutro");
    var result := reality + " - " + feeling;
    WeeklyReport(intention, result, InsightText(ChooseInsight(reality)))
  }

  /** An answer with no capital S or P, such as the default
      "Não informado" of an unanswered review, gets the third message. */
  lemma InsightWithoutKeywords(reality: string)
    requires forall k :: 0 <= k < |reality| ==> reality[k] != 'S' && reality[k] != 'P'
    ensures ChooseInsight(reality) == Rerouted
  {
    NotContained(reality, "Sim");
    NotContained(reality, "Parcialmente");
  }

  /** `t` does not occur in `s` when no position of `s` starts it. */
  lemma {:induction false} NotContained(s: string, t: string)
    requires |t| > 0 && forall k :: 0 <= k < |s| ==> s[k] != t[0]
    ensures !Text.Contains(s, t)
    decreases |s|
  {
    if |s| > 0 {
      if |t| <= |s| {
        assert s[..|t|][0] != t[0];
      }
      NotContained(s[1..], t);
    }
  }

  /** The part of the app's state that completing a story changes. */
  datatype StoryState = StoryState(
    prefs: UserPreferences,
    history: seq<SessionRecord>,
    weeklyContext: Option<FeedbackRecord>,
    weeklyReport: Option<WeeklyReport>)

  /** `handleStoriesComplete`. A post-practice story with a routine in
      progress logs the session first in the history and adapts the level;
      a check-in keeps its answers as the week's context; a review builds
      the report and clears the context. `now`, `userId` and `today` stand
      for `Date.now()`, the signed-in user and today's date text. */
  function StoriesComplete(st: StoryState, feedback: FeedbackRecord, currentRoutine: Option<Routine>,
                           now: nat, userId: Option<string>, today: string): (r: StoryState)
    ensures feedback.kind == PostPractice && currentRoutine.Some? ==>
      && |r.history| == |st.history| + 1 && r.history[1..] == st.history
      && r.history[0].routineName == currentRoutine.value.name
      && r.history[0].feedback == Some(feedback)
      && r.history[0].duration == SessionMinutes(currentRoutine.value.totalDuration)
      && r.history[0].date == today
      && r.prefs == st.prefs.(level := AdaptLevel(st.prefs.level, feedback.responses))
      && r.weeklyContext == st.weeklyContext && r.weeklyReport == st.weeklyReport
    ensures feedback.kind == WeeklyCheckin ==> r == st.(weeklyContext := Some(feedback))
    ensures feedback.kind == WeeklyReview ==>
      r == st.(weeklyContext := None, weeklyReport := Some(WeeklyReportOf(st.weeklyContext, feedback)))
    ensures feedback.kind == PostPractice && currentRoutine.None? ==> r == st
  {
    match feedback.kind
    case PostPractice =>
      if currentRoutine.Some? then
        var routine := currentRoutine.value;
        var record := SessionRecord(Text.NatToString(now), userId, today, routine.name,
          SessionMinutes(routine.totalDuration), None, Some(feedback));
        st.(history := [record] + st.history,
            prefs := st.prefs.(level := AdaptLevel(st.prefs.level, feedback.responses)))
      else st
    case WeeklyCheckin => st.(weeklyContext := Some(feedback))
    case WeeklyReview => st.(weeklyContext := None, weeklyReport := Some(WeeklyReportOf(st.weeklyContext, feedback)))
  }
}
