/** The plan editor: a 4-week by 7-day grid of plan days, edited one cell
    and one field at a time, and saved back into the plan. */
module PlanEditor {
  import opened Types
  import Seqs

  const EditorRestFocus := "Descanso e Recuperação"
  const EditorRestDescription := "Dia livre para recuperação física e mental."
  const CustomFocus := "Foco Personalizado"

  /** The grid the editor starts from: the plan's weeks, or four copies of
      its schedule when it has none. */
  function InitialWeeks(plan: TrainingPlan): (weeks: seq<seq<PlanDay>>)
    ensures plan.weeks.Some? ==> weeks == plan.weeks.value
    ensures plan.weeks.None? ==> |weeks| == 4 && forall k :: 0 <= k < 4 ==> weeks[k] == plan.schedule
  {
    if plan.weeks.Some? then plan.weeks.value
    else [plan.schedule, plan.schedule, plan.schedule, plan.schedule]
  }

  /** The three fields the editor's controls change, with the new value. */
  datatype DayEdit =
    | SetActivity(activity: Activity)
    | SetFocus(focus: string)
    | SetDescription(description: string)

  /** One day after an edit: the field is set, then choosing Rest fills in
      the recovery focus and description, and choosing Active with an empty
      focus fills in the custom focus and clears the description. */
  function EditDay(day: PlanDay, edit: DayEdit): PlanDay
  {
    match edit
    case SetActivity(Rest) =>
      day.(activityType := Rest, focus := Some(EditorRestFocus), description := EditorRestDescription)
    case SetActivity(Active) =>
      if Falsy(day.focus) then day.(activityType := Active, focus := Some(CustomFocus), description := "")
      else day.(activityType := Active)
    case SetFocus(f) => day.(focus := Some(f))
    case SetDescription(d) => day.(description := d)
  }

  /** The grid with cell `[w][index]` edited. */
  function EditGrid(weeks: seq<seq<PlanDay>>, w: nat, index: nat, edit: DayEdit): seq<seq<PlanDay>>
    requires w < |weeks| && index < |weeks[w]|
  {
    weeks[w := weeks[w][index := EditDay(weeks[w][index], edit)]]
  }

  /** `handleDayUpdate`: copies the current week, replaces the day by a
      copy with the field set, then assigns the defaults on that copy. */
  method HandleDayUpdate(allWeeks: seq<seq<PlanDay>>, currentWeekIndex: nat, index: nat, edit: DayEdit)
    returns (updatedWeeks: seq<seq<PlanDay>>)
    requires currentWeekIndex < |allWeeks| && index < |allWeeks[currentWeekIndex]|
    ensures updatedWeeks == EditGrid(allWeeks, currentWeekIndex, index, edit)
  {
    var row := allWeeks[currentWeekIndex];
    var schedule := Seqs.CopyOf(row);
    var day := schedule[index];
    match edit {
      case SetActivity(a) => schedule[index] := day.(activityType := a);
      case SetFocus(f) => schedule[index] := day.(focus := Some(f));
      case SetDescription(d) => schedule[index] := day.(description := d);
    }
    if edit == SetActivity(Rest) {
      schedule[index] := schedule[index].(focus := Some(EditorRestFocus));
      schedule[index] := schedule[index].(description := EditorRestDescription);
    }
    if edit == SetActivity(Active) && Falsy(schedule[index].focus) {
      schedule[index] := schedule[index].(focus := Some(CustomFocus));
      schedule[index] := schedule[index].(description := "");
    }
    assert schedule[..] == row[index := EditDay(row[index], edit)];
    updatedWeeks := allWeeks[currentWeekIndex := schedule[..]];
  }

  /** An edit changes exactly one cell: every other week, and every other
      day of the edited week, stay as they were, and no week changes length. */
  lemma EditIsLocal(weeks: seq<seq<PlanDay>>, w: nat, index: nat, edit: DayEdit)
    requires w < |weeks| && index < |weeks[w]|
    ensures var r := EditGrid(weeks, w, index, edit);
      && |r| == |weeks|
      && (forall k :: 0 <= k < |weeks| ==> |r[k]| == |weeks[k]|)
      && (forall k, j :: 0 <= k < |weeks| && 0 <= j < |weeks[k]| && (k, j) != (w, index) ==> r[k][j] == weeks[k][j])
      && r[w][index].dayOfWeek == weeks[w][index].dayOfWeek
  {
  }

  /** Choosing Rest always yields the recovery focus and description;
      choosing Active keeps a non-empty focus and description, and otherwise
      yields the custom focus with an empty description. */
  lemma ActivityDefaults(day: PlanDay, a: Activity)
    ensures var d := EditDay(day, SetActivity(a));
      && d.activityType == a && d.dayOfWeek == day.dayOfWeek
      && (a == Rest ==> d.focus == Some(EditorRestFocus) && d.description == EditorRestDescription)
      && (a == Active && !Falsy(day.focus) ==> d.focus == day.focus && d.description == day.description)
      && (a == Active && Falsy(day.focus) ==> d.focus == Some(CustomFocus) && d.description == "")
  {
  }

  /** Text edits touch only their own field. */
  lemma TextEditsAreNarrow(day: PlanDay, text: string)
    ensures EditDay(day, SetFocus(text)) == PlanDay(day.dayOfWeek, day.activityType, Some(text), day.description)
    ensures EditDay(day, SetDescription(text)) == PlanDay(day.dayOfWeek, day.activityType, day.focus, text)
  {
  }

  /** Switching a day to Rest and back to Active leaves it active with the
      recovery focus and description: the focus is no longer empty, so no
      custom default applies. */
  lemma RestThenActive(day: PlanDay)
    ensures EditDay(EditDay(day, SetActivity(Rest)), SetActivity(Active))
         == PlanDay(day.dayOfWeek, Active, Some(EditorRestFocus), EditorRestDescription)
  {
  }

  /** `handleSave`: the plan with the new name and the edited grid, its
      schedule re-synchronised with the first week. */
  function HandleSave(initialPlan: TrainingPlan, planName: string, allWeeks: seq<seq<PlanDay>>): (plan: TrainingPlan)
    requires |allWeeks| > 0
    ensures plan.weeks == Some(allWeeks) && plan.schedule == allWeeks[0] && plan.name == planName
    ensures plan.(name := initialPlan.name, weeks := initialPlan.weeks, schedule := initialPlan.schedule) == initialPlan
  {
    initialPlan.(name := planName, weeks := Some(allWeeks), schedule := allWeeks[0])
  }

  /** Opening the editor and saving without changes returns the same plan
      when its schedule already is its first week, and otherwise only fills
      in four copies of the schedule as its weeks. */
  lemma SaveWithoutChanges(plan: TrainingPlan)
    requires plan.weeks.None? || (|plan.weeks.value| > 0 && plan.schedule == plan.weeks.value[0])
    ensures var saved := HandleSave(plan, plan.name, InitialWeeks(plan));
      && saved.schedule == plan.schedule
      && (plan.weeks.Some? ==> saved == plan)
      && (plan.weeks.None? ==> saved == plan.(weeks := Some([plan.schedule, plan.schedule, plan.schedule, plan.schedule])))
  {
  }

  /** After a save, the schedule shows the edit exactly when it was made
      in the first week. */
  lemma SaveShowsFirstWeekEdits(plan: TrainingPlan, planName: string, weeks: seq<seq<PlanDay>>, w: nat, index: nat, edit: DayEdit)
    requires w < |weeks| && index < |weeks[w]|
    ensures var saved := HandleSave(plan, planName, EditGrid(weeks, w, index, edit));
      saved.schedule == if w == 0 then weeks[0][index := EditDay(weeks[0][index], edit)] else weeks[0]
  {
  }
}
