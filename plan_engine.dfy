/** The rule-based plan generator: a week of seven days, all rest by default,
    in which the goal switches fixed weekdays to practice sessions, adapted to
    back pain, knee pain and age; and a four-week plan with a description
    and the ordered reasons behind it. */
module PlanEngine {
  import opened Types
  import opened Text
  import Seqs

  const RestDescription := "Dia de descanso para recuperação física e mental."

  /** The theme of each of the four weeks of a plan, in order. */
  const WeekThemes: seq<string> := ["Fundação", "Aprofundamento", "Desafio", "Integração"]

  /** The practice sessions the generator can schedule. Each stands for the
      pair of focus label and description handed to `setActive`. */
  datatype Session =
    | HipOpening | SpineHealth | SpineStretch | WholeBody | YinYoga | GentleMobility
    | ActiveStretch | CoreStability | LegsAndWarriors | LegsNoImpact | ArmsAndInversions
    | AntiStress | GentleFlow | Restorative | YogaNidra
    | BackHealth | NeckAndShoulders | JointMobility

  function FocusLabel(s: Session): string
  {
    match s
    case HipOpening => "Abertura de Quadril"
    case SpineHealth => "Saúde da Coluna"
    case SpineStretch => "Alongamento de Coluna"
    case WholeBody => "Corpo Inteiro"
    case YinYoga => "Yin Yoga"
    case GentleMobility => "Mobilidade Suave"
    case ActiveStretch => "Alongamento Ativo"
    case CoreStability => "Core e Estabilidade"
    case LegsAndWarriors => "Pernas e Guerreiros"
    case LegsNoImpact => "Pernas sem Impacto"
    case ArmsAndInversions => "Braços e Inversões"
    case AntiStress => "Anti-Stress"
    case GentleFlow => "Flow Suave"
    case Restorative => "Restaurativa"
    case YogaNidra => "Yoga Nidra"
    case BackHealth => "Saúde das Costas"
    case NeckAndShoulders => "Pescoço e Ombros"
    case JointMobility => "Mobilidade Articular"
  }

  function SessionText(s: Session): string
  {
    match s
    case HipOpening => "Foco em soltar as tensões do quadril."
    case SpineHealth => "Foco em aliviar tensão lombar com segurança."
    case SpineStretch => "Torções e flexões para mobilidade da coluna."
    case WholeBody => "Fluxo contínuo para flexibilidade geral."
    case YinYoga => "Posturas de longa duração para tecidos profundos."
    case GentleMobility => "Movimentos gentis para articulações."
    case ActiveStretch => "Recuperação ativa para soltar a musculatura."
    case CoreStability => "Fortalecimento do centro do corpo com segurança."
    case LegsAndWarriors => "Série de posturas em pé para resistência."
    case LegsNoImpact => "Fortalecimento de pernas evitando pressão nos joelhos."
    case ArmsAndInversions => "Desafios de equilíbrio e força superior."
    case AntiStress => "Respiração e movimentos suaves para começar a semana."
    case GentleFlow => "Movimento contínuo como meditação em movimento."
    case Restorative => "Uso de apoios para relaxamento profundo."
    case YogaNidra => "Relaxamento profundo guiado para o sistema nervoso."
    case BackHealth => "Alívio para dores lombares e posturais."
    case NeckAndShoulders => "Soltando a tensão acumulada na parte superior."
    case JointMobility => "Movimentos gentis para lubrificar as articulações."
  }

  /** `age && age > 60`: an absent age (or zero) is not senior. */
  predicate IsSenior(age: Option<int>)
  {
    age.Some? && age.value > 60
  }

  /** The session the goal puts on weekday `day`, if any: the weekly table
      read one day at a time. */
  function Slot(goal: Goal, backPain: bool, kneePain: bool, senior: bool, day: int): Option<Session>
  {
    match goal
    case Flexibilidade =>
      if day == 1 then Some(if backPain then SpineHealth else HipOpening)
      else if day == 3 then Some(SpineStretch)
      else if day == 5 then Some(WholeBody)
      else if day == 6 then Some(if senior then GentleMobility else YinYoga)
      else None
    case Forca =>
      if day == 0 && !senior then Some(ActiveStretch)
      else if day == 1 then Some(CoreStability)
      else if day == 3 then Some(if kneePain then LegsNoImpact else LegsAndWarriors)
      else if day == 5 then Some(ArmsAndInversions)
      else None
    case Relaxamento =>
      if day == 1 then Some(AntiStress)
      else if day == 2 then Some(GentleFlow)
      else if day == 4 then Some(Restorative)
      else if day == 6 then Some(YogaNidra)
      else None
    case AlivioDeDor =>
      if day == 1 then Some(BackHealth)
      else if day == 3 then Some(NeckAndShoulders)
      else if day == 5 then Some(JointMobility)
      else None
  }

  /** A focus label with the week's modifier appended as " (modifier)" when there is one. */
  function Suffixed(focus: string, modifier: string): string
  {
    focus + (if modifier != "" then " (" + modifier + ")" else "")
  }

  function RestDay(day: int): PlanDay
  {
    PlanDay(day, Rest, None, RestDescription)
  }

  function ActiveDay(day: int, s: Session, modifier: string): PlanDay
  {
    PlanDay(day, Active, Some(Suffixed(FocusLabel(s), modifier)), SessionText(s))
  }

  function DayOf(goal: Goal, discomforts: seq<Discomfort>, age: Option<int>, modifier: string, day: int): PlanDay
  {
    match Slot(goal, Lombar in discomforts, Joelhos in discomforts, IsSenior(age), day)
    case Some(s) => ActiveDay(day, s, modifier)
    case None => RestDay(day)
  }

  /** The week `generateBaseWeek` produces, one weekday at a time. */
  function BaseWeek(goal: Goal, discomforts: seq<Discomfort>, age: Option<int>, modifier: string): (week: seq<PlanDay>)
    ensures |week| == 7
    ensures forall i :: 0 <= i < 7 ==> week[i].dayOfWeek == i
  {
    seq(7, i requires 0 <= i < 7 => DayOf(goal, discomforts, age, modifier, i))
  }

  /** `setActive`: overwrites one slot of the week with a practice session. */
  method SetActive(schedule: array<PlanDay>, dayIndex: nat, s: Session, modifier: string)
    requires dayIndex < schedule.Length
    modifies schedule
    ensures schedule[..] == old(schedule[..])[dayIndex := ActiveDay(dayIndex, s, modifier)]
  {
    schedule[dayIndex] := ActiveDay(dayIndex, s, modifier);
  }

  /** Seven rest days, Sunday (0) to Saturday (6). */
  function RestWeek(): (week: seq<PlanDay>)
    ensures |week| == 7
  {
    seq(7, i requires 0 <= i < 7 => RestDay(i))
  }

  /** The goal's `switch` read as a sequence of `setActive` updates to the
      rest week. */
  function SwitchWeek(goal: Goal, backPain: bool, kneePain: bool, senior: bool, modifier: string): seq<PlanDay>
  {
    var w := RestWeek();
    match goal
    case Flexibilidade =>
      w[1 := ActiveDay(1, if backPain then SpineHealth else HipOpening, modifier)]
       [3 := ActiveDay(3, SpineStretch, modifier)]
       [5 := ActiveDay(5, WholeBody, modifier)]
       [6 := ActiveDay(6, if senior then GentleMobility else YinYoga, modifier)]
    case Forca =>
      var w' := w[1 := ActiveDay(1, CoreStability, modifier)]
                 [3 := ActiveDay(3, if kneePain then LegsNoImpact else LegsAndWarriors, modifier)]
                 [5 := ActiveDay(5, ArmsAndInversions, modifier)];
      if senior then w' else w'[0 := ActiveDay(0, ActiveStretch, modifier)]
    case Relaxamento =>
      w[1 := ActiveDay(1, AntiStress, modifier)]
       [2 := ActiveDay(2, GentleFlow, modifier)]
       [4 := ActiveDay(4, Restorative, modifier)]
       [6 := ActiveDay(6, YogaNidra, modifier)]
    case AlivioDeDor =>
      w[1 := ActiveDay(1, BackHealth, modifier)]
       [3 := ActiveDay(3, NeckAndShoulders, modifier)]
       [5 := ActiveDay(5, JointMobility, modifier)]
  }

  /** The day-by-day table and the sequence of updates describe the same week. */
  lemma SwitchWeekIsBaseWeek(goal: Goal, discomforts: seq<Discomfort>, age: Option<int>, modifier: string)
    ensures SwitchWeek(goal, Lombar in discomforts, Joelhos in discomforts, IsSenior(age), modifier)
         == BaseWeek(goal, discomforts, age, modifier)
  {
    var w := SwitchWeek(goal, Lombar in discomforts, Joelhos in discomforts, IsSenior(age), modifier);
    var b := BaseWeek(goal, discomforts, age, modifier);
    forall i | 0 <= i < 7 ensures w[i] == b[i] {
      assert RestWeek()[i] == RestDay(i);
      assert b[i] == DayOf(goal, discomforts, age, modifier, i);
    }
  }

  /** `generateBaseWeek`: fills seven rest days, then the goal's `switch`
      turns its weekdays into sessions. */
  method GenerateBaseWeek(goal: Goal, discomforts: seq<Discomfort>, age: Option<int>, modifier: string)
    returns (week: seq<PlanDay>)
    ensures week == BaseWeek(goal, discomforts, age, modifier)
  {
    var schedule := new PlanDay[7];
    for i := 0 to 7
      invariant forall k :: 0 <= k < i ==> schedule[k] == RestDay(k)
    {
      schedule[i] := PlanDay(i, Rest, None, RestDescription);
    }
    assert schedule[..] == RestWeek();
    var isSenior := age.Some? && age.value > 60;
    var hasBackPain := Lombar in discomforts;
    var hasKneePain := Joelhos in discomforts;
    match goal {
      case Flexibilidade =>
        SetActive(schedule, 1, if hasBackPain then SpineHealth else HipOpening, modifier);
        SetActive(schedule, 3, SpineStretch, modifier);
        SetActive(schedule, 5, WholeBody, modifier);
        SetActive(schedule, 6, if isSenior then GentleMobility else YinYoga, modifier);
      case Forca =>
        SetActive(schedule, 1, CoreStability, modifier);
        SetActive(schedule, 3, if hasKneePain then LegsNoImpact else LegsAndWarriors, modifier);
        SetActive(schedule, 5, ArmsAndInversions, modifier);
        if !isSenior {
          SetActive(schedule, 0, ActiveStretch, modifier);
        }
      case Relaxamento =>
        SetActive(schedule, 1, AntiStress, modifier);
        SetActive(schedule, 2, GentleFlow, modifier);
        SetActive(schedule, 4, Restorative, modifier);
        SetActive(schedule, 6, YogaNidra, modifier);
      case AlivioDeDor =>
        SetActive(schedule, 1, BackHealth, modifier);
        SetActive(schedule, 3, NeckAndShoulders, modifier);
        SetActive(schedule, 5, JointMobility, modifier);
    }
    week := schedule[..];
    SwitchWeekIsBaseWeek(goal, discomforts, age, modifier);
  }

  /** The weekdays a week schedules for practice. */
  function ActiveDays(week: seq<PlanDay>): set<int>
  {
    set i | 0 <= i < |week| && week[i].activityType == Active
  }

  /** The weekdays each goal schedules; strength adds Sunday unless the user is senior. */
  function GoalDays(goal: Goal, senior: bool): set<int>
  {
    match goal
    case Flexibilidade => {1, 3, 5, 6}
    case Relaxamento => {1, 2, 4, 6}
    case AlivioDeDor => {1, 3, 5}
    case Forca => if senior then {1, 3, 5} else {0, 1, 3, 5}
  }

  /** The active weekdays are fixed by the goal and seniority alone,
      whatever the discomforts and the theme. */
  lemma ActiveDaysOfGoal(goal: Goal, discomforts: seq<Discomfort>, age: Option<int>, modifier: string)
    ensures ActiveDays(BaseWeek(goal, discomforts, age, modifier)) == GoalDays(goal, IsSenior(age))
  {
    var week := BaseWeek(goal, discomforts, age, modifier);
    forall i ensures i in ActiveDays(week) <==> i in GoalDays(goal, IsSenior(age)) {
      if 0 <= i < 7 {
        assert week[i] == DayOf(goal, discomforts, age, modifier, i);
      }
    }
  }

  /** No focus label is empty or ends in a closing parenthesis. */
  lemma FocusLabelEnd(s: Session)
    ensures |FocusLabel(s)| > 0 && FocusLabel(s)[|FocusLabel(s)| - 1] != ')'
  {
  }

  /** Rest days carry no focus and the fixed rest description; active days
      carry a focus that ends in " (modifier)" exactly when the modifier is
      non-empty (no base label ends in a parenthesis). */
  lemma DayContents(goal: Goal, discomforts: seq<Discomfort>, age: Option<int>, modifier: string, i: int)
    requires 0 <= i < 7
    ensures var d := BaseWeek(goal, discomforts, age, modifier)[i];
      && (d.activityType == Rest ==> d.focus == None && d.description == RestDescription)
      && (d.activityType == Active ==>
            d.focus.Some?
            && (modifier != "" ==> EndsWith(d.focus.value, " (" + modifier + ")"))
            && (modifier == "" ==> !EndsWith(d.focus.value, ")")))
  {
    var d := BaseWeek(goal, discomforts, age, modifier)[i];
    assert d == DayOf(goal, discomforts, age, modifier, i);
    var slot := Slot(goal, Lombar in discomforts, Joelhos in discomforts, IsSenior(age), i);
    if slot.Some? {
      var f := FocusLabel(slot.value);
      FocusLabelEnd(slot.value);
      if modifier != "" {
        var tail := " (" + modifier + ")";
        assert d.focus.value == f + tail;
        assert (f + tail)[|f + tail| - |tail|..] == tail;
      } else {
        assert d.focus.value == f;
      }
    }
  }

  /** A themed week is the unthemed week with " (theme)" appended to every
      active focus: the theme changes nothing else. */
  function WithSuffix(day: PlanDay, modifier: string): PlanDay
  {
    match day.focus
    case Some(f) => if day.activityType == Active then day.(focus := Some(Suffixed(f, modifier))) else day
    case None => day
  }

  lemma ThemeOnlyAddsSuffix(goal: Goal, discomforts: seq<Discomfort>, age: Option<int>, modifier: string, i: int)
    requires 0 <= i < 7
    ensures BaseWeek(goal, discomforts, age, modifier)[i] == WithSuffix(BaseWeek(goal, discomforts, age, "")[i], modifier)
  {
    assert BaseWeek(goal, discomforts, age, modifier)[i] == DayOf(goal, discomforts, age, modifier, i);
    assert BaseWeek(goal, discomforts, age, "")[i] == DayOf(goal, discomforts, age, "", i);
    var slot := Slot(goal, Lombar in discomforts, Joelhos in discomforts, IsSenior(age), i);
    if slot.Some? {
      assert Suffixed(FocusLabel(slot.value), "") == FocusLabel(slot.value);
    }
  }

  /** Back pain changes the flexibility Monday and nothing else. */
  lemma BackPainIsNarrow(goal: Goal, ds1: seq<Discomfort>, ds2: seq<Discomfort>, age: Option<int>, modifier: string, i: int)
    requires (Joelhos in ds1) == (Joelhos in ds2)
    requires 0 <= i < 7 && !(goal == Flexibilidade && i == 1)
    ensures BaseWeek(goal, ds1, age, modifier)[i] == BaseWeek(goal, ds2, age, modifier)[i]
  {
    assert BaseWeek(goal, ds1, age, modifier)[i] == DayOf(goal, ds1, age, modifier, i);
    assert BaseWeek(goal, ds2, age, modifier)[i] == DayOf(goal, ds2, age, modifier, i);
  }

  /** Knee pain changes the strength Wednesday and nothing else. */
  lemma KneePainIsNarrow(goal: Goal, ds1: seq<Discomfort>, ds2: seq<Discomfort>, age: Option<int>, modifier: string, i: int)
    requires (Lombar in ds1) == (Lombar in ds2)
    requires 0 <= i < 7 && !(goal == Forca && i == 3)
    ensures BaseWeek(goal, ds1, age, modifier)[i] == BaseWeek(goal, ds2, age, modifier)[i]
  {
    assert BaseWeek(goal, ds1, age, modifier)[i] == DayOf(goal, ds1, age, modifier, i);
    assert BaseWeek(goal, ds2, age, modifier)[i] == DayOf(goal, ds2, age, modifier, i);
  }

  /** Age matters only through seniority, and seniority changes only the
      flexibility Saturday and the strength Sunday. */
  lemma SeniorIsNarrow(goal: Goal, ds: seq<Discomfort>, age1: Option<int>, age2: Option<int>, modifier: string, i: int)
    requires 0 <= i < 7
    requires IsSenior(age1) != IsSenior(age2) ==> !(goal == Flexibilidade && i == 6) && !(goal == Forca && i == 0)
    ensures BaseWeek(goal, ds, age1, modifier)[i] == BaseWeek(goal, ds, age2, modifier)[i]
  {
    assert BaseWeek(goal, ds, age1, modifier)[i] == DayOf(goal, ds, age1, modifier, i);
    assert BaseWeek(goal, ds, age2, modifier)[i] == DayOf(goal, ds, age2, modifier, i);
  }

  // ---------------------------------------------------------------------
  // createPersonalizedPlan

  /** One entry of a plan's reasoning list, before it is rendered as text. */
  datatype Reason =
    | GoalReason(goal: Goal)
    | CareNote(area: Discomfort)
    | AgeReason(years: int)
    | WeightReason
    | DurationReason(minutes: int)

  /** The sentence each reason is pushed as. */
  function ReasonText(r: Reason): string
  {
    match r
    case GoalReason(Flexibilidade) => "O foco em flexibilidade ajudará a soltar a rigidez muscular acumulada, melhorando sua amplitude de movimento."
    case GoalReason(Forca) => "Priorizamos posturas isométricas para construir força muscular sem impacto excessivo nas articulações."
    case GoalReason(Relaxamento) => "Incluímos mais pausas e respirações longas para ativar seu sistema nervoso parassimpático (relaxamento)."
    case GoalReason(AlivioDeDor) => "O plano foca em mobilidade suave e correção postural para tratar a causa raiz das dores."
    case CareNote(Joelhos) => "Para seus joelhos: Selecionamos variações que evitam agachamentos profundos e pressão direta na patela."
    case CareNote(Lombar) => "Para sua lombar: Enfatizamos o fortalecimento do 'Core' para dar suporte à coluna e evitamos flexões traseiras extremas."
    case CareNote(PescocoOmbros) => "Para pescoço e ombros: Adicionamos alongamentos específicos de trapézio e evitamos sobrecarga nos braços."
    case CareNote(Punhos) => "Para os punhos: Substituímos muitas pranchas por apoios no antebraço para reduzir a pressão no carpo."
    case CareNote(Nenhum) => ""
    case AgeReason(years) => "Considerando sua idade (" + IntToString(years) + " anos), o ritmo é cadenciado para promover longevidade articular e equilíbrio."
    case WeightReason => "Ajustamos as transições para serem mais suaves, garantindo conforto e segurança durante a prática."
    case DurationReason(minutes) => "Sessões de " + IntToString(minutes) + " minutos foram escolhidas para garantir consistência diária, que é mais importante que intensidade esporádica."
  }

  /** The care notes in the order they are checked: knees, lower back,
      neck and shoulders, wrists. */
  const CareOrder: seq<Reason> := [CareNote(Joelhos), CareNote(Lombar), CareNote(PescocoOmbros), CareNote(Punhos)]

  /** A care note for one of the reported areas. */
  predicate Reported(ds: seq<Discomfort>, r: Reason)
  {
    r.CareNote? && r.area in ds
  }

  /** `reasons` with `r` pushed when `c` holds. */
  function PushIf(reasons: seq<Reason>, c: bool, r: Reason): seq<Reason>
  {
    if c then reasons + [r] else reasons
  }

  /** The four membership tests, in order. */
  function CareNotes(ds: seq<Discomfort>): seq<Reason>
  {
    PushIf(PushIf(PushIf(PushIf([],
      Joelhos in ds, CareNote(Joelhos)),
      Lombar in ds, CareNote(Lombar)),
      PescocoOmbros in ds, CareNote(PescocoOmbros)),
      Punhos in ds, CareNote(Punhos))
  }

  predicate AgeNoted(prefs: UserPreferences)
  {
    prefs.age.Some? && prefs.age.value > 55
  }

  predicate WeightNoted(prefs: UserPreferences)
  {
    prefs.weight.Some? && prefs.weight.value > 90 && prefs.goal != Forca
  }

  /** The notes on age and weight, when they apply. */
  function ProfileNotes(prefs: UserPreferences): seq<Reason>
  {
    PushIf(PushIf([],
      AgeNoted(prefs), AgeReason(if prefs.age.Some? then prefs.age.value else 0)),
      WeightNoted(prefs), WeightReason)
  }

  /** The reasoning list: the goal, the care notes, the notes on age and
      weight, and the duration, pushed in that order. */
  function Reasons(prefs: UserPreferences): seq<Reason>
  {
    [GoalReason(prefs.goal)] + CareNotes(prefs.discomforts) + ProfileNotes(prefs) + [DurationReason(prefs.duration)]
  }

  function BaseDescription(goal: Goal): string
  {
    "Um plano equilibrado de 4 semanas focado em " + Lower(GoalName(goal)) + "."
  }

  predicate CaresFor(discomforts: seq<Discomfort>)
  {
    |discomforts| > 0 && Nenhum !in discomforts
  }

  function CareClause(discomforts: seq<Discomfort>): string
  {
    " Adaptado para cuidar de: " + Join(Seqs.Map(discomforts, DiscomfortName), ", ") + "."
  }

  function Description(prefs: UserPreferences): string
  {
    BaseDescription(prefs.goal) + (if CaresFor(prefs.discomforts) then CareClause(prefs.discomforts) else "")
  }

  /** The four themed weeks of a plan. */
  function PlanWeeks(goal: Goal, discomforts: seq<Discomfort>, age: Option<int>): (weeks: seq<seq<PlanDay>>)
    ensures |weeks| == 4
    ensures forall k :: 0 <= k < 4 ==> weeks[k] == BaseWeek(goal, discomforts, age, WeekThemes[k])
  {
    [BaseWeek(goal, discomforts, age, WeekThemes[0]), BaseWeek(goal, discomforts, age, WeekThemes[1]),
     BaseWeek(goal, discomforts, age, WeekThemes[2]), BaseWeek(goal, discomforts, age, WeekThemes[3])]
  }

  /** The plan `createPersonalizedPlan` returns at clock reading `now`. */
  function PlanFor(prefs: UserPreferences, now: nat): (plan: TrainingPlan)
    ensures plan.userId.None? && plan.durationWeeks == Some(4)
    ensures plan.weeks.Some? && |plan.weeks.value| == 4 && plan.schedule == plan.weeks.value[0]
    ensures plan.reasoning.Some? && |plan.reasoning.value| == |Reasons(prefs)|
  {
    var weeks := PlanWeeks(prefs.goal, prefs.discomforts, prefs.age);
    TrainingPlan(
      "plan-" + Lower(GoalName(prefs.goal)) + "-" + NatToString(now),
      None,
      "Jornada de " + GoalName(prefs.goal),
      Description(prefs),
      weeks[0],
      Some(weeks),
      Some(Seqs.Map(Reasons(prefs), ReasonText)),
      Some(4))
  }

  /** `createPersonalizedPlan`: the description, the reasoning list and
      one generated week per theme. */
  method CreatePersonalizedPlan(prefs: UserPreferences, now: nat) returns (plan: TrainingPlan)
    ensures plan == PlanFor(prefs, now)
  {
    var goal, age, discomforts := prefs.goal, prefs.age, prefs.discomforts;
    var description := Describe(prefs);
    var reasons := Explain(prefs);

    var weeks := GenerateWeeks(goal, discomforts, age);

    plan := TrainingPlan(
      "plan-" + Lower(GoalName(goal)) + "-" + NatToString(now),
      None,
      "Jornada de " + GoalName(goal),
      description,
      weeks[0],
      Some(weeks),
      Some(Seqs.Map(reasons, ReasonText)),
      Some(4));
  }

  /** `weekThemes.map(theme => generateBaseWeek(...))`. */
  method GenerateWeeks(goal: Goal, discomforts: seq<Discomfort>, age: Option<int>) returns (weeks: seq<seq<PlanDay>>)
    ensures weeks == PlanWeeks(goal, discomforts, age)
  {
    weeks := [];
    for k := 0 to 4
      invariant |weeks| == k
      invariant forall j :: 0 <= j < k ==> weeks[j] == BaseWeek(goal, discomforts, age, WeekThemes[j])
    {
      var week := GenerateBaseWeek(goal, discomforts, age, WeekThemes[k]);
      weeks := weeks + [week];
    }
  }

  /** The description: the base sentence, extended by the care clause. */
  method Describe(prefs: UserPreferences) returns (description: string)
    ensures description == Description(prefs)
  {
    var goal, discomforts := prefs.goal, prefs.discomforts;
    description := "Um plano equilibrado de 4 semanas focado em " + Lower(GoalName(goal)) + ".";
    if |discomforts| > 0 && Nenhum !in discomforts {
      description := description + " Adaptado para cuidar de: " + Join(Seqs.Map(discomforts, DiscomfortName), ", ") + ".";
    }
  }

  /** The reasoning list, one `push` per applicable reason; the sentences
      are the texts of the pushed reasons. */
  method Explain(prefs: UserPreferences) returns (reasons: seq<Reason>)
    ensures reasons == Reasons(prefs)
  {
    var goal, age, weight, discomforts := prefs.goal, prefs.age, prefs.weight, prefs.discomforts;
    reasons := [GoalReason(goal)];
    // the pushes since the goal reason
    ghost var notes: seq<Reason> := [];
    assert reasons == [GoalReason(goal)] + notes;
    if Joelhos in discomforts {
      Seqs.AppendAssoc([GoalReason(goal)], notes, [CareNote(Joelhos)]);
      reasons, notes := reasons + [CareNote(Joelhos)], notes + [CareNote(Joelhos)];
    }
    if Lombar in discomforts {
      Seqs.AppendAssoc([GoalReason(goal)], notes, [CareNote(Lombar)]);
      reasons, notes := reasons + [CareNote(Lombar)], notes + [CareNote(Lombar)];
    }
    if PescocoOmbros in discomforts {
      Seqs.AppendAssoc([GoalReason(goal)], notes, [CareNote(PescocoOmbros)]);
      reasons, notes := reasons + [CareNote(PescocoOmbros)], notes + [CareNote(PescocoOmbros)];
    }
    if Punhos in discomforts {
      Seqs.AppendAssoc([GoalReason(goal)], notes, [CareNote(Punhos)]);
      reasons, notes := reasons + [CareNote(Punhos)], notes + [CareNote(Punhos)];
    }
    assert notes == CareNotes(discomforts);
    assert reasons == [GoalReason(goal)] + notes;
    ghost var noted := reasons;
    ghost var profile: seq<Reason> := [];
    assert reasons == noted + profile;
    if age.Some? && age.value > 55 {
      Seqs.AppendAssoc(noted, profile, [AgeReason(age.value)]);
      reasons, profile := reasons + [AgeReason(age.value)], profile + [AgeReason(age.value)];
    }
    if weight.Some? && weight.value > 90 && goal != Forca {
      Seqs.AppendAssoc(noted, profile, [WeightReason]);
      reasons, profile := reasons + [WeightReason], profile + [WeightReason];
    }
    assert profile == ProfileNotes(prefs);
    assert reasons == noted + profile;
    reasons := reasons + [DurationReason(prefs.duration)];
  }

  /** The care notes are exactly the reported areas among the four, kept
      in the fixed order. */
  lemma CareNotesInOrder(ds: seq<Discomfort>)
    ensures CareNotes(ds) == Seqs.Filter(CareOrder, (r: Reason) => Reported(ds, r))
  {
    var p := (r: Reason) => Reported(ds, r);
    var j, l, n, w := CareNote(Joelhos), CareNote(Lombar), CareNote(PescocoOmbros), CareNote(Punhos);
    var c0: seq<Reason> := [];
    var c1 := c0 + [j];
    var c2 := c1 + [l];
    var c3 := c2 + [n];
    assert c3 + [w] == CareOrder;
    Seqs.FilterSnoc(c0, j, p);
    Seqs.FilterSnoc(c1, l, p);
    Seqs.FilterSnoc(c2, n, p);
    Seqs.FilterSnoc(c3, w, p);
  }

  /** A plan lasts four weeks, has exactly four weeks, shows the first of
      them as its schedule, and each week is the unthemed week with its
      theme appended to every active focus. */
  lemma PlanShape(prefs: UserPreferences, now: nat)
    ensures var plan := PlanFor(prefs, now);
      && plan.durationWeeks == Some(4)
      && plan.weeks.Some? && |plan.weeks.value| == 4
      && plan.schedule == plan.weeks.value[0]
      && |plan.schedule| == 7
      && forall k, i :: 0 <= k < 4 && 0 <= i < 7 ==>
           plan.weeks.value[k][i].dayOfWeek == i
           && plan.weeks.value[k][i] == WithSuffix(BaseWeek(prefs.goal, prefs.discomforts, prefs.age, "")[i], WeekThemes[k])
  {
    var weeks := PlanWeeks(prefs.goal, prefs.discomforts, prefs.age);
    forall k, i | 0 <= k < 4 && 0 <= i < 7
      ensures weeks[k][i] == WithSuffix(BaseWeek(prefs.goal, prefs.discomforts, prefs.age, "")[i], WeekThemes[k])
    {
      ThemeOnlyAddsSuffix(prefs.goal, prefs.discomforts, prefs.age, WeekThemes[k], i);
    }
  }

  /** The four weeks of a plan agree on everything but the theme suffix:
      the same weekdays are active, with the same descriptions. */
  lemma WeeksShareShape(prefs: UserPreferences, k1: int, k2: int, i: int)
    requires 0 <= k1 < 4 && 0 <= k2 < 4 && 0 <= i < 7
    ensures var w := PlanWeeks(prefs.goal, prefs.discomforts, prefs.age);
      && w[k1][i].activityType == w[k2][i].activityType
      && w[k1][i].description == w[k2][i].description
      && w[k1][i].dayOfWeek == w[k2][i].dayOfWeek
  {
    ThemeOnlyAddsSuffix(prefs.goal, prefs.discomforts, prefs.age, WeekThemes[k1], i);
    ThemeOnlyAddsSuffix(prefs.goal, prefs.discomforts, prefs.age, WeekThemes[k2], i);
  }

  /** The description gets the care clause exactly when some discomfort is
      reported and "Nenhum" is not among them. */
  lemma DescriptionClause(prefs: UserPreferences)
    ensures var d := Description(prefs);
      && StartsWith(d, BaseDescription(prefs.goal))
      && (|d| > |BaseDescription(prefs.goal)| <==> CaresFor(prefs.discomforts))
      && (CaresFor(prefs.discomforts) ==> d[|BaseDescription(prefs.goal)|..] == CareClause(prefs.discomforts))
  {
    var b := BaseDescription(prefs.goal);
    var d := Description(prefs);
    assert d[..|b|] == b;
    assert CaresFor(prefs.discomforts) ==> d[|b|..] == CareClause(prefs.discomforts);
  }

  /** The care notes follow the fixed order, and each appears exactly when
      its area is reported. */
  lemma CareNotesOrder(ds: seq<Discomfort>)
    ensures Seqs.IsSubseq(CareNotes(ds), CareOrder)
    ensures forall x :: x in CareNotes(ds) ==> x.CareNote?
    ensures forall d :: CareNote(d) in CareNotes(ds) <==> d in ds && d != Nenhum
  {
    CareNotesInOrder(ds);
    Seqs.FilterIsSubseq(CareOrder, (r: Reason) => Reported(ds, r));
  }

  /** The reasoning starts with the one goal reason, followed directly by
      the care notes. */
  lemma ReasoningStart(prefs: UserPreferences)
    ensures var r, notes := Reasons(prefs), CareNotes(prefs.discomforts);
      && |r| >= 2
      && r[0] == GoalReason(prefs.goal)
      && (forall x :: x in r[1..] ==> !x.GoalReason?)
      && r[1..1 + |notes|] == notes
  {
    var notes, profile := CareNotes(prefs.discomforts), ProfileNotes(prefs);
    var d := DurationReason(prefs.duration);
    var r := Reasons(prefs);
    CareNotesOrder(prefs.discomforts);
    ProfileNotesContent(prefs);
    assert r[1..] == notes + (profile + [d]);
    forall x | x in r[1..] ensures !x.GoalReason? {
      assert x in notes || x in profile || x == d;
    }
  }

  /** The reasoning ends with the one duration reason. */
  lemma ReasoningEnd(prefs: UserPreferences)
    ensures var r := Reasons(prefs);
      && |r| >= 2
      && r[|r| - 1] == DurationReason(prefs.duration)
      && (forall x :: x in r[..|r| - 1] ==> !x.DurationReason?)
  {
    var notes, profile := CareNotes(prefs.discomforts), ProfileNotes(prefs);
    var g := GoalReason(prefs.goal);
    var r := Reasons(prefs);
    CareNotesOrder(prefs.discomforts);
    ProfileNotesContent(prefs);
    assert r[..|r| - 1] == [g] + notes + profile;
    forall x | x in r[..|r| - 1] ensures !x.DurationReason? {
      assert x == g || x in notes || x in profile;
    }
  }

  /** The age reason (with the user's age) is in the reasoning exactly when
      the age is over 55, and the weight reason exactly when the weight is
      over 90 and the goal is not strength. */
  lemma ReasoningProfile(prefs: UserPreferences)
    ensures var r := Reasons(prefs);
      && (forall a :: AgeReason(a) in r <==> AgeNoted(prefs) && a == prefs.age.value)
      && (WeightReason in r <==> WeightNoted(prefs))
  {
    CareNotesOrder(prefs.discomforts);
    ProfileNotesContent(prefs);
  }

  /** The profile notes are the age note (with the user's age) exactly when
      the age is over 55, then the weight note exactly when the weight is
      over 90 and the goal is not strength. */
  lemma ProfileNotesContent(prefs: UserPreferences)
    ensures var p := ProfileNotes(prefs);
      && (forall x :: x in p ==> x.AgeReason? || x == WeightReason)
      && (forall a :: AgeReason(a) in p <==> AgeNoted(prefs) && a == prefs.age.value)
      && (WeightReason in p <==> WeightNoted(prefs))
      && (AgeNoted(prefs) && WeightNoted(prefs) ==> p == [AgeReason(prefs.age.value), WeightReason])
  {
  }

  /** `getTodaysPlan` with the weekday given: the schedule's entry for it. */
  function TodaysPlan(plan: TrainingPlan, weekday: int): (r: Option<PlanDay>)
    requires 0 <= weekday < 7
    ensures r.Some? <==> weekday < |plan.schedule|
    ensures r.Some? ==> r.value in plan.schedule && r.value == plan.schedule[weekday]
  {
    if weekday < |plan.schedule| then Some(plan.schedule[weekday]) else None
  }

  /** For a generated plan, today's entry is the first week's day for that weekday. */
  lemma TodaysPlanOfGenerated(prefs: UserPreferences, now: nat, weekday: int)
    requires 0 <= weekday < 7
    ensures var r := TodaysPlan(PlanFor(prefs, now), weekday);
      r.Some? && r.value.dayOfWeek == weekday
      && r.value == BaseWeek(prefs.goal, prefs.discomforts, prefs.age, WeekThemes[0])[weekday]
  {
  }
}
