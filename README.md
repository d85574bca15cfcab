# YogaApp core, modelled in Dafny

YogaApp is a yoga practice app written in TypeScript and React. This project models the logic behind its screens:

- **Plan engine.** It builds a personalised four-week training plan from the user's preferences. Each week has seven days, rest or active, and carries themed focus labels. The plan also holds a description and an ordered list of reasons.
- **Plan editor.** It edits one day of one week, one field at a time, and saves the grid back into the plan.
- **Journey screen.**
  - It finds the plan day a calendar date shows: week `floor(days since start / 7) mod weeks`, or week 0 before the start.
  - It decides when the weekly check-in and review are offered, using JavaScript's truncating remainder.
  - It builds the day a quick swap puts in, and totals the history.
- **App shell.**
  - The discomfort toggle, where 'Nenhum' is exclusive.
  - The onboarding back button.
  - Marking a day done, and the quick swap of a schedule day.
  - Completing a feedback story: the session is logged and the level adapted by one step at most, or the week's intention is kept, or the weekly report is built.
- **Routine editor.** Moving, removing, appending and re-timing poses, with the routine's total time.
- **Pose library.** Category and case-insensitive name search, the card selection toggle, the comma-separated benefit parsing, and the add-pose form with its defaults.
- **Learning hub.** The official and community tabs with a category filter, the line-break paragraph split, and the publish form.

The model has one module per source file, plus three support modules:

- `Types`: the records.
- `Text`: JavaScript's `toLowerCase`, `includes`, `trim`, `split` and `join`, and number-to-text conversion.
- `Seqs`: `filter`, `map` and `reduce` as `Filter`, `Map` and `SumOf`, and the order-preserving subsequence relation.

The code does work in place in a few places, and the model keeps those as methods, each proved equal to a specification function. Building a week, editing a day, the quick swap and the pose moves and re-timing work on an array copy; the plan's weeks, description and reasons are built up as sequence values:

- Building a week (`GenerateBaseWeek` with `SetActive`).
- Building the plan (`CreatePersonalizedPlan` with `GenerateWeeks`, `Describe` and `Explain`).
- Editing a day in the plan editor.
- The quick swap.
- Moving a pose and re-timing one.

Everything else is functions and lemmas.

The plan's reasons are produced as a list of tagged `Reason` values. They are turned into the app's sentences by `ReasonText` in the last step. The texts and their order are the code's.

The plan description names the goal and, when any are reported (and 'Nenhum' is not among them), the discomforts; it does not mention age, weight or duration. The age (over 55) and weight (over 90, except for Força) reasons come before the duration reason.

## Model

| member | source | states |
|---|---|---|
| PlanEngine.BaseWeek | services/planEngine.ts:7-12 | a generated week has seven days and day `i` has `dayOfWeek == i` |
| PlanEngine.SetActive | services/planEngine.ts:14-21 | the inner `setActive` overwrites exactly slot `dayIndex` with the active day (focus with the theme suffix, given description) and leaves every other slot as it was |
| PlanEngine.GenerateBaseWeek | services/planEngine.ts:7-59 | filling seven rest days and then applying the goal's `setActive` calls in place gives exactly the week of the per-day table `BaseWeek` |
| PlanEngine.SwitchWeekIsBaseWeek | services/planEngine.ts:27-56 | the `switch` written out as successive slot assignments (Força's Sunday only when not senior) equals the per-day table |
| PlanEngine.ActiveDaysOfGoal | services/planEngine.ts:27-56 | the active weekdays depend only on goal and seniority: Flexibilidade {1,3,5,6}, Força {1,3,5} plus Sunday unless senior, Relaxamento {1,2,4,6}, Alívio de Dor {1,3,5} |
| PlanEngine.FocusLabelEnd | services/planEngine.ts:29-54 | no session label of the table is empty or ends in ')' |
| PlanEngine.DayContents | services/planEngine.ts:8-20 | rest days have no focus and the rest description; active days have a focus that ends in " (theme)" when the theme is non-empty and does not end in ')' otherwise |
| PlanEngine.ThemeOnlyAddsSuffix | services/planEngine.ts:18 | each day of a themed week is the unthemed day with only the " (theme)" suffix added to an active focus |
| PlanEngine.BackPainIsNarrow | services/planEngine.ts:24-29 | back pain changes no day except the Flexibilidade Monday |
| PlanEngine.KneePainIsNarrow | services/planEngine.ts:25-37 | knee pain changes no day except the Força Wednesday |
| PlanEngine.SeniorIsNarrow | services/planEngine.ts:23-41 | being over 60 changes only the Flexibilidade Saturday and the Força Sunday |
| PlanEngine.PlanWeeks | services/planEngine.ts:111-112 | the plan has four weeks, week k generated with the k-th theme (Fundação, Aprofundamento, Desafio, Integração) |
| PlanEngine.GenerateWeeks | services/planEngine.ts:111-112 | mapping the themes to weeks gives exactly `PlanWeeks` |
| PlanEngine.Describe | services/planEngine.ts:64-68 | building the description with `+=` gives exactly `Description` |
| PlanEngine.DescriptionClause | services/planEngine.ts:65-68 | the description starts with the goal sentence and is longer exactly when discomforts are listed and 'Nenhum' is not among them, the tail then being the care clause |
| PlanEngine.Explain | services/planEngine.ts:70-107 | pushing the reasons one condition at a time gives exactly `Reasons` |
| PlanEngine.CareNotesInOrder | services/planEngine.ts:84-96 | the care reasons are the fixed order Joelhos, Lombar, Pescoço/Ombros, Punhos filtered to the discomforts reported |
| PlanEngine.CareNotesOrder | services/planEngine.ts:84-96 | the care reasons are an ordered subsequence of that fixed order, and there is one for a discomfort exactly when it is reported and not 'Nenhum' |
| PlanEngine.ReasoningStart | services/planEngine.ts:73-96 | the reasons start with the goal's reason, no other goal reason follows, and the care reasons come right after it |
| PlanEngine.ReasoningEnd | services/planEngine.ts:106-107 | the last reason is the duration one and it appears nowhere else |
| PlanEngine.ReasoningProfile | services/planEngine.ts:98-104 | there is an age reason, for the user's age, exactly when the age is over 55, and a weight reason exactly when the weight is over 90 and the goal is not Força |
| PlanEngine.ProfileNotesContent | services/planEngine.ts:98-104 | the profile part holds only age and weight reasons, each exactly under its condition, age before weight |
| PlanEngine.PlanFor | services/planEngine.ts:61-123 | the generated plan belongs to no user, lasts four weeks, holds four weeks whose first is the schedule, and has one reason text per reason |
| PlanEngine.CreatePersonalizedPlan | services/planEngine.ts:61-123 | the plan built step by step is exactly `PlanFor`: its id, name, description, four weeks, schedule, rendered reasons and four-week duration |
| PlanEngine.PlanShape | services/planEngine.ts:110-122 | a generated plan lasts four weeks and holds four seven-day weeks, the schedule is the first week, and day i of week k is the unthemed day i with theme k's suffix |
| PlanEngine.WeeksShareShape | services/planEngine.ts:110-112 | all four weeks agree on which days are active and on every description, differing only in the focus suffix |
| PlanEngine.TodaysPlan | services/planEngine.ts:125-129 | there is an entry exactly when the schedule reaches today's weekday, and it is the schedule's day at that index |
| PlanEngine.TodaysPlanOfGenerated | services/planEngine.ts:125-129 | for a generated plan, today's entry exists, is for today's weekday, and is the first week's day |
| PlanEditor.InitialWeeks | components/PlanEditor.tsx:18 | the editor starts from the plan's weeks, or four copies of its schedule when it has none |
| PlanEditor.HandleDayUpdate | components/PlanEditor.tsx:27-44 | copying the grid and assigning the field and the defaults in place on the copied day gives the grid with exactly cell [week][day] replaced by the edited day |
| PlanEditor.EditIsLocal | components/PlanEditor.tsx:27-44 | an edit keeps the number of weeks, every week's length, every other cell and the edited day's weekday |
| PlanEditor.ActivityDefaults | components/PlanEditor.tsx:34-41 | choosing Rest always gives 'Descanso e Recuperação' and the free-day description; choosing Active keeps a non-empty focus and its description, and otherwise gives 'Foco Personalizado' with an empty description |
| PlanEditor.TextEditsAreNarrow | components/PlanEditor.tsx:31 | editing the focus or the description changes only that field |
| PlanEditor.RestThenActive | components/PlanEditor.tsx:34-41 | switching a day to Rest and back to Active leaves it active with the rest focus and description |
| PlanEditor.HandleSave | components/PlanEditor.tsx:49-55 | the saved plan has the new name, the edited weeks and the first week as schedule; every other field is the initial plan's |
| PlanEditor.SaveWithoutChanges | components/PlanEditor.tsx:18-55 | saving without edits returns the same plan when its schedule is its first week, and otherwise only adds four copies of the schedule as weeks |
| PlanEditor.SaveShowsFirstWeekEdits | components/PlanEditor.tsx:27-55 | after a save, the schedule shows an edit exactly when it was made in the first week |
| Journey.ShownPlan | components/Journey.tsx:60-62 | the journey shows the custom plan when there is one and the generated plan otherwise |
| Journey.WeekIndex | components/Journey.tsx:77-85 | the week index is within the plan's weeks, and it is 0 with no start date, before the start, and throughout the first seven days from the start |
| Journey.GetDayPlan | components/Journey.tsx:73-95 | with weeks, a date shows that week's entry for its weekday labelled week index + 1; without weeks (or with none), the schedule's entry and no label |
| Journey.WeekIndexAdvances | components/Journey.tsx:85 | seven days later the week index moves on by one, wrapping after the last week |
| Journey.WeekIndexWraps | components/Journey.tsx:85 | the week index repeats after as many weeks as the plan has |
| Journey.TruncRem | components/Journey.tsx:112 | JavaScript's `%` by a positive n: the remainder lies strictly between -n and n, is the usual remainder for non-negative offsets, and for negative ones is non-positive and differs from the offset by a multiple of n |
| Journey.CheckinStatus | components/Journey.tsx:101-119 | without a start date the check-in is offered; on the start day itself the check-in is offered; before the start the review never is |
| Journey.CheckinDays | components/Journey.tsx:101-119 | with a start date, check-in is offered exactly on whole-week offsets (before the start too) and review exactly on the seventh day of a week on or after the start, never before it |
| Journey.CheckinStartsPlanWeek | components/Journey.tsx:85-117 | after the start, a check-in day is exactly a day on which the calendar's week index moves on from the day before |
| Journey.GeneratedPlanDays | components/Journey.tsx:73-95 | for a generated plan every date shows a day of its own weekday, labelled with a week from 1 to 4 |
| Journey.SwapDay | components/Journey.tsx:132-148 | a swapped-in day is for the selected weekday, has the chosen activity and never an empty focus: 'Descanso' for rest, the chosen focus or 'Prática Livre' for active, each with its fixed description |
| Journey.HandleSwapPractice | components/Journey.tsx:128-151 | without a selected date nothing is updated; otherwise the selected weekday is updated with the swapped-in day |
| Journey.TotalMinutes | components/Journey.tsx:66 | an empty history totals 0 minutes, and the minutes practised are never negative when no session has a negative duration |
| Journey.TotalMinutesOfLog | components/Journey.tsx:66 | logging a session adds its minutes to the total, and the order of the history does not change it |
| Journey.SelectedDayHistory | components/Journey.tsx:69-71 | with no date selected the list is empty; otherwise it is an ordered subsequence of the history that holds every session of that date exactly as many times as the history does, and nothing else |
| App.ToggleDiscomfort | App.tsx:398-407 | 'Nenhum' gives exactly ['Nenhum']; another option gives a list without 'Nenhum' that has the option exactly when it did not have it and agrees with the old list on every other option; a newly chosen option goes at the end of the old list without 'Nenhum'; removing a selected option keeps every other option except 'Nenhum' in its old order, as many times as before |
| App.RemovalKeepsTheRest | App.tsx:402-404 | the two filters of the removal branch give an ordered subsequence of the old list holding every option other than 'Nenhum' and the removed one exactly as often as before |
| App.ToggleKeepsWellFormed | App.tsx:398-407 | the toggle never lists an option twice and never lists 'Nenhum' beside another option, if the list did not before |
| App.ToggleTwice | App.tsx:402-406 | clicking an option twice leaves the same options selected, as a set, without 'Nenhum'; a selected option comes back at the end, so the order is not restored |
| App.ToggleTwiceRestores | App.tsx:402-406 | clicking an option that was not selected twice gives back exactly the old list without 'Nenhum', in its order |
| App.NextStep | App.tsx:317 | the forward button moves exactly one step on |
| App.PrevStep | App.tsx:318 | the back button goes one step back and never below step 0 |
| App.BackUndoesNext | App.tsx:317-318 | going back undoes going forward from any step |
| App.MarkDayComplete | App.tsx:223-232 | the history grows by one record in front, for the given date and the standard duration, named after the day's focus or 'Prática de' and the goal |
| App.MarkDayCompleteCounts | App.tsx:223-232 | marking a day done adds the standard duration to the minutes practised and puts the new record first among that date's sessions |
| App.HandleUpdateDay | App.tsx:234-243 | copying the shown plan's schedule and assigning the new day gives that plan with only `schedule[dayIndex]` replaced, its weeks untouched |
| App.SwapNotShownWithWeeks | App.tsx:234-243 | when the plan has weeks, the swap leaves every date of the journey calendar showing what it showed before |
| App.SwapNotShownExample | App.tsx:234-243 | a plan whose Monday is active, swapped to rest on that Monday, still shows the active Monday |
| App.HandleUpdateDayInWeek | App.tsx:234-243 | the corrected swap also replaces that day in the week the selected date falls in, and changes nothing else |
| App.SwapShownInWeek | components/Journey.tsx:73-95 | with the corrected swap, the selected date shows the new day |
| App.FirstAbout | App.tsx:260 | the answer found is the first response whose question contains the key; nothing is found exactly when no question contains it |
| App.StepLevel | App.tsx:261-270 | a score of -1 lowers the level one step and 1 raises it one step, staying at either end; any other score keeps it |
| App.StepLevelUndo | App.tsx:261-270 | raising below the top then lowering, or lowering above the bottom then raising, restores the level |
| App.AdaptLevel | App.tsx:260-271 | the level is stepped by the score of the first question about 'intensidade', and unchanged when there is none or it has no score |
| App.AdaptLevelOneStep | App.tsx:260-271 | adaptation moves the level by at most one step |
| App.SessionMinutes | App.tsx:253 | the logged minutes are the seconds over 60 rounded to the nearest whole number, halves up |
| App.AnswerOr | App.tsx:280-282 | the answer of the first question containing the key, or the default when there is none or it is empty |
| App.WeeklyReportOf | App.tsx:280-298 | the intention is the check-in's answer about the intention, or 'Não definida' without a check-in or answer; the result is the review's answer about the intention, ' - ', and the feeling; the insight follows that answer |
| App.ChooseInsight | App.tsx:284-291 | the first message exactly when the answer contains "Sim", the second exactly when it contains "Parcialmente" but not "Sim", the third otherwise |
| App.InsightWithoutKeywords | App.tsx:286-291 | an answer with no capital S or P, such as the default 'Não informado', contains neither "Sim" nor "Parcialmente" and gets the third message |
| App.StoriesComplete | App.tsx:245-305 | a post-practice story with a routine logs it first, dated today, with the routine's name, its time rounded to minutes and the feedback, and adapts the level; a check-in becomes the week's context; a review sets the report and clears the context; a post-practice story without a routine changes nothing |
| RoutineEditor.TotalDuration | components/RoutineEditor.tsx:18 | the hold times added up; with every hold in the 15-300 range the total lies between 15 and 300 seconds per pose |
| RoutineEditor.Swap | components/RoutineEditor.tsx:21-25 | the two positions exchange their poses and the others keep theirs |
| RoutineEditor.SwapPermutes | components/RoutineEditor.tsx:21-25 | exchanging two poses keeps the same poses |
| RoutineEditor.MovePose | components/RoutineEditor.tsx:20-28 | swapping in place on a copy gives exactly the list with the pose moved one step, or unchanged past either end |
| RoutineEditor.MovePermutes | components/RoutineEditor.tsx:20-28 | a move is a permutation of the same length; moving the first up or the last down changes nothing |
| RoutineEditor.DownThenUp | components/RoutineEditor.tsx:22-26 | moving a pose down and back up restores the list |
| RoutineEditor.MoveKeepsTotal | components/RoutineEditor.tsx:18-28 | a move keeps the total time |
| RoutineEditor.RemovePose | components/RoutineEditor.tsx:30-32 | removal drops exactly the pose at the index and keeps the others in order |
| RoutineEditor.RemoveTotal | components/RoutineEditor.tsx:18-32 | removal takes that pose's time off the total |
| RoutineEditor.AddPose | components/RoutineEditor.tsx:34-37 | the pose is appended after all the others |
| RoutineEditor.AddTotal | components/RoutineEditor.tsx:18-37 | appending adds its time to the total, and removing the last pose again restores the list |
| RoutineEditor.UpdateDuration | components/RoutineEditor.tsx:39-46 | a time outside 15 to 300 seconds leaves the list unchanged; otherwise only that pose's time changes |
| RoutineEditor.UpdateTotal | components/RoutineEditor.tsx:18-46 | an accepted change moves the total by the difference and keeps every time within 15 to 300 if it was |
| RoutineEditor.SaveAndPlay | components/RoutineEditor.tsx:58 | the routine handed on has the edited poses and their summed time |
| PoseLibrary.FilteredPoses | components/PoseLibrary.tsx:40-45 | the list is an ordered subsequence of the catalogue that holds every pose of the category whose Portuguese or Sanskrit name contains the term, case ignored, exactly as many times as the catalogue does, and nothing else |
| PoseLibrary.EmptySearchShowsAll | components/PoseLibrary.tsx:40-45 | with 'Todos' and an empty search the whole catalogue is shown |
| PoseLibrary.CategoryIsRespected | components/PoseLibrary.tsx:41 | a chosen category shows only its poses |
| PoseLibrary.SearchIgnoresCase | components/PoseLibrary.tsx:42-43 | a term and its lower-cased form find the same poses |
| PoseLibrary.CardClick | components/PoseLibrary.tsx:56-59 | clicking the selected card deselects it, clicking any other selects it |
| PoseLibrary.CardClickTwice | components/PoseLibrary.tsx:56-59 | two clicks on a card restore the selection when it was that card or none |
| PoseLibrary.ParseBenefits | components/PoseLibrary.tsx:84 | each benefit is non-empty with no whitespace at either end; the benefits are the trimmed comma-separated pieces in typed order, every non-empty piece kept as many times as it was typed and only the empty ones dropped |
| PoseLibrary.ParseJoinedBenefits | components/PoseLibrary.tsx:84 | trimmed non-empty benefits without commas, joined with commas, parse back to themselves |
| PoseLibrary.HandleAddPose | components/PoseLibrary.tsx:77-99 | the pose is rejected exactly when either name or the thumbnail is missing; otherwise it carries the form's fields, the parsed benefits, the form's description or an empty one, a hold of 60 seconds when none is given (or 0), and the default video |
| PoseLibrary.AddedPoseIsComplete | components/PoseLibrary.tsx:93-97 | an added pose never has a zero hold time or an empty video |
| LearningHub.FilteredArticles | components/LearningHub.tsx:54-62 | the list is an ordered subsequence of the articles holding exactly those of the tab (user-written only under Community, none under Official) that pass the category filter |
| LearningHub.TabsSplitArticles | components/LearningHub.tsx:56-61 | the two tabs together hold each article of the category exactly as often as it occurs |
| LearningHub.Paragraphs | components/LearningHub.tsx:71 | the paragraphs are the lines in order, every line that is not blank kept untrimmed as many times as it occurs and only the blank ones dropped; none holds a line break |
| LearningHub.ParagraphsOfLines | components/LearningHub.tsx:71 | non-blank paragraphs without line breaks, written one per line, come back unchanged |
| LearningHub.HandleAddArticle | components/LearningHub.tsx:64-87 | the article is rejected exactly when the title, excerpt, text or image is missing; otherwise it carries the form's fields and the paragraphs, starts with no likes, likers or comments, is user-written, and defaults the author and read time |
| LearningHub.PublishedIsCommunity | components/LearningHub.tsx:54-93 | a published article is listed under Community for 'Todos' and its category, and never under Official |
| Text.Split | components/PoseLibrary.tsx:84 | `split` gives at least one piece, none holding the separator, and joining them back with it gives the input |
| Text.SplitJoin | components/LearningHub.tsx:71 | splitting a separator-free list joined with the separator gives the list back |
| Text.TrimEmptyIffBlank | components/LearningHub.tsx:71 | a string trims to nothing exactly when it is all whitespace |
| Text.LowerIdempotent | components/PoseLibrary.tsx:42-43 | lower-casing twice is the same as once |

## Findings

| source | as written | input that shows it | evidently intended | confidence | as-written member | corrected member |
|---|---|---|---|---|---|---|
| App.tsx:234-243 | the quick swap of the journey screen (components/Journey.tsx:128-151) saves the plan with only `schedule[dayIndex]` changed; the journey calendar reads a plan's `weeks` whenever it has them (components/Journey.tsx:88-93, 426) | any generated plan, which always has weeks: swap the practice of a selected Monday to rest; the calendar still shows the generated Monday | the swapped day shows on the selected date, i.e. the day is also replaced in the week that date falls in | medium, not executed | App.HandleUpdateDay, App.SwapNotShownWithWeeks, App.SwapNotShownExample | App.HandleUpdateDayInWeek, App.SwapShownInWeek |

## Left out

- Storage, sign-in and JSON: the localStorage reads and writes, the JSON round trips and `services/auth.ts` are not part of this model.
- Rendering and React wiring: JSX, modals, `useState`/`useEffect` plumbing, alerts and `setTimeout` are not modelled. Rejected forms are the `None` result.
- Foreign services, whose source is not part of this model: the routine generator, the pose store, the knowledge base (likes, comments and replies included) and the pose constants. The pose and article lists are inputs.
- Dates: dates are whole day numbers at local midnight, and a date's weekday is passed alongside it. Parsing ISO text, time zones and the UTC/local mismatch of `new Date('YYYY-MM-DD')` are not modelled. `startDate` is an optional day number.
- `Date.now()` ids are the `now` parameter, rendered in decimal.
- Text.LowerChar: lower-casing covers ASCII and the Latin-1 capitals only, not the rest of Unicode. That is enough for the goal names and typical search terms.
- PlanEngine.TodaysPlan: the weekday is a parameter, not `new Date().getDay()`. A weekday past the end of the schedule gives `None` where JavaScript gives `undefined`.
- PlanEditor.HandleDayUpdate: requires the week and day to exist. The editor only offers existing weeks and the seven weekdays. An index past the end, which JavaScript would fill with a partial record, is not modelled.
- App.HandleUpdateDay: requires the weekday index to be within the shown plan's schedule, as it is for the seven-day schedules the app builds.
- RoutineEditor.MovePose, RoutineEditor.UpdateDuration: require the index to be within the list. The editor passes the index of a listed pose.
- PlanEditor.HandleSave: requires at least one week. The editor cannot show an empty grid.
- Journey.GetDayPlan: a week without an entry for the weekday yields no day. JavaScript would yield an object with only the week label.
- App.StoriesComplete: the story's side effects outside the listed state (switching view, console output) are left out. So are the other fields of the app state, which it does not change.
- The plan editor's name field and the week and day pickers are plain state assignments and are not modelled.
