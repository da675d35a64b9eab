# Workout plans: authoring, editing and the training session

This project models, in Dafny, the workout-plan logic of a fitness-studio mobile app.

A **plan** maps each training day (1, 2, …) to a list of **items**. An item is either
one exercise or a **combo**: two or more exercises done together. An exercise has a
name, a muscle group, a number of sets and a number of repetitions. For a *Cardio*
exercise the set count is forced to `"1"`.

Administrators work on three screens:

- **TreinoModelo**: build template plans per training level, save them into a
  catalogue grouped by level, delete templates and custom levels, and assign a
  template to a user.
- **EditWorkout**: pick a user and one of their plans, then add, edit, remove and
  combine exercises day by day. A day's contents can be copied to another day, and
  the changes are saved back.
- **CreateWorkout**: build a new plan through the stages user → weekly frequency →
  day, and save it.

Members use two screens:

- **treinos**: lists the user's plans newest first and resets the week's progress when
  the last update is more than six days old. In a session the user picks a day, waits
  for a five-second countdown, ticks exercises off, sees the elapsed time
  ("1h 2min 3s"), and records the day as completed. Once every day of the plan is
  done, the cycle closes. A plan can also be renamed.
- **WorkoutTimerCard**: a stopwatch with start/pause, reset and an "HH:MM:SS"
  display.

## How the model is organised

- `WorkoutPlan` (`workout_plan.dfy`) holds the data shared by the admin screens (exercise, item,
  day map, plan document, user) and the pure edits all three screens make:
  - appending a prepared exercise;
  - gathering and finalising a combo;
  - removing or replacing an item;
  - the guard and the copy of "repeat a day".
- `TreinoModelo`, `EditWorkout` and `CreateWorkout` each hold one class with the screen's state. A React
  `useState` hook becomes a field, and an event handler becomes a method that reassigns those fields.
  Each method is specified against the `WorkoutPlan` functions.
- `Treinos` (`treinos.dfy`) holds the weekly reset, the ordering of plans, the countdown
  and the completed-days cycle as functions with lemmas. The `Session` class holds the
  player screen's state.
- `ElapsedTime` (`elapsed_time.dfy`) is the elapsed-time message that `Treinos` shows when
  a session ends. `ElapsedReader` (`elapsed_reader.dfy`) reads such a message back.
- `WorkoutTimer` (`workout_timer.dfy`) is the stopwatch: the display function and the `Stopwatch` class.
- `Text` holds decimal numerals, `padStart(2, '0')` and JavaScript's `trim()`.
  `Wrappers` holds `Option`.

Nothing outside this code is modelled:

- Firestore reads and writes, alerts, vibration and navigation are not modelled.
- A database write is the value a method **returns**, for example `written`, `record`
  or `writes`.
- An answer the user gives to a confirmation dialog is a `confirmed` or `choice`
  parameter.
- The clock (`new Date()`) is a `now` parameter, counted in milliseconds.

Where the description of the app and its code disagree, the model follows the code:

- **The weekly reset uses a ceiling of days.** The gap is rounded up to whole days and
  compared with 7, so the reset fires as soon as the gap is more than **six** days (`IsNovaSemana`).
- **Completed days are not de-duplicated.** Completing the same day twice counts twice.
  The cycle can therefore close before every day is done (`RepeatedDayClosesCycleEarly`).
  The cycle closes exactly when all days are done only if no day repeats
  (`CycleClosesWhenAllDaysDone`).
- **The load loop does not update the in-memory time.** When it resets a plan, it
  writes the new `ultimaAtualizacao` to the database but pushes the plan with its
  old timestamp (`LoadedPlan`).
- **Saving a new plan keeps empty days.** `CreateWorkout` saves days left empty,
  while the template save drops them (`PlanRecordKeepsEmptyDays`).

## Model

| member | source | states |
|---|---|---|
| WorkoutPlan.Prepared | src/pages/admin/CreateWorkout/index.js:142-145 | a Cardio exercise is stored with set count "1"; any other keeps its sets; no other field changes |
| WorkoutPlan.RemoveAt | src/pages/admin/EditWorkout/index.js:150-194 | `filter((_, i) => i !== index)`: an index inside the list drops exactly that element; any other index leaves the list as it is |
| WorkoutPlan.RemoveAtContents | src/pages/admin/CreateWorkout/index.js:760-781 | removing a valid index shortens the list by one and removes exactly that element's occurrence (multiset) |
| WorkoutPlan.RemoveAtShifts | src/pages/admin/CreateWorkout/index.js:760-781 | after the removal, the elements before the index stay in place and the later ones move down by one |
| WorkoutPlan.ReplaceAt | src/pages/admin/EditWorkout/index.js:833-858 | replacing position i keeps the length, puts the new value at i and leaves every other position unchanged |
| WorkoutPlan.ReplaceOnlyTouchesPosition | src/pages/admin/EditWorkout/index.js:833-858 | replace-then-remove at i equals remove at i; the replacement is the splice `s[..i] + [y] + s[i+1..]` |
| WorkoutPlan.AppendItem | src/pages/admin/CreateWorkout/index.js:147-150 | the day gets one more item at its end; its earlier items and all other days are unchanged |
| WorkoutPlan.AppendThenRemoveLast | src/pages/admin/CreateWorkout/index.js:147-150 | appending and then removing the last position gives back the day's former list (inverse pair) |
| WorkoutPlan.AddExercise | src/pages/admin/CreateWorkout/index.js:125-162 | a draft missing a name, or the sets (non-Cardio), or the repetitions changes nothing; an accepted draft is appended after preparation |
| WorkoutPlan.CardioDraftStoredWithOneSet | src/pages/admin/CreateWorkout/index.js:131-145 | a Cardio draft with name and repetitions is accepted even without sets and is stored with one set |
| WorkoutPlan.AddToCombo | src/pages/admin/CreateWorkout/index.js:84-102 | the combo buffer grows by the draft exactly when all four fields are filled |
| WorkoutPlan.CardioWithoutSetsRejectedByCombo | src/pages/admin/CreateWorkout/index.js:84-102 | a Cardio draft without sets is refused by the combo buffer although the single-exercise path accepts it |
| WorkoutPlan.FinalizeCombo | src/pages/admin/CreateWorkout/index.js:104-123 | fewer than two buffered exercises changes nothing; otherwise the buffer becomes one combo at the end of the day and is emptied |
| WorkoutPlan.RemoveItem | src/pages/admin/CreateWorkout/index.js:760-781 | only the given day changes, by `RemoveAt`; a missing day leaves the map unchanged |
| WorkoutPlan.ReplaceItem | src/pages/admin/EditWorkout/index.js:833-858 | only the given day changes, by `ReplaceAt`; a missing day leaves the map unchanged |
| WorkoutPlan.ReplaceItemKeepsLength | src/pages/admin/EditWorkout/index.js:833-858 | an edit in place keeps the day's length, stores the new item and nothing else on that day changes |
| WorkoutPlan.CheckCopy | src/pages/admin/EditWorkout/index.js:464-513 | the five outcomes of the guard, each as an iff: a day not chosen, the same day, an empty origin, a destination that would be overwritten, a plain copy |
| WorkoutPlan.CopyDay | src/pages/admin/EditWorkout/index.js:516-553 | the destination receives the origin's list verbatim and every other day is unchanged |
| WorkoutPlan.CopyAfterConfirm | src/pages/admin/CreateWorkout/index.js:783-842 | the map changes only when the guard allows the copy and the admin confirms, and then exactly by `CopyDay` |
| WorkoutPlan.OrigemChoices | src/pages/admin/EditWorkout/index.js:361-362 | in both the creating and the editing screen, the origin list offers exactly the days that have at least one item |
| WorkoutPlan.OrigemAfterCopy | src/pages/admin/EditWorkout/index.js:361-362 | after a copy from an offered origin, the offered origins are the old ones plus the destination |
| WorkoutPlan.DestinoChoices | src/pages/admin/EditWorkout/index.js:411-412 | the destination list holds days 1..freq in increasing order, never the origin |
| WorkoutPlan.DestinoChoicesComplete | src/pages/admin/EditWorkout/index.js:411-412 | every day 1..freq other than the origin is offered |
| WorkoutPlan.DestinoChoicesCount | src/pages/admin/EditWorkout/index.js:411-412 | the list has freq entries, one fewer when the origin is among them |
| WorkoutPlan.ChoicesPassGuards | src/pages/admin/EditWorkout/index.js:361-362 | any origin offered in the drop-down with any destination offered passes the copy guard |
| WorkoutPlan.EditsPreserveWellFormed | src/pages/admin/EditWorkout/index.js:108-147 | adding, finalising a combo, removing, replacing an item by a plain exercise or by a combo of two or more, and copying keep every combo at two or more members |
| TreinoModelo.NonEmptyDays | src/pages/admin/TreinoModelo/index.js:162-167 | the result has no empty day, keeps only days of the input with their lists, and keeps every non-empty day |
| TreinoModelo.NonEmptyDaysIdempotent | src/pages/admin/TreinoModelo/index.js:162-167 | stripping a map with no empty day is the identity; stripping twice equals stripping once |
| TreinoModelo.NonEmptyDaysEmpty | src/pages/admin/TreinoModelo/index.js:170-196 | the stripped map is empty iff every day was empty (the delete path); stripping keeps well-formed combos |
| TreinoModelo.StripEmptyDays | src/pages/admin/TreinoModelo/index.js:162-167 | the loop's `treinosLimpos` equals `NonEmptyDays`; `temExercicios` holds iff some day has an item |
| TreinoModelo.WithoutId | src/pages/admin/TreinoModelo/index.js:502-522 | the result holds exactly the templates of the input whose id differs, and is unchanged if no template has the id |
| TreinoModelo.RemoveTemplate | src/pages/admin/TreinoModelo/index.js:502-522 | other levels unchanged; the level stays iff some other template remains; an emptied level is dropped |
| TreinoModelo.RemoveTemplateKeepsGrouped | src/pages/admin/TreinoModelo/index.js:502-522 | deleting keeps the catalogue grouped: no empty level, every template under its own level |
| TreinoModelo.IndexOf | src/pages/admin/TreinoModelo/index.js:212-227 | `findIndex` by id, used for templates here and for levels at line 209: the first match, or -1 exactly when nothing has the id |
| TreinoModelo.UpdateTemplate | src/pages/admin/TreinoModelo/index.js:212-227 | the record replaces the first template with its id at its level; lengths, other levels and a missing id leave things unchanged |
| TreinoModelo.AddTemplate | src/pages/admin/TreinoModelo/index.js:228-244 | a created template is appended to its level's list (a new list for a new level); other levels unchanged |
| TreinoModelo.SaveKeepsGrouped | src/pages/admin/TreinoModelo/index.js:212-244 | updating and creating both keep the catalogue grouped |
| TreinoModelo.BuiltinLabelsFirst | src/pages/admin/TreinoModelo/index.js:38-42 | each of the three built-in levels (iniciante, intermediario, avancado) gets its built-in label whatever the custom levels are |
| TreinoModelo.CustomLabelFound | src/pages/admin/TreinoModelo/index.js:209 | a custom level whose id is not shadowed gets its own label |
| TreinoModelo.WithoutLevel | src/pages/admin/TreinoModelo/index.js:547 | the remaining levels are exactly those whose id differs |
| TreinoModelo.LevelInUseMeansTemplates | src/pages/admin/TreinoModelo/index.js:533-555 | on a grouped catalogue, the "level in use" test holds iff some stored template has that level |
| TreinoModelo.FindDuplicates | src/pages/admin/TreinoModelo/index.js:595-612 | the result holds exactly the stored plans of the same user, frequency and day map |
| TreinoModelo.AtribuirTreino | src/pages/admin/TreinoModelo/index.js:587-664 | no template is the error; a duplicate without confirmation cancels; an assigned plan copies frequency and days for the user and is warned iff a duplicate exists |
| TreinoModelo.TemplateEditor.AddExercicioCombinado | src/pages/admin/TreinoModelo/index.js:326-343 | the buffer becomes `AddToCombo` and the form is cleared exactly when the draft was complete |
| TreinoModelo.TemplateEditor.AddExercicio | src/pages/admin/TreinoModelo/index.js:366-403 | in combo mode the draft joins the buffer; otherwise the day map becomes `AddExercise` of the draft |
| TreinoModelo.TemplateEditor.FinalizarCombo | src/pages/admin/TreinoModelo/index.js:345-364 | the map and the buffer become `FinalizeCombo`; combo mode ends only when the combo was stored |
| TreinoModelo.TemplateEditor.RemoverItem | src/pages/admin/TreinoModelo/index.js:919-925 | the current day loses the item at the index (`RemoveItem`); the screen has unsaved changes |
| TreinoModelo.TemplateEditor.RemoverDoCombo | src/pages/admin/TreinoModelo/index.js:878-880 | the buffer loses the entry at the index |
| TreinoModelo.TemplateEditor.ToggleCombinado | src/pages/admin/TreinoModelo/index.js:803 | combo mode flips |
| TreinoModelo.TemplateEditor.SelecionarNivel | src/pages/admin/TreinoModelo/index.js:719-724 | a level with templates opens the viewer on its list, whose templates are of that level; any other level becomes the selected one |
| TreinoModelo.TemplateEditor.FecharVisualizacao | src/pages/admin/TreinoModelo/index.js:1137-1141 | the viewer closes |
| TreinoModelo.TemplateEditor.CriarNovo | src/pages/admin/TreinoModelo/index.js:1143-1148 | the viewer closes and the level of the viewed templates becomes the selected one |
| TreinoModelo.TemplateEditor.SelecionarFrequencia | src/pages/admin/TreinoModelo/index.js:273-280 | the chosen frequency, one of 1 to 7, is set |
| TreinoModelo.TemplateEditor.SelecionarDia | src/pages/admin/TreinoModelo/index.js:303-309 | a day from 1 to the frequency opens |
| TreinoModelo.TemplateEditor.VoltarParaDias | src/pages/admin/TreinoModelo/index.js:791-794 | the day closes and nothing else changes; unsaved changes are not asked about |
| TreinoModelo.TemplateEditor.IniciarEdicao | src/pages/admin/TreinoModelo/index.js:524-531 | the viewer closes; level, frequency and days are loaded from the template, which becomes the one being edited |
| TreinoModelo.TemplateEditor.ClearForm | src/pages/admin/TreinoModelo/index.js:246-252 | after a save every form field is back to empty |
| TreinoModelo.TemplateEditor.SalvarTreinoModelo | src/pages/admin/TreinoModelo/index.js:140-267 | each refusal (no level, no frequency, no day, no exercise) as an iff, leaving the state unchanged; deleting an emptied template, updating and creating, each under its own condition, with the new catalogue grouped |
| TreinoModelo.TemplateEditor.ExcluirTreinoModelo | src/pages/admin/TreinoModelo/index.js:502-522 | the catalogue becomes `RemoveTemplate` and stays grouped; the viewer closes |
| TreinoModelo.TemplateEditor.ExcluirNivel | src/pages/admin/TreinoModelo/index.js:533-555 | the deletion is refused iff a template uses the level; otherwise exactly that level's entries go |
| EditWorkout.RemoveFromCombo | src/pages/admin/EditWorkout/index.js:870-919 | removing a member that leaves one collapses the combo into that exercise on the day and empties the buffer; otherwise only the buffer shrinks |
| EditWorkout.CollapseKeepsDay | src/pages/admin/EditWorkout/index.js:882-906 | the collapse replaces exactly the combo's slot with the other member, keeping the day's length |
| EditWorkout.LargerComboStays | src/pages/admin/EditWorkout/index.js:870-919 | with three or more members the day is untouched and the buffer keeps at least two |
| EditWorkout.ComboDeleteButtonRemovesDayItem | src/pages/admin/EditWorkout/index.js:683 | a concrete state in which the combo buffer's delete button removes an item of the day and leaves the buffer as it was |
| EditWorkout.PlanEditor.SelectUser | src/pages/admin/EditWorkout/index.js:1122 | the chosen user becomes selected |
| EditWorkout.PlanEditor.HandleSelectWorkout | src/pages/admin/EditWorkout/index.js:102-105 | the plan becomes the edited one and its days are loaded |
| EditWorkout.PlanEditor.SelecionarDia | src/pages/admin/EditWorkout/index.js:297-304 | the chosen day, one of the offered 1 to the plan's frequency, opens |
| EditWorkout.PlanEditor.VoltarParaDias | src/pages/admin/EditWorkout/index.js:1154-1156 | the day closes and nothing else changes; unsaved changes are not asked about |
| EditWorkout.PlanEditor.AddExercicioCombinado | src/pages/admin/EditWorkout/index.js:958-975 | the buffer becomes `AddToCombo`; the form is cleared exactly when the draft was complete |
| EditWorkout.PlanEditor.AddExercicio | src/pages/admin/EditWorkout/index.js:108-147 | in combo mode the draft joins the buffer; otherwise the day map becomes `AddExercise` |
| EditWorkout.PlanEditor.RemoveExercicio | src/pages/admin/EditWorkout/index.js:150-194 | a confirmed removal on an existing day writes `RemoveItem` of the map and keeps the plan document in step; otherwise nothing changes |
| EditWorkout.PlanEditor.SalvarAlteracoes | src/pages/admin/EditWorkout/index.js:197-217 | the day map is written to the plan, the changes count as saved and the day screen closes |
| EditWorkout.PlanEditor.HandleEditCombinado | src/pages/admin/EditWorkout/index.js:861-867 | the combo's members fill the buffer and combo editing starts at that index |
| EditWorkout.PlanEditor.HandleEditExercicio | src/pages/admin/EditWorkout/index.js:819-831 | a combo goes to combo editing; a single exercise fills the form; either way the index is remembered |
| EditWorkout.PlanEditor.SalvarEdicaoExercicio | src/pages/admin/EditWorkout/index.js:833-858 | an incomplete draft changes nothing; a complete one replaces the item in place (`ReplaceItem`) and ends the edit |
| EditWorkout.PlanEditor.ClearComboEdit | src/pages/admin/EditWorkout/index.js:949-954 | buffer, combo mode, form and edit index are all reset |
| EditWorkout.PlanEditor.RemoveExercicioDoCombo | src/pages/admin/EditWorkout/index.js:870-919 | the confirmed removal follows `RemoveFromCombo`, resetting the edit state after a collapse |
| EditWorkout.PlanEditor.ComboDeleteButton | src/pages/admin/EditWorkout/index.js:683 | as written: the buffer is unchanged; a confirmed press on an existing day removes the day's item at the buffer's index, marks the plan unsaved, writes the new map and keeps the plan document in step; otherwise nothing changes and nothing is written |
| EditWorkout.PlanEditor.FinalizarCombo | src/pages/admin/EditWorkout/index.js:921-955 | fewer than two members changes nothing; otherwise a new combo is appended, or the edited combo is replaced in place, and the edit state is cleared |
| EditWorkout.PlanEditor.ToggleCombinado | src/pages/admin/EditWorkout/index.js:594-600 | combo mode flips; switching it on empties the buffer |
| EditWorkout.PlanEditor.ToggleExercicioForm | src/pages/admin/EditWorkout/index.js:560-578 | opening shows the form and changes nothing else; cancelling hides it and clears the draft, the edited exercise, the edit index, combo mode and the combo buffer (combo editing is left as it was) |
| EditWorkout.PlanEditor.SubmitForm | src/pages/admin/EditWorkout/index.js:709-717 | in combo mode the draft joins the buffer (`AddToCombo`) and the day is untouched; with a plain exercise open for editing, a complete draft replaces it in place and ends the edit, and an incomplete one changes nothing; otherwise the day becomes `AddExercise`, and an accepted draft marks the plan unsaved and closes the form; every path states the flags and form fields it leaves |
| EditWorkout.PlanEditor.AbrirRepetir | src/pages/admin/EditWorkout/index.js:322 | the copy dialog opens |
| EditWorkout.PlanEditor.EscolherOrigem | src/pages/admin/EditWorkout/index.js:361-369 | an origin offered in the drop-down (a day with items) becomes the chosen origin |
| EditWorkout.PlanEditor.EscolherDestino | src/pages/admin/EditWorkout/index.js:411-419 | a destination offered in the drop-down becomes the chosen one, and with an offered origin in place the copy guard then asks for confirmation |
| EditWorkout.PlanEditor.CancelarRepetir | src/pages/admin/EditWorkout/index.js:436-444 | the dialog closes and both chosen days are cleared |
| EditWorkout.PlanEditor.HandleRepetirTreino | src/pages/admin/EditWorkout/index.js:464-553 | returns the guard's verdict; the map becomes `CopyAfterConfirm` and the copy is written only when allowed and confirmed |
| EditWorkout.PlanEditor.Back | src/pages/admin/EditWorkout/index.js:1045-1090 | one level is closed at a time and the screen is left iff nothing is open; on a changed day Save writes the map into the plan and closes the day, Discard closes it keeping the local edits, Cancel changes nothing; every other close keeps the user, the plan and the unsaved flag |
| CreateWorkout.UnwindOneStage | src/pages/admin/CreateWorkout/index.js:895-929 | each back step closes exactly one stage, and the screen is left only from the first stage |
| CreateWorkout.BackFromDayLeavesAfterFour | src/pages/admin/CreateWorkout/index.js:895-929 | three back steps from a day reach the user search and the fourth leaves |
| CreateWorkout.PlanRecord | src/pages/admin/CreateWorkout/index.js:164-193 | no record without user, frequency or any day; a record carries the user, the frequency, the days and the time |
| CreateWorkout.PlanRecordKeepsEmptyDays | src/pages/admin/CreateWorkout/index.js:164-193 | an empty day is saved as an empty list |
| CreateWorkout.PlanBuilder.SelectUser | src/pages/admin/CreateWorkout/index.js:722 | the chosen user becomes selected |
| CreateWorkout.PlanBuilder.SelecionarFrequencia | src/pages/admin/CreateWorkout/index.js:267-274 | the chosen frequency, one of the offered 1 to 7, is set |
| CreateWorkout.PlanBuilder.SelecionarDia | src/pages/admin/CreateWorkout/index.js:297-304 | the chosen day, one of the offered 1 to the frequency, opens |
| CreateWorkout.PlanBuilder.VoltarParaDias | src/pages/admin/CreateWorkout/index.js:693-698 | the day closes and nothing else changes; unsaved changes are not asked about |
| CreateWorkout.PlanBuilder.AddExercicioCombinado | src/pages/admin/CreateWorkout/index.js:84-102 | the buffer becomes `AddToCombo`; the form is cleared exactly when the draft was complete |
| CreateWorkout.PlanBuilder.AddExercicio | src/pages/admin/CreateWorkout/index.js:125-162 | in combo mode the draft joins the buffer; otherwise the day map becomes `AddExercise` |
| CreateWorkout.PlanBuilder.FinalizarCombo | src/pages/admin/CreateWorkout/index.js:104-123 | the map and the buffer become `FinalizeCombo`; combo mode ends only when the combo was stored |
| CreateWorkout.PlanBuilder.ToggleCombinado | src/pages/admin/CreateWorkout/index.js:516-525 | combo mode flips; switching it off empties the buffer |
| CreateWorkout.PlanBuilder.RemoverDoCombo | src/pages/admin/CreateWorkout/index.js:484-487 | the buffer loses the entry at the index |
| CreateWorkout.PlanBuilder.RemoveExercicio | src/pages/admin/CreateWorkout/index.js:760-781 | a confirmed removal drops that position of the current day; otherwise nothing changes |
| CreateWorkout.PlanBuilder.AbrirRepetir | src/pages/admin/CreateWorkout/index.js:322 | the copy dialog opens |
| CreateWorkout.PlanBuilder.EscolherOrigem | src/pages/admin/CreateWorkout/index.js:373-381 | an origin offered in the drop-down (a day with items) becomes the chosen origin |
| CreateWorkout.PlanBuilder.EscolherDestino | src/pages/admin/CreateWorkout/index.js:423-431 | a destination offered in the drop-down becomes the chosen one, and with an offered origin in place the copy guard then asks for confirmation |
| CreateWorkout.PlanBuilder.CancelarRepetir | src/pages/admin/CreateWorkout/index.js:448-456 | the dialog closes and both chosen days are cleared |
| CreateWorkout.PlanBuilder.HandleRepetirTreino | src/pages/admin/CreateWorkout/index.js:783-842 | returns the guard's verdict and the map becomes `CopyAfterConfirm` |
| CreateWorkout.PlanBuilder.SalvarTreino | src/pages/admin/CreateWorkout/index.js:164-193 | the record is `PlanRecord` of the state; a saved plan resets every stage, a refusal changes nothing |
| CreateWorkout.PlanBuilder.Back | src/pages/admin/CreateWorkout/index.js:846-932 | a changed, non-empty day asks: Save writes the record and resets every stage with the changes saved, Discard leaves the day, Cancel stays; day selection with a non-empty plan asks again: Save as before, "Voltar sem Salvar" drops the frequency and the days, Cancel stays; otherwise one stage unwinds and the screen is left only from the first one |
| Treinos.CeilDays | src/pages/treinos/index.js:40 | `Math.ceil(ms / day)`: the smallest number of whole days covering the gap |
| Treinos.IsNovaSemana | src/pages/treinos/index.js:32-43 | no previous update is a new week; otherwise a new week iff the gap is more than six days |
| Treinos.NovaSemanaSymmetric | src/pages/treinos/index.js:32-43 | the test does not depend on which of the two times is earlier |
| Treinos.LoadedPlan | src/pages/treinos/index.js:80-93 | on a new week the plan's completed days are emptied, otherwise kept (missing as empty); nothing else changes |
| Treinos.ResetWritesExactly | src/pages/treinos/index.js:80-87 | there is one reset write, empty days at time `now`, for each plan whose week has turned over, and no other |
| Treinos.LoadPlans | src/pages/treinos/index.js:76-94 | the loop's plans and writes equal `LoadedPlans` and `ResetWrites` |
| Treinos.RecentProgressSurvivesLoad | src/pages/treinos/index.js:80-93 | progress written less than a week ago is loaded unchanged |
| Treinos.ResetThenLoadIsEmpty | src/pages/treinos/index.js:80-93 | a plan whose reset was stored reloads with no completed days |
| Treinos.InsertByDate | src/pages/treinos/index.js:96-98 | inserting into a newest-first list keeps it newest-first and adds exactly the new plan |
| Treinos.SortNewestFirst | src/pages/treinos/index.js:96-98 | the sorted list is newest first and a permutation of the input |
| Treinos.SortSortedUnchanged | src/pages/treinos/index.js:663-666 | an already ordered list is left as it is |
| Treinos.SortIdempotent | src/pages/treinos/index.js:663-666 | sorting twice equals sorting once |
| Treinos.FindById | src/pages/treinos/index.js:101-110 | `find` by id: no result iff no plan has the id, otherwise a plan of the list with that id |
| Treinos.ReplaceById | src/pages/treinos/index.js:598-604 | every plan with the id is replaced and every other plan is kept, position by position |
| Treinos.FindAfterReplace | src/pages/treinos/index.js:598-604 | after the replacement, looking up its id finds the new plan |
| Treinos.FindOtherAfterReplace | src/pages/treinos/index.js:598-604 | looking up any other id gives the same answer as before |
| Treinos.RenameById | src/pages/treinos/index.js:565-571 | the plans with the id get the new name and all others are kept, position by position |
| ElapsedTime.JsRem | src/pages/treinos/index.js:266-267 | JavaScript's `%`: Euclidean on a non-negative dividend; for a negative one the value in (-b, 0] that differs from the dividend by a multiple of b |
| ElapsedTime.Decompose | src/pages/treinos/index.js:265-267 | for a non-negative duration the hours, minutes below 60 and seconds below 60 add up to the whole seconds; a negative one gives negative parts |
| ElapsedTime.DecomposeNegative | src/pages/treinos/index.js:265-267 | for a negative duration each part is the matching part of its magnitude rounded up and negated |
| ElapsedTime.FormatElapsed | src/pages/treinos/index.js:270-277 | a negative duration `d` shows only its seconds part, minus `((-d) % 60000)` milliseconds rounded up to whole seconds |
| ElapsedTime.FormatElapsedIsText | src/pages/treinos/index.js:270-277 | for a non-negative duration the message is "Hh Mmin Ss" when there are hours, "Mmin Ss" when there are minutes but no hours, and "Ss" otherwise |
| ElapsedTime.ParseElapsedText | src/pages/treinos/index.js:270-277 | each of the three shapes of the message reads back to its hours, minutes and seconds in seconds |
| ElapsedTime.FormatElapsedRoundTrip | src/pages/treinos/index.js:260-280 | reading the "Xh Ymin Zs" text back gives the duration's whole seconds |
| Treinos.FiveSecondCountdown | src/pages/treinos/index.js:239-252 | fewer than five ticks leave the overlay up with the remaining count; the fifth tick takes it down and records the start time |
| Treinos.CountdownRuns | src/pages/treinos/index.js:242-251 | from n, the count drops by one per tick and stops at 0 on tick n with that tick's time |
| Treinos.StoppedStaysStopped | src/pages/treinos/index.js:242-251 | ticks do nothing once the countdown is stopped |
| Treinos.NoRepeatsCardinality | src/pages/treinos/index.js:529-533 | a list of completed days without repeats has as many days as its set |
| Treinos.CycleClosesWhenAllDaysDone | src/pages/treinos/index.js:527-537 | without repeated days, the cycle closes (progress reset to empty) iff every day of the plan is done |
| Treinos.RepeatedDayClosesCycleEarly | src/pages/treinos/index.js:527-537 | with a repeated day the cycle closes although a day is still missing |
| Treinos.Session.constructor | src/pages/treinos/index.js:13-29 | the initial state: no plans, nothing selected, countdown at 5 and off |
| Treinos.Session.ReceivePlans | src/pages/treinos/index.js:76-110 | the list becomes the loaded plans newest first; the reset writes are returned; an open plan still present is refreshed |
| Treinos.Session.SyncDiasConcluidos | src/pages/treinos/index.js:134-141 | when the open plan is in the list, its completed days are copied from there; otherwise nothing changes |
| Treinos.Session.IniciarTreino | src/pages/treinos/index.js:225-234 | the plan opens with its completed days and a fresh session |
| Treinos.Session.SelecionarDia | src/pages/treinos/index.js:236-240 | the day opens with its exercises and the countdown starts at 5 |
| Treinos.Session.TickContador | src/pages/treinos/index.js:242-251 | one interval tick is `TickCountdown`; the count stays within 0..5 |
| Treinos.Session.ConcluirExercicio | src/pages/treinos/index.js:255-282 | the item moves from remaining to done; when none remain, the time text of the elapsed milliseconds is shown with the congratulations |
| Treinos.Session.FinalizarTreino | src/pages/treinos/index.js:284-291 | the session ends and its lists and time are cleared |
| Treinos.Session.Voltar | src/pages/treinos/index.js:354-360 | the header back button closes the plan and clears the session |
| Treinos.Session.SalvarDiasConcluidos | src/pages/treinos/index.js:585-616 | the write, the open plan and the list all carry the new completed days |
| Treinos.Session.ConcluirEVoltar | src/pages/treinos/index.js:526-547 | with a day open the progress is written: empty iff the cycle closed, else with the day appended; the session then closes |
| Treinos.Session.ConfirmarRenomear | src/pages/treinos/index.js:155-182 | a blank name is refused and changes nothing; otherwise the trimmed name is written and applied to the plan |
| Treinos.Session.ComecarEdicaoNome | src/pages/treinos/index.js:751 | that plan's name becomes editable |
| Treinos.Session.SubmeterNome | src/pages/treinos/index.js:733-740 | a blank text writes nothing; otherwise the trimmed name renames the plan; editing ends either way |
| Treinos.Session.SairEdicaoNome | src/pages/treinos/index.js:741 | leaving the field ends editing |
| Text.Trim | src/pages/treinos/index.js:156-164 | the result starts and ends with non-whitespace and is empty iff the text is all whitespace |
| Text.TrimIsSlice | src/pages/treinos/index.js:164 | the trimmed text is a contiguous slice of the input |
| Text.TrimIdempotent | src/pages/treinos/index.js:734 | trimming twice equals trimming once |
| Text.PadStart2 | src/components/WorkoutTimerCard/index.js:36-38 | `padStart(2, '0')`: at least two characters; a shorter text gets leading zeros |
| Text.NatToStringRoundTrip | src/components/WorkoutTimerCard/index.js:36-38 | the decimal numeral of n reads back as n |
| WorkoutTimer.ClockOf | src/components/WorkoutTimerCard/index.js:32-34 | minutes and seconds below 60, and the three fields add back up to the count |
| WorkoutTimer.Field | src/components/WorkoutTimerCard/index.js:36-38 | a field is at least two digits, reads back as its number, and is exactly two digits below 100 |
| WorkoutTimer.FormatClock | src/components/WorkoutTimerCard/index.js:36-38 | the colons sit three and six characters from the end, with the padded hours before them and the two-digit minutes and seconds between and after |
| WorkoutTimer.FormatTime | src/components/WorkoutTimerCard/index.js:31-39 | the display is the count's clock laid out: padded hours, ':', two-digit minutes, ':', two-digit seconds |
| WorkoutTimer.LayoutDeterminesClock | src/components/WorkoutTimerCard/index.js:36-38 | one text is the layout of at most one clock |
| WorkoutTimer.FormatTimeInjective | src/components/WorkoutTimerCard/index.js:31-39 | two counts show the same display iff they are equal |
| WorkoutTimer.Stopwatch.constructor | src/components/WorkoutTimerCard/index.js:15-17 | zero, stopped, unpaused |
| WorkoutTimer.Stopwatch.Tick | src/components/WorkoutTimerCard/index.js:19-29 | one second more exactly while running and not paused |
| WorkoutTimer.Stopwatch.HandleStartStop | src/components/WorkoutTimerCard/index.js:41-50 | a stopped watch starts unpaused; a started one toggles its pause; paused implies started |
| WorkoutTimer.Stopwatch.HandleReset | src/components/WorkoutTimerCard/index.js:52-57 | back to zero, stopped and unpaused |

## Left out

- Firestore, `Alert`, `Vibration` and navigation are not modelled. A write is a returned value; a dialog answer is a parameter; the clock is a `now` parameter in milliseconds.
- Errors from the database (`catch` blocks and their alerts) are not modelled; each write is taken to succeed.
- Day keys are strings in the stored documents and integers here. Dates are milliseconds; an unparseable date (`NaN`) is not modelled.
- `JSON.stringify` equality in the duplicate test is taken as structural equality of the day maps.
- Treinos.SortNewestFirst: the model proves order and permutation but not the stability of JavaScript's `sort`.
- WorkoutPlan.OrigemChoices: the origin drop-down is a set of days; its display order is not modelled.
- The template viewer's "Atribuir a Usuário" button opens the assignment dialog, whose state `TemplateEditor` does not hold; the assignment itself is `AtribuirTreino`.
- Treinos.Session.SelecionarDia: requires the day to be a key of the open plan, since the day buttons come from `Object.keys(treinoSelecionado.treinos)` (line 379). A second interval started by selecting twice is not modelled; there is one countdown.
- Treinos.Session.ReceivePlans: the user-document handler returns before loading plans when the user document does not exist or `planoAtivo` is not set (src/pages/treinos/index.js:59-65); the model assumes an active plan whenever plans arrive.
- Treinos.Session.ReceivePlans: the snapshot handler's closure in the source captures the selected plan at mount time. The model refreshes the currently open plan, which the source's stale closure does not.
- Treinos.LoadedPlan: the reset plan keeps its old `ultimaAtualizacao` in memory, as the code does; only the returned write carries `now`.
- Where a source handler would throw on a missing day key (`treinosPorDia[dia].filter`), the model leaves the state unchanged.
- `iniciarEdicao` in `TreinoModelo` (line 524) is defined but never called in that file, so nothing there sets `treinoEmEdicao`, and the update and delete branches of `salvarTreinoModelo` cannot be reached in the app. They are modelled all the same (`TemplateEditor.IniciarEdicao`, `SalvarTreinoModelo`).
- The copy dialog's drop-down open/closed flags (`isOrigemDropdownOpen`, `isDestinoDropdownOpen`) are display state and are not modelled.
- `RenameInput` (the rename modal) is never shown, because nothing sets `isRenaming`, and `finalizarTreino` is never called. Both are modelled all the same (`ConfirmarRenomear`, `FinalizarTreino`).
- CreateWorkout.PlanBuilder.SelectUser: the existing-plan prompt of `handleUserSelection` is not modelled; it needs a database query, and its "Editar Existente" branch navigates away.
- The user search filters, `adicionarNovoNivel`, `visualizarTreino`, and the rendering and styles are not modelled.
- `CreateWorkout` `handleEditExercicio` only loads the item into the draft; it has no save path in the source, and the model has none either.
- The "Discard" choice of `EditWorkout`'s back prompt leaves the day but keeps the local edits in memory, as the code does.
- `ParseElapsed` is a reference reader. It exists only to state the round trip of the elapsed-time message; the source has no parser. It also accepts a few texts the message never takes, "Hh Ss" for example.

## Findings

| source | as written | input that shows it | evidently intended | confidence | as-written member | corrected member |
|---|---|---|---|---|---|---|
| src/pages/admin/EditWorkout/index.js:683 | the delete button of each combo-buffer entry calls `removeExercicio(diaAtual, index)`, which removes the item at that index from the current **day** after the confirmation | the day holds two exercises and the buffer holds three; pressing delete on buffer entry 0 removes the day's first exercise, and the buffer keeps all three | removing that member from the combo being edited, which is what `removeExercicioDoCombo` (lines 870-919) does; the source never calls it | not executed | EditWorkout.ComboDeleteButtonRemovesDayItem | EditWorkout.PlanEditor.RemoveExercicioDoCombo |
