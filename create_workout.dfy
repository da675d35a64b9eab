/**
 * The plan-creation screen (`CreateWorkout`): an admin picks a user, a weekly frequency
 * and then one day at a time, fills each day with exercises and combos, and saves the
 * whole plan as a new document. The back arrow steps back through those stages.
 */
module CreateWorkout {
  import opened Wrappers
  import opened WorkoutPlan

  // ---------------------------------------------------------------------------
  // Stages and the back arrow
  // ---------------------------------------------------------------------------

  /** The stages nest: a day is open only under a frequency, a frequency only for a user. */
  predicate Nested(u: Option<User>, f: Option<int>, d: Option<Day>) {
    (d.Some? ==> f.Some?) && (f.Some? ==> u.Some?)
  }

  /** How deep the screen is: 3 on a day, 2 on day selection, 1 on frequency, 0 on user search. */
  function Stage(u: Option<User>, f: Option<int>, d: Option<Day>): nat {
    if d.Some? then 3 else if f.Some? then 2 else if u.Some? then 1 else 0
  }

  /**
   * The back arrow's plain step: clear the day if one is open, else the frequency,
   * else the user, else leave the screen (the last component).
   */
  function Unwind(u: Option<User>, f: Option<int>, d: Option<Day>): (Option<User>, Option<int>, Option<Day>, bool) {
    if d.Some? then (u, f, None, false)
    else if f.Some? then (u, None, d, false)
    else if u.Some? then (None, f, d, false)
    else (u, f, d, true)
  }

  /**
   * On nested stages one back step lowers the stage by exactly one, keeps the stages
   * nested, and leaves the screen exactly from the first stage.
   */
  lemma UnwindOneStage(u: Option<User>, f: Option<int>, d: Option<Day>)
    requires Nested(u, f, d)
    ensures var (u', f', d', leave) := Unwind(u, f, d);
      && Nested(u', f', d')
      && (leave <==> Stage(u, f, d) == 0)
      && (Stage(u, f, d) > 0 ==> Stage(u', f', d') == Stage(u, f, d) - 1)
      && (leave ==> (u', f', d') == (u, f, d))
  {
  }

  /** Stepping back from the day screen three times reaches the user search, and a fourth step leaves. */
  lemma {:induction false} BackFromDayLeavesAfterFour(u: User, f: int, d: Day)
    ensures var s1 := Unwind(Some(u), Some(f), Some(d));
      var s2 := Unwind(s1.0, s1.1, s1.2);
      var s3 := Unwind(s2.0, s2.1, s2.2);
      var s4 := Unwind(s3.0, s3.1, s3.2);
      !s1.3 && !s2.3 && !s3.3 && Stage(s3.0, s3.1, s3.2) == 0 && s4.3
  {
    var s1 := Unwind(Some(u), Some(f), Some(d));
    assert s1 == (Some(u), Some(f), None, false);
    var s2 := Unwind(s1.0, s1.1, s1.2);
    assert s2 == (Some(u), None, None, false);
    var s3 := Unwind(s2.0, s2.1, s2.2);
    assert s3 == (None, None, None, false);
  }

  // ---------------------------------------------------------------------------
  // Saving
  // ---------------------------------------------------------------------------

  /**
   * `salvarTreino`'s record: refused without a user, a frequency or any day key;
   * otherwise the day map is recorded as it stands, empty days included.
   */
  function PlanRecord(u: Option<User>, f: Option<int>, m: DayMap, now: int): (r: Option<NewPlan>)
    ensures r.None? <==> u.None? || f.None? || m == map[]
    ensures r.Some? ==> r.value.userId == u.value.id && r.value.userName == u.value.name
    ensures r.Some? ==> r.value.frequenciaTreino == f.value && r.value.treinos == m && r.value.dataCreated == now
  {
    if u.None? || f.None? || m == map[] then None
    else Some(NewPlan(u.value.id, u.value.name, now, f.value, m))
  }

  /** Unlike the template save, creating a plan does not strip days left empty. */
  lemma PlanRecordKeepsEmptyDays(u: User, f: int, m: DayMap, d: Day, now: int)
    requires d in m && m[d] == []
    ensures PlanRecord(Some(u), Some(f), m, now).Some?
    ensures d in PlanRecord(Some(u), Some(f), m, now).value.treinos
    ensures PlanRecord(Some(u), Some(f), m, now).value.treinos[d] == []
  {
    assert d in m.Keys;
  }

  // ---------------------------------------------------------------------------
  // The screen
  // ---------------------------------------------------------------------------

  /** The state of the plan-creation screen. */
  class PlanBuilder {
    var selectedUser: Option<User>
    var frequenciaTreino: Option<int>
    var treinosPorDia: DayMap
    var novoExercicio: Exercise
    var diaAtual: Option<Day>
    var isCombinado: bool
    var exerciciosCombinados: seq<Exercise>
    var isAddingToCombinado: bool
    var hasUnsavedChanges: bool
    var showRepetirForm: bool
    var diaOrigem: Option<Day>
    var diaDestino: Option<Day>

    ghost predicate Valid()
      reads this
    {
      Nested(selectedUser, frequenciaTreino, diaAtual)
    }

    constructor ()
      ensures Valid()
      ensures selectedUser == None && frequenciaTreino == None && treinosPorDia == map[]
      ensures novoExercicio == EmptyDraft && diaAtual == None && !isCombinado
      ensures exerciciosCombinados == [] && !isAddingToCombinado && !hasUnsavedChanges
      ensures !showRepetirForm && diaOrigem == None && diaDestino == None
    {
      selectedUser := None;
      frequenciaTreino := None;
      treinosPorDia := map[];
      novoExercicio := EmptyDraft;
      diaAtual := None;
      isCombinado := false;
      exerciciosCombinados := [];
      isAddingToCombinado := false;
      hasUnsavedChanges := false;
      showRepetirForm := false;
      diaOrigem := None;
      diaDestino := None;
    }

    /** "Criar Novo" on the existing-plan prompt, or a user without a plan. */
    method SelectUser(u: User)
      requires Valid()
      modifies this`selectedUser
      ensures Valid() && selectedUser == Some(u)
    {
      selectedUser := Some(u);
    }

    /** A frequency button (1 to 7 days). */
    method SelecionarFrequencia(n: int)
      requires Valid() && selectedUser.Some?
      requires 1 <= n <= 7
      modifies this`frequenciaTreino
      ensures Valid() && frequenciaTreino == Some(n)
    {
      frequenciaTreino := Some(n);
    }

    /** A day button of the day-selection stage. */
    method SelecionarDia(d: Day)
      requires Valid() && frequenciaTreino.Some?
      requires 1 <= d <= frequenciaTreino.value
      modifies this`diaAtual
      ensures Valid() && diaAtual == Some(d)
    {
      diaAtual := Some(d);
    }

    /** The "Voltar para Dias" button under the day list: the day closes, without asking about unsaved changes. */
    method VoltarParaDias()
      requires Valid()
      modifies this`diaAtual
      ensures Valid() && diaAtual == None
    {
      diaAtual := None;
    }

    /** `addExercicioCombinado`: a complete draft joins the combo buffer and the form is cleared. */
    method AddExercicioCombinado()
      modifies this`exerciciosCombinados, this`novoExercicio
      ensures exerciciosCombinados == AddToCombo(old(exerciciosCombinados), old(novoExercicio))
      ensures novoExercicio == if AllFourFields(old(novoExercicio)) then EmptyDraft else old(novoExercicio)
    {
      if !AllFourFields(novoExercicio) {
        return;
      }
      exerciciosCombinados := exerciciosCombinados + [novoExercicio];
      novoExercicio := EmptyDraft;
    }

    /**
     * `addExercicio`: in combo mode it is `addExercicioCombinado`; otherwise an accepted
     * draft is prepared and appended to the current day, and a rejected one changes nothing.
     */
    method AddExercicio()
      requires diaAtual.Some?
      modifies this`treinosPorDia, this`hasUnsavedChanges, this`novoExercicio, this`exerciciosCombinados
      ensures old(isCombinado) ==>
        && treinosPorDia == old(treinosPorDia) && hasUnsavedChanges == old(hasUnsavedChanges)
        && exerciciosCombinados == AddToCombo(old(exerciciosCombinados), old(novoExercicio))
        && novoExercicio == if AllFourFields(old(novoExercicio)) then EmptyDraft else old(novoExercicio)
      ensures !old(isCombinado) ==>
        && treinosPorDia == AddExercise(old(treinosPorDia), diaAtual.value, old(novoExercicio))
        && exerciciosCombinados == old(exerciciosCombinados)
        && (DraftAccepted(old(novoExercicio)) ==> hasUnsavedChanges && novoExercicio == EmptyDraft)
        && (!DraftAccepted(old(novoExercicio)) ==>
              hasUnsavedChanges == old(hasUnsavedChanges) && novoExercicio == old(novoExercicio))
    {
      if isCombinado {
        AddExercicioCombinado();
        return;
      }
      if !DraftAccepted(novoExercicio) {
        return;
      }
      treinosPorDia := AppendItem(treinosPorDia, diaAtual.value, Single(Prepared(novoExercicio)));
      hasUnsavedChanges := true;
      novoExercicio := EmptyDraft;
    }

    /** `finalizarCombo`: a buffer of two or more becomes one combo at the end of the current day. */
    method FinalizarCombo()
      requires diaAtual.Some?
      modifies this`treinosPorDia, this`exerciciosCombinados, this`isCombinado, this`isAddingToCombinado
      ensures (treinosPorDia, exerciciosCombinados) ==
              FinalizeCombo(old(treinosPorDia), diaAtual.value, old(exerciciosCombinados))
      ensures |old(exerciciosCombinados)| < MinComboSize ==>
                isCombinado == old(isCombinado) && isAddingToCombinado == old(isAddingToCombinado)
      ensures |old(exerciciosCombinados)| >= MinComboSize ==> !isCombinado && !isAddingToCombinado
    {
      ghost var r := FinalizeCombo(treinosPorDia, diaAtual.value, exerciciosCombinados);
      if |exerciciosCombinados| >= MinComboSize {
        assert r == (AppendItem(treinosPorDia, diaAtual.value, Combo(exerciciosCombinados)), []);
        treinosPorDia := AppendItem(treinosPorDia, diaAtual.value, Combo(exerciciosCombinados));
        exerciciosCombinados := [];
        isAddingToCombinado := false;
        isCombinado := false;
      }
    }

    /** The "Exercício Combinado" checkbox: turning combo mode off empties the buffer. */
    method ToggleCombinado()
      modifies this`isCombinado, this`isAddingToCombinado, this`exerciciosCombinados
      ensures isCombinado == !old(isCombinado) && isAddingToCombinado == isCombinado
      ensures exerciciosCombinados == if old(isCombinado) then [] else old(exerciciosCombinados)
    {
      if !isCombinado {
        isAddingToCombinado := true;
      } else {
        exerciciosCombinados := [];
        isAddingToCombinado := false;
      }
      isCombinado := !isCombinado;
    }

    /** The close button on entry `index` of the combo buffer. */
    method RemoverDoCombo(index: int)
      modifies this`exerciciosCombinados
      ensures exerciciosCombinados == RemoveAt(old(exerciciosCombinados), index)
    {
      exerciciosCombinados := RemoveAt(exerciciosCombinados, index);
    }

    /** `removeExercicio(index)` after the confirmation: only that position of the current day goes. */
    method RemoveExercicio(index: int, confirmed: bool)
      requires diaAtual.Some?
      modifies this`treinosPorDia
      ensures confirmed ==> treinosPorDia == RemoveItem(old(treinosPorDia), diaAtual.value, index)
      ensures !confirmed ==> treinosPorDia == old(treinosPorDia)
    {
      if confirmed {
        treinosPorDia := RemoveItem(treinosPorDia, diaAtual.value, index);
      }
    }

    /** The "Repetir Treino" button: the copy dialog opens. */
    method AbrirRepetir()
      modifies this`showRepetirForm
      ensures showRepetirForm
    {
      showRepetirForm := true;
    }

    /** An entry of the dialog's origin drop-down, which lists the days that have items. */
    method EscolherOrigem(d: Day)
      requires showRepetirForm && d in OrigemChoices(treinosPorDia)
      modifies this`diaOrigem
      ensures diaOrigem == Some(d)
    {
      diaOrigem := Some(d);
    }

    /**
     * An entry of the dialog's destination drop-down, which lists the plan's days other
     * than the origin. With an offered origin still in place, the copy guard then lets
     * the copy through to its confirmation.
     */
    method EscolherDestino(d: Day)
      requires showRepetirForm && frequenciaTreino.Some?
      requires d in DestinoChoices(frequenciaTreino.value, diaOrigem)
      modifies this`diaDestino
      ensures diaDestino == Some(d)
      ensures diaOrigem.Some? && diaOrigem.value in OrigemChoices(treinosPorDia) ==>
        CopyAllowed(CheckCopy(treinosPorDia, diaOrigem, diaDestino))
    {
      diaDestino := Some(d);
      if diaOrigem.Some? && diaOrigem.value in OrigemChoices(treinosPorDia) {
        assert DayItems(treinosPorDia, diaOrigem.value) != [];
      }
    }

    /** The dialog's "Cancelar": it closes and both chosen days are cleared. */
    method CancelarRepetir()
      modifies this`showRepetirForm, this`diaOrigem, this`diaDestino
      ensures !showRepetirForm && diaOrigem == None && diaDestino == None
    {
      showRepetirForm := false;
      diaOrigem := None;
      diaDestino := None;
    }

    /**
     * `handleRepetirTreino` and, once confirmed, `copiarExercicios`: a confirmed copy
     * overwrites the destination with the origin's list, marks the plan unsaved and
     * closes the dialog; anything else leaves the state as it was.
     */
    method HandleRepetirTreino(confirmed: bool) returns (check: CopyCheck)
      modifies this`treinosPorDia, this`hasUnsavedChanges, this`showRepetirForm, this`diaOrigem, this`diaDestino
      ensures check == CheckCopy(old(treinosPorDia), old(diaOrigem), old(diaDestino))
      ensures treinosPorDia == CopyAfterConfirm(old(treinosPorDia), old(diaOrigem), old(diaDestino), confirmed)
      ensures !(CopyAllowed(check) && confirmed) ==>
        && hasUnsavedChanges == old(hasUnsavedChanges) && showRepetirForm == old(showRepetirForm)
        && diaOrigem == old(diaOrigem) && diaDestino == old(diaDestino)
      ensures CopyAllowed(check) && confirmed ==>
        hasUnsavedChanges && !showRepetirForm && diaOrigem == None && diaDestino == None
    {
      check := CheckCopy(treinosPorDia, diaOrigem, diaDestino);
      if !(CopyAllowed(check) && confirmed) {
        return;
      }
      treinosPorDia := CopyDay(treinosPorDia, diaOrigem.value, diaDestino.value);
      hasUnsavedChanges := true;
      showRepetirForm := false;
      diaOrigem := None;
      diaDestino := None;
    }

    /**
     * `salvarTreino`: the plan record for the current user, frequency and days, or none
     * when one of them is missing; a recorded plan resets the screen to the user search.
     */
    method SalvarTreino(now: int) returns (record: Option<NewPlan>)
      requires Valid()
      modifies this`hasUnsavedChanges, this`selectedUser, this`frequenciaTreino, this`treinosPorDia, this`diaAtual
      ensures Valid()
      ensures record == PlanRecord(old(selectedUser), old(frequenciaTreino), old(treinosPorDia), now)
      ensures record.None? ==>
        && hasUnsavedChanges == old(hasUnsavedChanges) && selectedUser == old(selectedUser)
        && frequenciaTreino == old(frequenciaTreino) && treinosPorDia == old(treinosPorDia)
        && diaAtual == old(diaAtual)
      ensures record.Some? ==>
        && !hasUnsavedChanges && selectedUser == None && frequenciaTreino == None
        && treinosPorDia == map[] && diaAtual == None
    {
      record := PlanRecord(selectedUser, frequenciaTreino, treinosPorDia, now);
      if record.None? {
        return;
      }
      hasUnsavedChanges := false;
      selectedUser := None;
      frequenciaTreino := None;
      treinosPorDia := map[];
      diaAtual := None;
    }

    /**
     * The header's back arrow. With unsaved changes on a day that has items it asks
     * Save / Discard / Cancel, and Save or Discard then closes the day. On day selection
     * with a non-empty plan it asks Save / "Voltar sem Salvar" (drop the frequency and
     * the days) / Cancel. Otherwise it steps back one stage (`Unwind`).
     */
    method Back(choice: BackChoice, now: int) returns (leave: bool, record: Option<NewPlan>)
      requires Valid()
      modifies this`hasUnsavedChanges, this`selectedUser, this`frequenciaTreino, this`treinosPorDia, this`diaAtual
      ensures Valid()
      ensures record.Some? ==>
        record == PlanRecord(old(selectedUser), old(frequenciaTreino), old(treinosPorDia), now)
      ensures leave ==> Stage(old(selectedUser), old(frequenciaTreino), old(diaAtual)) == 0
      // unsaved edits on a non-empty day
      ensures old(hasUnsavedChanges) && old(diaAtual).Some? && DayItems(old(treinosPorDia), old(diaAtual).value) != [] ==>
        && !leave
        && (choice == Save ==>
              && record.Some? && !hasUnsavedChanges && selectedUser == None && frequenciaTreino == None
              && treinosPorDia == map[] && diaAtual == None)
        && (choice == Discard ==>
              && record.None? && !hasUnsavedChanges && diaAtual == None
              && selectedUser == old(selectedUser) && frequenciaTreino == old(frequenciaTreino)
              && treinosPorDia == old(treinosPorDia))
        && (choice == Cancel ==>
              && record.None? && hasUnsavedChanges && diaAtual == old(diaAtual)
              && selectedUser == old(selectedUser) && frequenciaTreino == old(frequenciaTreino)
              && treinosPorDia == old(treinosPorDia))
      // day selection with a non-empty plan
      ensures !(old(hasUnsavedChanges) && old(diaAtual).Some? && DayItems(old(treinosPorDia), old(diaAtual).value) != [])
              && old(frequenciaTreino).Some? && old(diaAtual).None? && old(treinosPorDia) != map[] ==>
        && !leave
        && (choice == Save ==>
              && record.Some? && !hasUnsavedChanges && selectedUser == None && frequenciaTreino == None
              && treinosPorDia == map[])
        && (choice == Discard ==>
              && record.None? && frequenciaTreino == None && treinosPorDia == map[]
              && selectedUser == old(selectedUser) && hasUnsavedChanges == old(hasUnsavedChanges))
        && (choice == Cancel ==>
              && record.None? && frequenciaTreino == old(frequenciaTreino) && treinosPorDia == old(treinosPorDia)
              && selectedUser == old(selectedUser) && hasUnsavedChanges == old(hasUnsavedChanges))
      // otherwise: one plain step back
      ensures !(old(hasUnsavedChanges) && old(diaAtual).Some? && DayItems(old(treinosPorDia), old(diaAtual).value) != [])
              && !(old(frequenciaTreino).Some? && old(diaAtual).None? && old(treinosPorDia) != map[]) ==>
        && record.None? && treinosPorDia == old(treinosPorDia) && hasUnsavedChanges == old(hasUnsavedChanges)
        && (selectedUser, frequenciaTreino, diaAtual, leave) ==
           Unwind(old(selectedUser), old(frequenciaTreino), old(diaAtual))
    {
      leave, record := false, None;
      if hasUnsavedChanges && diaAtual.Some? && DayItems(treinosPorDia, diaAtual.value) != [] {
        assert treinosPorDia != map[] by {
          assert diaAtual.value in treinosPorDia;
        }
        match choice
        case Save =>
          record := SalvarTreino(now);
          diaAtual := None;
        case Discard =>
          hasUnsavedChanges := false;
          diaAtual := None;
        case Cancel =>
      } else if frequenciaTreino.Some? && diaAtual.None? && treinosPorDia != map[] {
        match choice
        case Save =>
          record := SalvarTreino(now);
        case Discard =>
          frequenciaTreino := None;
          treinosPorDia := map[];
        case Cancel =>
      } else {
        UnwindOneStage(selectedUser, frequenciaTreino, diaAtual);
        var (u, f, d, l) := Unwind(selectedUser, frequenciaTreino, diaAtual);
        selectedUser, frequenciaTreino, diaAtual, leave := u, f, d, l;
      }
    }
  }
}
