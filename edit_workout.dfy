/**
 * The plan-editing screen (`EditWorkout`): an admin picks a user, one of that user's
 * plans and a day, then adds, edits, removes and regroups that day's items, or copies
 * one day onto another. Removal and copying write the plan back at once; the other
 * edits wait for "Salvar Alterações".
 */
module EditWorkout {
  import opened Wrappers
  import opened WorkoutPlan

  // ---------------------------------------------------------------------------
  // Removing a member from a combo being edited
  // ---------------------------------------------------------------------------

  /**
   * The outcome of removing member i of the combo buffer while editing the combo at
   * `idx` of day d: the new day map and the new buffer. With one member left, the combo
   * at `idx` becomes that plain exercise and the buffer is emptied; otherwise only the
   * buffer shrinks.
   */
  function RemoveFromCombo(m: DayMap, d: Day, idx: Option<int>, buf: seq<Exercise>, i: int): (r: (DayMap, seq<Exercise>))
    ensures |RemoveAt(buf, i)| != 1 ==> r == (m, RemoveAt(buf, i))
    ensures |RemoveAt(buf, i)| == 1 ==> r.1 == [] && OthersUnchanged(m, r.0, d)
  {
    var rest := RemoveAt(buf, i);
    if |rest| == 1 then (ReplaceItem(m, d, idx.GetOr(-1), Single(rest[0])), []) else (m, rest)
  }

  /**
   * Collapsing a two-member combo: the day keeps its length, the edited position holds
   * the remaining member as a plain exercise, and every other position is untouched.
   */
  lemma CollapseKeepsDay(m: DayMap, d: Day, idx: int, buf: seq<Exercise>, i: int)
    requires d in m && 0 <= idx < |m[d]|
    requires |buf| == 2 && 0 <= i < 2
    ensures var r := RemoveFromCombo(m, d, Some(idx), buf, i).0;
      && d in r && |r[d]| == |m[d]|
      && r[d][idx] == Single(buf[1 - i])
      && forall k :: 0 <= k < |m[d]| && k != idx ==> r[d][k] == m[d][k]
  {
    RemoveAtShifts(buf, i, 0);
    assert RemoveAt(buf, i)[0] == buf[1 - i];
  }

  /** With three or more members the combo stays: only the buffer loses member i. */
  lemma LargerComboStays(m: DayMap, d: Day, idx: Option<int>, buf: seq<Exercise>, i: int)
    requires |buf| >= 3 && 0 <= i < |buf|
    ensures RemoveFromCombo(m, d, idx, buf, i) == (m, buf[..i] + buf[i + 1..])
    ensures |RemoveFromCombo(m, d, idx, buf, i).1| >= MinComboSize
  {
    RemoveAtContents(buf, i);
  }

  /**
   * The buffer's delete button as written calls the day-item removal with the buffer
   * index: for a day [a, b] and a buffer [x, y, z], pressing it on entry 0 takes `a`
   * off the day and leaves all three buffered exercises in place.
   */
  lemma ComboDeleteButtonRemovesDayItem(a: Exercise, b: Exercise, x: Exercise, y: Exercise, z: Exercise)
    ensures var m := map[1 := [Single(a), Single(b)]];
      && RemoveItem(m, 1, 0)[1] == [Single(b)]
      && RemoveFromCombo(m, 1, Some(0), [x, y, z], 0) == (m, [y, z])
  {
    var m := map[1 := [Single(a), Single(b)]];
    assert RemoveAt([Single(a), Single(b)], 0) == [Single(b)];
    assert RemoveAt([x, y, z], 0) == [y, z];
  }

  // ---------------------------------------------------------------------------
  // The screen
  // ---------------------------------------------------------------------------

  /** The state of the plan-editing screen. */
  class PlanEditor {
    var selectedUser: Option<User>
    var selectedWorkout: Option<PlanDoc>
    var treinosPorDia: DayMap
    var diaAtual: Option<Day>
    var novoExercicio: Exercise
    var showExercicioForm: bool
    var exercicioEmEdicao: Option<Exercise>
    var indexEmEdicao: Option<int>
    var isCombinado: bool
    var exerciciosCombinados: seq<Exercise>
    var isEditingCombinado: bool
    var hasUnsavedChanges: bool
    var showRepetirForm: bool
    var diaOrigem: Option<Day>
    var diaDestino: Option<Day>

    /** The screens nest: a day is open only inside a plan, a plan only for a user. */
    ghost predicate Valid()
      reads this
    {
      && (diaAtual.Some? ==> selectedWorkout.Some?)
      && (selectedWorkout.Some? ==> selectedUser.Some?)
    }

    constructor ()
      ensures Valid()
      ensures selectedUser == None && selectedWorkout == None && treinosPorDia == map[]
      ensures diaAtual == None && novoExercicio == EmptyDraft && !showExercicioForm
      ensures exercicioEmEdicao == None && indexEmEdicao == None && !isCombinado
      ensures exerciciosCombinados == [] && !isEditingCombinado && !hasUnsavedChanges
      ensures !showRepetirForm && diaOrigem == None && diaDestino == None
    {
      selectedUser := None;
      selectedWorkout := None;
      treinosPorDia := map[];
      diaAtual := None;
      novoExercicio := EmptyDraft;
      showExercicioForm := false;
      exercicioEmEdicao := None;
      indexEmEdicao := None;
      isCombinado := false;
      exerciciosCombinados := [];
      isEditingCombinado := false;
      hasUnsavedChanges := false;
      showRepetirForm := false;
      diaOrigem := None;
      diaDestino := None;
    }

    method SelectUser(u: User)
      requires Valid()
      modifies this`selectedUser
      ensures Valid() && selectedUser == Some(u)
    {
      selectedUser := Some(u);
    }

    /** `handleSelectWorkout`: the plan becomes the one being edited and its days are loaded. */
    method HandleSelectWorkout(w: PlanDoc)
      requires Valid() && selectedUser.Some?
      modifies this`selectedWorkout, this`treinosPorDia
      ensures Valid()
      ensures selectedWorkout == Some(w) && treinosPorDia == w.treinos
    {
      selectedWorkout := Some(w);
      treinosPorDia := w.treinos;
    }

    /** A day button of the day-selection screen. */
    method SelecionarDia(d: Day)
      requires Valid() && selectedWorkout.Some?
      requires 1 <= d <= selectedWorkout.value.frequenciaTreino
      modifies this`diaAtual
      ensures Valid() && diaAtual == Some(d)
    {
      diaAtual := Some(d);
    }

    /** The "Voltar para Dias" button under the day list: the day closes, without asking about unsaved changes. */
    method VoltarParaDias()
      requires Valid()
      modifies this`diaAtual
      ensures Valid() && diaAtual == None
    {
      diaAtual := None;
    }

    /** `addExercicioCombinado`: a complete draft joins the combo buffer and the form is cleared. */
    method AddExercicioCombinado()
      modifies this`exerciciosCombinados, this`novoExercicio
      ensures exerciciosCombinados == AddToCombo(old(exerciciosCombinados), old(novoExercicio))
      ensures novoExercicio == if AllFourFields(old(novoExercicio)) then EmptyDraft else old(novoExercicio)
    {
      if !AllFourFields(novoExercicio) {
        return;
      }
      exerciciosCombinados := exerciciosCombinados + [novoExercicio];
      novoExercicio := EmptyDraft;
    }

    /**
     * `addExercicio`: in combo mode it is `addExercicioCombinado`; otherwise an accepted
     * draft is prepared and appended to the current day and the form closes; a rejected
     * draft changes nothing.
     */
    method AddExercicio()
      requires diaAtual.Some?
      modifies this`treinosPorDia, this`hasUnsavedChanges, this`novoExercicio,
               this`exerciciosCombinados, this`showExercicioForm
      ensures old(isCombinado) ==>
        && treinosPorDia == old(treinosPorDia) && hasUnsavedChanges == old(hasUnsavedChanges)
        && showExercicioForm == old(showExercicioForm)
        && exerciciosCombinados == AddToCombo(old(exerciciosCombinados), old(novoExercicio))
        && novoExercicio == if AllFourFields(old(novoExercicio)) then EmptyDraft else old(novoExercicio)
      ensures !old(isCombinado) ==>
        && treinosPorDia == AddExercise(old(treinosPorDia), diaAtual.value, old(novoExercicio))
        && exerciciosCombinados == old(exerciciosCombinados)
        && (DraftAccepted(old(novoExercicio)) ==>
              hasUnsavedChanges && novoExercicio == EmptyDraft && !showExercicioForm)
        && (!DraftAccepted(old(novoExercicio)) ==>
              && hasUnsavedChanges == old(hasUnsavedChanges) && novoExercicio == old(novoExercicio)
              && showExercicioForm == old(showExercicioForm))
    {
      if isCombinado {
        AddExercicioCombinado();
        return;
      }
      if !DraftAccepted(novoExercicio) {
        return;
      }
      treinosPorDia := AppendItem(treinosPorDia, diaAtual.value, Single(Prepared(novoExercicio)));
      hasUnsavedChanges := true;
      novoExercicio := EmptyDraft;
      showExercicioForm := false;
    }

    /**
     * `removeExercicio(dia, i)` after the confirmation: position i of day `dia` goes,
     * the edit is marked unsaved and the new day map is written to the plan. Without
     * confirmation, or when the plan has no such day, nothing changes.
     */
    method RemoveExercicio(dia: Day, i: int, confirmed: bool) returns (written: Option<DayMap>)
      requires selectedWorkout.Some?
      modifies this`treinosPorDia, this`hasUnsavedChanges, this`selectedWorkout
      ensures !(confirmed && dia in old(treinosPorDia)) ==>
        && written == None && treinosPorDia == old(treinosPorDia)
        && hasUnsavedChanges == old(hasUnsavedChanges) && selectedWorkout == old(selectedWorkout)
      ensures confirmed && dia in old(treinosPorDia) ==>
        && treinosPorDia == RemoveItem(old(treinosPorDia), dia, i)
        && hasUnsavedChanges && written == Some(treinosPorDia)
        && selectedWorkout == Some(old(selectedWorkout).value.(treinos := treinosPorDia))
    {
      if !confirmed || dia !in treinosPorDia {
        return None;
      }
      var novosTreinos := RemoveItem(treinosPorDia, dia, i);
      treinosPorDia := novosTreinos;
      hasUnsavedChanges := true;
      selectedWorkout := Some(selectedWorkout.value.(treinos := novosTreinos));
      return Some(novosTreinos);
    }

    /** `salvarAlteracoes`: the day map is written to the plan and the day screen closes. */
    method SalvarAlteracoes() returns (written: DayMap)
      requires Valid() && selectedWorkout.Some?
      modifies this`selectedWorkout, this`hasUnsavedChanges, this`diaAtual
      ensures Valid()
      ensures written == treinosPorDia
      ensures selectedWorkout == Some(old(selectedWorkout).value.(treinos := treinosPorDia))
      ensures !hasUnsavedChanges && diaAtual == None
    {
      selectedWorkout := Some(selectedWorkout.value.(treinos := treinosPorDia));
      hasUnsavedChanges := false;
      diaAtual := None;
      return treinosPorDia;
    }

    /** `handleEditCombinado`: the combo's members go into the buffer for editing. */
    method HandleEditCombinado(item: Item, index: int)
      requires item.Combo?
      modifies this`isEditingCombinado, this`exerciciosCombinados, this`indexEmEdicao,
               this`isCombinado, this`showExercicioForm
      ensures isEditingCombinado && exerciciosCombinados == item.exercicios
      ensures indexEmEdicao == Some(index) && isCombinado && showExercicioForm
    {
      isEditingCombinado := true;
      exerciciosCombinados := item.exercicios;
      indexEmEdicao := Some(index);
      isCombinado := true;
      showExercicioForm := true;
    }

    /** `handleEditExercicio`: a combo goes to `handleEditCombinado`; a plain exercise fills the form. */
    method HandleEditExercicio(item: Item, index: int)
      modifies this`isEditingCombinado, this`exerciciosCombinados, this`indexEmEdicao,
               this`isCombinado, this`showExercicioForm, this`exercicioEmEdicao, this`novoExercicio
      ensures item.Combo? ==>
        && isEditingCombinado && exerciciosCombinados == item.exercicios && isCombinado
        && exercicioEmEdicao == old(exercicioEmEdicao) && novoExercicio == old(novoExercicio)
      ensures item.Single? ==>
        && exercicioEmEdicao == Some(item.exercise) && novoExercicio == item.exercise
        && isEditingCombinado == old(isEditingCombinado) && isCombinado == old(isCombinado)
        && exerciciosCombinados == old(exerciciosCombinados)
      ensures indexEmEdicao == Some(index) && showExercicioForm
    {
      if item.Combo? {
        HandleEditCombinado(item, index);
        return;
      }
      exercicioEmEdicao := Some(item.exercise);
      indexEmEdicao := Some(index);
      novoExercicio := item.exercise;
      showExercicioForm := true;
    }

    /**
     * `salvarEdicaoExercicio`: a draft with all four fields replaces the item at the
     * edited index, unprepared, and the edit state is cleared; otherwise nothing changes.
     */
    method SalvarEdicaoExercicio()
      requires diaAtual.Some?
      modifies this`treinosPorDia, this`novoExercicio, this`exercicioEmEdicao, this`indexEmEdicao,
               this`showExercicioForm
      ensures !AllFourFields(old(novoExercicio)) ==>
        && treinosPorDia == old(treinosPorDia) && novoExercicio == old(novoExercicio)
        && exercicioEmEdicao == old(exercicioEmEdicao) && indexEmEdicao == old(indexEmEdicao)
        && showExercicioForm == old(showExercicioForm)
      ensures AllFourFields(old(novoExercicio)) ==>
        && treinosPorDia ==
             ReplaceItem(old(treinosPorDia), diaAtual.value, old(indexEmEdicao).GetOr(-1), Single(old(novoExercicio)))
        && novoExercicio == EmptyDraft && exercicioEmEdicao == None && indexEmEdicao == None
        && !showExercicioForm
    {
      if !AllFourFields(novoExercicio) {
        return;
      }
      treinosPorDia := ReplaceItem(treinosPorDia, diaAtual.value, indexEmEdicao.GetOr(-1), Single(novoExercicio));
      novoExercicio := EmptyDraft;
      exercicioEmEdicao := None;
      indexEmEdicao := None;
      showExercicioForm := false;
    }

    /** The edit-state resets shared by finalising a combo and collapsing one. */
    method ClearComboEdit()
      modifies this`exerciciosCombinados, this`isCombinado, this`showExercicioForm,
               this`isEditingCombinado, this`indexEmEdicao
      ensures exerciciosCombinados == [] && !isCombinado && !showExercicioForm
      ensures !isEditingCombinado && indexEmEdicao == None
    {
      exerciciosCombinados := [];
      isCombinado := false;
      showExercicioForm := false;
      isEditingCombinado := false;
      indexEmEdicao := None;
    }

    /**
     * `removeExercicioDoCombo(i)` after the confirmation: member i leaves the buffer;
     * when one member is left, the combo being edited becomes that plain exercise and
     * the combo edit ends.
     */
    method RemoveExercicioDoCombo(i: int, confirmed: bool)
      requires diaAtual.Some?
      modifies this`treinosPorDia, this`exerciciosCombinados, this`isCombinado, this`showExercicioForm,
               this`isEditingCombinado, this`indexEmEdicao
      ensures !confirmed ==>
        && treinosPorDia == old(treinosPorDia) && exerciciosCombinados == old(exerciciosCombinados)
        && isCombinado == old(isCombinado) && isEditingCombinado == old(isEditingCombinado)
        && indexEmEdicao == old(indexEmEdicao) && showExercicioForm == old(showExercicioForm)
      ensures confirmed ==>
        (treinosPorDia, exerciciosCombinados) ==
          RemoveFromCombo(old(treinosPorDia), diaAtual.value, old(indexEmEdicao), old(exerciciosCombinados), i)
      ensures confirmed && |RemoveAt(old(exerciciosCombinados), i)| == 1 ==>
        !isCombinado && !showExercicioForm && !isEditingCombinado && indexEmEdicao == None
      ensures confirmed && |RemoveAt(old(exerciciosCombinados), i)| != 1 ==>
        && isCombinado == old(isCombinado) && isEditingCombinado == old(isEditingCombinado)
        && indexEmEdicao == old(indexEmEdicao) && showExercicioForm == old(showExercicioForm)
    {
      if !confirmed {
        return;
      }
      var novosExercicios := RemoveAt(exerciciosCombinados, i);
      if |novosExercicios| == 1 {
        treinosPorDia := ReplaceItem(treinosPorDia, diaAtual.value, indexEmEdicao.GetOr(-1), Single(novosExercicios[0]));
        ClearComboEdit();
      } else {
        exerciciosCombinados := novosExercicios;
      }
    }

    /**
     * The delete button of a buffered combo member, as written: it calls the day-item
     * removal with the buffer index, so the buffer is untouched.
     */
    method ComboDeleteButton(index: int, confirmed: bool) returns (written: Option<DayMap>)
      requires diaAtual.Some? && selectedWorkout.Some?
      modifies this`treinosPorDia, this`hasUnsavedChanges, this`selectedWorkout
      ensures exerciciosCombinados == old(exerciciosCombinados)
      ensures !(confirmed && diaAtual.value in old(treinosPorDia)) ==>
        && written == None && treinosPorDia == old(treinosPorDia)
        && hasUnsavedChanges == old(hasUnsavedChanges) && selectedWorkout == old(selectedWorkout)
      ensures confirmed && diaAtual.value in old(treinosPorDia) ==>
        && treinosPorDia == RemoveItem(old(treinosPorDia), diaAtual.value, index)
        && hasUnsavedChanges && written == Some(treinosPorDia)
        && selectedWorkout == Some(old(selectedWorkout).value.(treinos := treinosPorDia))
    {
      written := RemoveExercicio(diaAtual.value, index, confirmed);
    }

    /**
     * `finalizarCombo`: fewer than two members change nothing. Otherwise the combo
     * replaces the item being edited, when a combo edit is under way at a known index, or
     * joins the end of the day; in both cases the combo edit state is cleared.
     */
    method FinalizarCombo()
      requires diaAtual.Some?
      modifies this`treinosPorDia, this`exerciciosCombinados, this`isCombinado, this`showExercicioForm,
               this`isEditingCombinado, this`indexEmEdicao
      ensures |old(exerciciosCombinados)| < MinComboSize ==>
        && treinosPorDia == old(treinosPorDia) && exerciciosCombinados == old(exerciciosCombinados)
        && isCombinado == old(isCombinado) && isEditingCombinado == old(isEditingCombinado)
        && indexEmEdicao == old(indexEmEdicao) && showExercicioForm == old(showExercicioForm)
      ensures |old(exerciciosCombinados)| >= MinComboSize ==>
        && (old(isEditingCombinado) && old(indexEmEdicao).Some? ==>
              treinosPorDia == ReplaceItem(old(treinosPorDia), diaAtual.value, old(indexEmEdicao).value,
                                           Combo(old(exerciciosCombinados))))
        && (!(old(isEditingCombinado) && old(indexEmEdicao).Some?) ==>
              treinosPorDia == AppendItem(old(treinosPorDia), diaAtual.value, Combo(old(exerciciosCombinados))))
        && exerciciosCombinados == [] && !isCombinado && !showExercicioForm
        && !isEditingCombinado && indexEmEdicao == None
    {
      if |exerciciosCombinados| < MinComboSize {
        return;
      }
      var combo := Combo(exerciciosCombinados);
      if isEditingCombinado && indexEmEdicao.Some? {
        treinosPorDia := ReplaceItem(treinosPorDia, diaAtual.value, indexEmEdicao.value, combo);
      } else {
        treinosPorDia := AppendItem(treinosPorDia, diaAtual.value, combo);
      }
      ClearComboEdit();
    }

    /** The "Exercício Combinado" checkbox: turning combo mode on empties the buffer. */
    method ToggleCombinado()
      modifies this`isCombinado, this`exerciciosCombinados
      ensures isCombinado == !old(isCombinado)
      ensures exerciciosCombinados == if old(isCombinado) then old(exerciciosCombinados) else []
    {
      if !isCombinado {
        exerciciosCombinados := [];
      }
      isCombinado := !isCombinado;
    }

    /**
     * The form's open/cancel button: cancelling clears the draft, the edited exercise and
     * its index, combo mode and the combo buffer; a combo edit under way stays flagged.
     */
    method ToggleExercicioForm()
      modifies this`showExercicioForm, this`novoExercicio, this`exercicioEmEdicao, this`indexEmEdicao,
               this`isCombinado, this`exerciciosCombinados
      ensures !old(showExercicioForm) ==>
        && showExercicioForm && novoExercicio == old(novoExercicio)
        && exercicioEmEdicao == old(exercicioEmEdicao) && indexEmEdicao == old(indexEmEdicao)
        && isCombinado == old(isCombinado) && exerciciosCombinados == old(exerciciosCombinados)
      ensures old(showExercicioForm) ==>
        && !showExercicioForm && novoExercicio == EmptyDraft && exercicioEmEdicao == None
        && indexEmEdicao == None && !isCombinado && exerciciosCombinados == []
    {
      if !showExercicioForm {
        showExercicioForm := true;
        return;
      }
      novoExercicio := EmptyDraft;
      exercicioEmEdicao := None;
      indexEmEdicao := None;
      showExercicioForm := false;
      isCombinado := false;
      exerciciosCombinados := [];
    }

    /**
     * The form's submit button: in combo mode it adds the draft to the combo buffer
     * (`addExercicioCombinado`), while a plain exercise is being edited it saves the
     * edit, and otherwise it adds a new exercise.
     */
    method SubmitForm()
      requires diaAtual.Some?
      modifies this`treinosPorDia, this`hasUnsavedChanges, this`novoExercicio, this`exerciciosCombinados,
               this`showExercicioForm, this`exercicioEmEdicao, this`indexEmEdicao
      // combo mode: the draft joins the buffer
      ensures old(isCombinado) ==>
        && exerciciosCombinados == AddToCombo(old(exerciciosCombinados), old(novoExercicio))
        && novoExercicio == (if AllFourFields(old(novoExercicio)) then EmptyDraft else old(novoExercicio))
        && treinosPorDia == old(treinosPorDia) && hasUnsavedChanges == old(hasUnsavedChanges)
        && showExercicioForm == old(showExercicioForm)
        && exercicioEmEdicao == old(exercicioEmEdicao) && indexEmEdicao == old(indexEmEdicao)
      // an open edit with a complete draft: the item is replaced and the edit ends
      ensures !old(isCombinado) && old(exercicioEmEdicao).Some? && AllFourFields(old(novoExercicio)) ==>
        && treinosPorDia ==
             ReplaceItem(old(treinosPorDia), diaAtual.value, old(indexEmEdicao).GetOr(-1), Single(old(novoExercicio)))
        && novoExercicio == EmptyDraft && exercicioEmEdicao == None && indexEmEdicao == None
        && !showExercicioForm
        && hasUnsavedChanges == old(hasUnsavedChanges) && exerciciosCombinados == old(exerciciosCombinados)
      // an open edit with an incomplete draft: nothing changes
      ensures !old(isCombinado) && old(exercicioEmEdicao).Some? && !AllFourFields(old(novoExercicio)) ==>
        && treinosPorDia == old(treinosPorDia) && novoExercicio == old(novoExercicio)
        && exercicioEmEdicao == old(exercicioEmEdicao) && indexEmEdicao == old(indexEmEdicao)
        && showExercicioForm == old(showExercicioForm)
        && hasUnsavedChanges == old(hasUnsavedChanges) && exerciciosCombinados == old(exerciciosCombinados)
      // no edit open: the draft is added to the day if it is accepted
      ensures !old(isCombinado) && old(exercicioEmEdicao).None? ==>
        && treinosPorDia == AddExercise(old(treinosPorDia), diaAtual.value, old(novoExercicio))
        && exerciciosCombinados == old(exerciciosCombinados)
        && exercicioEmEdicao == old(exercicioEmEdicao) && indexEmEdicao == old(indexEmEdicao)
        && (DraftAccepted(old(novoExercicio)) ==>
              hasUnsavedChanges && novoExercicio == EmptyDraft && !showExercicioForm)
        && (!DraftAccepted(old(novoExercicio)) ==>
              && hasUnsavedChanges == old(hasUnsavedChanges) && novoExercicio == old(novoExercicio)
              && showExercicioForm == old(showExercicioForm))
    {
      if isCombinado {
        AddExercicioCombinado();
      } else if exercicioEmEdicao.Some? {
        SalvarEdicaoExercicio();
      } else {
        AddExercicio();
      }
    }

    /** The "Repetir Treino" button: the copy dialog opens. */
    method AbrirRepetir()
      modifies this`showRepetirForm
      ensures showRepetirForm
    {
      showRepetirForm := true;
    }

    /** An entry of the dialog's origin drop-down, which lists the days that have items. */
    method EscolherOrigem(d: Day)
      requires showRepetirForm && d in OrigemChoices(treinosPorDia)
      modifies this`diaOrigem
      ensures diaOrigem == Some(d)
    {
      diaOrigem := Some(d);
    }

    /**
     * An entry of the dialog's destination drop-down, which lists the plan's days other
     * than the origin. With an offered origin still in place, the copy guard then lets
     * the copy through to its confirmation.
     */
    method EscolherDestino(d: Day)
      requires showRepetirForm && selectedWorkout.Some?
      requires d in DestinoChoices(selectedWorkout.value.frequenciaTreino, diaOrigem)
      modifies this`diaDestino
      ensures diaDestino == Some(d)
      ensures diaOrigem.Some? && diaOrigem.value in OrigemChoices(treinosPorDia) ==>
        CopyAllowed(CheckCopy(treinosPorDia, diaOrigem, diaDestino))
    {
      diaDestino := Some(d);
      if diaOrigem.Some? && diaOrigem.value in OrigemChoices(treinosPorDia) {
        assert DayItems(treinosPorDia, diaOrigem.value) != [];
      }
    }

    /** The dialog's "Cancelar": it closes and both chosen days are cleared. */
    method CancelarRepetir()
      modifies this`showRepetirForm, this`diaOrigem, this`diaDestino
      ensures !showRepetirForm && diaOrigem == None && diaDestino == None
    {
      showRepetirForm := false;
      diaOrigem := None;
      diaDestino := None;
    }

    /**
     * `handleRepetirTreino` and, once confirmed, `copiarExercicios`: the guards decide
     * the outcome; a confirmed copy overwrites the destination with the origin's list,
     * marks the edit unsaved, writes the plan and closes the dialog.
     */
    method HandleRepetirTreino(confirmed: bool) returns (check: CopyCheck, written: Option<DayMap>)
      requires selectedWorkout.Some?
      modifies this`treinosPorDia, this`hasUnsavedChanges, this`selectedWorkout, this`showRepetirForm,
               this`diaOrigem, this`diaDestino
      ensures check == CheckCopy(old(treinosPorDia), old(diaOrigem), old(diaDestino))
      ensures treinosPorDia == CopyAfterConfirm(old(treinosPorDia), old(diaOrigem), old(diaDestino), confirmed)
      ensures !(CopyAllowed(check) && confirmed) ==>
        && written == None && hasUnsavedChanges == old(hasUnsavedChanges)
        && selectedWorkout == old(selectedWorkout) && showRepetirForm == old(showRepetirForm)
        && diaOrigem == old(diaOrigem) && diaDestino == old(diaDestino)
      ensures CopyAllowed(check) && confirmed ==>
        && written == Some(treinosPorDia) && hasUnsavedChanges
        && selectedWorkout == Some(old(selectedWorkout).value.(treinos := treinosPorDia))
        && !showRepetirForm && diaOrigem == None && diaDestino == None
    {
      check := CheckCopy(treinosPorDia, diaOrigem, diaDestino);
      if !(CopyAllowed(check) && confirmed) {
        return check, None;
      }
      var novos := CopyDay(treinosPorDia, diaOrigem.value, diaDestino.value);
      treinosPorDia := novos;
      hasUnsavedChanges := true;
      selectedWorkout := Some(selectedWorkout.value.(treinos := novos));
      showRepetirForm := false;
      diaOrigem := None;
      diaDestino := None;
      return check, Some(novos);
    }

    /**
     * The header's back arrow: from a day with unsaved edits it offers Save (write and
     * close the day), Discard (close the day keeping the local edits unsaved) or Cancel;
     * otherwise it steps back one screen: day, then plan, then user, then leaves.
     */
    method Back(choice: BackChoice) returns (leave: bool, written: Option<DayMap>)
      requires Valid()
      modifies this`diaAtual, this`hasUnsavedChanges, this`selectedWorkout, this`selectedUser
      ensures Valid()
      ensures treinosPorDia == old(treinosPorDia)
      ensures leave <==> old(diaAtual).None? && old(selectedWorkout).None? && old(selectedUser).None?
      ensures written.Some? <==> old(diaAtual).Some? && old(hasUnsavedChanges) && choice == Save
      ensures written.Some? ==> written.value == treinosPorDia
      ensures old(diaAtual).Some? && old(hasUnsavedChanges) && choice == Cancel ==>
        diaAtual == old(diaAtual) && hasUnsavedChanges
      ensures old(diaAtual).Some? && !(old(hasUnsavedChanges) && choice == Cancel) ==>
        diaAtual == None && !hasUnsavedChanges && selectedWorkout.Some?
      ensures old(diaAtual).None? && old(selectedWorkout).Some? ==>
        selectedWorkout == None && selectedUser == old(selectedUser)
      ensures old(diaAtual).None? && old(selectedWorkout).None? && old(selectedUser).Some? ==>
        selectedUser == None
      // what each choice leaves as it was
      ensures old(diaAtual).Some? && old(hasUnsavedChanges) && choice == Save ==>
        && selectedUser == old(selectedUser)
        && selectedWorkout == Some(old(selectedWorkout).value.(treinos := treinosPorDia))
      ensures old(diaAtual).Some? && !(old(hasUnsavedChanges) && choice == Save) ==>
        selectedUser == old(selectedUser) && selectedWorkout == old(selectedWorkout)
      ensures old(diaAtual).Some? && old(hasUnsavedChanges) && choice == Cancel ==>
        hasUnsavedChanges == old(hasUnsavedChanges)
      ensures old(diaAtual).None? ==> diaAtual == None && hasUnsavedChanges == old(hasUnsavedChanges)
      ensures old(diaAtual).None? && old(selectedWorkout).None? ==> selectedWorkout == None
      ensures old(diaAtual).None? && old(selectedWorkout).None? && old(selectedUser).None? ==>
        selectedUser == old(selectedUser)
    {
      leave, written := false, None;
      if diaAtual.Some? {
        if hasUnsavedChanges {
          match choice
          case Save =>
            var w := SalvarAlteracoes();
            written := Some(w);
          case Discard =>
            hasUnsavedChanges := false;
            diaAtual := None;
          case Cancel =>
        } else {
          diaAtual := None;
        }
      } else if selectedWorkout.Some? {
        selectedWorkout := None;
      } else if selectedUser.Some? {
        selectedUser := None;
      } else {
        leave := true;
      }
    }
  }
}
