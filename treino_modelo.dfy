/**
 * The template-authoring screen (`TreinoModelo`): an admin builds a template plan for a
 * training level, saves it into the catalogue of templates grouped by level, deletes
 * templates and custom levels, and assigns a template to a user as a new plan.
 */
module TreinoModelo {
  import opened Wrappers
  import opened WorkoutPlan

  /** A training level: one of the three built-in ones or a custom one. */
  datatype Level = Level(id: string, labelText: string)  // `label` in the stored document

  const BuiltinLevels: seq<Level> := [
    Level("iniciante", "Iniciante"),
    Level("intermediario", "Intermedi\U{00E1}rio"),
    Level("avancado", "Avan\U{00E7}ado")
  ]

  /** A stored template (`treinosModelo` collection) with its document id. */
  datatype Template = Template(
    id: string,
    nivel: string,
    dataCreated: int,
    frequenciaTreino: int,
    treinos: DayMap,
    nomeNivel: Option<string>)

  /** `treinosModeloExistentes`: level id to the templates of that level. */
  type Catalogue = map<string, seq<Template>>

  /** The shape the loader builds: only levels that have templates, each under its own level. */
  predicate Grouped(c: Catalogue) {
    forall k :: k in c ==> |c[k]| > 0 && forall t :: t in c[k] ==> t.nivel == k
  }

  // ---------------------------------------------------------------------------
  // Saving: dropping the empty days
  // ---------------------------------------------------------------------------

  predicate NoEmptyDays(m: DayMap) {
    forall d :: d in m ==> m[d] != []
  }

  /** The days of m that have at least one item, with their lists. */
  function NonEmptyDays(m: DayMap): (r: DayMap)
    ensures NoEmptyDays(r)
    ensures forall d :: d in r ==> d in m && r[d] == m[d]
    ensures forall d :: d in m && m[d] != [] ==> d in r
  {
    map d | d in m && m[d] != [] :: m[d]
  }

  /** Stripping is the identity on a map without empty days, so it is idempotent. */
  lemma NonEmptyDaysIdempotent(m: DayMap)
    ensures NoEmptyDays(m) ==> NonEmptyDays(m) == m
    ensures NonEmptyDays(NonEmptyDays(m)) == NonEmptyDays(m)
  {
    if NoEmptyDays(m) {
      assert forall d :: d in NonEmptyDays(m) <==> d in m;
    }
    var r := NonEmptyDays(m);
    assert forall d :: d in NonEmptyDays(r) <==> d in r;
  }

  /** Nothing is kept exactly when every day is empty, and combos survive stripping intact. */
  lemma NonEmptyDaysEmpty(m: DayMap)
    ensures NonEmptyDays(m) == map[] <==> forall d :: d in m ==> m[d] == []
    ensures WellFormed(m) ==> WellFormed(NonEmptyDays(m))
  {
    if NonEmptyDays(m) == map[] {
      assert forall d :: d in m && m[d] != [] ==> d in NonEmptyDays(m);
    }
    if forall d :: d in m ==> m[d] == [] {
      assert forall d :: d !in NonEmptyDays(m);
    }
  }

  /** A non-empty set of days has a member. */
  lemma SomeDayIn(s: set<Day>)
    requires s != {}
    ensures exists d :: d in s
  {
    if forall d :: d !in s {
      assert false;
    }
  }

  /**
   * The `forEach` over the day entries that builds `treinosLimpos` and `temExercicios`.
   * Entry order does not matter: every non-empty day is copied, every empty one skipped.
   */
  method StripEmptyDays(m: DayMap) returns (treinosLimpos: DayMap, temExercicios: bool)
    ensures treinosLimpos == NonEmptyDays(m)
    ensures temExercicios <==> exists d :: d in m && m[d] != []
  {
    treinosLimpos := map[];
    temExercicios := false;
    var pendentes := m.Keys;
    while pendentes != {}
      invariant pendentes <= m.Keys
      invariant forall d :: d in treinosLimpos <==> d in m && d !in pendentes && m[d] != []
      invariant forall d :: d in treinosLimpos ==> treinosLimpos[d] == m[d]
      invariant temExercicios <==> exists d :: d in treinosLimpos
      decreases pendentes
    {
      SomeDayIn(pendentes);
      var d :| d in pendentes;
      if m[d] != [] {
        treinosLimpos := treinosLimpos[d := m[d]];
        assert d in treinosLimpos;
        temExercicios := true;
      }
      pendentes := pendentes - {d};
    }
    assert forall d :: d in treinosLimpos <==> d in NonEmptyDays(m);
    assert forall d :: d in treinosLimpos ==> treinosLimpos[d] == NonEmptyDays(m)[d];
    if temExercicios {
      var d :| d in treinosLimpos;
      assert d in m && m[d] != [];
    }
  }

  // ---------------------------------------------------------------------------
  // Catalogue updates
  // ---------------------------------------------------------------------------

  /** `list.filter(t => t.id !== id)`. */
  function WithoutId(ts: seq<Template>, id: string): (r: seq<Template>)
    ensures |r| <= |ts|
    ensures forall t :: t in r <==> t in ts && t.id != id
    ensures (forall t :: t in ts ==> t.id != id) ==> r == ts
  {
    if ts == [] then []
    else if ts[0].id == id then WithoutId(ts[1..], id)
    else [ts[0]] + WithoutId(ts[1..], id)
  }

  /**
   * The local-state update after deleting template `id` of level `nivel`: the template
   * leaves that level's list, and the level key is dropped once its list is empty.
   */
  function RemoveTemplate(c: Catalogue, nivel: string, id: string): (r: Catalogue)
    ensures nivel !in c ==> r == c
    ensures forall k :: k != nivel ==> (k in r <==> k in c) && (k in r ==> r[k] == c[k])
    ensures nivel in c ==> (nivel in r <==> exists t :: t in c[nivel] && t.id != id)
    ensures nivel in r ==> r[nivel] != [] && forall t :: t in r[nivel] <==> t in c[nivel] && t.id != id
  {
    if nivel !in c then c
    else
      var rest := WithoutId(c[nivel], id);
      assert rest == [] ==> forall t :: t in c[nivel] ==> t.id == id;
      assert rest != [] ==> rest[0] in c[nivel] && rest[0].id != id;
      if rest == [] then c - {nivel} else c[nivel := rest]
  }

  /** Deleting a template keeps the catalogue grouped and leaves no template with that id in its level. */
  lemma RemoveTemplateKeepsGrouped(c: Catalogue, nivel: string, id: string)
    requires Grouped(c)
    ensures Grouped(RemoveTemplate(c, nivel, id))
    ensures nivel in RemoveTemplate(c, nivel, id) ==>
      forall t :: t in RemoveTemplate(c, nivel, id)[nivel] ==> t.id != id
  {
  }

  /**
   * `findIndex(x => x.id === id)`, and `find` by id: the first position whose id
   * (read by `key`) is `id`, or -1 when there is none.
   */
  function IndexOf<T>(xs: seq<T>, key: T -> string, id: string): (i: int)
    ensures -1 <= i < |xs|
    ensures i >= 0 ==> key(xs[i]) == id && forall j :: 0 <= j < i ==> key(xs[j]) != id
    ensures i == -1 ==> forall j :: 0 <= j < |xs| ==> key(xs[j]) != id
  {
    if xs == [] then -1
    else if key(xs[0]) == id then 0
    else
      var i := IndexOf(xs[1..], key, id);
      if i == -1 then -1 else i + 1
  }

  function TemplateId(t: Template): string {
    t.id
  }

  /** The position of the template with that id in a level's list, or -1. */
  function IndexOfId(ts: seq<Template>, id: string): int {
    IndexOf(ts, TemplateId, id)
  }

  /**
   * The local-state update after saving an edited template: the template with `rec.id`
   * in level `nivel` becomes `rec`; when there is no such template nothing changes.
   */
  function UpdateTemplate(c: Catalogue, nivel: string, rec: Template): (r: Catalogue)
    ensures r.Keys == c.Keys
    ensures forall k :: k in c && k != nivel ==> r[k] == c[k]
    ensures nivel in c ==> |r[nivel]| == |c[nivel]|
    ensures nivel in c && IndexOfId(c[nivel], rec.id) >= 0 ==>
      r[nivel] == c[nivel][IndexOfId(c[nivel], rec.id) := rec]
    ensures nivel in c && IndexOfId(c[nivel], rec.id) == -1 ==> r == c
  {
    if nivel in c && IndexOfId(c[nivel], rec.id) >= 0 then
      c[nivel := c[nivel][IndexOfId(c[nivel], rec.id) := rec]]
    else c
  }

  /** The local-state update after creating a template: it joins the end of its level's list. */
  function AddTemplate(c: Catalogue, nivel: string, rec: Template): (r: Catalogue)
    ensures nivel in r && |r[nivel]| >= 1 && r[nivel][|r[nivel]| - 1] == rec
    ensures nivel in c ==> r[nivel] == c[nivel] + [rec]
    ensures nivel !in c ==> r[nivel] == [rec]
    ensures forall k :: k != nivel ==> (k in r <==> k in c) && (k in r ==> r[k] == c[k])
  {
    c[nivel := (if nivel in c then c[nivel] else []) + [rec]]
  }

  /** Saving a template under its own level keeps the catalogue grouped. */
  lemma SaveKeepsGrouped(c: Catalogue, rec: Template)
    requires Grouped(c)
    ensures Grouped(UpdateTemplate(c, rec.nivel, rec))
    ensures Grouped(AddTemplate(c, rec.nivel, rec))
  {
    var nivel := rec.nivel;
    if nivel in c && IndexOfId(c[nivel], rec.id) >= 0 {
      var s := c[nivel];
      var i := IndexOfId(s, rec.id);
      forall t: Template | t in s[i := rec]
        ensures t.nivel == nivel
      {
        var j :| 0 <= j < |s[i := rec]| && s[i := rec][j] == t;
        if j != i {
          assert s[j] in s;
        }
      }
    }
    var a := AddTemplate(c, nivel, rec);
    forall t: Template | t in a[nivel]
      ensures t.nivel == nivel
    {
      if nivel in c {
        assert t in c[nivel] || t == rec;
      }
    }
  }

  // ---------------------------------------------------------------------------
  // Levels
  // ---------------------------------------------------------------------------

  function LevelId(l: Level): string {
    l.id
  }

  /** `nomeNivel`: the label of the first known level (built-in ones first) with that id. */
  function LevelLabel(custom: seq<Level>, id: string): Option<string> {
    var all := BuiltinLevels + custom;
    var i := IndexOf(all, LevelId, id);
    if i >= 0 then Some(all[i].labelText) else None
  }

  /** A built-in level's label wins over a custom level with the same id. */
  lemma BuiltinLabelsFirst(custom: seq<Level>)
    ensures LevelLabel(custom, "iniciante") == Some("Iniciante")
    ensures LevelLabel(custom, "intermediario") == Some("Intermedi\U{00E1}rio")
    ensures LevelLabel(custom, "avancado") == Some("Avan\U{00E7}ado")
  {
    var all := BuiltinLevels + custom;
    assert all[0] == Level("iniciante", "Iniciante");
    assert all[1] == Level("intermediario", "Intermedi\U{00E1}rio") && all[2] == Level("avancado", "Avan\U{00E7}ado");
  }

  /** A custom level's label is found when no built-in level shares its id. */
  lemma CustomLabelFound(custom: seq<Level>, k: int)
    requires 0 <= k < |custom|
    requires forall j :: 0 <= j < k ==> custom[j].id != custom[k].id
    requires forall b :: b in BuiltinLevels ==> b.id != custom[k].id
    ensures LevelLabel(custom, custom[k].id) == Some(custom[k].labelText)
  {
    var all := BuiltinLevels + custom;
    var id := custom[k].id;
    assert all[|BuiltinLevels| + k] == custom[k];
  }

  /** `prev.filter(nivel => nivel.id !== nivelId)`. */
  function WithoutLevel(levels: seq<Level>, id: string): (r: seq<Level>)
    ensures |r| <= |levels|
    ensures forall l :: l in r <==> l in levels && l.id != id
  {
    if levels == [] then []
    else if levels[0].id == id then WithoutLevel(levels[1..], id)
    else [levels[0]] + WithoutLevel(levels[1..], id)
  }

  /** Deleting a custom level is refused exactly while the catalogue holds templates of that level. */
  predicate LevelInUse(c: Catalogue, nivelId: string) {
    nivelId in c && |c[nivelId]| > 0
  }

  /** In a grouped catalogue a level is in use exactly when some template belongs to it. */
  lemma LevelInUseMeansTemplates(c: Catalogue, nivelId: string)
    requires Grouped(c)
    ensures LevelInUse(c, nivelId) <==> exists k, t :: k in c && t in c[k] && t.nivel == nivelId
  {
    if LevelInUse(c, nivelId) {
      var t := c[nivelId][0];
      assert t in c[nivelId];
    }
  }

  // ---------------------------------------------------------------------------
  // Assigning a template to a user
  // ---------------------------------------------------------------------------

  /**
   * The duplicate test: a stored plan of the same user with the same frequency and an
   * equal day map (`JSON.stringify` equality, taken here as structural equality).
   */
  predicate SamePlan(p: PlanDoc, user: User, t: Template) {
    p.userId == user.id && p.frequenciaTreino == t.frequenciaTreino && p.treinos == t.treinos
  }

  /** `treinosExistentes`: the plans among `plans` that duplicate the template for the user. */
  method FindDuplicates(plans: seq<PlanDoc>, user: User, t: Template) returns (dups: seq<PlanDoc>)
    ensures |dups| <= |plans|
    ensures forall p :: p in dups <==> p in plans && SamePlan(p, user, t)
  {
    dups := [];
    for k := 0 to |plans|
      invariant |dups| <= k
      invariant forall p :: p in dups <==> p in plans[..k] && SamePlan(p, user, t)
    {
      assert plans[..k + 1] == plans[..k] + [plans[k]];
      if SamePlan(plans[k], user, t) {
        dups := dups + [plans[k]];
      }
    }
    assert plans[..|plans|] == plans;
  }

  datatype Assignment =
    | NoTemplate                                     // `treino` is null: the error path
    | DuplicateCancelled                             // a duplicate exists and the admin cancelled
    | Assigned(plan: NewPlan, duplicateWarned: bool) // the plan written to `treinos`

  /**
   * `atribuirTreino`: a missing template is an error; otherwise the new plan copies the
   * template's frequency and day map verbatim for the user, after a confirmation that is
   * asked for exactly when the user already has an identical plan.
   */
  method AtribuirTreino(t: Option<Template>, user: User, plans: seq<PlanDoc>, confirmDuplicate: bool, now: int)
    returns (a: Assignment)
    ensures t.None? <==> a == NoTemplate
    ensures t.Some? ==>
      (a == DuplicateCancelled <==> (exists p :: p in plans && SamePlan(p, user, t.value)) && !confirmDuplicate)
    ensures a.Assigned? ==>
      && a.plan == NewPlan(user.id, user.name, now, t.value.frequenciaTreino, t.value.treinos)
      && (a.duplicateWarned <==> exists p :: p in plans && SamePlan(p, user, t.value))
  {
    if t.None? {
      return NoTemplate;
    }
    var dups := FindDuplicates(plans, user, t.value);
    var plan := NewPlan(user.id, user.name, now, t.value.frequenciaTreino, t.value.treinos);
    if |dups| > 0 {
      assert dups[0] in dups;
      if !confirmDuplicate {
        return DuplicateCancelled;
      }
      return Assigned(plan, true);
    }
    assert forall p :: p in plans && SamePlan(p, user, t.value) ==> p in dups;
    return Assigned(plan, false);
  }

  // ---------------------------------------------------------------------------
  // The screen
  // ---------------------------------------------------------------------------

  datatype SaveOutcome =
    | MissingLevel
    | MissingFrequency
    | NoDays          // the day map has no keys at all
    | NoExercises     // every day is empty and this is a new template
    | Deleted         // every day is empty while editing: the template is deleted
    | Updated(rec: Template)
    | Created(rec: Template)

  /** The state of the template-authoring screen. */
  class TemplateEditor {
    var nivelSelecionado: Option<string>
    var treinosPorDia: DayMap
    var diaAtual: Option<Day>
    var frequenciaTreino: Option<int>
    var novoExercicio: Exercise
    var isCombinado: bool
    var exerciciosCombinados: seq<Exercise>
    var hasUnsavedChanges: bool
    var niveisPersonalizados: seq<Level>
    var treinosModeloExistentes: Catalogue
    var treinoEmEdicao: Option<Template>
    var treinoParaVisualizar: Option<seq<Template>>

    ghost predicate Valid()
      reads this
    {
      Grouped(treinosModeloExistentes)
    }

    /** The template viewer only opens on a non-empty list. */
    ghost predicate ViewerValid()
      reads this
    {
      treinoParaVisualizar.Some? ==> |treinoParaVisualizar.value| > 0
    }

    /** The screen after loading the custom levels and the catalogue. */
    constructor (niveis: seq<Level>, catalogo: Catalogue)
      requires Grouped(catalogo)
      ensures Valid() && ViewerValid()
      ensures nivelSelecionado == None && treinosPorDia == map[] && diaAtual == None
      ensures frequenciaTreino == None && novoExercicio == EmptyDraft && !isCombinado
      ensures exerciciosCombinados == [] && !hasUnsavedChanges && treinoEmEdicao == None
      ensures niveisPersonalizados == niveis && treinosModeloExistentes == catalogo
      ensures treinoParaVisualizar == None
    {
      nivelSelecionado := None;
      treinosPorDia := map[];
      diaAtual := None;
      frequenciaTreino := None;
      novoExercicio := EmptyDraft;
      isCombinado := false;
      exerciciosCombinados := [];
      hasUnsavedChanges := false;
      niveisPersonalizados := niveis;
      treinosModeloExistentes := catalogo;
      treinoEmEdicao := None;
      treinoParaVisualizar := None;
    }

    /**
     * A level button: a level that already has templates opens the viewer on them;
     * any other level becomes the selected one.
     */
    method SelecionarNivel(nivelId: string)
      requires Valid() && ViewerValid()
      modifies this`nivelSelecionado, this`treinoParaVisualizar
      ensures ViewerValid()
      ensures LevelInUse(treinosModeloExistentes, nivelId) ==>
        && treinoParaVisualizar == Some(treinosModeloExistentes[nivelId])
        && treinoParaVisualizar.value[0].nivel == nivelId
        && nivelSelecionado == old(nivelSelecionado)
      ensures !LevelInUse(treinosModeloExistentes, nivelId) ==>
        nivelSelecionado == Some(nivelId) && treinoParaVisualizar == old(treinoParaVisualizar)
    {
      if nivelId in treinosModeloExistentes && |treinosModeloExistentes[nivelId]| > 0 {
        treinoParaVisualizar := Some(treinosModeloExistentes[nivelId]);
      } else {
        nivelSelecionado := Some(nivelId);
      }
    }

    /** The viewer's "Fechar" button. */
    method FecharVisualizacao()
      modifies this`treinoParaVisualizar
      ensures ViewerValid()
      ensures treinoParaVisualizar == None
    {
      treinoParaVisualizar := None;
    }

    /** The viewer's "Criar Novo" button: the viewer closes and the viewed templates' level is selected. */
    method CriarNovo()
      requires ViewerValid() && treinoParaVisualizar.Some?
      modifies this`nivelSelecionado, this`treinoParaVisualizar
      ensures ViewerValid()
      ensures treinoParaVisualizar == None
      ensures nivelSelecionado == Some(old(treinoParaVisualizar).value[0].nivel)
    {
      nivelSelecionado := Some(treinoParaVisualizar.value[0].nivel);
      treinoParaVisualizar := None;
    }

    /** A frequency button, one of 1 to 7. */
    method SelecionarFrequencia(n: int)
      requires 1 <= n <= 7
      modifies this`frequenciaTreino
      ensures frequenciaTreino == Some(n)
    {
      frequenciaTreino := Some(n);
    }

    /** A day button: the buttons run from 1 to the chosen frequency. */
    method SelecionarDia(dia: Day)
      requires frequenciaTreino.Some? && 1 <= dia <= frequenciaTreino.value
      modifies this`diaAtual
      ensures diaAtual == Some(dia)
    {
      diaAtual := Some(dia);
    }

    /** "Voltar para seleção de dias": the day closes, without asking about unsaved changes. */
    method VoltarParaDias()
      modifies this`diaAtual
      ensures diaAtual == None
    {
      diaAtual := None;
    }

    /** `addExercicioCombinado`: a complete draft joins the combo buffer and the form is cleared. */
    method AddExercicioCombinado()
      modifies this`exerciciosCombinados, this`novoExercicio
      ensures exerciciosCombinados == AddToCombo(old(exerciciosCombinados), old(novoExercicio))
      ensures novoExercicio == if AllFourFields(old(novoExercicio)) then EmptyDraft else old(novoExercicio)
    {
      if !AllFourFields(novoExercicio) {
        return;
      }
      exerciciosCombinados := exerciciosCombinados + [novoExercicio];
      novoExercicio := EmptyDraft;
    }

    /**
     * `addExercicio`: in combo mode it is `addExercicioCombinado`; otherwise an accepted
     * draft is prepared (Cardio sets "1") and appended to the current day, and a rejected
     * one changes nothing.
     */
    method AddExercicio()
      requires diaAtual.Some?
      modifies this`treinosPorDia, this`hasUnsavedChanges, this`novoExercicio, this`exerciciosCombinados
      ensures old(isCombinado) ==>
        && treinosPorDia == old(treinosPorDia) && hasUnsavedChanges == old(hasUnsavedChanges)
        && exerciciosCombinados == AddToCombo(old(exerciciosCombinados), old(novoExercicio))
        && novoExercicio == if AllFourFields(old(novoExercicio)) then EmptyDraft else old(novoExercicio)
      ensures !old(isCombinado) ==>
        && treinosPorDia == AddExercise(old(treinosPorDia), diaAtual.value, old(novoExercicio))
        && exerciciosCombinados == old(exerciciosCombinados)
        && (DraftAccepted(old(novoExercicio)) ==> hasUnsavedChanges && novoExercicio == EmptyDraft)
        && (!DraftAccepted(old(novoExercicio)) ==>
              hasUnsavedChanges == old(hasUnsavedChanges) && novoExercicio == old(novoExercicio))
    {
      if isCombinado {
        AddExercicioCombinado();
        return;
      }
      if !DraftAccepted(novoExercicio) {
        return;
      }
      treinosPorDia := AppendItem(treinosPorDia, diaAtual.value, Single(Prepared(novoExercicio)));
      hasUnsavedChanges := true;
      novoExercicio := EmptyDraft;
    }

    /** `finalizarCombo`: a buffer of two or more becomes one combo at the end of the current day. */
    method FinalizarCombo()
      requires diaAtual.Some?
      modifies this`treinosPorDia, this`exerciciosCombinados, this`isCombinado, this`hasUnsavedChanges
      ensures (treinosPorDia, exerciciosCombinados) ==
              FinalizeCombo(old(treinosPorDia), diaAtual.value, old(exerciciosCombinados))
      ensures |old(exerciciosCombinados)| < MinComboSize ==>
                isCombinado == old(isCombinado) && hasUnsavedChanges == old(hasUnsavedChanges)
      ensures |old(exerciciosCombinados)| >= MinComboSize ==> !isCombinado && hasUnsavedChanges
    {
      ghost var r := FinalizeCombo(treinosPorDia, diaAtual.value, exerciciosCombinados);
      if |exerciciosCombinados| >= MinComboSize {
        assert r == (AppendItem(treinosPorDia, diaAtual.value, Combo(exerciciosCombinados)), []);
        treinosPorDia := AppendItem(treinosPorDia, diaAtual.value, Combo(exerciciosCombinados));
        exerciciosCombinados := [];
        isCombinado := false;
        hasUnsavedChanges := true;
      }
    }

    /** The trash button on item `index` of the current day. */
    method RemoverItem(index: int)
      requires diaAtual.Some?
      modifies this`treinosPorDia, this`hasUnsavedChanges
      ensures treinosPorDia == RemoveItem(old(treinosPorDia), diaAtual.value, index)
      ensures hasUnsavedChanges
    {
      treinosPorDia := RemoveItem(treinosPorDia, diaAtual.value, index);
      hasUnsavedChanges := true;
    }

    /** The remove button on entry `index` of the combo buffer. */
    method RemoverDoCombo(index: int)
      modifies this`exerciciosCombinados
      ensures exerciciosCombinados == RemoveAt(old(exerciciosCombinados), index)
    {
      exerciciosCombinados := RemoveAt(exerciciosCombinados, index);
    }

    /** The "Exercício Combinado" checkbox. */
    method ToggleCombinado()
      modifies this`isCombinado
      ensures isCombinado == !old(isCombinado)
    {
      isCombinado := !isCombinado;
    }

    /** `iniciarEdicao`: load a template into the form for editing. */
    method IniciarEdicao(t: Template)
      modifies this`nivelSelecionado, this`frequenciaTreino, this`treinosPorDia, this`treinoEmEdicao,
               this`hasUnsavedChanges, this`treinoParaVisualizar
      ensures ViewerValid() && treinoParaVisualizar == None
      ensures nivelSelecionado == Some(t.nivel) && frequenciaTreino == Some(t.frequenciaTreino)
      ensures treinosPorDia == t.treinos && treinoEmEdicao == Some(t) && hasUnsavedChanges
    {
      treinoParaVisualizar := None;
      nivelSelecionado := Some(t.nivel);
      frequenciaTreino := Some(t.frequenciaTreino);
      treinosPorDia := t.treinos;
      treinoEmEdicao := Some(t);
      hasUnsavedChanges := true;
    }

    /** The field resets shared by a successful save and the delete-on-empty path. */
    method ClearForm()
      modifies this`nivelSelecionado, this`frequenciaTreino, this`treinosPorDia, this`diaAtual,
               this`treinoEmEdicao, this`hasUnsavedChanges
      ensures nivelSelecionado == None && frequenciaTreino == None && treinosPorDia == map[]
      ensures diaAtual == None && treinoEmEdicao == None && !hasUnsavedChanges
    {
      nivelSelecionado := None;
      frequenciaTreino := None;
      treinosPorDia := map[];
      diaAtual := None;
      treinoEmEdicao := None;
      hasUnsavedChanges := false;
    }

    /**
     * `salvarTreinoModelo`. The guards run in order (level, frequency, any day key); then
     * the empty days are stripped. With nothing left an edited template is deleted and a
     * new one is refused. Otherwise the record carries the stripped days, the original
     * creation date when editing (else `now`) and the level's label; it replaces the
     * edited template or joins the catalogue under `newId`. Every accepted save clears the form.
     */
    method SalvarTreinoModelo(newId: string, now: int) returns (out: SaveOutcome)
      requires Valid()
      modifies this`nivelSelecionado, this`frequenciaTreino, this`treinosPorDia, this`diaAtual,
               this`treinoEmEdicao, this`hasUnsavedChanges, this`treinosModeloExistentes
      ensures Valid()
      ensures out == MissingLevel <==> old(nivelSelecionado).None?
      ensures out == MissingFrequency <==> old(nivelSelecionado).Some? && old(frequenciaTreino).None?
      ensures out == NoDays <==>
        old(nivelSelecionado).Some? && old(frequenciaTreino).Some? && old(treinosPorDia) == map[]
      ensures out == NoExercises <==>
        && old(nivelSelecionado).Some? && old(frequenciaTreino).Some? && old(treinosPorDia) != map[]
        && NonEmptyDays(old(treinosPorDia)) == map[] && old(treinoEmEdicao).None?
      ensures out == Deleted <==>
        && old(nivelSelecionado).Some? && old(frequenciaTreino).Some? && old(treinosPorDia) != map[]
        && NonEmptyDays(old(treinosPorDia)) == map[] && old(treinoEmEdicao).Some?
      ensures out in {MissingLevel, MissingFrequency, NoDays, NoExercises} ==>
        && nivelSelecionado == old(nivelSelecionado) && frequenciaTreino == old(frequenciaTreino)
        && treinosPorDia == old(treinosPorDia) && diaAtual == old(diaAtual)
        && treinoEmEdicao == old(treinoEmEdicao) && hasUnsavedChanges == old(hasUnsavedChanges)
        && treinosModeloExistentes == old(treinosModeloExistentes)
      ensures out == Deleted ==>
        treinosModeloExistentes ==
          RemoveTemplate(old(treinosModeloExistentes), old(nivelSelecionado).value, old(treinoEmEdicao).value.id)
      ensures out.Updated? || out.Created? ==>
        && out.rec.nivel == old(nivelSelecionado).value
        && out.rec.frequenciaTreino == old(frequenciaTreino).value
        && out.rec.treinos == NonEmptyDays(old(treinosPorDia)) && out.rec.treinos != map[]
        && out.rec.nomeNivel == LevelLabel(niveisPersonalizados, out.rec.nivel)
      ensures out.Updated? <==>
        && old(nivelSelecionado).Some? && old(frequenciaTreino).Some? && old(treinosPorDia) != map[]
        && NonEmptyDays(old(treinosPorDia)) != map[] && old(treinoEmEdicao).Some?
      ensures out.Updated? ==>
        && out.rec.id == old(treinoEmEdicao).value.id
        && out.rec.dataCreated == old(treinoEmEdicao).value.dataCreated
        && treinosModeloExistentes == UpdateTemplate(old(treinosModeloExistentes), out.rec.nivel, out.rec)
      ensures out.Created? ==>
        && out.rec.id == newId && out.rec.dataCreated == now
        && treinosModeloExistentes == AddTemplate(old(treinosModeloExistentes), out.rec.nivel, out.rec)
      ensures out in {Deleted} || out.Updated? || out.Created? ==>
        && nivelSelecionado == None && frequenciaTreino == None && treinosPorDia == map[]
        && diaAtual == None && treinoEmEdicao == None && !hasUnsavedChanges
    {
      if nivelSelecionado.None? {
        return MissingLevel;
      }
      if frequenciaTreino.None? {
        return MissingFrequency;
      }
      if treinosPorDia == map[] {
        return NoDays;
      }
      NonEmptyDaysEmpty(treinosPorDia);
      var treinosLimpos, temExercicios := StripEmptyDays(treinosPorDia);
      var nivel := nivelSelecionado.value;
      if !temExercicios && treinoEmEdicao.Some? {
        RemoveTemplateKeepsGrouped(treinosModeloExistentes, nivel, treinoEmEdicao.value.id);
        treinosModeloExistentes := RemoveTemplate(treinosModeloExistentes, nivel, treinoEmEdicao.value.id);
        ClearForm();
        return Deleted;
      }
      if !temExercicios {
        return NoExercises;
      }
      var dataCreated := if treinoEmEdicao.Some? then treinoEmEdicao.value.dataCreated else now;
      var nomeNivel := LevelLabel(niveisPersonalizados, nivel);
      if treinoEmEdicao.Some? {
        var rec := Template(treinoEmEdicao.value.id, nivel, dataCreated, frequenciaTreino.value, treinosLimpos, nomeNivel);
        SaveKeepsGrouped(treinosModeloExistentes, rec);
        treinosModeloExistentes := UpdateTemplate(treinosModeloExistentes, nivel, rec);
        out := Updated(rec);
      } else {
        var rec := Template(newId, nivel, dataCreated, frequenciaTreino.value, treinosLimpos, nomeNivel);
        SaveKeepsGrouped(treinosModeloExistentes, rec);
        treinosModeloExistentes := AddTemplate(treinosModeloExistentes, nivel, rec);
        out := Created(rec);
      }
      ClearForm();
    }

    /** `excluirTreinoModelo`: the catalogue loses the template, and its level once emptied. */
    method ExcluirTreinoModelo(t: Template)
      requires Valid()
      modifies this`treinosModeloExistentes, this`treinoParaVisualizar
      ensures Valid()
      ensures treinosModeloExistentes == RemoveTemplate(old(treinosModeloExistentes), t.nivel, t.id)
      ensures ViewerValid() && treinoParaVisualizar == None
    {
      treinoParaVisualizar := None;
      RemoveTemplateKeepsGrouped(treinosModeloExistentes, t.nivel, t.id);
      treinosModeloExistentes := RemoveTemplate(treinosModeloExistentes, t.nivel, t.id);
    }

    /** `excluirNivel`: refused while the level has templates, else the custom level is removed. */
    method ExcluirNivel(nivelId: string) returns (refused: bool)
      modifies this`niveisPersonalizados
      ensures refused <==> LevelInUse(treinosModeloExistentes, nivelId)
      ensures refused ==> niveisPersonalizados == old(niveisPersonalizados)
      ensures !refused ==> niveisPersonalizados == WithoutLevel(old(niveisPersonalizados), nivelId)
    {
      if LevelInUse(treinosModeloExistentes, nivelId) {
        return true;
      }
      niveisPersonalizados := WithoutLevel(niveisPersonalizados, nivelId);
      return false;
    }
  }
}
