/**
 * The workout-plan data model and the editing rules that the three admin screens
 * (template authoring, plan creation, plan editing) each implement in the same way.
 * A plan maps a day number to an ordered list of items; an item is one exercise or a
 * combo (`tipo: 'combinado'`) holding several exercises.
 */
module WorkoutPlan {
  import opened Wrappers

  /** One prescribed exercise, with the field names the stored documents use. */
  datatype Exercise = Exercise(
    grupamentoMuscular: string,
    nome: string,
    repeticoes: string,
    series: string,
    observacao: string,
    linkExplicacao: string)

  /** The cleared form each screen resets its draft to. */
  const EmptyDraft := Exercise("", "", "", "", "", "")

  /** The one muscle group whose set count is fixed to "1". */
  const Cardio := "Cardio"

  /** Fewest exercises a combo may be finalised with. */
  const MinComboSize := 2

  /** A day's entry: a plain exercise, or a combo `{tipo: 'combinado', exercicios}`. */
  datatype Item = Single(exercise: Exercise) | Combo(exercicios: seq<Exercise>)

  type Day = int

  /** `treinosPorDia`: day number to that day's items, in display and execution order. */
  type DayMap = map<Day, seq<Item>>

  /** A workout plan as it is written when it is created or assigned to a user. */
  datatype NewPlan = NewPlan(
    userId: string,
    userName: string,
    dataCreated: int,
    frequenciaTreino: int,
    treinos: DayMap)

  /** A stored workout plan as the client reads it back (`treinos` collection). */
  datatype PlanDoc = PlanDoc(
    id: string,
    userId: string,
    nomeTreino: Option<string>,
    frequenciaTreino: int,
    treinos: DayMap,
    dataCreated: int,
    diasConcluidos: Option<seq<Day>>,
    ultimaAtualizacao: Option<int>)

  /** The buttons of an "unsaved changes" dialog: save, discard (leave without saving), cancel. */
  datatype BackChoice = Save | Discard | Cancel

  /** A user an admin picks in a search list. */
  datatype User = User(id: string, name: string)

  // ---------------------------------------------------------------------------
  // Validation of the exercise draft
  // ---------------------------------------------------------------------------

  /** The plain-exercise rule: muscle group, name and reps always; sets unless Cardio. */
  predicate DraftAccepted(d: Exercise) {
    && d.grupamentoMuscular != ""
    && d.nome != ""
    && d.repeticoes != ""
    && (d.grupamentoMuscular == Cardio || d.series != "")
  }

  /** The combo-member and edit rule: all four fields, sets included even for Cardio. */
  predicate AllFourFields(d: Exercise) {
    d.grupamentoMuscular != "" && d.nome != "" && d.repeticoes != "" && d.series != ""
  }

  /** The exercise stored for an accepted draft: Cardio gets `series = '1'`, nothing else changes. */
  function Prepared(d: Exercise): (e: Exercise)
    ensures d.grupamentoMuscular == Cardio ==> e.series == "1"
    ensures d.grupamentoMuscular != Cardio ==> e.series == d.series
    ensures e.(series := d.series) == d
  {
    if d.grupamentoMuscular == Cardio then d.(series := "1") else d
  }

  // ---------------------------------------------------------------------------
  // Sequence updates by position
  // ---------------------------------------------------------------------------

  /** `s.filter((_, idx) => idx !== i)`: drop position i, keep the rest in order. */
  function RemoveAt<T>(s: seq<T>, i: int): (r: seq<T>)
    ensures 0 <= i < |s| ==> r == s[..i] + s[i + 1..]
    ensures !(0 <= i < |s|) ==> r == s
    decreases |s|
  {
    if s == [] then []
    else if i == 0 then s[1..]
    else
      var tail := RemoveAt(s[1..], i - 1);
      assert 0 <= i < |s| ==> s[1..][..i - 1] == s[1..i] && s[1..][i..] == s[i + 1..];
      [s[0]] + tail
  }

  /** Removing position i takes out exactly the element s[i]. */
  lemma {:induction false} RemoveAtContents<T>(s: seq<T>, i: int)
    requires 0 <= i < |s|
    ensures |RemoveAt(s, i)| == |s| - 1
    ensures multiset(RemoveAt(s, i)) + multiset{s[i]} == multiset(s)
    decreases |s|
  {
    var t := s[1..];
    assert s == [s[0]] + t;
    if i > 0 {
      RemoveAtContents(t, i - 1);
      assert RemoveAt(s, i) == [s[0]] + RemoveAt(t, i - 1);
    }
  }

  /** Positions before i keep their element; positions from i on hold their right neighbour's. */
  lemma RemoveAtShifts<T>(s: seq<T>, i: int, k: int)
    requires 0 <= i < |s| && 0 <= k < |s| - 1
    ensures RemoveAt(s, i)[k] == if k < i then s[k] else s[k + 1]
  {
    var r := RemoveAt(s, i);
    if k < i {
      assert r[k] == s[..i][k];
    } else {
      assert r[k] == s[i + 1..][k - i];
    }
  }

  /** `s.map((x, idx) => idx === i ? y : x)`: position i becomes y, every other one is kept. */
  function ReplaceAt<T>(s: seq<T>, i: int, y: T): (r: seq<T>)
    ensures |r| == |s|
    ensures forall k :: 0 <= k < |s| && k != i ==> r[k] == s[k]
    ensures 0 <= i < |s| ==> r[i] == y
    decreases |s|
  {
    if s == [] then []
    else [if i == 0 then y else s[0]] + ReplaceAt(s[1..], i - 1, y)
  }

  /** Replacing then removing the same position is the same as removing it: only that slot changed. */
  lemma ReplaceOnlyTouchesPosition<T>(s: seq<T>, i: int, y: T)
    requires 0 <= i < |s|
    ensures RemoveAt(ReplaceAt(s, i, y), i) == RemoveAt(s, i)
    ensures ReplaceAt(s, i, y) == s[..i] + [y] + s[i + 1..]
  {
    var r := ReplaceAt(s, i, y);
    var t := s[..i] + [y] + s[i + 1..];
    assert |t| == |r|;
    forall k | 0 <= k < |r|
      ensures r[k] == t[k]
    {
      if k < i {
        assert t[k] == s[k];
      } else if k > i {
        assert t[k] == s[k];
      }
    }
    assert r == t;
    assert t[..i] + t[i + 1..] == s[..i] + s[i + 1..];
  }

  // ---------------------------------------------------------------------------
  // Day-map updates
  // ---------------------------------------------------------------------------

  /** `prev[dia] || []`. */
  function DayItems(m: DayMap, d: Day): seq<Item> {
    if d in m then m[d] else []
  }

  /** Every day other than d has the same entry (or absence) in m and r. */
  ghost predicate OthersUnchanged(m: DayMap, r: DayMap, d: Day) {
    forall e :: e != d ==> (e in m <==> e in r) && (e in m ==> r[e] == m[e])
  }

  /** `{...prev, [dia]: [...(prev[dia] || []), item]}`. */
  function AppendItem(m: DayMap, d: Day, it: Item): (r: DayMap)
    ensures d in r && |r[d]| == |DayItems(m, d)| + 1
    ensures r[d][..|DayItems(m, d)|] == DayItems(m, d) && r[d][|DayItems(m, d)|] == it
    ensures OthersUnchanged(m, r, d)
  {
    var items := DayItems(m, d) + [it];
    assert items[..|DayItems(m, d)|] == DayItems(m, d);
    m[d := items]
  }

  /** Removing the last position undoes an append. */
  lemma AppendThenRemoveLast(m: DayMap, d: Day, it: Item)
    ensures RemoveAt(AppendItem(m, d, it)[d], |DayItems(m, d)|) == DayItems(m, d)
  {
    var r := AppendItem(m, d, it)[d];
    assert r[..|DayItems(m, d)|] == DayItems(m, d);
  }

  /** `addExercicio` on the plain-exercise path: validate, then append the prepared exercise. */
  function AddExercise(m: DayMap, d: Day, draft: Exercise): (r: DayMap)
    ensures !DraftAccepted(draft) ==> r == m
    ensures DraftAccepted(draft) ==> r == AppendItem(m, d, Single(Prepared(draft)))
  {
    if DraftAccepted(draft) then AppendItem(m, d, Single(Prepared(draft))) else m
  }

  /**
   * A Cardio draft with name and reps is accepted whatever its sets field holds,
   * and it is stored with `series = "1"` at the end of the day.
   */
  lemma CardioDraftStoredWithOneSet(m: DayMap, d: Day, draft: Exercise)
    requires draft.grupamentoMuscular == Cardio && draft.nome != "" && draft.repeticoes != ""
    ensures DraftAccepted(draft)
    ensures var r := AddExercise(m, d, draft);
            d in r && |r[d]| == |DayItems(m, d)| + 1
            && r[d][|r[d]| - 1] == Single(draft.(series := "1"))
  {
  }

  /** `addExercicioCombinado`: all four fields, then the draft (unprepared) joins the buffer. */
  function AddToCombo(buf: seq<Exercise>, draft: Exercise): (r: seq<Exercise>)
    ensures AllFourFields(draft) ==> r == buf + [draft]
    ensures !AllFourFields(draft) ==> r == buf
  {
    if AllFourFields(draft) then buf + [draft] else buf
  }

  /** A Cardio draft with an empty sets field goes into a plain day but not into a combo. */
  lemma CardioWithoutSetsRejectedByCombo(m: DayMap, d: Day, buf: seq<Exercise>, draft: Exercise)
    requires draft.grupamentoMuscular == Cardio && draft.nome != "" && draft.repeticoes != ""
    requires draft.series == ""
    ensures AddToCombo(buf, draft) == buf
    ensures AddExercise(m, d, draft) != m
  {
    assert AddExercise(m, d, draft)[d] != DayItems(m, d);
  }

  /**
   * `finalizarCombo` on the append path: fewer than two buffered exercises change
   * nothing; otherwise one combo holding the buffer, in order, joins the end of the day.
   * The result is the new map and the new buffer.
   */
  function FinalizeCombo(m: DayMap, d: Day, buf: seq<Exercise>): (r: (DayMap, seq<Exercise>))
    ensures |buf| < MinComboSize ==> r == (m, buf)
    ensures |buf| >= MinComboSize ==> r.1 == [] && r.0 == AppendItem(m, d, Combo(buf))
  {
    if |buf| < MinComboSize then (m, buf) else (AppendItem(m, d, Combo(buf)), [])
  }

  /** The trash button of a day list: `{...prev, [dia]: prev[dia].filter((_, i) => i !== index)}`. */
  function RemoveItem(m: DayMap, d: Day, i: int): (r: DayMap)
    ensures d !in m ==> r == m
    ensures d in m ==> d in r && r[d] == RemoveAt(m[d], i) && OthersUnchanged(m, r, d)
  {
    if d in m then m[d := RemoveAt(m[d], i)] else m
  }

  /** `{...prev, [dia]: prev[dia].map((x, idx) => idx === i ? item : x)}`. */
  function ReplaceItem(m: DayMap, d: Day, i: int, it: Item): (r: DayMap)
    ensures d !in m ==> r == m
    ensures d in m ==> d in r && r[d] == ReplaceAt(m[d], i, it) && OthersUnchanged(m, r, d)
  {
    if d in m then m[d := ReplaceAt(m[d], i, it)] else m
  }

  /** Replacing an item keeps the day's length and every other position. */
  lemma ReplaceItemKeepsLength(m: DayMap, d: Day, i: int, it: Item)
    requires d in m && 0 <= i < |m[d]|
    ensures |ReplaceItem(m, d, i, it)[d]| == |m[d]|
    ensures ReplaceItem(m, d, i, it)[d][i] == it
    ensures RemoveAt(ReplaceItem(m, d, i, it)[d], i) == RemoveAt(m[d], i)
  {
    ReplaceOnlyTouchesPosition(m[d], i, it);
  }

  // ---------------------------------------------------------------------------
  // Copy one day onto another
  // ---------------------------------------------------------------------------

  /** The outcome of the copy-day guards, in the order the handlers test them. */
  datatype CopyCheck =
    | ChooseBothDays      // origin or destination not chosen
    | SameDay             // origin equals destination
    | EmptyOrigin         // origin has no items
    | ConfirmOverwrite    // destination already has items: ask before replacing
    | ConfirmCopy         // destination empty: ask before copying

  function CheckCopy(m: DayMap, origem: Option<Day>, destino: Option<Day>): (c: CopyCheck)
    ensures c == ChooseBothDays <==> origem.None? || destino.None?
    ensures c == SameDay <==> origem.Some? && destino.Some? && origem == destino
    ensures c == EmptyOrigin <==>
      origem.Some? && destino.Some? && origem != destino && DayItems(m, origem.value) == []
    ensures c == ConfirmOverwrite <==>
      origem.Some? && destino.Some? && origem != destino && DayItems(m, origem.value) != []
      && DayItems(m, destino.value) != []
    ensures c == ConfirmCopy <==>
      origem.Some? && destino.Some? && origem != destino && DayItems(m, origem.value) != []
      && DayItems(m, destino.value) == []
  {
    if origem.None? || destino.None? then ChooseBothDays
    else if origem == destino then SameDay
    else if |DayItems(m, origem.value)| == 0 then EmptyOrigin
    else if |DayItems(m, destino.value)| > 0 then ConfirmOverwrite
    else ConfirmCopy
  }

  predicate CopyAllowed(c: CopyCheck) { c == ConfirmOverwrite || c == ConfirmCopy }

  /** `{...prev, [destino]: [...treinosPorDia[origem]]}`. */
  function CopyDay(m: DayMap, origem: Day, destino: Day): (r: DayMap)
    requires origem in m
    ensures destino in r && r[destino] == m[origem]
    ensures OthersUnchanged(m, r, destino)
  {
    m[destino := m[origem]]
  }

  /**
   * The copy handler and its dialog together: a rejected or unconfirmed copy leaves the
   * map unchanged; a confirmed one overwrites the destination with the origin's list.
   */
  function CopyAfterConfirm(m: DayMap, origem: Option<Day>, destino: Option<Day>, confirmed: bool): (r: DayMap)
    ensures !(CopyAllowed(CheckCopy(m, origem, destino)) && confirmed) ==> r == m
    ensures CopyAllowed(CheckCopy(m, origem, destino)) && confirmed ==>
      origem.value in m && destino.value in r && r[destino.value] == m[origem.value]
      && origem.value in r && r[origem.value] == m[origem.value] && OthersUnchanged(m, r, destino.value)
  {
    if CopyAllowed(CheckCopy(m, origem, destino)) && confirmed then
      CopyDay(m, origem.value, destino.value)
    else m
  }

  // ---------------------------------------------------------------------------
  // The copy dialog's drop-downs (the same in plan creation and plan editing)
  // ---------------------------------------------------------------------------

  /** The origin drop-down: the days of the plan that have at least one item. */
  function OrigemChoices(m: DayMap): (r: set<Day>)
    ensures forall d :: d in r <==> DayItems(m, d) != []
  {
    set d | d in m && |m[d]| > 0
  }

  /** After a copy from an offered origin, the destination is offered as an origin too, and nothing else changes. */
  lemma OrigemAfterCopy(m: DayMap, o: Day, d: Day)
    requires o in OrigemChoices(m)
    ensures forall x :: x in OrigemChoices(CopyDay(m, o, d)) <==> x in OrigemChoices(m) || x == d
  {
    assert DayItems(m, o) != [];
    forall x
      ensures x in OrigemChoices(CopyDay(m, o, d)) <==> x in OrigemChoices(m) || x == d
    {
      if x != d {
        assert DayItems(CopyDay(m, o, d), x) == DayItems(m, x);
      }
    }
  }

  /** The destination drop-down: days 1 to `freq` in order, without the chosen origin. */
  function DestinoChoices(freq: int, origem: Option<Day>): (r: seq<Day>)
    ensures forall k :: 0 <= k < |r| ==> 1 <= r[k] <= freq && Some(r[k]) != origem
    ensures forall k, j :: 0 <= k < j < |r| ==> r[k] < r[j]
    decreases freq
  {
    if freq <= 0 then []
    else DestinoChoices(freq - 1, origem) + (if Some(freq) == origem then [] else [freq])
  }

  /** Every day from 1 to `freq` other than the origin is offered. */
  lemma {:induction false} DestinoChoicesComplete(freq: int, origem: Option<Day>, d: Day)
    requires 1 <= d <= freq && Some(d) != origem
    ensures d in DestinoChoices(freq, origem)
    decreases freq
  {
    if d < freq {
      DestinoChoicesComplete(freq - 1, origem, d);
    } else {
      assert DestinoChoices(freq, origem)[|DestinoChoices(freq, origem)| - 1] == d;
    }
  }

  /** The list holds `freq` days, minus one when the origin is among them. */
  lemma {:induction false} DestinoChoicesCount(freq: nat, origem: Option<Day>)
    ensures |DestinoChoices(freq, origem)| ==
            if origem.Some? && 1 <= origem.value <= freq then freq - 1 else freq
  {
    if freq > 0 {
      DestinoChoicesCount(freq - 1, origem);
    }
  }

  /**
   * A pair picked from the two drop-downs always passes the copy guards, so the copy
   * dialog goes straight to a confirmation.
   */
  lemma ChoicesPassGuards(m: DayMap, freq: int, o: Day, k: int)
    requires o in OrigemChoices(m)
    requires 0 <= k < |DestinoChoices(freq, Some(o))|
    ensures CopyAllowed(CheckCopy(m, Some(o), Some(DestinoChoices(freq, Some(o))[k])))
  {
    assert DayItems(m, o) != [];
  }

  // ---------------------------------------------------------------------------
  // Combo well-formedness
  // ---------------------------------------------------------------------------

  /** A stored combo holds at least two exercises. */
  predicate WellFormedItem(it: Item) {
    it.Combo? ==> |it.exercicios| >= MinComboSize
  }

  predicate WellFormedDay(items: seq<Item>) {
    forall k :: 0 <= k < |items| ==> WellFormedItem(items[k])
  }

  predicate WellFormed(m: DayMap) {
    forall d :: d in m ==> WellFormedDay(m[d])
  }

  /** Appending a well-formed item to a day of a well-formed map keeps the map well-formed. */
  lemma AppendKeepsWellFormed(m: DayMap, d: Day, it: Item)
    ensures WellFormed(m) && WellFormedItem(it) ==> WellFormed(AppendItem(m, d, it))
  {
    if WellFormed(m) && WellFormedItem(it) {
      var s, t := DayItems(m, d), AppendItem(m, d, it)[d];
      assert forall k :: 0 <= k < |s| ==> t[k] == s[k] by {
        assert t[..|s|] == s;
      }
    }
  }

  /** Removing an item of a well-formed map keeps it well-formed. */
  lemma RemoveKeepsWellFormed(m: DayMap, d: Day, i: int)
    ensures WellFormed(m) ==> WellFormed(RemoveItem(m, d, i))
  {
    if WellFormed(m) && d in m {
      var s := m[d];
      if 0 <= i < |s| {
        forall k | 0 <= k < |s| - 1
          ensures WellFormedItem(RemoveAt(s, i)[k])
        {
          RemoveAtShifts(s, i, k);
        }
      }
    }
  }

  /** Replacing an item of a well-formed map by a well-formed item keeps the map well-formed. */
  lemma ReplaceKeepsWellFormed(m: DayMap, d: Day, i: int, it: Item)
    ensures WellFormed(m) && WellFormedItem(it) ==> WellFormed(ReplaceItem(m, d, i, it))
  {
    if WellFormed(m) && WellFormedItem(it) && d in m {
      var s, t := m[d], ReplaceItem(m, d, i, it)[d];
      assert WellFormedDay(s);
      assert forall k :: 0 <= k < |t| ==> t[k] == (if k == i then it else s[k]);
    }
  }

  /** Adding, finalising, removing, replacing by a plain exercise or by a combo of two or more, and copying keep every combo at two or more. */
  lemma EditsPreserveWellFormed(m: DayMap, d: Day, e: Day, i: int, draft: Exercise, buf: seq<Exercise>)
    requires WellFormed(m)
    ensures WellFormed(AddExercise(m, d, draft))
    ensures WellFormed(FinalizeCombo(m, d, buf).0)
    ensures WellFormed(RemoveItem(m, d, i))
    ensures WellFormed(ReplaceItem(m, d, i, Single(draft)))
    ensures |buf| >= MinComboSize ==> WellFormed(ReplaceItem(m, d, i, Combo(buf)))
    ensures e in m ==> WellFormed(CopyDay(m, e, d))
  {
    AppendKeepsWellFormed(m, d, Single(Prepared(draft)));
    AppendKeepsWellFormed(m, d, Combo(buf));
    RemoveKeepsWellFormed(m, d, i);
    ReplaceKeepsWellFormed(m, d, i, Single(draft));
    ReplaceKeepsWellFormed(m, d, i, Combo(buf));
  }
}
