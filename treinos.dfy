/**
 * The student's workout screen: the list of the student's plans with the weekly
 * reset of completed days, the session player (day choice, five-second countdown,
 * ticking exercises off, the elapsed-time message, completing the day) and renaming
 * a plan.
 */
module Treinos {
  import opened Wrappers
  import opened Text
  import opened WorkoutPlan
  import opened ElapsedTime

  // ---------------------------------------------------------------------------
  // Weekly reset
  // ---------------------------------------------------------------------------

  /** Milliseconds in a day, `1000 * 60 * 60 * 24`. */
  const MsPerDay := 86_400_000

  /** Days after which the completed days are cleared. */
  const ResetAfterDays := 7

  function Abs(x: int): (a: nat)
    ensures a == x || a == -x
  {
    if x < 0 then -x else x
  }

  /** `Math.ceil(ms / MsPerDay)` for a non-negative `ms`: the least whole number of days covering `ms`. */
  function CeilDays(ms: nat): (days: nat)
    ensures days * MsPerDay >= ms
    ensures days == 0 || (days - 1) * MsPerDay < ms
  {
    (ms + MsPerDay - 1) / MsPerDay
  }

  /**
   * `isNovaSemana`: a plan never updated counts as a new week; otherwise the distance
   * to the last update, in days rounded up, must be at least seven, which is the same
   * as the distance in either direction being more than six whole days.
   */
  function IsNovaSemana(ultimaAtualizacao: Option<int>, now: int): (b: bool)
    ensures ultimaAtualizacao.None? ==> b
    ensures ultimaAtualizacao.Some? ==> (b <==> Abs(now - ultimaAtualizacao.value) > 6 * MsPerDay)
  {
    match ultimaAtualizacao
    case None => true
    case Some(last) => CeilDays(Abs(now - last)) >= ResetAfterDays
  }

  /** The rule does not depend on which of the two instants is the later one. */
  lemma NovaSemanaSymmetric(a: int, b: int)
    ensures IsNovaSemana(Some(a), b) == IsNovaSemana(Some(b), a)
  {
    assert Abs(b - a) == Abs(a - b);
  }

  /** A progress update written to a plan document: its completed days and the instant of writing. */
  datatype ProgressWrite = ProgressWrite(id: string, diasConcluidos: seq<Day>, ultimaAtualizacao: int)

  /**
   * A plan as the load loop keeps it in memory: a new-week plan loses its completed
   * days, any other keeps them, a missing list becomes `[]`. Nothing else changes; in
   * particular the in-memory `ultimaAtualizacao` stays the one that was read.
   */
  function LoadedPlan(d: PlanDoc, now: int): (r: PlanDoc)
    ensures IsNovaSemana(d.ultimaAtualizacao, now) ==> r.diasConcluidos == Some([])
    ensures !IsNovaSemana(d.ultimaAtualizacao, now) ==> r.diasConcluidos == Some(d.diasConcluidos.GetOr([]))
    ensures r.(diasConcluidos := d.diasConcluidos) == d
  {
    var data := if IsNovaSemana(d.ultimaAtualizacao, now) then d.(diasConcluidos := Some([])) else d;
    data.(diasConcluidos := Some(data.diasConcluidos.GetOr([])))
  }

  function LoadedPlans(docs: seq<PlanDoc>, now: int): seq<PlanDoc> {
    seq(|docs|, k requires 0 <= k < |docs| => LoadedPlan(docs[k], now))
  }

  /**
   * The reset writes of the load loop, in document order: one per new-week plan,
   * clearing its completed days and stamping the current instant.
   */
  function ResetWrites(docs: seq<PlanDoc>, now: int): (r: seq<ProgressWrite>)
    ensures |r| <= |docs|
  {
    if docs == [] then []
    else
      var last := docs[|docs| - 1];
      ResetWrites(docs[..|docs| - 1], now)
        + (if IsNovaSemana(last.ultimaAtualizacao, now) then [ProgressWrite(last.id, [], now)] else [])
  }

  /**
   * There is one reset write, with no completed days and the current instant, for
   * each plan whose week has turned over, and no other.
   */
  lemma {:induction false} ResetWritesExactly(docs: seq<PlanDoc>, now: int)
    ensures forall w :: w in ResetWrites(docs, now) ==> w.diasConcluidos == [] && w.ultimaAtualizacao == now
    ensures forall w :: w in ResetWrites(docs, now) ==>
      exists k :: 0 <= k < |docs| && docs[k].id == w.id && IsNovaSemana(docs[k].ultimaAtualizacao, now)
    ensures forall k :: 0 <= k < |docs| && IsNovaSemana(docs[k].ultimaAtualizacao, now) ==>
      ProgressWrite(docs[k].id, [], now) in ResetWrites(docs, now)
  {
    if docs != [] {
      var init := docs[..|docs| - 1];
      ResetWritesExactly(init, now);
      assert forall k :: 0 <= k < |init| ==> init[k] == docs[k];
    }
  }

  /** One more document adds its reset write, if it has one, at the end. */
  lemma ResetWritesStep(docs: seq<PlanDoc>, i: int, now: int)
    requires 0 <= i < |docs|
    ensures ResetWrites(docs[..i + 1], now) == ResetWrites(docs[..i], now)
      + (if IsNovaSemana(docs[i].ultimaAtualizacao, now) then [ProgressWrite(docs[i].id, [], now)] else [])
  {
    var p := docs[..i + 1];
    assert p[..|p| - 1] == docs[..i];
    assert p[|p| - 1] == docs[i];
  }

  /** The load loop over the query's documents: the plans kept in memory and the reset writes. */
  method LoadPlans(docs: seq<PlanDoc>, now: int) returns (plans: seq<PlanDoc>, writes: seq<ProgressWrite>)
    ensures plans == LoadedPlans(docs, now)
    ensures writes == ResetWrites(docs, now)
  {
    plans := [];
    writes := [];
    var i := 0;
    while i < |docs|
      invariant 0 <= i <= |docs|
      invariant |plans| == i
      invariant forall k :: 0 <= k < i ==> plans[k] == LoadedPlan(docs[k], now)
      invariant writes == ResetWrites(docs[..i], now)
    {
      var data := docs[i];
      ResetWritesStep(docs, i, now);
      if IsNovaSemana(data.ultimaAtualizacao, now) {
        writes := writes + [ProgressWrite(data.id, [], now)];
        data := data.(diasConcluidos := Some([]));
      }
      plans := plans + [data.(diasConcluidos := Some(data.diasConcluidos.GetOr([])))];
      i := i + 1;
    }
    assert docs[..i] == docs;
  }

  /** Progress written less than a full week before the next load survives that load. */
  lemma RecentProgressSurvivesLoad(d: PlanDoc, dias: seq<Day>, written: int, now: int)
    requires Abs(now - written) <= 6 * MsPerDay
    ensures LoadedPlan(d.(diasConcluidos := Some(dias), ultimaAtualizacao := Some(written)), now).diasConcluidos == Some(dias)
  {
  }

  /** A reset write seen by a load within the following week leaves the plan with no completed days. */
  lemma ResetThenLoadIsEmpty(d: PlanDoc, w: ProgressWrite, now: int)
    requires w.diasConcluidos == [] && Abs(now - w.ultimaAtualizacao) <= 6 * MsPerDay
    ensures LoadedPlan(d.(diasConcluidos := Some(w.diasConcluidos), ultimaAtualizacao := Some(w.ultimaAtualizacao)), now).diasConcluidos == Some([])
  {
    RecentProgressSurvivesLoad(d, [], w.ultimaAtualizacao, now);
  }

  // ---------------------------------------------------------------------------
  // Ordering by creation date
  // ---------------------------------------------------------------------------

  /** Each plan created no earlier than the one after it. */
  predicate NewestFirst(s: seq<PlanDoc>) {
    forall i :: 0 < i < |s| ==> s[i - 1].dataCreated >= s[i].dataCreated
  }

  /** Puts `x` before the first plan not newer than it. */
  function InsertByDate(x: PlanDoc, s: seq<PlanDoc>): (r: seq<PlanDoc>)
    requires NewestFirst(s)
    ensures |r| == |s| + 1 && (r[0] == x || (s != [] && r[0] == s[0]))
    ensures NewestFirst(r)
    ensures multiset(r) == multiset(s) + multiset{x}
  {
    if s == [] || x.dataCreated >= s[0].dataCreated then [x] + s
    else
      var t := InsertByDate(x, s[1..]);
      var r := [s[0]] + t;
      assert s == [s[0]] + s[1..];
      assert multiset(r) == multiset{s[0]} + multiset(t);
      assert r[1] == t[0] && s[0].dataCreated >= t[0].dataCreated;
      assert forall i :: 0 <= i < |t| ==> r[i + 1] == t[i];
      r
  }

  /**
   * `sort((a, b) => b.dataCreated - a.dataCreated)`: the same plans, newest first.
   * The order among plans created at the same instant is not specified here.
   */
  function SortNewestFirst(s: seq<PlanDoc>): (r: seq<PlanDoc>)
    ensures NewestFirst(r)
    ensures multiset(r) == multiset(s)
  {
    if s == [] then []
    else
      assert s == [s[0]] + s[1..];
      InsertByDate(s[0], SortNewestFirst(s[1..]))
  }

  /** Sorting a list that is already newest first changes nothing, so sorting twice is sorting once. */
  lemma {:induction false} SortSortedUnchanged(s: seq<PlanDoc>)
    requires NewestFirst(s)
    ensures SortNewestFirst(s) == s
  {
    if s != [] {
      assert NewestFirst(s[1..]);
      SortSortedUnchanged(s[1..]);
      assert s == [s[0]] + s[1..];
    }
  }

  lemma SortIdempotent(s: seq<PlanDoc>)
    ensures SortNewestFirst(SortNewestFirst(s)) == SortNewestFirst(s)
  {
    SortSortedUnchanged(SortNewestFirst(s));
  }

  // ---------------------------------------------------------------------------
  // Plans looked up and updated by id
  // ---------------------------------------------------------------------------

  /** `find(t => t.id === id)`: the first plan with that id. */
  function FindById(s: seq<PlanDoc>, id: string): (r: Option<PlanDoc>)
    ensures r.None? <==> forall k :: 0 <= k < |s| ==> s[k].id != id
    ensures r.Some? ==> exists k :: 0 <= k < |s| && s[k] == r.value && r.value.id == id
                                    && forall j :: 0 <= j < k ==> s[j].id != id
  {
    if s == [] then None
    else if s[0].id == id then Some(s[0])
    else
      var r := FindById(s[1..], id);
      assert forall k :: 0 < k < |s| ==> s[k] == s[1..][k - 1];
      r
  }

  /** `map(t => t.id === id ? x : t)`: every plan with that id replaced by `x`, the others kept. */
  function ReplaceById(s: seq<PlanDoc>, id: string, x: PlanDoc): (r: seq<PlanDoc>)
    ensures |r| == |s|
    ensures forall k :: 0 <= k < |s| ==> r[k] == (if s[k].id == id then x else s[k])
  {
    if s == [] then []
    else [if s[0].id == id then x else s[0]] + ReplaceById(s[1..], id, x)
  }

  /** After the replacement, looking the id up gives the new record (when the id was there). */
  lemma {:induction false} FindAfterReplace(s: seq<PlanDoc>, x: PlanDoc)
    requires exists k :: 0 <= k < |s| && s[k].id == x.id
    ensures FindById(ReplaceById(s, x.id, x), x.id) == Some(x)
  {
    var r := ReplaceById(s, x.id, x);
    if s[0].id != x.id {
      var k :| 0 <= k < |s| && s[k].id == x.id;
      assert s[1..][k - 1].id == x.id;
      FindAfterReplace(s[1..], x);
      assert r[1..] == ReplaceById(s[1..], x.id, x);
    }
  }

  /** Looking up any other id gives what it gave before. */
  lemma {:induction false} FindOtherAfterReplace(s: seq<PlanDoc>, x: PlanDoc, other: string)
    requires other != x.id
    ensures FindById(ReplaceById(s, x.id, x), other) == FindById(s, other)
  {
    if s != [] {
      var r := ReplaceById(s, x.id, x);
      FindOtherAfterReplace(s[1..], x, other);
      assert r[1..] == ReplaceById(s[1..], x.id, x);
    }
  }

  /** `map(t => t.id === id ? {...t, nomeTreino: nome} : t)`. */
  function RenameById(s: seq<PlanDoc>, id: string, nome: string): (r: seq<PlanDoc>)
    ensures |r| == |s|
    ensures forall k :: 0 <= k < |s| ==> r[k] == (if s[k].id == id then s[k].(nomeTreino := Some(nome)) else s[k])
  {
    if s == [] then []
    else [if s[0].id == id then s[0].(nomeTreino := Some(nome)) else s[0]] + RenameById(s[1..], id, nome)
  }

  // ---------------------------------------------------------------------------
  // The countdown before a session starts
  // ---------------------------------------------------------------------------

  /** Where a freshly chosen day's countdown starts. */
  const CountdownStart := 5

  /** `contadorInicio`, `contadorAtivo` and `tempoInicio`. */
  datatype Countdown = Countdown(valor: int, ativo: bool, inicio: Option<int>)

  /**
   * One second of the interval set up by `selecionarDia`: at 1 or below the
   * countdown stops at 0 and records the start instant, otherwise it goes down by
   * one. Once stopped the interval is cleared, so a stopped countdown stays as it is.
   */
  function TickCountdown(c: Countdown, now: int): Countdown {
    if !c.ativo then c
    else if c.valor <= 1 then Countdown(0, false, Some(now))
    else c.(valor := c.valor - 1)
  }

  /** The countdown after one tick per instant of `nows`, in order. */
  function RunTicks(c: Countdown, nows: seq<int>): Countdown
    decreases |nows|
  {
    if nows == [] then c else RunTicks(TickCountdown(c, nows[0]), nows[1..])
  }

  /** Ticks do nothing to a stopped countdown. */
  lemma {:induction false} StoppedStaysStopped(c: Countdown, nows: seq<int>)
    requires !c.ativo
    ensures RunTicks(c, nows) == c
    decreases |nows|
  {
    if nows != [] {
      StoppedStaysStopped(c, nows[1..]);
    }
  }

  /**
   * A running countdown at `n` counts down one per tick for `n - 1` ticks; the
   * `n`-th tick stops it at 0 and records that tick's instant as the start time.
   */
  lemma {:induction false} CountdownRuns(n: int, inicio: Option<int>, nows: seq<int>)
    requires n >= 1
    ensures |nows| < n ==> RunTicks(Countdown(n, true, inicio), nows) == Countdown(n - |nows|, true, inicio)
    ensures |nows| >= n ==> RunTicks(Countdown(n, true, inicio), nows) == Countdown(0, false, Some(nows[n - 1]))
    decreases |nows|
  {
    if nows != [] {
      if n == 1 {
        StoppedStaysStopped(Countdown(0, false, Some(nows[0])), nows[1..]);
      } else {
        CountdownRuns(n - 1, inicio, nows[1..]);
        if |nows| >= n {
          assert nows[1..][n - 2] == nows[n - 1];
        }
      }
    }
  }

  /**
   * After a day is chosen the message counts 5, 4, 3, 2, 1; the fifth tick ends the
   * countdown and stamps the session's start.
   */
  lemma FiveSecondCountdown(inicio: Option<int>, nows: seq<int>)
    ensures |nows| < CountdownStart ==>
      RunTicks(Countdown(CountdownStart, true, inicio), nows) == Countdown(CountdownStart - |nows|, true, inicio)
    ensures |nows| >= CountdownStart ==>
      RunTicks(Countdown(CountdownStart, true, inicio), nows) == Countdown(0, false, Some(nows[CountdownStart - 1]))
  {
    CountdownRuns(CountdownStart, inicio, nows);
  }

  // ---------------------------------------------------------------------------
  // Completed days of the cycle
  // ---------------------------------------------------------------------------

  /**
   * "Concluir e Voltar": the completed days with the day just done appended (no check
   * for repeats), or `[]` when that list is as long as the plan has days.
   */
  function NextCompletedDays(dias: seq<Day>, dia: Day, totalDias: int): seq<Day> {
    var novos := dias + [dia];
    if |novos| == totalDias then [] else novos
  }

  predicate NoRepeats(s: seq<Day>) {
    forall i, j :: 0 <= i < j < |s| ==> s[i] != s[j]
  }

  function DaySet(s: seq<Day>): set<Day> {
    set x | x in s
  }

  lemma {:induction false} NoRepeatsCardinality(s: seq<Day>)
    requires NoRepeats(s)
    ensures |DaySet(s)| == |s|
  {
    if s != [] {
      var init := s[..|s| - 1];
      var last := s[|s| - 1];
      assert NoRepeats(init);
      NoRepeatsCardinality(init);
      assert last !in DaySet(init);
      assert forall x :: x in DaySet(s) <==> x in DaySet(init) + {last};
      assert DaySet(s) == DaySet(init) + {last};
    }
  }

  /** A set inside another of the same size has all of its members. */
  lemma SubsetOfSameSize(a: set<Day>, b: set<Day>)
    requires forall x :: x in a ==> x in b
    requires |a| == |b|
    ensures forall x :: x in b ==> x in a
  {
    var rest := b - a;
    assert forall x :: x in b <==> x in a + rest;
    assert b == a + rest;
    assert forall x :: x !in a * rest;
    assert a * rest == {};
    assert |a + rest| == |a| + |rest|;
    assert rest == {};
  }

  lemma SameMembersSameSize(a: set<Day>, b: set<Day>)
    requires forall x :: x in a <==> x in b
    ensures |a| == |b|
  {
    assert forall x :: x in a ==> x in b;
    assert forall x :: x in b ==> x in a;
    assert a == b;
  }

  /**
   * When the completed days hold no repeats and only days of the plan, appending a
   * new day of the plan clears the list exactly when every day of the plan is done.
   */
  lemma CycleClosesWhenAllDaysDone(treinos: DayMap, dias: seq<Day>, dia: Day)
    requires NoRepeats(dias) && dia !in dias && dia in treinos
    requires forall k :: 0 <= k < |dias| ==> dias[k] in treinos
    ensures NextCompletedDays(dias, dia, |treinos|) == [] <==> forall d :: d in treinos ==> d in dias + [dia]
  {
    var novos := dias + [dia];
    assert NoRepeats(novos);
    NoRepeatsCardinality(novos);
    var done := DaySet(novos);
    assert forall x :: x in done ==> x in treinos.Keys;
    assert |treinos.Keys| == |treinos|;
    if |novos| == |treinos| {
      SubsetOfSameSize(done, treinos.Keys);
    } else if forall d :: d in treinos ==> d in novos {
      SameMembersSameSize(done, treinos.Keys);
      assert false;
    }
  }

  /** With a repeated day the list can be cleared while a day of the plan was never done. */
  lemma RepeatedDayClosesCycleEarly()
    ensures var treinos: DayMap := map[1 := [], 2 := []];
      NextCompletedDays([1], 1, |treinos|) == [] && 2 in treinos && 2 !in [1] + [1]
  {
    var treinos: DayMap := map[1 := [], 2 := []];
    assert treinos.Keys == {1, 2};
    assert |treinos.Keys| == 2;
  }

  // ---------------------------------------------------------------------------
  // The screen
  // ---------------------------------------------------------------------------

  /** Moving position i of `rest` to the end of `done` keeps the two lists' elements together. */
  lemma MoveKeepsTotal<T>(done: seq<T>, rest: seq<T>, i: int)
    requires 0 <= i < |rest|
    ensures multiset(done + [rest[i]]) + multiset(RemoveAt(rest, i)) == multiset(done) + multiset(rest)
  {
    RemoveAtContents(rest, i);
    assert multiset(done + [rest[i]]) == multiset(done) + multiset{rest[i]};
  }

  /** The screen's state, field for field. */
  class Session {
    var treinos: seq<PlanDoc>
    var treinoSelecionado: Option<PlanDoc>
    var treinoEmAndamento: bool
    var diaAtual: Option<Day>
    var exerciciosRestantes: seq<Item>
    var exerciciosConcluidos: seq<Item>
    var tempoInicio: Option<int>
    var mostrarParabens: bool
    var tempoTotal: Option<string>
    var contadorInicio: int
    var contadorAtivo: bool
    var diasConcluidos: seq<Day>
    var isRenaming: bool
    var treinoEditando: Option<string>

    /** A running countdown shows a number from 1 to 5; a stopped one shows 0 to 5. */
    predicate Valid()
      reads this
    {
      0 <= contadorInicio <= CountdownStart && (contadorAtivo ==> contadorInicio >= 1)
    }

    function CountdownState(): Countdown
      reads this
    {
      Countdown(contadorInicio, contadorAtivo, tempoInicio)
    }

    constructor()
      ensures Valid()
      ensures treinos == [] && treinoSelecionado.None? && !treinoEmAndamento && diaAtual.None?
      ensures exerciciosRestantes == [] && exerciciosConcluidos == [] && tempoInicio.None?
      ensures !mostrarParabens && tempoTotal.None? && contadorInicio == CountdownStart && !contadorAtivo
      ensures diasConcluidos == [] && !isRenaming && treinoEditando.None?
    {
      treinos := [];
      treinoSelecionado := None;
      treinoEmAndamento := false;
      diaAtual := None;
      exerciciosRestantes := [];
      exerciciosConcluidos := [];
      tempoInicio := None;
      mostrarParabens := false;
      tempoTotal := None;
      contadorInicio := CountdownStart;
      contadorAtivo := false;
      diasConcluidos := [];
      isRenaming := false;
      treinoEditando := None;
    }

    /**
     * The snapshot handler: runs the load loop, keeps the plans newest first and, when
     * a plan is selected and still listed, refreshes its completed days. Returns the
     * reset writes.
     */
    method ReceivePlans(docs: seq<PlanDoc>, now: int) returns (writes: seq<ProgressWrite>)
      modifies this`treinos, this`diasConcluidos, this`treinoSelecionado
      ensures writes == ResetWrites(docs, now)
      ensures treinos == SortNewestFirst(LoadedPlans(docs, now))
      ensures NewestFirst(treinos) && multiset(treinos) == multiset(LoadedPlans(docs, now))
      ensures old(treinoSelecionado).Some? && FindById(treinos, old(treinoSelecionado).value.id).Some? ==>
        var atual := FindById(treinos, old(treinoSelecionado).value.id).value;
        && diasConcluidos == atual.diasConcluidos.GetOr([])
        && treinoSelecionado == Some(old(treinoSelecionado).value.(diasConcluidos := Some(diasConcluidos)))
      ensures !(old(treinoSelecionado).Some? && FindById(treinos, old(treinoSelecionado).value.id).Some?) ==>
        diasConcluidos == old(diasConcluidos) && treinoSelecionado == old(treinoSelecionado)
    {
      var plans;
      plans, writes := LoadPlans(docs, now);
      treinos := SortNewestFirst(plans);
      if treinoSelecionado.Some? {
        var atual := FindById(treinos, treinoSelecionado.value.id);
        if atual.Some? {
          diasConcluidos := atual.value.diasConcluidos.GetOr([]);
          treinoSelecionado := Some(treinoSelecionado.value.(diasConcluidos := Some(diasConcluidos)));
        }
      }
    }

    /** The effect on the selection and the list: the selected plan's completed days as listed. */
    method SyncDiasConcluidos()
      modifies this`diasConcluidos
      ensures treinoSelecionado.Some? && FindById(treinos, treinoSelecionado.value.id).Some? ==>
        diasConcluidos == FindById(treinos, treinoSelecionado.value.id).value.diasConcluidos.GetOr([])
      ensures !(treinoSelecionado.Some? && FindById(treinos, treinoSelecionado.value.id).Some?) ==>
        diasConcluidos == old(diasConcluidos)
    {
      if treinoSelecionado.Some? {
        var atual := FindById(treinos, treinoSelecionado.value.id);
        if atual.Some? {
          diasConcluidos := atual.value.diasConcluidos.GetOr([]);
        }
      }
    }

    /** `iniciarTreino`: opens a plan with no day chosen and nothing done yet. */
    method IniciarTreino(treino: PlanDoc)
      modifies this`treinoEmAndamento, this`treinoSelecionado, this`diasConcluidos, this`diaAtual,
               this`exerciciosRestantes, this`exerciciosConcluidos, this`mostrarParabens, this`tempoInicio
      ensures treinoEmAndamento && treinoSelecionado == Some(treino)
      ensures diasConcluidos == treino.diasConcluidos.GetOr([])
      ensures diaAtual.None? && exerciciosRestantes == [] && exerciciosConcluidos == []
      ensures !mostrarParabens && tempoInicio.None?
    {
      treinoEmAndamento := true;
      treinoSelecionado := Some(treino);
      diasConcluidos := treino.diasConcluidos.GetOr([]);
      diaAtual := None;
      exerciciosRestantes := [];
      exerciciosConcluidos := [];
      mostrarParabens := false;
      tempoInicio := None;
    }

    /**
     * `selecionarDia`: the day's items, in order, become the remaining list and the
     * countdown restarts at 5. The day buttons are the keys of the selected plan.
     */
    method SelecionarDia(dia: Day)
      requires treinoSelecionado.Some? && dia in treinoSelecionado.value.treinos
      modifies this`diaAtual, this`exerciciosRestantes, this`contadorAtivo, this`contadorInicio
      ensures Valid()
      ensures diaAtual == Some(dia) && exerciciosRestantes == treinoSelecionado.value.treinos[dia]
      ensures contadorAtivo && contadorInicio == CountdownStart
    {
      diaAtual := Some(dia);
      exerciciosRestantes := treinoSelecionado.value.treinos[dia];
      contadorAtivo := true;
      contadorInicio := CountdownStart;
    }

    /** One second of the countdown interval (see FiveSecondCountdown for the whole run). */
    method TickContador(now: int)
      requires Valid()
      modifies this`contadorInicio, this`contadorAtivo, this`tempoInicio
      ensures Valid()
      ensures CountdownState() == TickCountdown(old(CountdownState()), now)
    {
      if contadorAtivo {
        if contadorInicio <= 1 {
          contadorAtivo := false;
          tempoInicio := Some(now);
          contadorInicio := 0;
        } else {
          contadorInicio := contadorInicio - 1;
        }
      }
    }

    /**
     * `concluirExercicio(exercicio, index)`: position `index` leaves the remaining
     * list and `exercicio` joins the completed one, so ticking off the displayed item
     * keeps completed plus remaining the same. Emptying the list shows the message
     * with the time since the start instant (the epoch when none was recorded).
     */
    method ConcluirExercicio(exercicio: Item, index: int, now: int)
      modifies this`exerciciosRestantes, this`exerciciosConcluidos, this`tempoTotal, this`mostrarParabens
      ensures exerciciosRestantes == RemoveAt(old(exerciciosRestantes), index)
      ensures exerciciosConcluidos == old(exerciciosConcluidos) + [exercicio]
      ensures 0 <= index < |old(exerciciosRestantes)| && exercicio == old(exerciciosRestantes)[index] ==>
        multiset(exerciciosConcluidos) + multiset(exerciciosRestantes)
          == multiset(old(exerciciosConcluidos)) + multiset(old(exerciciosRestantes))
      ensures exerciciosRestantes == [] ==>
        mostrarParabens && tempoTotal == Some(FormatElapsed(now - tempoInicio.GetOr(0)))
      ensures exerciciosRestantes != [] ==>
        mostrarParabens == old(mostrarParabens) && tempoTotal == old(tempoTotal)
    {
      var novos := RemoveAt(exerciciosRestantes, index);
      if 0 <= index < |exerciciosRestantes| {
        MoveKeepsTotal(exerciciosConcluidos, exerciciosRestantes, index);
      }
      exerciciosRestantes := novos;
      exerciciosConcluidos := exerciciosConcluidos + [exercicio];
      if novos == [] {
        tempoTotal := Some(FormatElapsed(now - tempoInicio.GetOr(0)));
        mostrarParabens := true;
      }
    }

    /** `finalizarTreino`: leaves the session and clears its lists and message. */
    method FinalizarTreino()
      modifies this`treinoEmAndamento, this`diaAtual, this`exerciciosRestantes,
               this`exerciciosConcluidos, this`mostrarParabens, this`tempoTotal
      ensures !treinoEmAndamento && diaAtual.None? && exerciciosRestantes == [] && exerciciosConcluidos == []
      ensures !mostrarParabens && tempoTotal.None?
    {
      treinoEmAndamento := false;
      diaAtual := None;
      exerciciosRestantes := [];
      exerciciosConcluidos := [];
      mostrarParabens := false;
      tempoTotal := None;
    }

    /** The header's back button: back to the list with no plan or day and empty lists. */
    method Voltar()
      modifies this`treinoSelecionado, this`treinoEmAndamento, this`diaAtual,
               this`exerciciosConcluidos, this`exerciciosRestantes
      ensures treinoSelecionado.None? && !treinoEmAndamento && diaAtual.None?
      ensures exerciciosConcluidos == [] && exerciciosRestantes == []
    {
      treinoSelecionado := None;
      treinoEmAndamento := false;
      diaAtual := None;
      exerciciosConcluidos := [];
      exerciciosRestantes := [];
    }

    /**
     * `salvarDiasConcluidos`: the new completed days go to the screen, to the plan
     * (which becomes the selection) and to that plan's entry in the list; every other
     * entry is kept. Returns the document update.
     */
    method SalvarDiasConcluidos(treino: PlanDoc, novos: seq<Day>, now: int) returns (write: ProgressWrite)
      modifies this`diasConcluidos, this`treinoSelecionado, this`treinos
      ensures diasConcluidos == novos
      ensures treinoSelecionado == Some(treino.(diasConcluidos := Some(novos)))
      ensures treinos == ReplaceById(old(treinos), treino.id, treino.(diasConcluidos := Some(novos)))
      ensures write == ProgressWrite(treino.id, novos, now)
    {
      diasConcluidos := novos;
      var atualizado := treino.(diasConcluidos := Some(novos));
      treinoSelecionado := Some(atualizado);
      treinos := ReplaceById(treinos, treino.id, atualizado);
      write := ProgressWrite(treino.id, novos, now);
    }

    /**
     * "Concluir e Voltar": with a day chosen, saves the completed days extended by it,
     * or `[]` when the extended list has as many entries as the plan has days (telling
     * the student the cycle is complete); then leaves the session.
     */
    method ConcluirEVoltar(now: int) returns (write: Option<ProgressWrite>, cicloCompleto: bool)
      requires treinoSelecionado.Some?
      modifies this`diasConcluidos, this`treinoSelecionado, this`treinos, this`treinoEmAndamento,
               this`mostrarParabens, this`diaAtual, this`exerciciosConcluidos, this`exerciciosRestantes
      ensures old(diaAtual).None? ==>
        && write.None? && !cicloCompleto
        && diasConcluidos == old(diasConcluidos) && treinos == old(treinos)
      ensures old(diaAtual).Some? ==>
        var sel := old(treinoSelecionado).value;
        var novos := NextCompletedDays(old(diasConcluidos), old(diaAtual).value, |sel.treinos|);
        && cicloCompleto == (|old(diasConcluidos)| + 1 == |sel.treinos|)
        && write == Some(ProgressWrite(sel.id, novos, now))
        && diasConcluidos == novos
        && treinos == ReplaceById(old(treinos), sel.id, sel.(diasConcluidos := Some(novos)))
      ensures !treinoEmAndamento && treinoSelecionado.None? && !mostrarParabens && diaAtual.None?
      ensures exerciciosConcluidos == [] && exerciciosRestantes == []
    {
      write := None;
      cicloCompleto := false;
      if diaAtual.Some? {
        var sel := treinoSelecionado.value;
        var novosDias := diasConcluidos + [diaAtual.value];
        var w;
        if |novosDias| == |sel.treinos| {
          w := SalvarDiasConcluidos(sel, [], now);
          cicloCompleto := true;
        } else {
          w := SalvarDiasConcluidos(sel, novosDias, now);
        }
        write := Some(w);
      }
      treinoEmAndamento := false;
      treinoSelecionado := None;
      mostrarParabens := false;
      diaAtual := None;
      exerciciosConcluidos := [];
      exerciciosRestantes := [];
    }

    /**
     * The rename box's confirm button: a name that is empty once trimmed is refused
     * and nothing changes; otherwise the trimmed name goes to the selected plan and to
     * its entry in the list, and the box closes. Returns the name written.
     */
    method ConfirmarRenomear(inputValue: string) returns (written: Option<string>)
      requires treinoSelecionado.Some?
      modifies this`treinoSelecionado, this`treinos, this`isRenaming
      ensures written.None? <==> AllWhitespace(inputValue)
      ensures written.None? ==> treinoSelecionado == old(treinoSelecionado) && treinos == old(treinos) && isRenaming == old(isRenaming)
      ensures written.Some? ==>
        && written.value == Trim(inputValue)
        && treinoSelecionado == Some(old(treinoSelecionado).value.(nomeTreino := written))
        && treinos == RenameById(old(treinos), old(treinoSelecionado).value.id, written.value)
        && !isRenaming
    {
      var nome := Trim(inputValue);
      if nome == [] {
        written := None;
      } else {
        var id := treinoSelecionado.value.id;
        treinoSelecionado := Some(treinoSelecionado.value.(nomeTreino := Some(nome)));
        treinos := RenameById(treinos, id, nome);
        isRenaming := false;
        written := Some(nome);
      }
    }

    /** The list's edit icon: opens the inline name field of that plan. */
    method ComecarEdicaoNome(id: string)
      modifies this`treinoEditando
      ensures treinoEditando == Some(id)
    {
      treinoEditando := Some(id);
    }

    /**
     * Submitting the inline name field: the text is trimmed; a non-empty name is
     * trimmed once more by `atualizarNomeTreino`, which changes nothing, and goes to
     * the plan's entry. Either way the field closes.
     */
    method SubmeterNome(item: PlanDoc, text: string) returns (written: Option<string>)
      modifies this`treinos, this`treinoEditando
      ensures written == (if AllWhitespace(text) then None else Some(Trim(text)))
      ensures written.None? ==> treinos == old(treinos)
      ensures written.Some? ==> treinos == RenameById(old(treinos), item.id, written.value)
      ensures treinoEditando.None?
    {
      var novoNome := Trim(text);
      if novoNome != [] {
        TrimIdempotent(text);
        var nome := Trim(novoNome);
        treinos := RenameById(treinos, item.id, nome);
        written := Some(nome);
      } else {
        written := None;
      }
      treinoEditando := None;
    }

    /** Leaving the inline name field closes it. */
    method SairEdicaoNome()
      modifies this`treinoEditando
      ensures treinoEditando.None?
    {
      treinoEditando := None;
    }
  }
}
