/**
 * The filter context of the customer-analysis page: five optional filters,
 * of which a setter keeps only its own, and the click toggle the charts use
 * to select and deselect a filter.
 */
module Filters {
  import opened Wrappers

  /** `FilterState`: `null` is None. */
  datatype FilterState = FilterState(
    classificacao: Option<string>,
    valor: Option<int>,
    recencia: Option<int>,
    frequencia: Option<int>,
    status: Option<string>)

  const Cleared := FilterState(None, None, None, None, None)

  /** How many of the five filters are set. */
  function SetCount(s: FilterState): (n: nat)
    ensures n <= 5
    ensures n == 0 <==> s == Cleared
  {
    (if s.classificacao.Some? then 1 else 0) + (if s.valor.Some? then 1 else 0) + (if s.recencia.Some? then 1 else 0) +
    (if s.frequencia.Some? then 1 else 0) + (if s.status.Some? then 1 else 0)
  }

  /** The invariant of the context: at most one filter is set at a time. */
  predicate AtMostOne(s: FilterState) {
    SetCount(s) <= 1
  }

  /** The state held by the page's filter provider. */
  class FilterStore {
    var classificacao: Option<string>
    var valor: Option<int>
    var recencia: Option<int>
    var frequencia: Option<int>
    var status: Option<string>

    function State(): FilterState
      reads this
    {
      FilterState(classificacao, valor, recencia, frequencia, status)
    }

    /** The provider starts with every filter cleared. */
    constructor()
      ensures State() == Cleared
    {
      classificacao, valor, recencia, frequencia, status := None, None, None, None, None;
    }

    /** `setClassificacaoFilter`: its own field takes the argument, the other four are cleared. */
    method SetClassificacao(c: Option<string>)
      modifies this
      ensures State() == Cleared.(classificacao := c)
      ensures AtMostOne(State())
    {
      classificacao, valor, recencia, frequencia, status := c, None, None, None, None;
    }

    /** `setValorFilter`. */
    method SetValor(v: Option<int>)
      modifies this
      ensures State() == Cleared.(valor := v)
      ensures AtMostOne(State())
    {
      classificacao, valor, recencia, frequencia, status := None, v, None, None, None;
    }

    /** `setRecenciaFilter`. */
    method SetRecencia(r: Option<int>)
      modifies this
      ensures State() == Cleared.(recencia := r)
      ensures AtMostOne(State())
    {
      classificacao, valor, recencia, frequencia, status := None, None, r, None, None;
    }

    /** `setFrequenciaFilter`. */
    method SetFrequencia(f: Option<int>)
      modifies this
      ensures State() == Cleared.(frequencia := f)
      ensures AtMostOne(State())
    {
      classificacao, valor, recencia, frequencia, status := None, None, None, f, None;
    }

    /** `setStatusFilter`. */
    method SetStatus(s: Option<string>)
      modifies this
      ensures State() == Cleared.(status := s)
      ensures AtMostOne(State())
    {
      classificacao, valor, recencia, frequencia, status := None, None, None, None, s;
    }

    /** `clearFilters`. */
    method Clear()
      modifies this
      ensures State() == Cleared
    {
      classificacao, valor, recencia, frequencia, status := None, None, None, None, None;
    }

    /** A click on a valor slice: the selected valor is deselected, any other one selected. */
    method ToggleValor(v: int)
      modifies this
      ensures State() == ToggledValor(old(State()), v)
    {
      if valor == Some(v) {
        SetValor(None);
      } else {
        SetValor(Some(v));
      }
    }

    /** A click on a classificacao bar. */
    method ToggleClassificacao(c: string)
      modifies this
      ensures State() == ToggledClassificacao(old(State()), c)
    {
      if classificacao == Some(c) {
        SetClassificacao(None);
      } else {
        SetClassificacao(Some(c));
      }
    }

    /** A click on a status bar. */
    method ToggleStatus(s: string)
      modifies this
      ensures State() == ToggledStatus(old(State()), s)
    {
      if status == Some(s) {
        SetStatus(None);
      } else {
        SetStatus(Some(s));
      }
    }
  }

  /** The state after a click on valor `v`. */
  function ToggledValor(s: FilterState, v: int): (t: FilterState)
    ensures AtMostOne(t)
    ensures s.valor == Some(v) ==> t == Cleared
    ensures s.valor != Some(v) ==> t.valor == Some(v) && SetCount(t) == 1
  {
    if s.valor == Some(v) then Cleared else Cleared.(valor := Some(v))
  }

  function ToggledClassificacao(s: FilterState, c: string): (t: FilterState)
    ensures AtMostOne(t)
    ensures s.classificacao == Some(c) ==> t == Cleared
    ensures s.classificacao != Some(c) ==> t.classificacao == Some(c) && SetCount(t) == 1
  {
    if s.classificacao == Some(c) then Cleared else Cleared.(classificacao := Some(c))
  }

  function ToggledStatus(s: FilterState, x: string): (t: FilterState)
    ensures AtMostOne(t)
    ensures s.status == Some(x) ==> t == Cleared
    ensures s.status != Some(x) ==> t.status == Some(x) && SetCount(t) == 1
  {
    if s.status == Some(x) then Cleared else Cleared.(status := Some(x))
  }

  /**
   * Two clicks on the same slice undo each other from a state where it was
   * selected, and leave everything cleared otherwise: a second click never
   * brings back another filter the first one cleared.
   */
  lemma ToggleValorTwice(s: FilterState, v: int)
    requires AtMostOne(s)
    ensures ToggledValor(ToggledValor(s, v), v) == if s.valor == Some(v) then s else Cleared
  {
    if s.valor == Some(v) {
      assert s == Cleared.(valor := Some(v));
    }
  }

  lemma ToggleClassificacaoTwice(s: FilterState, c: string)
    requires AtMostOne(s)
    ensures ToggledClassificacao(ToggledClassificacao(s, c), c) == if s.classificacao == Some(c) then s else Cleared
  {
    if s.classificacao == Some(c) {
      assert s == Cleared.(classificacao := Some(c));
    }
  }

  lemma ToggleStatusTwice(s: FilterState, x: string)
    requires AtMostOne(s)
    ensures ToggledStatus(ToggledStatus(s, x), x) == if s.status == Some(x) then s else Cleared
  {
    if s.status == Some(x) {
      assert s == Cleared.(status := Some(x));
    }
  }

  const OutsideProvider := "useFilters deve ser usado dentro de FilterProvider"

  /** `useFilters`: the context of the enclosing provider, or the error thrown without one. */
  function UseFilters(provider: Option<FilterStore>): (r: Result<FilterStore, string>)
    ensures r.Failure? <==> provider.None?
    ensures r.Failure? ==> r.error == OutsideProvider
    ensures r.Success? ==> r.value == provider.value
  {
    match provider
    case None => Failure(OutsideProvider)
    case Some(store) => Success(store)
  }
}
