/**
 * The customer-analysis page's filter indicator: the label of the active
 * filter, chosen by a fixed priority, and the indicator with its clear
 * button, shown exactly when there is a label.
 */
module AnaliseCliente {
  import opened Wrappers
  import opened Text
  import opened Filters

  /** `getFilterLabel`: classificacao first, then valor (0 included), then status; recencia and frequencia have none. */
  function FilterLabel(s: FilterState): (shown: Option<string>)
    ensures Truthy(s.classificacao) ==> shown == Some("Classificação: " + s.classificacao.value)
    ensures !Truthy(s.classificacao) && s.valor.Some? ==> shown == Some("Valor: " + IntToString(s.valor.value))
    ensures !Truthy(s.classificacao) && s.valor.None? && Truthy(s.status) ==> shown == Some("Status: " + s.status.value)
    ensures shown.None? <==> !Truthy(s.classificacao) && s.valor.None? && !Truthy(s.status)
  {
    if Truthy(s.classificacao) then Some("Classificação: " + s.classificacao.value)
    else if s.valor.Some? then Some("Valor: " + IntToString(s.valor.value))
    else if Truthy(s.status) then Some("Status: " + s.status.value)
    else None
  }

  /** `{filterLabel && ...}`: the indicator and the clear button are rendered when the label is a non-empty text. */
  predicate ShowsIndicator(s: FilterState) {
    FilterLabel(s).Some? && FilterLabel(s).value != ""
  }

  /** A label, when there is one, is never empty, so the indicator is shown exactly when there is a label. */
  lemma IndicatorIffLabel(s: FilterState)
    ensures ShowsIndicator(s) <==> FilterLabel(s).Some?
  {
    if FilterLabel(s).Some? {
      assert FilterLabel(s).value[0] in {'C', 'V', 'S'};
    }
  }

  /** The recencia and frequencia filters never change the label. */
  lemma LabelIgnoresRecenciaFrequencia(s: FilterState, r: Option<int>, f: Option<int>)
    ensures FilterLabel(s.(recencia := r, frequencia := f)) == FilterLabel(s)
  {
  }

  /**
   * In the states the setters reach, the label names the one filter that is
   * set; a recencia or frequencia filter leaves the page without an indicator.
   */
  lemma LabelOfReachableState(s: FilterState)
    requires AtMostOne(s)
    ensures s.recencia.Some? || s.frequencia.Some? ==> !ShowsIndicator(s)
    ensures s.valor.Some? ==> FilterLabel(s) == Some("Valor: " + IntToString(s.valor.value))
    ensures Truthy(s.status) ==> FilterLabel(s) == Some("Status: " + s.status.value)
  {
    IndicatorIffLabel(s);
  }
}
