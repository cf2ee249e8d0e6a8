/**
 * The seller insight panel: eleven threshold rules over a seller's metrics,
 * each pushing one message when it holds, then a stable sort by priority
 * and the first three, or a single neutral message when no rule fired.
 */
module Insights {
  import opened Seqs
  import opened Sorting

  datatype Kind = Oportunidade | Alerta | Recomendacao
  datatype Priority = Alta | Media | Baixa

  /** The eleven rules, each pushing one fixed insight. */
  datatype Insight =
    | FaturamentoEmAlta | AcimaDaMedia | PedidosAcimaDaMedia
    | FaturamentoEmQueda | AbaixoDaMedia | QuedaDePedidos | PoucosAtivos | PedidosAbaixoDaMedia
    | FocarEmValor | CampanhaDeReativacao | MaisPedidos

  /** The metrics the panel receives. */
  datatype Metrics = Metrics(
    faturamentoVariacao: real,
    faturamentoMedio: real,
    faturamentoAtual: real,
    qtdPedidosVariacao: real,
    pedidosMedio: real,
    qtdPedidosAtual: real,
    qtdClientesCarteira: real,
    clientesAtivos: real)

  function KindOf(i: Insight): Kind {
    match i
    case FaturamentoEmAlta | AcimaDaMedia | PedidosAcimaDaMedia => Oportunidade
    case FocarEmValor | CampanhaDeReativacao | MaisPedidos => Recomendacao
    case _ => Alerta
  }

  function PriorityOf(i: Insight): Priority {
    match i
    case PedidosAcimaDaMedia | FocarEmValor | MaisPedidos => Media
    case _ => Alta
  }

  function Message(i: Insight): string {
    match i
    case FaturamentoEmAlta => "Faturamento em alta! Aproveite para expandir a carteira."
    case AcimaDaMedia => "Faturamento acima da média histórica com crescimento de pedidos. Ótimo desempenho!"
    case PedidosAcimaDaMedia => "Pedidos acima da média histórica com crescimento. Ótimo desempenho!"
    case FaturamentoEmQueda => "Faturamento em queda. Revisar estratégia de vendas."
    case AbaixoDaMedia => "Faturamento abaixo da média histórica. Revisar estratégia de vendas."
    case QuedaDePedidos => "Queda significativa no número de pedidos. Reativar clientes."
    case PoucosAtivos => "Baixa taxa de clientes ativos. Priorizar reativação."
    case PedidosAbaixoDaMedia => "Pedidos abaixo da média histórica. Revisar estratégia de vendas."
    case FocarEmValor => "Aumentar faturamento focando em produtos de maior valor para alcançar a média histórica."
    case CampanhaDeReativacao => "Criar campanha de reativação para clientes inativos."
    case MaisPedidos => "Aumentar volume de pedidos para alcançar a média histórica."
  }

  const Stable := "Performance estável. Mantenha o foco!"

  /** Percentage difference of `current` from `average`, 0 when the average is not positive. */
  function Difference(current: real, average: real): real {
    if average > 0.0 then (current - average) / average * 100.0 else 0.0
  }

  /** Multiplying both sides by a positive number keeps a strict comparison. */
  lemma ScaleComparison(x: real, y: real, a: real)
    requires a > 0.0
    ensures x < y <==> x * a < y * a
  {
    if x < y {
      assert (y - x) * a > 0.0;
    }
    if y <= x {
      assert (x - y) * a >= 0.0;
    }
  }

  /** Above +20% means more than 1.2 times the average, below -20% less than 0.8 times, below 0 less than the average. */
  lemma DifferenceMeaning(current: real, average: real)
    ensures average <= 0.0 ==> Difference(current, average) == 0.0
    ensures average > 0.0 ==> (Difference(current, average) > 20.0 <==> current > average * 1.2)
    ensures average > 0.0 ==> (Difference(current, average) < -20.0 <==> current < average * 0.8)
    ensures average > 0.0 ==> (Difference(current, average) < 0.0 <==> current < average)
  {
    if average > 0.0 {
      var q := (current - average) / average;
      assert q * average == current - average;
      assert Difference(current, average) == q * 100.0;
      ScaleComparison(0.2, q, average);
      assert Difference(current, average) > 20.0 <==> 0.2 < q;
      assert 0.2 * average == average * 1.2 - average;
      ScaleComparison(q, -0.2, average);
      assert Difference(current, average) < -20.0 <==> q < -0.2;
      assert -0.2 * average == average * 0.8 - average;
      ScaleComparison(q, 0.0, average);
      assert Difference(current, average) < 0.0 <==> q < 0.0;
      assert 0.0 * average == 0.0;
    }
  }

  /** `diferencaMedia`. */
  function DiferencaMedia(m: Metrics): real {
    Difference(m.faturamentoAtual, m.faturamentoMedio)
  }

  /** `diferencaPedidos`. */
  function DiferencaPedidos(m: Metrics): real {
    Difference(m.qtdPedidosAtual, m.pedidosMedio)
  }

  /** The rule tried in position `k`, in the order of the component's code. */
  function RuleAt(k: nat): (i: Insight)
    requires k < 11
    ensures Position(i) == k
  {
    match k
    case 0 => FaturamentoEmAlta
    case 1 => AcimaDaMedia
    case 2 => PedidosAcimaDaMedia
    case 3 => FaturamentoEmQueda
    case 4 => AbaixoDaMedia
    case 5 => QuedaDePedidos
    case 6 => PoucosAtivos
    case 7 => PedidosAbaixoDaMedia
    case 8 => FocarEmValor
    case 9 => CampanhaDeReativacao
    case _ => MaisPedidos
  }

  /** The position of a rule. */
  function Position(i: Insight): (k: nat)
    ensures k < 11
  {
    match i
    case FaturamentoEmAlta => 0
    case AcimaDaMedia => 1
    case PedidosAcimaDaMedia => 2
    case FaturamentoEmQueda => 3
    case AbaixoDaMedia => 4
    case QuedaDePedidos => 5
    case PoucosAtivos => 6
    case PedidosAbaixoDaMedia => 7
    case FocarEmValor => 8
    case CampanhaDeReativacao => 9
    case MaisPedidos => 10
  }

  /** The threshold of each rule. */
  predicate Fires(i: Insight, m: Metrics) {
    match i
    case FaturamentoEmAlta => m.faturamentoVariacao > 20.0
    case AcimaDaMedia => DiferencaMedia(m) > 20.0 && m.qtdPedidosVariacao > 0.0
    case PedidosAcimaDaMedia => DiferencaPedidos(m) > 20.0 && m.qtdPedidosVariacao > 0.0
    case FaturamentoEmQueda => m.faturamentoVariacao < -15.0
    case AbaixoDaMedia => DiferencaMedia(m) < -20.0
    case QuedaDePedidos => m.qtdPedidosVariacao < -20.0
    case PoucosAtivos => m.clientesAtivos < m.qtdClientesCarteira * 0.3
    case PedidosAbaixoDaMedia => DiferencaPedidos(m) < -20.0
    case FocarEmValor => m.faturamentoAtual > 0.0 && m.qtdPedidosVariacao > 0.0 && DiferencaMedia(m) < 0.0
    case CampanhaDeReativacao => m.qtdClientesCarteira > 0.0 && m.clientesAtivos < m.qtdClientesCarteira * 0.4
    case MaisPedidos => m.pedidosMedio > 0.0 && m.qtdPedidosAtual < m.pedidosMedio * 0.8
  }

  /** The insights pushed by the first `k` rules, in order. */
  function PushedBy(m: Metrics, k: nat): seq<Insight>
    requires k <= 11
  {
    if k == 0 then []
    else
      var i := RuleAt(k - 1);
      PushedBy(m, k - 1) + if Fires(i, m) then [i] else []
  }

  /** The insights pushed by all the rules. */
  function Triggered(m: Metrics): seq<Insight> {
    PushedBy(m, 11)
  }

  /** The local `insights` array, built by the rules' conditional pushes: opportunities, then alerts, then recommendations. */
  method BuildInsights(m: Metrics) returns (insights: seq<Insight>)
    ensures insights == Triggered(m)
  {
    insights := [];
    insights := PushOpportunities(m, insights);
    insights := PushAlerts(m, insights);
    insights := PushRecommendations(m, insights);
  }

  method PushOpportunities(m: Metrics, before: seq<Insight>) returns (insights: seq<Insight>)
    requires before == PushedBy(m, 0)
    ensures insights == PushedBy(m, 3)
  {
    insights := before;
    if m.faturamentoVariacao > 20.0 {
      insights := insights + [FaturamentoEmAlta];
    }
    assert insights == PushedBy(m, 1);
    var diferencaMedia := DiferencaMedia(m);
    if diferencaMedia > 20.0 && m.qtdPedidosVariacao > 0.0 {
      insights := insights + [AcimaDaMedia];
    }
    assert insights == PushedBy(m, 2);
    var diferencaPedidos := DiferencaPedidos(m);
    if diferencaPedidos > 20.0 && m.qtdPedidosVariacao > 0.0 {
      insights := insights + [PedidosAcimaDaMedia];
    }
  }

  method PushAlerts(m: Metrics, before: seq<Insight>) returns (insights: seq<Insight>)
    requires before == PushedBy(m, 3)
    ensures insights == PushedBy(m, 8)
  {
    insights := before;
    var diferencaMedia, diferencaPedidos := DiferencaMedia(m), DiferencaPedidos(m);
    if m.faturamentoVariacao < -15.0 {
      insights := insights + [FaturamentoEmQueda];
    }
    assert insights == PushedBy(m, 4);
    if diferencaMedia < -20.0 {
      insights := insights + [AbaixoDaMedia];
    }
    assert insights == PushedBy(m, 5);
    if m.qtdPedidosVariacao < -20.0 {
      insights := insights + [QuedaDePedidos];
    }
    assert insights == PushedBy(m, 6);
    if m.clientesAtivos < m.qtdClientesCarteira * 0.3 {
      insights := insights + [PoucosAtivos];
    }
    assert insights == PushedBy(m, 7);
    if diferencaPedidos < -20.0 {
      insights := insights + [PedidosAbaixoDaMedia];
    }
  }

  method PushRecommendations(m: Metrics, before: seq<Insight>) returns (insights: seq<Insight>)
    requires before == PushedBy(m, 8)
    ensures insights == PushedBy(m, 11)
  {
    insights := before;
    var diferencaMedia := DiferencaMedia(m);
    if m.faturamentoAtual > 0.0 && m.qtdPedidosVariacao > 0.0 && diferencaMedia < 0.0 {
      insights := insights + [FocarEmValor];
    }
    assert insights == PushedBy(m, 9);
    if m.qtdClientesCarteira > 0.0 && m.clientesAtivos < m.qtdClientesCarteira * 0.4 {
      insights := insights + [CampanhaDeReativacao];
    }
    assert insights == PushedBy(m, 10);
    if m.pedidosMedio > 0.0 && m.qtdPedidosAtual < m.pedidosMedio * 0.8 {
      insights := insights + [MaisPedidos];
    }
  }

  /** The first `k` rules push an insight exactly when it is one of them and its threshold holds. */
  lemma {:induction false} PushedByIffFires(m: Metrics, k: nat, i: Insight)
    requires k <= 11
    ensures i in PushedBy(m, k) <==> Position(i) < k && Fires(i, m)
  {
    if k > 0 {
      PushedByIffFires(m, k - 1, i);
    }
  }

  /** Each insight is among the pushed ones exactly when its rule's threshold holds. */
  lemma PushedIffFires(m: Metrics, i: Insight)
    ensures i in Triggered(m) <==> Fires(i, m)
  {
    PushedByIffFires(m, 11, i);
  }

  /** Each insight is pushed at most once, so at most `k` are, and none has low priority. */
  lemma {:induction false} PushedOnce(m: Metrics, k: nat)
    requires k <= 11
    ensures Distinct(PushedBy(m, k)) && |PushedBy(m, k)| <= k
    ensures forall j :: 0 <= j < |PushedBy(m, k)| ==> Position(PushedBy(m, k)[j]) < k
    ensures forall j :: 0 <= j < |PushedBy(m, k)| ==> PriorityOf(PushedBy(m, k)[j]) != Baixa
  {
    if k > 0 {
      PushedOnce(m, k - 1);
    }
  }

  /** With a non-negative count of active clients, the low-activity alert always comes with the reactivation campaign. */
  lemma LowActivityAlsoRecommendsReactivation(m: Metrics)
    requires m.clientesAtivos >= 0.0
    requires PoucosAtivos in Triggered(m)
    ensures CampanhaDeReativacao in Triggered(m)
  {
    PushedIffFires(m, PoucosAtivos);
    PushedIffFires(m, CampanhaDeReativacao);
  }

  /** `prioridadeOrder`. */
  function Rank(i: Insight): real {
    match PriorityOf(i)
    case Alta => 3.0
    case Media => 2.0
    case Baixa => 1.0
  }

  /** What the panel shows: the neutral message, or up to three insights. */
  datatype Panel = Neutral(message: string) | Shown(insights: seq<Insight>)

  /** A descending sort over two keys puts every element of the higher key first. */
  lemma {:induction false} SortedTwoKeys<T>(s: seq<T>, key: T -> real, hi: real, lo: real)
    requires hi > lo && Sorted(s, key, Descending)
    requires forall i :: 0 <= i < |s| ==> key(s[i]) == hi || key(s[i]) == lo
    ensures s == Filter(s, KeyIs(key, hi)) + Filter(s, KeyIs(key, lo))
  {
    if s != [] {
      var init, x := s[..|s| - 1], s[|s| - 1];
      assert s == init + [x];
      if key(x) == hi {
        assert forall i :: 0 <= i < |s| ==> key(s[i]) == hi;
        FilterAllKept(s, KeyIs(key, hi));
        NoneKept(s, KeyIs(key, lo));
      } else {
        SortedTwoKeys(init, key, hi, lo);
      }
    }
  }

  /** The insights in display order: the high-priority ones as pushed, then the medium ones as pushed. */
  function ByPriority(insights: seq<Insight>): seq<Insight> {
    Filter(insights, KeyIs(Rank, 3.0)) + Filter(insights, KeyIs(Rank, 2.0))
  }

  /** The stable sort of pushed insights, none of low priority, is the high-priority ones followed by the medium ones. */
  lemma SortIsByPriority(insights: seq<Insight>)
    requires forall i :: 0 <= i < |insights| ==> PriorityOf(insights[i]) != Baixa
    ensures Sort(insights, Rank, Descending) == ByPriority(insights)
  {
    var sorted := Sort(insights, Rank, Descending);
    forall i | 0 <= i < |sorted|
      ensures Rank(sorted[i]) == 3.0 || Rank(sorted[i]) == 2.0
    {
      assert sorted[i] in multiset(insights);
    }
    SortedTwoKeys(sorted, Rank, 3.0, 2.0);
    SortStable(insights, Rank, Descending, 3.0);
    SortStable(insights, Rank, Descending, 2.0);
  }

  /**
   * The panel: the neutral message when no rule fired, otherwise the first
   * three insights after sorting the high-priority ones before the others.
   */
  method Present(m: Metrics) returns (panel: Panel)
    ensures panel.Neutral? <==> Triggered(m) == []
    ensures panel.Neutral? ==> panel.message == Stable
    ensures panel.Shown? ==> |panel.insights| == if |Triggered(m)| < 3 then |Triggered(m)| else 3
    ensures panel.Shown? ==> |panel.insights| <= |ByPriority(Triggered(m))| && panel.insights == ByPriority(Triggered(m))[..|panel.insights|]
  {
    var insights := BuildInsights(m);
    if |insights| == 0 {
      return Neutral(Stable);
    }
    insights := Sort(insights, Rank, Descending);
    PushedOnce(m, 11);
    SortIsByPriority(Triggered(m));
    var shown := if |insights| < 3 then |insights| else 3;
    panel := Shown(insights[..shown]);
  }
}
