/**
 * The seller-analysis page's list: the sellers the server returned, narrowed
 * by a name search and by availability, then ordered by name or by one of
 * the metrics, largest first. Case folding (`toLowerCase`) and the name
 * collation (`localeCompare`) are given as functions.
 */
module SellerList {
  import opened Text
  import opened Seqs
  import opened Sorting
  import opened Vendedores

  /** `filtroDisponibilidade`. */
  datatype Availability = Todos | Disponivel | Indisponivel

  /** `ordenacao`. */
  datatype Ordering = Nome | Faturamento | Pedidos | Clientes

  /** The search box: active when `busca.trim()` is non-empty; the name must then contain the lowered, untrimmed text. */
  predicate MatchesSearch(v: SellerMetrics, busca: string, lower: string -> string) {
    Trim(busca) == "" || Contains(lower(v.seller.nome), lower(busca))
  }

  predicate MatchesAvailability(v: SellerMetrics, filtro: Availability) {
    match filtro
    case Todos => true
    case Disponivel => v.seller.disponivel
    case Indisponivel => !v.seller.disponivel
  }

  /** A seller is listed when it passes both filters. */
  predicate Shown(v: SellerMetrics, busca: string, filtro: Availability, lower: string -> string) {
    MatchesSearch(v, busca, lower) && MatchesAvailability(v, filtro)
  }

  /** The sellers that pass both filters, in the server's order. */
  function Visible(vendedores: seq<SellerMetrics>, busca: string, filtro: Availability, lower: string -> string): seq<SellerMetrics> {
    Filter(vendedores, (v: SellerMetrics) => Shown(v, busca, filtro, lower))
  }

  /**
   * The sort key of an ordering: the collation rank of the name, or the
   * metric; `b.x - a.x` orders the metrics largest first.
   */
  function SortKey(ordenacao: Ordering, collation: string -> real): SellerMetrics -> real {
    match ordenacao
    case Nome => (v: SellerMetrics) => collation(v.seller.nome)
    case Faturamento => (v: SellerMetrics) => v.metrics.faturamentoAtual
    case Pedidos => (v: SellerMetrics) => v.metrics.qtdPedidosAtual as real
    case Clientes => (v: SellerMetrics) => v.metrics.qtdClientesCarteira as real
  }

  function SortDirection(ordenacao: Ordering): (dir: Direction)
    ensures dir == Ascending <==> ordenacao == Nome
  {
    if ordenacao == Nome then Ascending else Descending
  }

  /** The list the page shows. */
  function Listed(vendedores: seq<SellerMetrics>, busca: string, filtro: Availability, ordenacao: Ordering,
                  lower: string -> string, collation: string -> real): seq<SellerMetrics> {
    Sort(Visible(vendedores, busca, filtro, lower), SortKey(ordenacao, collation), SortDirection(ordenacao))
  }

  /**
   * `filtrarEOrdenar`: a copy of the list, narrowed by the search when it is
   * not blank, then by availability unless it is `todos`, then sorted.
   */
  method FiltrarEOrdenar(vendedores: seq<SellerMetrics>, busca: string, filtro: Availability, ordenacao: Ordering,
                         lower: string -> string, collation: string -> real) returns (filtrados: seq<SellerMetrics>)
    ensures filtrados == Listed(vendedores, busca, filtro, ordenacao, lower, collation)
  {
    var search := (v: SellerMetrics) => MatchesSearch(v, busca, lower);
    var available := (v: SellerMetrics) => MatchesAvailability(v, filtro);
    filtrados := vendedores;
    if Trim(busca) != "" {
      filtrados := Filter(filtrados, search);
    } else {
      FilterAllKept(vendedores, search);
    }
    if filtro != Todos {
      filtrados := Filter(filtrados, available);
    } else {
      FilterAllKept(Filter(vendedores, search), available);
    }
    FilterFusion(vendedores, search, available, (v: SellerMetrics) => Shown(v, busca, filtro, lower));
    filtrados := Sort(filtrados, SortKey(ordenacao, collation), SortDirection(ordenacao));
  }

  /**
   * The list holds, as often as the server's list does, exactly the sellers
   * that pass both filters: a permutation of a part of the input.
   */
  lemma ListedSellers(vendedores: seq<SellerMetrics>, busca: string, filtro: Availability, ordenacao: Ordering,
                      lower: string -> string, collation: string -> real, v: SellerMetrics)
    ensures var listed := Listed(vendedores, busca, filtro, ordenacao, lower, collation);
      multiset(listed) <= multiset(vendedores) &&
      multiset(listed) == multiset(Visible(vendedores, busca, filtro, lower)) &&
      (v in listed <==> v in vendedores && Shown(v, busca, filtro, lower))
  {
    var p := (v: SellerMetrics) => Shown(v, busca, filtro, lower);
    var visible := Visible(vendedores, busca, filtro, lower);
    FilterSubMultiset(vendedores, p);
    FilterMember(vendedores, p, v);
    var listed := Listed(vendedores, busca, filtro, ordenacao, lower, collation);
    assert v in listed <==> v in multiset(listed);
    assert v in visible <==> v in multiset(visible);
  }

  /**
   * The list is ordered by the chosen key (name ascending, metrics largest
   * first), and sellers with equal keys keep the server's order.
   */
  lemma ListedOrder(vendedores: seq<SellerMetrics>, busca: string, filtro: Availability, ordenacao: Ordering,
                    lower: string -> string, collation: string -> real, k: real)
    ensures var key := SortKey(ordenacao, collation);
      var listed := Listed(vendedores, busca, filtro, ordenacao, lower, collation);
      Sorted(listed, key, SortDirection(ordenacao)) &&
      Filter(listed, KeyIs(key, k)) == Filter(Visible(vendedores, busca, filtro, lower), KeyIs(key, k))
  {
    SortStable(Visible(vendedores, busca, filtro, lower), SortKey(ordenacao, collation), SortDirection(ordenacao), k);
  }

  /** With a blank search and `todos`, every seller is listed, only reordered. */
  lemma NoFilterListsAll(vendedores: seq<SellerMetrics>, busca: string, ordenacao: Ordering,
                         lower: string -> string, collation: string -> real)
    requires IsBlank(busca)
    ensures multiset(Listed(vendedores, busca, Todos, ordenacao, lower, collation)) == multiset(vendedores)
  {
    BlankSearchKeepsAll(vendedores, busca, lower);
  }

  /** A blank search with `todos` lets every seller through. */
  lemma BlankSearchKeepsAll(vendedores: seq<SellerMetrics>, busca: string, lower: string -> string)
    requires IsBlank(busca)
    ensures Visible(vendedores, busca, Todos, lower) == vendedores
  {
    TrimEmptyIffBlank(busca);
    FilterAllKept(vendedores, (v: SellerMetrics) => Shown(v, busca, Todos, lower));
  }

  /**
   * The availability filters split the sellers: those listed under
   * `disponivel` and under `indisponivel` together are those under `todos`.
   */
  lemma AvailabilitySplits(vendedores: seq<SellerMetrics>, busca: string, lower: string -> string)
    ensures multiset(Visible(vendedores, busca, Disponivel, lower)) + multiset(Visible(vendedores, busca, Indisponivel, lower)) ==
      multiset(Visible(vendedores, busca, Todos, lower))
  {
    var all := Visible(vendedores, busca, Todos, lower);
    var on := (v: SellerMetrics) => v.seller.disponivel;
    var off := (v: SellerMetrics) => !v.seller.disponivel;
    FilterPartition(all, on, off);
    var search := (v: SellerMetrics) => Shown(v, busca, Todos, lower);
    FilterFusion(vendedores, search, on, (v: SellerMetrics) => Shown(v, busca, Disponivel, lower));
    FilterFusion(vendedores, search, off, (v: SellerMetrics) => Shown(v, busca, Indisponivel, lower));
  }
}
