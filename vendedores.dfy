/**
 * The seller metrics of the sales dashboard's backend: amounts read from the
 * sales report as text, revenue and order counts per calendar month, their
 * variation against a base, the 12-month average with the best and worst
 * months dropped, the classification of a seller's customers as active, and
 * the metrics record of each seller that the list and detail routes return.
 */
module Vendedores {
  import opened Wrappers
  import opened Text
  import opened Seqs
  import opened Numbers
  import opened Sorting
  import opened Calendar
  import opened Db

  /** A row of the sales report: the amount as the report writes it and the invoice number. */
  datatype SaleRow = SaleRow(valor: Option<string>, invoice: Option<string>)

  // ---------------------------------------------------------------- amounts

  /** The characters `/[^\d,.-]/g` does not remove. */
  predicate KeptInAmount(c: char) {
    IsDigit(c) || c == ',' || c == '.' || c == '-'
  }

  /** `valor.replace(/[^\d,.-]/g, '').replace(',', '.')`: every other character dropped, then the first comma made a point. */
  function CleanAmount(s: string): string {
    ReplaceFirst(Filter(s, KeptInAmount), ",", ".")
  }

  /** `processarValor`: null or empty text is 0, otherwise the number `parseFloat` reads from the cleaned text, 0 where it reads none. */
  function ProcessAmount(valor: Option<string>): real {
    if !Truthy(valor) then 0.0
    else match ParseFloat(CleanAmount(valor.value))
      case Finite(v) => v
      case _ => 0.0
  }

  /** Text made only of kept characters is left as it is by the character filter. */
  lemma {:induction false} FilterKeepsAmountText(s: string)
    requires forall i :: 0 <= i < |s| ==> KeptInAmount(s[i])
    ensures Filter(s, KeptInAmount) == s
  {
    FilterKeepsAll(s, KeptInAmount);
    FilterSubMultiset(s, KeptInAmount);
    if s != [] {
      FilterKeepsAmountText(s[..|s| - 1]);
      SplitLast(s);
    }
  }

  /** The cleaned text never spells `Infinity`, so the parse is a finite number or NaN. */
  lemma CleanAmountIsFiniteOrNaN(s: string)
    ensures ParseFloat(CleanAmount(s)).Finite? || ParseFloat(CleanAmount(s)).NaN?
  {
    var kept := Filter(s, KeptInAmount);
    var c := CleanAmount(s);
    assert forall i :: 0 <= i < |c| ==> KeptInAmount(c[i]) by {
      match IndexOf(kept, ",")
      case None =>
      case Some(k) =>
        assert c == kept[..k] + "." + kept[k + 1..];
        forall i | 0 <= i < |c|
          ensures KeptInAmount(c[i])
        {
          if i < k { assert c[i] == kept[i]; }
          else if i > k { assert c[i] == kept[i]; }
        }
    }
    ParseFloatWithoutLetters(c);
  }

  /** An integer written out in decimal is read back exactly, a negative one included. */
  lemma ProcessAmountOfInteger(i: int)
    ensures ProcessAmount(Some(IntToString(i))) == i as real
  {
    CleanIntegerText(i);
    ParseFloatOfIntToString(i);
  }

  /** The text of an integer is left as it is by the cleaning. */
  lemma CleanIntegerText(i: int)
    ensures CleanAmount(IntToString(i)) == IntToString(i)
  {
    var s := IntToString(i);
    IntToStringShape(i);
    SignedDigitsKept(s, NatToString(if i < 0 then -i else i));
    FilterKeepsAmountText(s);
    ReplaceFirstCharAbsent(s, ',', '.');
  }

  /** A decimal comma is read as the decimal point: "a,ds" is a + ds/10^|ds|. */
  lemma ProcessAmountDecimalComma(a: nat, ds: string)
    requires 1 <= |ds| && AllDigits(ds)
    ensures ProcessAmount(Some(NatToString(a) + "," + ds)) == a as real + DigitsValue(ds) as real / Pow10(|ds|) as real
  {
    var w := NatToString(a);
    CleanDecimalComma(w, ds);
    ParseFloatDecimal(w, ds, []);
    NatToStringRoundTrip(a);
    assert DecimalValue(w, ds) == a as real + DigitsValue(ds) as real / Pow10(|ds|) as real;
  }

  /** Digits, with or without a minus sign in front, are all kept by the cleaning. */
  lemma SignedDigitsKept(s: string, digits: string)
    requires AllDigits(digits) && (s == digits || s == "-" + digits)
    ensures forall k :: 0 <= k < |s| ==> KeptInAmount(s[k])
  {
    forall k | 0 <= k < |s|
      ensures KeptInAmount(s[k])
    {
      if s == digits {
        assert IsDigit(digits[k]);
      } else if k > 0 {
        assert s[k] == digits[k - 1];
      }
    }
  }

  /** Digits, a comma and digits are cleaned to the same text with a decimal point. */
  lemma CleanDecimalComma(w: string, ds: string)
    requires AllDigits(w) && AllDigits(ds)
    ensures CleanAmount(w + "," + ds) == w + "." + ds + []
  {
    var s := w + "," + ds;
    assert forall k :: 0 <= k < |s| ==> KeptInAmount(s[k]) by {
      forall k | 0 <= k < |s|
        ensures KeptInAmount(s[k])
      {
        if k < |w| {
          assert s[k] == w[k];
        } else if k > |w| {
          assert s[k] == ds[k - |w| - 1];
        }
      }
    }
    FilterKeepsAmountText(s);
    assert forall j :: 0 <= j < |w| ==> s[j] != ',' by {
      assert forall j :: 0 <= j < |w| ==> s[j] == w[j];
    }
    ReplaceFirstCharAt(s, ',', '.', |w|);
    UpdateBetween(w, ',', '.', ds);
  }

  /** Written as the source does, a thousands separator stops the parse: "R$ 1.234,56" reads as 1.234, not 1234.56. */
  lemma ThousandsSeparatorTruncates()
    ensures ProcessAmount(Some("R$ 1.234,56")) == 1.234
  {
    CleanThousands();
    assert "1.234.56" == "1" + "." + "234" + ".56";
    ParseFloatDecimal("1", "234", ".56");
    OneDot234();
  }

  lemma CleanThousands()
    ensures CleanAmount("R$ 1.234,56") == "1.234.56"
  {
    var kept := "1.234,56";
    FilterThousands();
    ReplaceFirstCharAt(kept, ',', '.', 5);
    assert kept[5 := '.'] == "1.234.56";
  }

  lemma FilterThousands()
    ensures Filter("R$ 1.234,56", KeptInAmount) == "1.234,56"
  {
    assert "R$ 1.234,56" == "R$ " + "1.234,56";
    FilterAppend("R$ ", "1.234,56", KeptInAmount);
    CurrencyDropped();
    FilterKeepsAmountText("1.234,56");
  }

  lemma CurrencyDropped()
    ensures Filter("R$ ", KeptInAmount) == []
  {
    NoneKept("R$ ", KeptInAmount);
  }

  lemma OneDot234()
    ensures DecimalValue("1", "234") == 1.234
  {
    assert DigitsValue("1") == 1 by { assert "1"[..0] == ""; }
    assert DigitsValue("234") == 234 by {
      assert "234"[..2] == "23" && "23"[..1] == "2" && "2"[..0] == "";
    }
    assert Pow10(3) == 1000;
  }

  // ---------------------------------------------------------------- one period

  function Amounts(rows: seq<SaleRow>): (r: seq<real>)
    ensures |r| == |rows| && forall i :: 0 <= i < |rows| ==> r[i] == ProcessAmount(rows[i].valor)
  {
    if rows == [] then [] else Amounts(rows[..|rows| - 1]) + [ProcessAmount(rows[|rows| - 1].valor)]
  }

  predicate IsPositive(v: real) { v > 0.0 }

  /** Revenue of a period: the sum of the amounts that are strictly positive. */
  function Revenue(rows: seq<SaleRow>): real {
    Sum(Filter(Amounts(rows), IsPositive))
  }

  lemma {:induction false} SumOfPositives(s: seq<real>)
    requires forall i :: 0 <= i < |s| ==> s[i] > 0.0
    ensures Sum(s) >= 0.0
    ensures s != [] ==> Sum(s) > 0.0
  {
    if s != [] { SumOfPositives(s[..|s| - 1]); }
  }

  /** Revenue is never negative. */
  lemma RevenueNonNegative(rows: seq<SaleRow>)
    ensures Revenue(rows) >= 0.0
  {
    SumOfPositives(Filter(Amounts(rows), IsPositive));
  }

  /** Revenue is positive as soon as one row's amount is. */
  lemma RevenuePositive(rows: seq<SaleRow>, i: nat)
    requires i < |rows| && ProcessAmount(rows[i].valor) > 0.0
    ensures Revenue(rows) > 0.0
  {
    var amounts := Amounts(rows);
    assert IsPositive(amounts[i]);
    FilterKeepsPassing(amounts, IsPositive);
    SumOfPositives(Filter(amounts, IsPositive));
  }

  /** Revenue adds up over a split of the rows, and a row whose amount is not positive adds nothing. */
  lemma RevenueAppend(a: seq<SaleRow>, b: seq<SaleRow>)
    ensures Revenue(a + b) == Revenue(a) + Revenue(b)
  {
    AmountsAppend(a, b);
    FilterAppend(Amounts(a), Amounts(b), IsPositive);
    SumAppend(Filter(Amounts(a), IsPositive), Filter(Amounts(b), IsPositive));
  }

  lemma AmountsAppend(a: seq<SaleRow>, b: seq<SaleRow>)
    ensures Amounts(a + b) == Amounts(a) + Amounts(b)
  {
    var l, r := Amounts(a + b), Amounts(a) + Amounts(b);
    forall i | 0 <= i < |l|
      ensures l[i] == r[i]
    {
      if i < |a| { assert (a + b)[i] == a[i]; } else { assert (a + b)[i] == b[i - |a|]; }
    }
  }

  lemma RevenueIgnoresNonPositive(rows: seq<SaleRow>, r: SaleRow)
    requires ProcessAmount(r.valor) <= 0.0
    ensures Revenue(rows + [r]) == Revenue(rows)
  {
    RevenueAppend(rows, [r]);
    assert Amounts([r]) == [ProcessAmount(r.valor)];
    NoneKept(Amounts([r]), IsPositive);
  }

  /** The invoice numbers of the rows. */
  function Invoices(rows: seq<SaleRow>): (r: seq<Option<string>>)
    ensures |r| == |rows| && forall i :: 0 <= i < |rows| ==> r[i] == rows[i].invoice
  {
    if rows == [] then [] else Invoices(rows[..|rows| - 1]) + [rows[|rows| - 1].invoice]
  }

  /** Orders of a period: `new Set(rows.map(v => v.ft_nfiscal)).size`, the number of distinct invoice numbers. */
  function OrderCount(rows: seq<SaleRow>): nat {
    |set x | x in Invoices(rows)|
  }

  lemma {:induction false} DistinctCount<T>(s: seq<T>)
    ensures |set x | x in s| <= |s|
    ensures s != [] ==> |set x | x in s| >= 1
    ensures (forall i, j :: 0 <= i < j < |s| ==> s[i] != s[j]) ==> |set x | x in s| == |s|
  {
    if s != [] {
      var init := s[..|s| - 1];
      DistinctCount(init);
      SplitLast(s);
      assert (set x | x in s) == (set x | x in init) + {s[|s| - 1]};
      assert s[0] in (set x | x in s);
      if forall i, j :: 0 <= i < j < |s| ==> s[i] != s[j] {
        assert forall i, j :: 0 <= i < j < |init| ==> init[i] != init[j] by {
          forall i, j | 0 <= i < j < |init| ensures init[i] != init[j] { assert init[i] == s[i] && init[j] == s[j]; }
        }
        assert s[|s| - 1] !in init;
      }
    }
  }

  /** At most one order per row, at least one when there are rows, and exactly one per row when the invoices differ. */
  lemma OrderCountBounds(rows: seq<SaleRow>)
    ensures OrderCount(rows) <= |rows|
    ensures rows != [] ==> OrderCount(rows) >= 1
    ensures (forall i, j :: 0 <= i < j < |rows| ==> rows[i].invoice != rows[j].invoice) ==> OrderCount(rows) == |rows|
  {
    DistinctCount(Invoices(rows));
  }

  /** Another line of an invoice already seen is not another order. */
  lemma OrderCountRepeatedInvoice(rows: seq<SaleRow>, r: SaleRow)
    requires exists i :: 0 <= i < |rows| && rows[i].invoice == r.invoice
    ensures OrderCount(rows + [r]) == OrderCount(rows)
  {
    var i :| 0 <= i < |rows| && rows[i].invoice == r.invoice;
    assert Invoices(rows + [r]) == Invoices(rows) + [r.invoice];
    assert r.invoice in Invoices(rows);
    assert (set x | x in Invoices(rows + [r])) == (set x | x in Invoices(rows));
  }

  /** `calcularVariacao`: the change from `base` to `current` in percent; 100 or 0 when the base is 0. */
  function Variation(current: real, base: real): real {
    if base == 0.0 then (if current > 0.0 then 100.0 else 0.0)
    else (current - base) / base * 100.0
  }

  /** Applying the variation to a non-zero base gives back the current value. */
  lemma VariationRecovers(current: real, base: real)
    requires base != 0.0
    ensures base + base * Variation(current, base) / 100.0 == current
  {
  }

  /** Against a positive base, the variation is positive exactly when the value grew and negative exactly when it shrank. */
  lemma VariationSign(current: real, base: real)
    requires base > 0.0
    ensures Variation(current, base) > 0.0 <==> current > base
    ensures Variation(current, base) < 0.0 <==> current < base
  {
    var r := Variation(current, base);
    assert r == (current - base) * (100.0 / base);
    assert 100.0 / base > 0.0;
  }

  /** What `calcularMetricasVendas` returns for the current and the previous month. */
  datatype SalesMetrics = SalesMetrics(
    faturamentoAtual: real, faturamentoAnterior: real, faturamentoVariacao: real,
    qtdPedidosAtual: nat, qtdPedidosAnterior: nat, qtdPedidosVariacao: real)

  /** `errorAtual?.message || errorAnterior?.message || 'Erro ao buscar vendas'`. */
  function SalesError(current: Fetch<SaleRow>, previous: Fetch<SaleRow>): string {
    if current.Failed? && current.message != "" then current.message
    else if previous.Failed? && previous.message != "" then previous.message
    else "Erro ao buscar vendas"
  }

  /** `calcularMetricasVendas` on the two fetches: it throws when either failed. */
  function PeriodSales(current: Fetch<SaleRow>, previous: Fetch<SaleRow>): Result<SalesMetrics, string> {
    if current.Failed? || previous.Failed? then Failure(SalesError(current, previous))
    else
      var fa, fp := Revenue(current.rows), Revenue(previous.rows);
      var qa, qp := OrderCount(current.rows), OrderCount(previous.rows);
      Success(SalesMetrics(fa, fp, Variation(fa, fp), qa, qp, Variation(qa as real, qp as real)))
  }

  /** Either fetch failing fails the whole, with a non-empty message where the current month's error wins. */
  lemma PeriodSalesErrors(current: Fetch<SaleRow>, previous: Fetch<SaleRow>)
    ensures PeriodSales(current, previous).Failure? <==> current.Failed? || previous.Failed?
    ensures PeriodSales(current, previous).Failure? ==> PeriodSales(current, previous).error != ""
    ensures current.Failed? && current.message != "" ==> PeriodSales(current, previous).error == current.message
    ensures current.Rows? && previous.Failed? && previous.message != "" ==> PeriodSales(current, previous).error == previous.message
  {
  }

  /** On success, revenues are non-negative and order counts are bounded by the rows fetched. */
  lemma PeriodSalesBounds(current: Fetch<SaleRow>, previous: Fetch<SaleRow>)
    requires current.Rows? && previous.Rows?
    ensures PeriodSales(current, previous).Success?
    ensures var m := PeriodSales(current, previous).value;
      m.faturamentoAtual >= 0.0 && m.faturamentoAnterior >= 0.0
      && m.qtdPedidosAtual <= |current.rows| && m.qtdPedidosAnterior <= |previous.rows|
  {
    RevenueNonNegative(current.rows);
    RevenueNonNegative(previous.rows);
    OrderCountBounds(current.rows);
    OrderCountBounds(previous.rows);
  }

  // ---------------------------------------------------------------- twelve-month history

  /** The sales query of one seller over one range of days. */
  type SalesQuery = (string, Window) -> Fetch<SaleRow>

  /** What a month contributes to a history: its revenue, or its number of orders. */
  datatype Measure = RevenueOf | OrdersOf

  function MeasureOf(m: Measure, rows: seq<SaleRow>): real {
    if m == RevenueOf then Revenue(rows) else OrderCount(rows) as real
  }

  /** The queries of months 0 .. months-1 back from `now`, current month first. */
  function MonthFetches(sales: SalesQuery, seller: string, now: Date, months: nat): (r: seq<Fetch<SaleRow>>)
    ensures |r| == months && forall i :: 0 <= i < months ==> r[i] == sales(seller, MonthWindow(now, i))
  {
    seq(months, i => sales(seller, MonthWindow(now, i)))
  }

  /** The value of every month whose query succeeded, in month order; a failed month is left out. */
  function MonthlyValues(fetches: seq<Fetch<SaleRow>>, m: Measure): seq<real> {
    if fetches == [] then []
    else
      var prior := MonthlyValues(fetches[..|fetches| - 1], m);
      match fetches[|fetches| - 1]
      case Failed(_) => prior
      case Rows(rows) => prior + [MeasureOf(m, rows)]
  }

  /** The loop of `calcularFaturamentoMedio` / `calcularPedidosMedio`: one query per month, pushing each month that did not fail. */
  method CollectMonthly(sales: SalesQuery, seller: string, now: Date, months: nat, m: Measure) returns (series: seq<real>)
    ensures series == MonthlyValues(MonthFetches(sales, seller, now, months), m)
  {
    series := [];
    for i := 0 to months
      invariant series == MonthlyValues(MonthFetches(sales, seller, now, i), m)
    {
      var f := sales(seller, MonthWindow(now, i));
      MonthFetchesSnoc(sales, seller, now, i);
      MonthlyValuesSnoc(MonthFetches(sales, seller, now, i), f, m);
      if f.Rows? {
        series := series + [MeasureOf(m, f.rows)];
      }
    }
  }

  /** The queries of one more month are those before it followed by its own. */
  lemma MonthFetchesSnoc(sales: SalesQuery, seller: string, now: Date, i: nat)
    ensures MonthFetches(sales, seller, now, i + 1) == MonthFetches(sales, seller, now, i) + [sales(seller, MonthWindow(now, i))]
  {
  }

  /** One more month adds its value when its query succeeded and nothing when it failed. */
  lemma MonthlyValuesSnoc(init: seq<Fetch<SaleRow>>, f: Fetch<SaleRow>, m: Measure)
    ensures MonthlyValues(init + [f], m) == MonthlyValues(init, m) + if f.Rows? then [MeasureOf(m, f.rows)] else []
  {
    assert (init + [f])[..|init|] == init;
  }

  /** At most one value per month, and one for every month exactly when no query failed. */
  lemma {:induction false} MonthlyValuesLength(fetches: seq<Fetch<SaleRow>>, m: Measure)
    ensures |MonthlyValues(fetches, m)| <= |fetches|
    ensures |MonthlyValues(fetches, m)| == |fetches| <==> forall i :: 0 <= i < |fetches| ==> fetches[i].Rows?
  {
    if fetches != [] {
      var init, last := fetches[..|fetches| - 1], fetches[|fetches| - 1];
      assert fetches == init + [last];
      MonthlyValuesLength(init, m);
      MonthlyValuesSnoc(init, last, m);
      var allInit := forall i :: 0 <= i < |init| ==> init[i].Rows?;
      assert (forall i :: 0 <= i < |fetches| ==> fetches[i].Rows?) <==> allInit && last.Rows? by {
        assert forall i :: 0 <= i < |init| ==> init[i] == fetches[i];
      }
    }
  }

  /** The reference mean: drop the smallest and the largest value once each and average the rest; 0 for fewer than 3 values. */
  function TrimmedMean(s: seq<real>): real {
    if |s| < 3 then 0.0 else (Sum(s) - Min(s) - Max(s)) / (|s| - 2) as real
  }

  function Identity(x: real): real { x }

  /** In the ascending sort the smallest value comes first and the largest last. */
  lemma SortedEnds(s: seq<real>)
    requires |s| > 0
    ensures Sort(s, Identity, Ascending)[0] == Min(s)
    ensures Sort(s, Identity, Ascending)[|s| - 1] == Max(s)
  {
    var r := Sort(s, Identity, Ascending);
    MinIsLeast(s);
    MaxIsGreatest(s);
    SortedFirst(r, s, Min(s));
    SortedLast(r, s, Max(s));
  }

  lemma SortedFirst(r: seq<real>, s: seq<real>, lo: real)
    requires |s| > 0 && multiset(r) == multiset(s) && Sorted(r, Identity, Ascending)
    requires lo in s && forall k :: 0 <= k < |s| ==> lo <= s[k]
    ensures r[0] == lo
  {
    assert lo in multiset(r);
    var i :| 0 <= i < |r| && r[i] == lo;
    assert r[0] in multiset(s);
    if i > 0 { assert InOrder(Ascending, Identity(r[0]), Identity(r[i])); }
  }

  lemma SortedLast(r: seq<real>, s: seq<real>, hi: real)
    requires |s| > 0 && multiset(r) == multiset(s) && Sorted(r, Identity, Ascending)
    requires hi in s && forall k :: 0 <= k < |s| ==> s[k] <= hi
    ensures r[|r| - 1] == hi
  {
    assert hi in multiset(r);
    var i :| 0 <= i < |r| && r[i] == hi;
    assert r[|r| - 1] in multiset(s);
    if i < |r| - 1 { assert InOrder(Ascending, Identity(r[i]), Identity(r[|r| - 1])); }
  }

  /** Removing one occurrence of the lowest and then one of the highest value leaves |s| - 2 values, all between the two, summing to the rest. */
  lemma RemoveExtremes(s: seq<real>, lo: real, hi: real, i: nat, j: nat)
    requires forall k :: 0 <= k < |s| ==> lo <= s[k] <= hi
    requires i < |s| && s[i] == lo
    requires j < |s| - 1 && RemoveAt(s, i)[j] == hi
    ensures var r := RemoveAt(RemoveAt(s, i), j);
      |r| == |s| - 2 && Sum(r) == Sum(s) - lo - hi
      && forall k :: 0 <= k < |r| ==> lo <= r[k] <= hi
  {
    var t := RemoveAt(s, i);
    SumRemoveAt(s, i);
    SumRemoveAt(t, j);
    var r := RemoveAt(t, j);
    forall k | 0 <= k < |r|
      ensures lo <= r[k] <= hi
    {
      assert r[k] in multiset(t);
      assert r[k] in multiset(s);
    }
  }

  /** After one occurrence of the lowest of at least 3 values is removed, the highest is still there. */
  lemma HighestSurvives(s: seq<real>, lo: real, hi: real, i: nat)
    requires |s| >= 3 && forall k :: 0 <= k < |s| ==> lo <= s[k] <= hi
    requires hi in s && i < |s| && s[i] == lo
    ensures hi in RemoveAt(s, i)
  {
    var t := RemoveAt(s, i);
    if hi == lo {
      assert t[0] == s[if i == 0 then 1 else 0];
    } else {
      assert hi in multiset(s) - multiset{s[i]};
    }
  }

  /** Splicing out the first minimum and then the first maximum keeps the values whose mean is the trimmed mean. */
  lemma SpliceExtremes(s: seq<real>, i: nat, j: nat)
    requires |s| >= 3 && i < |s| && s[i] == Min(s)
    requires j < |s| - 1 && RemoveAt(s, i)[j] == Max(s)
    ensures var r := RemoveAt(RemoveAt(s, i), j);
      |r| == |s| - 2 && TrimmedMean(s) == Sum(r) / |r| as real
      && forall k :: 0 <= k < |r| ==> Min(s) <= r[k] <= Max(s)
  {
    var lo, hi := Min(s), Max(s);
    MinIsLeast(s);
    MaxIsGreatest(s);
    RemoveExtremes(s, lo, hi, i, j);
    var r := RemoveAt(RemoveAt(s, i), j);
    var total, n := Sum(r), |r| as real;
    assert TrimmedMean(s) == (Sum(s) - lo - hi) / (|s| - 2) as real;
    assert Sum(s) - lo - hi == total && (|s| - 2) as real == n;
  }

  /** The trimming of the source: sort a copy, then `indexOf` + `splice` one occurrence of its first and of its last element. */
  method TrimmedAverage(values: seq<real>) returns (avg: real)
    ensures avg == TrimmedMean(values)
  {
    if |values| < 3 {
      return 0.0;
    }
    var sorted := Sort(values, Identity, Ascending);
    var lowest, highest := sorted[0], sorted[|sorted| - 1];
    SortedEnds(values);
    MinIsLeast(values);
    MaxIsGreatest(values);
    var filtered := values;
    var lowAt := IndexOfValue(filtered, lowest);
    if lowAt.Some? {
      filtered := RemoveAt(filtered, lowAt.value);
    }
    HighestSurvives(values, lowest, highest, lowAt.value);
    var highAt := IndexOfValue(filtered, highest);
    if highAt.Some? {
      filtered := RemoveAt(filtered, highAt.value);
    }
    SpliceExtremes(values, lowAt.value, highAt.value);
    if |filtered| == 0 {
      return 0.0;
    }
    avg := Sum(filtered) / |filtered| as real;
  }

  /** The values the trimming keeps: |s| - 2 of them, between the extremes, averaging to the trimmed mean. */
  lemma TrimmedWitness(s: seq<real>) returns (r: seq<real>)
    requires |s| >= 3
    ensures |r| == |s| - 2 && TrimmedMean(s) == Sum(r) / |r| as real
    ensures forall k :: 0 <= k < |r| ==> Min(s) <= r[k] <= Max(s)
  {
    MinIsLeast(s);
    MaxIsGreatest(s);
    var i := IndexOfValue(s, Min(s)).value;
    HighestSurvives(s, Min(s), Max(s), i);
    var j := IndexOfValue(RemoveAt(s, i), Max(s)).value;
    SpliceExtremes(s, i, j);
    r := RemoveAt(RemoveAt(s, i), j);
  }

  /** The trimmed mean lies between the smallest and the largest value. */
  lemma TrimmedMeanBounds(s: seq<real>)
    requires |s| >= 3
    ensures Min(s) <= TrimmedMean(s) <= Max(s)
  {
    var r := TrimmedWitness(s);
    MeanWithin(r, Min(s), Max(s));
  }

  /** Equal values average to themselves; a peak and a dip are both dropped. */
  lemma TrimmedMeanExamples()
    ensures TrimmedMean([5.0, 5.0, 5.0]) == 5.0
    ensures TrimmedMean([10.0, 30.0, 20.0]) == 20.0
    ensures TrimmedMean([1.0, 9.0]) == 0.0
  {
    assert Sum([5.0, 5.0, 5.0]) == 15.0 by { assert [5.0, 5.0, 5.0][..2][..1][..0] == []; }
    assert Sum([10.0, 30.0, 20.0]) == 60.0 by { assert [10.0, 30.0, 20.0][..2][..1][..0] == []; }
    assert Min([5.0, 5.0, 5.0]) == 5.0 && Max([5.0, 5.0, 5.0]) == 5.0;
    assert Min([10.0, 30.0, 20.0]) == 10.0 && Max([10.0, 30.0, 20.0]) == 30.0;
  }

  /** `calcularFaturamentoMedio` / `calcularPedidosMedio`: the trimmed mean of the last `months` months. */
  method HistoricalAverage(sales: SalesQuery, seller: string, now: Date, months: nat, m: Measure) returns (avg: real)
    ensures avg == TrimmedMean(MonthlyValues(MonthFetches(sales, seller, now, months), m))
  {
    var series := CollectMonthly(sales, seller, now, months, m);
    avg := TrimmedAverage(series);
  }

  // ---------------------------------------------------------------- portfolio

  /** A customer of the RFV table as the portfolio metrics read it. */
  datatype PortfolioRow = PortfolioRow(recencia: Option<int>, frequencia: Option<int>)

  /** An active customer: `(recencia || 0) <= 2 && (frequencia || 0) >= 2`. */
  predicate IsActive(c: PortfolioRow) {
    OrZero(c.recencia) <= 2 && OrZero(c.frequencia) >= 2
  }

  /** The portfolio part of a seller's metrics. */
  datatype Portfolio = Portfolio(qtdClientesCarteira: nat, clientesAtivos: nat)

  /** `calcularMetricasCarteira`: it throws the query's message, and counts the customers and the active ones. */
  function PortfolioMetrics(f: Fetch<PortfolioRow>): Result<Portfolio, string> {
    match f
    case Failed(message) => Failure(message)
    case Rows(rows) =>
      if rows == [] then Success(Portfolio(0, 0))
      else Success(Portfolio(|rows|, |Filter(rows, IsActive)|))
  }

  /** The counts: every customer once, the active ones among them, both 0 for an empty portfolio. */
  lemma PortfolioCounts(rows: seq<PortfolioRow>)
    ensures PortfolioMetrics(Rows(rows)).Success?
    ensures var p := PortfolioMetrics(Rows(rows)).value;
      p.qtdClientesCarteira == |rows| && p.clientesAtivos == |Filter(rows, IsActive)|
      && p.clientesAtivos <= p.qtdClientesCarteira
      && (rows == [] ==> p == Portfolio(0, 0))
  {
  }

  /** Every customer is active exactly when the two counts agree. */
  lemma AllActiveIff(rows: seq<PortfolioRow>)
    ensures PortfolioMetrics(Rows(rows)).value.clientesAtivos == PortfolioMetrics(Rows(rows)).value.qtdClientesCarteira
        <==> forall i :: 0 <= i < |rows| ==> IsActive(rows[i])
  {
    FilterKeepsAll(rows, IsActive);
  }

  /** A customer with no recency and no frequency recorded counts as recent but not frequent: never active. */
  lemma MissingFrequencyInactive(c: PortfolioRow)
    requires c.frequencia.None? || c.frequencia == Some(0) || c.frequencia == Some(1)
    ensures !IsActive(c)
  {
  }

  // ---------------------------------------------------------------- the seller records

  /** The fields of a seller the routes return. */
  datatype Seller = Seller(idProtheus: string, nome: string, foto: Option<string>, disponivel: bool)

  /** The metrics of a seller: sales of the current month against the previous one and the history, and the portfolio. */
  datatype Metrics = Metrics(
    faturamentoAtual: real, faturamentoAnterior: real, faturamentoVariacao: real, faturamentoMedio: real,
    qtdPedidosAtual: nat, qtdPedidosAnterior: nat, qtdPedidosVariacao: real, pedidosMedio: real,
    qtdClientesCarteira: nat, clientesAtivos: nat)

  datatype SellerMetrics = SellerMetrics(seller: Seller, metrics: Metrics)

  /** The record of the `catch`: every metric 0. */
  const ZeroMetrics := Metrics(0.0, 0.0, 0.0, 0.0, 0, 0, 0.0, 0.0, 0, 0)

  /** The months of history the averages look at (`mesesParaAnalisar = 12`). */
  const HistoryMonths: nat := 12

  /** The queries the seller routes make. */
  datatype Sources = Sources(sales: SalesQuery, portfolio: string -> Fetch<PortfolioRow>)

  /** The two averages of a seller over the last twelve months. */
  function RevenueAverage(src: Sources, seller: Seller, now: Date): real {
    TrimmedMean(MonthlyValues(MonthFetches(src.sales, seller.idProtheus, now, HistoryMonths), RevenueOf))
  }

  function OrdersAverage(src: Sources, seller: Seller, now: Date): real {
    TrimmedMean(MonthlyValues(MonthFetches(src.sales, seller.idProtheus, now, HistoryMonths), OrdersOf))
  }

  /**
   * The metrics of one seller, or the message of the error that stopped them: the period
   * metrics of the current and the previous month, the portfolio, the two averages, and the
   * revenue variation taken again against the revenue average, replacing the period one.
   */
  function ComputeMetrics(src: Sources, seller: Seller, now: Date): Result<Metrics, string> {
    match PeriodSales(src.sales(seller.idProtheus, MonthWindow(now, 0)), src.sales(seller.idProtheus, MonthWindow(now, 1)))
    case Failure(e) => Failure(e)
    case Success(v) =>
      match PortfolioMetrics(src.portfolio(seller.nome))
      case Failure(e) => Failure(e)
      case Success(p) =>
        var fm, pm := RevenueAverage(src, seller, now), OrdersAverage(src, seller, now);
        Success(Metrics(
          v.faturamentoAtual, v.faturamentoAnterior, Variation(v.faturamentoAtual, fm), fm,
          v.qtdPedidosAtual, v.qtdPedidosAnterior, v.qtdPedidosVariacao, pm,
          p.qtdClientesCarteira, p.clientesAtivos))
  }

  /** The list entry of a seller: its metrics, or all zeros when computing them failed. */
  function SellerEntry(src: Sources, seller: Seller, now: Date): SellerMetrics {
    match ComputeMetrics(src, seller, now)
    case Success(m) => SellerMetrics(seller, m)
    case Failure(_) => SellerMetrics(seller, ZeroMetrics)
  }

  /** The entry computed step by step as the handler does, each average by its monthly loop. */
  method ComputeSellerEntry(src: Sources, seller: Seller, now: Date) returns (entry: SellerMetrics)
    ensures entry == SellerEntry(src, seller, now)
  {
    var period := PeriodSales(src.sales(seller.idProtheus, MonthWindow(now, 0)), src.sales(seller.idProtheus, MonthWindow(now, 1)));
    if period.Failure? {
      return SellerMetrics(seller, ZeroMetrics);
    }
    var portfolio := PortfolioMetrics(src.portfolio(seller.nome));
    if portfolio.Failure? {
      return SellerMetrics(seller, ZeroMetrics);
    }
    var fm := HistoricalAverage(src.sales, seller.idProtheus, now, HistoryMonths, RevenueOf);
    var pm := HistoricalAverage(src.sales, seller.idProtheus, now, HistoryMonths, OrdersOf);
    var v, p := period.value, portfolio.value;
    entry := SellerMetrics(seller, Metrics(
      v.faturamentoAtual, v.faturamentoAnterior, Variation(v.faturamentoAtual, fm), fm,
      v.qtdPedidosAtual, v.qtdPedidosAnterior, v.qtdPedidosVariacao, pm,
      p.qtdClientesCarteira, p.clientesAtivos));
  }

  /**
   * The revenue variation of a seller is measured against the twelve-month average, not the
   * previous month, while the order variation stays month over month.
   */
  lemma VariationAgainstAverage(src: Sources, seller: Seller, now: Date)
    requires ComputeMetrics(src, seller, now).Success?
    ensures var m := ComputeMetrics(src, seller, now).value;
      m.faturamentoVariacao == Variation(m.faturamentoAtual, m.faturamentoMedio)
      && m.qtdPedidosVariacao == Variation(m.qtdPedidosAtual as real, m.qtdPedidosAnterior as real)
  {
  }

  /** The entry keeps the seller's own fields; it is all zeros exactly when a sales or portfolio query failed. */
  lemma SellerEntryShape(src: Sources, seller: Seller, now: Date)
    ensures SellerEntry(src, seller, now).seller == seller
    ensures ComputeMetrics(src, seller, now).Failure? <==>
      src.sales(seller.idProtheus, MonthWindow(now, 0)).Failed? || src.sales(seller.idProtheus, MonthWindow(now, 1)).Failed?
      || src.portfolio(seller.nome).Failed?
    ensures ComputeMetrics(src, seller, now).Failure? ==> SellerEntry(src, seller, now).metrics == ZeroMetrics
  {
    PeriodSalesErrors(src.sales(seller.idProtheus, MonthWindow(now, 0)), src.sales(seller.idProtheus, MonthWindow(now, 1)));
  }

  /** Metrics that were computed have non-negative revenues and averages, and at most as many active customers as customers. */
  lemma MetricsBounds(src: Sources, seller: Seller, now: Date)
    requires ComputeMetrics(src, seller, now).Success?
    ensures var m := ComputeMetrics(src, seller, now).value;
      m.faturamentoAtual >= 0.0 && m.faturamentoAnterior >= 0.0 && m.clientesAtivos <= m.qtdClientesCarteira
  {
    var cur, prev := src.sales(seller.idProtheus, MonthWindow(now, 0)), src.sales(seller.idProtheus, MonthWindow(now, 1));
    PeriodSalesBounds(cur, prev);
    PortfolioCounts(src.portfolio(seller.nome).rows);
  }

  /** `GET /api/vendedores`: 500 with the directory's message when it fails, otherwise one entry per seller in directory order. */
  function ListSellers(src: Sources, directory: Fetch<Seller>, now: Date): (r: Response<seq<SellerMetrics>>)
    ensures directory.Failed? ==> r == Error(500, directory.message)
    ensures directory.Rows? ==> r.Ok? && |r.data| == |directory.rows|
    ensures directory.Rows? ==> forall i :: 0 <= i < |r.data| ==> r.data[i] == SellerEntry(src, directory.rows[i], now)
  {
    match directory
    case Failed(message) => Error(500, message)
    case Rows(sellers) =>
      if sellers == [] then Ok([])
      else Ok(seq(|sellers|, i requires 0 <= i < |sellers| => SellerEntry(src, sellers[i], now)))
  }

  /** `GET /api/vendedores/:id/metricas`: 404 unless exactly one seller has the id, 500 when its metrics fail. */
  function SellerDetail(src: Sources, lookup: Fetch<Seller>, now: Date): (r: Response<SellerMetrics>)
    ensures Single(lookup).None? ==> r == Error(404, "Vendedor não encontrado")
    ensures Single(lookup).Some? && ComputeMetrics(src, Single(lookup).value, now).Failure?
        ==> r == InternalError(ComputeMetrics(src, Single(lookup).value, now).error)
    ensures r.Ok? <==> Single(lookup).Some? && ComputeMetrics(src, Single(lookup).value, now).Success?
    ensures r.Ok? ==> r.data == SellerEntry(src, Single(lookup).value, now)
  {
    match Single(lookup)
    case None => Error(404, "Vendedor não encontrado")
    case Some(seller) =>
      match ComputeMetrics(src, seller, now)
      case Failure(e) => InternalError(e)
      case Success(m) => Ok(SellerMetrics(seller, m))
  }
}
