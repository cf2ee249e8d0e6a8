/**
 * The RFV (recency, frequency, value) routes. Four of them count the rows of
 * the `db_rfv` table by one or two columns: each folds the rows into a
 * dictionary object keyed by a string (`acc[key] = (acc[key] || 0) + 1`),
 * lists it with `Object.entries`, and shapes the entries; each has its own
 * rule for null keys and its own output order. The others return rows as
 * the database gives them: all of them, the rows of at most 100 codes, or
 * the single row of an id.
 */
module Rfv {
  import opened Wrappers
  import opened Text
  import opened Seqs
  import opened Numbers
  import opened Sorting
  import opened Grouping
  import opened Db

  /** A row of `db_rfv`, reduced to the columns the routes read; the scores are integers and None is null. */
  datatype RfvRow = RfvRow(
    codigo: string,
    valor: Option<int>,
    recencia: Option<int>,
    frequencia: Option<int>,
    status: Option<string>,
    classificacao: Option<string>,
    descricao: Option<string>)

  // Filter parameters

  /** The right-hand side of an equality filter: a string, or `parseInt` of one (None is NaN). */
  datatype Operand = Text(text: string) | Number(number: Option<int>)

  /** `.eq(column, operand)` on the query. */
  datatype Condition = Eq(column: string, operand: Operand)

  /** A query-string parameter filters only when it is present, not empty and not the text `'null'`. */
  predicate Applies(param: Option<string>) {
    Truthy(param) && param.value != "null"
  }

  function TextFilter(column: string, param: Option<string>): seq<Condition> {
    if Applies(param) then [Eq(column, Text(param.value))] else []
  }

  function NumberFilter(column: string, param: Option<string>): seq<Condition> {
    if Applies(param) then [Eq(column, Number(ParseInt(param.value)))] else []
  }

  /** The operand the query compares `column` with, if it filters that column at all. */
  function FilterOn(conds: seq<Condition>, column: string): (r: Option<Operand>)
    ensures r.None? <==> forall i :: 0 <= i < |conds| ==> conds[i].column != column
  {
    if conds == [] then None
    else if conds[0].column == column then Some(conds[0].operand)
    else FilterOn(conds[1..], column)
  }

  /** What a parameter should filter by: its text, or the number `parseInt` reads in it, when it applies. */
  function Expected(param: Option<string>, numeric: bool): Option<Operand> {
    if !Applies(param) then None
    else if numeric then Some(Number(ParseInt(param.value)))
    else Some(Text(param.value))
  }

  /** `GET /valor` filters by classificacao and status. */
  function ValorConditions(classificacao: Option<string>, status: Option<string>): seq<Condition> {
    TextFilter("classificacao", classificacao) + TextFilter("status", status)
  }

  /** `GET /recencia-frequencia` filters by classificacao, valor and status. */
  function RecFreqConditions(classificacao: Option<string>, valor: Option<string>, status: Option<string>): seq<Condition> {
    TextFilter("classificacao", classificacao) + NumberFilter("valor", valor) + TextFilter("status", status)
  }

  /** `GET /status` filters by classificacao and valor. */
  function StatusConditions(classificacao: Option<string>, valor: Option<string>): seq<Condition> {
    TextFilter("classificacao", classificacao) + NumberFilter("valor", valor)
  }

  /** `GET /classificacao` filters by valor and status. */
  function ClassConditions(valor: Option<string>, status: Option<string>): seq<Condition> {
    NumberFilter("valor", valor) + TextFilter("status", status)
  }

  lemma FilterOnAppend(a: seq<Condition>, b: seq<Condition>, column: string)
    ensures FilterOn(a + b, column) == if FilterOn(a, column).Some? then FilterOn(a, column) else FilterOn(b, column)
  {
    if a != [] {
      assert (a + b)[1..] == a[1..] + b;
      FilterOnAppend(a[1..], b, column);
    } else {
      assert a + b == b;
    }
  }

  /** `/valor` filters classificacao and status exactly when their parameters apply, and never valor. */
  lemma ValorConditionsFollowParameters(classificacao: Option<string>, status: Option<string>)
    ensures FilterOn(ValorConditions(classificacao, status), "classificacao") == Expected(classificacao, false)
    ensures FilterOn(ValorConditions(classificacao, status), "status") == Expected(status, false)
    ensures FilterOn(ValorConditions(classificacao, status), "valor") == None
  {
    var c, s := TextFilter("classificacao", classificacao), TextFilter("status", status);
    FilterOnAppend(c, s, "classificacao");
    FilterOnAppend(c, s, "status");
    FilterOnAppend(c, s, "valor");
  }

  /** `/recencia-frequencia` filters classificacao, valor and status exactly when their parameters apply. */
  lemma RecFreqConditionsFollowParameters(classificacao: Option<string>, valor: Option<string>, status: Option<string>)
    ensures FilterOn(RecFreqConditions(classificacao, valor, status), "classificacao") == Expected(classificacao, false)
    ensures FilterOn(RecFreqConditions(classificacao, valor, status), "valor") == Expected(valor, true)
    ensures FilterOn(RecFreqConditions(classificacao, valor, status), "status") == Expected(status, false)
  {
    var c, v, s := TextFilter("classificacao", classificacao), NumberFilter("valor", valor), TextFilter("status", status);
    FilterOnAppend(c, v, "classificacao");
    FilterOnAppend(c, v, "valor");
    FilterOnAppend(c, v, "status");
    FilterOnAppend(c + v, s, "classificacao");
    FilterOnAppend(c + v, s, "valor");
    FilterOnAppend(c + v, s, "status");
  }

  /** `/status` filters classificacao and valor exactly when their parameters apply, and never status. */
  lemma StatusConditionsFollowParameters(classificacao: Option<string>, valor: Option<string>)
    ensures FilterOn(StatusConditions(classificacao, valor), "classificacao") == Expected(classificacao, false)
    ensures FilterOn(StatusConditions(classificacao, valor), "valor") == Expected(valor, true)
    ensures FilterOn(StatusConditions(classificacao, valor), "status") == None
  {
    var c, v := TextFilter("classificacao", classificacao), NumberFilter("valor", valor);
    FilterOnAppend(c, v, "classificacao");
    FilterOnAppend(c, v, "valor");
    FilterOnAppend(c, v, "status");
  }

  /** `/classificacao` filters valor and status exactly when their parameters apply, and never classificacao. */
  lemma ClassConditionsFollowParameters(valor: Option<string>, status: Option<string>)
    ensures FilterOn(ClassConditions(valor, status), "valor") == Expected(valor, true)
    ensures FilterOn(ClassConditions(valor, status), "status") == Expected(status, false)
    ensures FilterOn(ClassConditions(valor, status), "classificacao") == None
  {
    var v, s := NumberFilter("valor", valor), TextFilter("status", status);
    FilterOnAppend(v, s, "valor");
    FilterOnAppend(v, s, "status");
    FilterOnAppend(v, s, "classificacao");
  }

  /** A route's answer to a query: the shaped rows, or 500 with the database's message. */
  predicate Answers<T(==)>(f: Fetch<RfvRow>, res: Response<T>, shaped: T) {
    match f
    case Failed(message) => res == Error(500, message)
    case Rows(_) => res == Ok(shaped)
  }

  // GET /valor

  /** `item.valor || 0` as an object key: the decimal rendering of the number, 0 for null. */
  function ValorKey(row: RfvRow): string {
    IntToString(OrZero(row.valor))
  }

  /** One `/valor` entry: `parseInt` of the key (None would be NaN) and the count. */
  datatype ValorCount = ValorCount(valor: Option<int>, quantidade: nat)

  /** The comparator `a.valor - b.valor`; a NaN valor never occurs (ValorCountsAreNumbers). */
  function ValorOf(c: ValorCount): real {
    if c.valor.Some? then c.valor.value as real else 0.0
  }

  function ValorQuantity(c: ValorCount): nat { c.quantidade }

  function ValorCounts(es: seq<(string, Slot<RfvRow>)>): (r: seq<ValorCount>)
    ensures |r| == |es| && forall i :: 0 <= i < |es| ==> r[i] == ValorCount(ParseInt(es[i].0), es[i].1.count)
  {
    seq(|es|, i requires 0 <= i < |es| => ValorCount(ParseInt(es[i].0), es[i].1.count))
  }

  /** The `/valor` data: one entry per valor, ascending. */
  function ValorResult(rows: seq<RfvRow>): seq<ValorCount> {
    Sort(ValorCounts(EntriesOf(Keyed(rows, ValorKey))), ValorOf, Ascending)
  }

  /** The fold and the shaping of `/valor`. */
  method AggregateValor(rows: seq<RfvRow>) returns (r: seq<ValorCount>)
    ensures r == ValorResult(rows)
  {
    var keyed := Keyed(rows, ValorKey);
    var acc := Group(keyed);
    GroupedConsistent(keyed);
    r := Sort(ValorCounts(Entries(acc)), ValorOf, Ascending);
  }

  /** `GET /valor`. */
  method GetValor(classificacao: Option<string>, status: Option<string>, db: seq<Condition> -> Fetch<RfvRow>)
    returns (res: Response<seq<ValorCount>>)
    ensures var f := db(ValorConditions(classificacao, status));
      Answers(f, res, if f.Rows? then ValorResult(f.rows) else [])
  {
    var f := db(ValorConditions(classificacao, status));
    if f.Failed? {
      res := Error(500, f.message);
    } else {
      var data := AggregateValor(f.rows);
      res := Ok(data);
    }
  }

  /** The test "`item.valor || 0` is `v`". */
  function HasValor(v: int): RfvRow -> bool {
    (row: RfvRow) => OrZero(row.valor) == v
  }

  /** Counting the rows under the key of `v` is counting the rows whose valor is `v`. */
  lemma ValorKeyCount(rows: seq<RfvRow>, v: int)
    ensures multiset(KeysOf(Keyed(rows, ValorKey)))[IntToString(v)] == CountWhere(rows, HasValor(v))
  {
    KeyedCount(rows, ValorKey, IntToString(v));
    forall i | 0 <= i < |rows|
      ensures HasKey(ValorKey, IntToString(v))(rows[i]) == HasValor(v)(rows[i])
    {
      if ValorKey(rows[i]) == IntToString(v) {
        IntToStringInjective(OrZero(rows[i].valor), v);
      }
    }
    FilterSameTest(rows, HasKey(ValorKey, IntToString(v)), HasValor(v));
  }

  /** An entry that holds the valor of some row and the number of rows with that valor. */
  predicate ValorCounted(rows: seq<RfvRow>, c: ValorCount) {
    c.valor.Some? && (exists t :: 0 <= t < |rows| && OrZero(rows[t].valor) == c.valor.value) &&
    c.quantidade == CountWhere(rows, HasValor(c.valor.value))
  }

  /** The entry made from the key of some row holds that row's valor and the number of rows with it. */
  lemma ValorEntryCounted(rows: seq<RfvRow>, t: nat, n: nat)
    requires t < |rows|
    requires n == CountWhere(rows, HasKey(ValorKey, ValorKey(rows[t])))
    ensures ValorCounted(rows, ValorCount(ParseInt(ValorKey(rows[t])), n))
  {
    var v := OrZero(rows[t].valor);
    ParseIntOfIntToString(v);
    ValorKeyCount(rows, v);
    KeyedCount(rows, ValorKey, IntToString(v));
  }

  /** Every entry before sorting holds the valor of some row, read back from its key, and the number of rows with that valor. */
  lemma ValorCountsAreNumbers(rows: seq<RfvRow>)
    ensures forall j :: 0 <= j < |ValorCounts(EntriesOf(Keyed(rows, ValorKey)))| ==>
      ValorCounted(rows, ValorCounts(EntriesOf(Keyed(rows, ValorKey)))[j])
  {
    var es := EntriesOf(Keyed(rows, ValorKey));
    var m := ValorCounts(es);
    KeyedEntries(rows, ValorKey);
    forall j | 0 <= j < |m|
      ensures ValorCounted(rows, m[j])
    {
      var t :| 0 <= t < |rows| && ValorKey(rows[t]) == es[j].0;
      ValorEntryCounted(rows, t, es[j].1.count);
    }
  }

  /** `/valor` lists valores in ascending order, each with its number of rows. */
  lemma ValorResultCounts(rows: seq<RfvRow>)
    ensures Sorted(ValorResult(rows), ValorOf, Ascending)
    ensures forall i :: 0 <= i < |ValorResult(rows)| ==> ValorCounted(rows, ValorResult(rows)[i])
  {
    var m := ValorCounts(EntriesOf(Keyed(rows, ValorKey)));
    ValorCountsAreNumbers(rows);
    PermutationKeeps(m, ValorResult(rows), (c: ValorCount) => ValorCounted(rows, c));
  }

  /** The `/valor` counts add up to the number of rows. */
  lemma ValorResultTotal(rows: seq<RfvRow>)
    ensures Total(ValorResult(rows), ValorQuantity) == |rows|
  {
    var keyed := Keyed(rows, ValorKey);
    var es := EntriesOf(keyed);
    var m := ValorCounts(es);
    EntriesOfTotal(keyed);
    TotalPointwise(m, ValorQuantity, es, CountOf);
    TotalPermutation(m, ValorResult(rows), ValorQuantity);
  }

  /** No valor is listed twice. */
  lemma ValorResultDistinct(rows: seq<RfvRow>)
    ensures forall i, j :: 0 <= i < j < |ValorResult(rows)| ==> ValorResult(rows)[i].valor != ValorResult(rows)[j].valor
  {
    var keyed := Keyed(rows, ValorKey);
    var es := EntriesOf(keyed);
    var m, r := ValorCounts(es), ValorResult(rows);
    EntriesOfDistinct(keyed);
    KeyedEntries(rows, ValorKey);
    assert Distinct(m) by {
      forall i, j | 0 <= i < j < |m|
        ensures m[i] != m[j]
      {
        var a :| 0 <= a < |rows| && ValorKey(rows[a]) == es[i].0;
        var b :| 0 <= b < |rows| && ValorKey(rows[b]) == es[j].0;
        ParseIntOfIntToString(OrZero(rows[a].valor));
        ParseIntOfIntToString(OrZero(rows[b].valor));
      }
    }
    DistinctPermutation(m, r);
    ValorResultCounts(rows);
    forall i, j | 0 <= i < j < |r|
      ensures r[i].valor != r[j].valor
    {
      assert r[i] != r[j];
    }
  }

  /** Every row's valor is listed. */
  lemma ValorResultCover(rows: seq<RfvRow>, t: nat)
    requires t < |rows|
    ensures exists i :: 0 <= i < |ValorResult(rows)| && ValorResult(rows)[i].valor == Some(OrZero(rows[t].valor))
  {
    var es := EntriesOf(Keyed(rows, ValorKey));
    var m := ValorCounts(es);
    KeyedCover(rows, ValorKey, t);
    var j :| 0 <= j < |es| && es[j].0 == ValorKey(rows[t]);
    ParseIntOfIntToString(OrZero(rows[t].valor));
    assert m[j] in multiset(ValorResult(rows));
  }

  // GET /recencia-frequencia

  /** The template literal `${recencia}-${frequencia}` over `item.recencia || 0` and `item.frequencia || 0`. */
  function RecFreqKey(row: RfvRow): string {
    IntToString(OrZero(row.recencia)) + "-" + IntToString(OrZero(row.frequencia))
  }

  /** `Number(piece)` for a piece of decimal digits (the empty piece gives 0); any other piece gives None (NaN). */
  function DigitsNumber(piece: string): (r: Option<int>)
    ensures r.Some? <==> AllDigits(piece)
  {
    if AllDigits(piece) then Some(DigitsValue(piece)) else None
  }

  /** `const [recencia, frequencia] = key.split('-').map(Number)`; a missing second piece is None. */
  function DecodePair(key: string): (Option<int>, Option<int>) {
    var pieces := SplitOn(key, '-');
    (DigitsNumber(pieces[0]), if |pieces| >= 2 then DigitsNumber(pieces[1]) else None)
  }

  /** One `/recencia-frequencia` entry. */
  datatype PairCount = PairCount(recencia: Option<int>, frequencia: Option<int>, quantidade: nat)

  function PairQuantity(c: PairCount): nat { c.quantidade }

  function PairCounts(es: seq<(string, Slot<RfvRow>)>): (r: seq<PairCount>)
    ensures |r| == |es|
    ensures forall i :: 0 <= i < |es| ==> r[i] == PairCount(DecodePair(es[i].0).0, DecodePair(es[i].0).1, es[i].1.count)
  {
    seq(|es|, i requires 0 <= i < |es| => PairCount(DecodePair(es[i].0).0, DecodePair(es[i].0).1, es[i].1.count))
  }

  /** The `/recencia-frequencia` data, in `Object.entries` order. */
  function RecFreqResult(rows: seq<RfvRow>): seq<PairCount> {
    PairCounts(EntriesOf(Keyed(rows, RecFreqKey)))
  }

  method AggregateRecFreq(rows: seq<RfvRow>) returns (r: seq<PairCount>)
    ensures r == RecFreqResult(rows)
  {
    var keyed := Keyed(rows, RecFreqKey);
    var acc := Group(keyed);
    GroupedConsistent(keyed);
    r := PairCounts(Entries(acc));
  }

  /** `GET /recencia-frequencia`. */
  method GetRecFreq(classificacao: Option<string>, valor: Option<string>, status: Option<string>,
                    db: seq<Condition> -> Fetch<RfvRow>)
    returns (res: Response<seq<PairCount>>)
    ensures var f := db(RecFreqConditions(classificacao, valor, status));
      Answers(f, res, if f.Rows? then RecFreqResult(f.rows) else [])
  {
    var f := db(RecFreqConditions(classificacao, valor, status));
    if f.Failed? {
      res := Error(500, f.message);
    } else {
      var data := AggregateRecFreq(f.rows);
      res := Ok(data);
    }
  }

  lemma DigitsNumberOfNat(n: nat)
    ensures DigitsNumber(NatToString(n)) == Some(n)
  {
    NatToStringRoundTrip(n);
  }

  /** Two digit strings joined by a dash split back into the two. */
  lemma SplitDigitPair(a: string, b: string)
    requires AllDigits(a) && AllDigits(b)
    ensures SplitOn(a + "-" + b, '-') == [a, b]
  {
    assert a + "-" + b == a + ['-'] + b;
    assert !IsDigit('-');
    SplitOnSeparator(a, '-', b);
    SplitOnNoSeparator(a, '-');
    SplitOnNoSeparator(b, '-');
  }

  /** Splitting the key of two non-negative scores gives the two scores back. */
  lemma RecFreqRoundTrip(r: nat, f: nat)
    ensures DecodePair(IntToString(r) + "-" + IntToString(f)) == (Some(r), Some(f))
  {
    SplitDigitPair(NatToString(r), NatToString(f));
    DigitsNumberOfNat(r);
    DigitsNumberOfNat(f);
  }

  /** A negative recencia is not read back: its minus sign is taken as the separator, so the pair decodes as (0, -recencia). */
  lemma NegativeRecencyMisread(r: int, f: nat)
    requires r < 0
    ensures DecodePair(IntToString(r) + "-" + IntToString(f)) == (Some(0), Some(-r))
  {
    var a, b := NatToString(-r), NatToString(f);
    assert IntToString(r) == "-" + a;
    assert IntToString(f) == b;
    DecodeLeadingDash(a, b);
    NatToStringRoundTrip(-r);
  }

  /** A leading dash opens an empty first piece, read as 0, and pushes the first number into second place. */
  lemma DecodeLeadingDash(a: string, b: string)
    requires AllDigits(a) && AllDigits(b)
    ensures DecodePair("-" + a + "-" + b) == (Some(0), Some(DigitsValue(a)))
  {
    assert "-" + a + "-" + b == [] + ['-'] + (a + "-" + b);
    SplitOnSeparator([], '-', a + "-" + b);
    SplitDigitPair(a, b);
    assert SplitOn([], '-') == [""];
    assert DigitsNumber("") == Some(0);
  }

  /** Every key of the fold has a dash, so none is an array index. */
  lemma RecFreqKeyNamed(row: RfvRow)
    ensures !IsArrayIndex(RecFreqKey(row))
  {
    var k := RecFreqKey(row);
    var n := |IntToString(OrZero(row.recencia))|;
    assert k[n] == '-';
    assert !IsDigit(k[n]);
  }

  /** `/recencia-frequencia` lists the pairs in the order in which they first occur in the rows. */
  lemma RecFreqResultOrder(rows: seq<RfvRow>)
    ensures var firsts := Dedup(KeysOf(Keyed(rows, RecFreqKey)));
      |RecFreqResult(rows)| == |firsts| &&
      forall i :: 0 <= i < |firsts| ==>
        (RecFreqResult(rows)[i].recencia, RecFreqResult(rows)[i].frequencia) == DecodePair(firsts[i])
  {
    var keyed := Keyed(rows, RecFreqKey);
    var d := Grouped(keyed);
    GroupedConsistent(keyed);
    GroupedOrder(keyed);
    RecFreqOrderNamed(rows);
    EntriesNamed(d);
  }

  /** No key the fold creates is an array index. */
  lemma RecFreqOrderNamed(rows: seq<RfvRow>)
    ensures forall i :: 0 <= i < |Grouped(Keyed(rows, RecFreqKey)).order| ==> !IsArrayIndex(Grouped(Keyed(rows, RecFreqKey)).order[i])
  {
    var keyed := Keyed(rows, RecFreqKey);
    var d := Grouped(keyed);
    GroupedOrder(keyed);
    forall i | 0 <= i < |d.order|
      ensures !IsArrayIndex(d.order[i])
    {
      assert d.order[i] in multiset(Dedup(KeysOf(keyed)));
      var t :| 0 <= t < |keyed| && keyed[t].0 == d.order[i];
      RecFreqKeyNamed(rows[t]);
    }
  }

  /** The test "the row's scores, nulls as 0, are (r, f)". */
  function HasScores(r: int, f: int): RfvRow -> bool {
    (row: RfvRow) => OrZero(row.recencia) == r && OrZero(row.frequencia) == f
  }

  /** Scores that are null or non-negative, as the RFV table holds them. */
  predicate NonNegativeScores(row: RfvRow) {
    OrZero(row.recencia) >= 0 && OrZero(row.frequencia) >= 0
  }

  /** For non-negative scores, the key of a row determines its scores. */
  lemma RecFreqKeyInjective(a: RfvRow, b: RfvRow)
    requires NonNegativeScores(a) && NonNegativeScores(b)
    requires RecFreqKey(a) == RecFreqKey(b)
    ensures OrZero(a.recencia) == OrZero(b.recencia) && OrZero(a.frequencia) == OrZero(b.frequencia)
  {
    RecFreqRoundTrip(OrZero(a.recencia), OrZero(a.frequencia));
    RecFreqRoundTrip(OrZero(b.recencia), OrZero(b.frequencia));
  }

  /** An entry that holds the scores of some row and the number of rows with those scores. */
  predicate PairCounted(rows: seq<RfvRow>, c: PairCount) {
    c.recencia.Some? && c.frequencia.Some? &&
    (exists t :: 0 <= t < |rows| && HasScores(c.recencia.value, c.frequencia.value)(rows[t])) &&
    c.quantidade == CountWhere(rows, HasScores(c.recencia.value, c.frequencia.value))
  }

  /** The entry made from the key of some row holds that row's scores and the number of rows with them. */
  lemma PairEntryCounted(rows: seq<RfvRow>, t: nat, n: nat)
    requires forall u :: 0 <= u < |rows| ==> NonNegativeScores(rows[u])
    requires t < |rows|
    requires n == CountWhere(rows, HasKey(RecFreqKey, RecFreqKey(rows[t])))
    ensures PairCounted(rows, PairCount(DecodePair(RecFreqKey(rows[t])).0, DecodePair(RecFreqKey(rows[t])).1, n))
  {
    var k := RecFreqKey(rows[t]);
    var rec, freq := OrZero(rows[t].recencia), OrZero(rows[t].frequencia);
    RecFreqRoundTrip(rec, freq);
    forall u | 0 <= u < |rows|
      ensures HasKey(RecFreqKey, k)(rows[u]) == HasScores(rec, freq)(rows[u])
    {
      if RecFreqKey(rows[u]) == k {
        RecFreqKeyInjective(rows[u], rows[t]);
      }
    }
    FilterSameTest(rows, HasKey(RecFreqKey, k), HasScores(rec, freq));
  }

  /** With non-negative scores, each entry is the pair of some row with the number of rows holding that pair. */
  lemma RecFreqResultCounts(rows: seq<RfvRow>)
    requires forall t :: 0 <= t < |rows| ==> NonNegativeScores(rows[t])
    ensures forall i :: 0 <= i < |RecFreqResult(rows)| ==> PairCounted(rows, RecFreqResult(rows)[i])
  {
    var es := EntriesOf(Keyed(rows, RecFreqKey));
    var r := RecFreqResult(rows);
    KeyedEntries(rows, RecFreqKey);
    forall i | 0 <= i < |r|
      ensures PairCounted(rows, r[i])
    {
      var t :| 0 <= t < |rows| && RecFreqKey(rows[t]) == es[i].0;
      PairEntryCounted(rows, t, es[i].1.count);
    }
  }

  /** The `/recencia-frequencia` counts add up to the number of rows. */
  lemma RecFreqResultTotal(rows: seq<RfvRow>)
    ensures Total(RecFreqResult(rows), PairQuantity) == |rows|
  {
    var keyed := Keyed(rows, RecFreqKey);
    var es := EntriesOf(keyed);
    EntriesOfTotal(keyed);
    TotalPointwise(RecFreqResult(rows), PairQuantity, es, CountOf);
  }

  /** With non-negative scores no pair is listed twice. */
  lemma RecFreqResultDistinct(rows: seq<RfvRow>)
    requires forall t :: 0 <= t < |rows| ==> NonNegativeScores(rows[t])
    ensures forall i, j :: 0 <= i < j < |RecFreqResult(rows)| ==>
      (RecFreqResult(rows)[i].recencia, RecFreqResult(rows)[i].frequencia) !=
      (RecFreqResult(rows)[j].recencia, RecFreqResult(rows)[j].frequencia)
  {
    var keyed := Keyed(rows, RecFreqKey);
    var es := EntriesOf(keyed);
    EntriesOfDistinct(keyed);
    EntriesOfCounts(keyed);
    forall i, j | 0 <= i < j < |es|
      ensures DecodePair(es[i].0) != DecodePair(es[j].0)
    {
      KeysDecodeApart(rows, es[i].0, es[j].0);
    }
  }

  /** Two different keys of rows with non-negative scores decode to different pairs. */
  lemma KeysDecodeApart(rows: seq<RfvRow>, k1: string, k2: string)
    requires forall t :: 0 <= t < |rows| ==> NonNegativeScores(rows[t])
    requires k1 in KeysOf(Keyed(rows, RecFreqKey)) && k2 in KeysOf(Keyed(rows, RecFreqKey))
    requires k1 != k2
    ensures DecodePair(k1) != DecodePair(k2)
  {
    var keyed := Keyed(rows, RecFreqKey);
    var a :| 0 <= a < |keyed| && keyed[a].0 == k1;
    var b :| 0 <= b < |keyed| && keyed[b].0 == k2;
    RecFreqRoundTrip(OrZero(rows[a].recencia), OrZero(rows[a].frequencia));
    RecFreqRoundTrip(OrZero(rows[b].recencia), OrZero(rows[b].frequencia));
  }

  // GET /status

  /** `item.status || 'Sem status'`. */
  function StatusKey(row: RfvRow): string {
    StringOr(row.status, "Sem status")
  }

  datatype StatusCount = StatusCount(status: string, quantidade: nat)

  /** The comparator `b.quantidade - a.quantidade`. */
  function StatusOrder(c: StatusCount): real { c.quantidade as real }

  function StatusQuantity(c: StatusCount): nat { c.quantidade }

  function StatusCounts(es: seq<(string, Slot<RfvRow>)>): (r: seq<StatusCount>)
    ensures |r| == |es| && forall i :: 0 <= i < |es| ==> r[i] == StatusCount(es[i].0, es[i].1.count)
  {
    seq(|es|, i requires 0 <= i < |es| => StatusCount(es[i].0, es[i].1.count))
  }

  /** The `/status` data, most frequent first. */
  function StatusResult(rows: seq<RfvRow>): seq<StatusCount> {
    Sort(StatusCounts(EntriesOf(Keyed(rows, StatusKey))), StatusOrder, Descending)
  }

  method AggregateStatus(rows: seq<RfvRow>) returns (r: seq<StatusCount>)
    ensures r == StatusResult(rows)
  {
    var keyed := Keyed(rows, StatusKey);
    var acc := Group(keyed);
    GroupedConsistent(keyed);
    r := Sort(StatusCounts(Entries(acc)), StatusOrder, Descending);
  }

  /** `GET /status`. */
  method GetStatus(classificacao: Option<string>, valor: Option<string>, db: seq<Condition> -> Fetch<RfvRow>)
    returns (res: Response<seq<StatusCount>>)
    ensures var f := db(StatusConditions(classificacao, valor));
      Answers(f, res, if f.Rows? then StatusResult(f.rows) else [])
  {
    var f := db(StatusConditions(classificacao, valor));
    if f.Failed? {
      res := Error(500, f.message);
    } else {
      var data := AggregateStatus(f.rows);
      res := Ok(data);
    }
  }

  /** An entry that is the status key of some row, with the number of rows counted under it. */
  predicate StatusCounted(rows: seq<RfvRow>, c: StatusCount) {
    (exists t :: 0 <= t < |rows| && StatusKey(rows[t]) == c.status) &&
    c.quantidade == CountWhere(rows, HasKey(StatusKey, c.status))
  }

  /** `/status` lists each status (a falsy one as 'Sem status') with its number of rows, most frequent first. */
  lemma StatusResultCounts(rows: seq<RfvRow>)
    ensures Sorted(StatusResult(rows), StatusOrder, Descending)
    ensures forall i :: 0 <= i < |StatusResult(rows)| ==> StatusCounted(rows, StatusResult(rows)[i])
  {
    var m := StatusCounts(EntriesOf(Keyed(rows, StatusKey)));
    KeyedEntries(rows, StatusKey);
    assert forall j :: 0 <= j < |m| ==> StatusCounted(rows, m[j]);
    PermutationKeeps(m, StatusResult(rows), (c: StatusCount) => StatusCounted(rows, c));
  }

  /** The `/status` counts add up to the number of rows. */
  lemma StatusResultTotal(rows: seq<RfvRow>)
    ensures Total(StatusResult(rows), StatusQuantity) == |rows|
  {
    var keyed := Keyed(rows, StatusKey);
    var es := EntriesOf(keyed);
    var m := StatusCounts(es);
    EntriesOfTotal(keyed);
    TotalPointwise(m, StatusQuantity, es, CountOf);
    TotalPermutation(m, StatusResult(rows), StatusQuantity);
  }

  /** No status is listed twice, and every row's status is listed. */
  lemma StatusResultDistinct(rows: seq<RfvRow>, t: nat)
    requires t < |rows|
    ensures forall i, j :: 0 <= i < j < |StatusResult(rows)| ==> StatusResult(rows)[i].status != StatusResult(rows)[j].status
    ensures exists i :: 0 <= i < |StatusResult(rows)| && StatusResult(rows)[i].status == StatusKey(rows[t])
  {
    var keyed := Keyed(rows, StatusKey);
    var es := EntriesOf(keyed);
    var m, r := StatusCounts(es), StatusResult(rows);
    EntriesOfDistinct(keyed);
    assert Distinct(m) by {
      forall i, j | 0 <= i < j < |m| ensures m[i] != m[j] {
        assert m[i].status == es[i].0 && m[j].status == es[j].0;
      }
    }
    DistinctPermutation(m, r);
    StatusResultCounts(rows);
    forall i, j | 0 <= i < j < |r|
      ensures r[i].status != r[j].status
    {
      assert r[i] != r[j];
    }
    KeyedCover(rows, StatusKey, t);
    var j :| 0 <= j < |es| && es[j].0 == StatusKey(rows[t]);
    assert m[j] in multiset(r);
  }

  /** Statuses with equal counts keep their `Object.entries` order: the sort is stable. */
  lemma StatusTiesKeepEntriesOrder(rows: seq<RfvRow>, n: nat)
    ensures Filter(StatusResult(rows), KeyIs(StatusOrder, n as real)) ==
            Filter(StatusCounts(EntriesOf(Keyed(rows, StatusKey))), KeyIs(StatusOrder, n as real))
  {
    SortStable(StatusCounts(EntriesOf(Keyed(rows, StatusKey))), StatusOrder, Descending, n as real);
  }

  // GET /classificacao

  /** `item.classificacao || 'Sem classificação'`. */
  function ClassKey(row: RfvRow): string {
    StringOr(row.classificacao, "Sem classificação")
  }

  datatype ClassCount = ClassCount(classificacao: string, descricao: string, quantidade: nat)

  function ClassQuantity(c: ClassCount): nat { c.quantidade }

  /** The entry of a class: its descricao is `item.descricao || classificacao` of the row that created it. */
  function ClassCounts(es: seq<(string, Slot<RfvRow>)>): (r: seq<ClassCount>)
    ensures |r| == |es|
    ensures forall i :: 0 <= i < |es| ==> r[i] == ClassCount(es[i].0, StringOr(es[i].1.first.descricao, es[i].0), es[i].1.count)
  {
    seq(|es|, i requires 0 <= i < |es| => ClassCount(es[i].0, StringOr(es[i].1.first.descricao, es[i].0), es[i].1.count))
  }

  /** The `/classificacao` data, in `Object.entries` order. */
  function ClassResult(rows: seq<RfvRow>): seq<ClassCount> {
    ClassCounts(EntriesOf(Keyed(rows, ClassKey)))
  }

  method AggregateClass(rows: seq<RfvRow>) returns (r: seq<ClassCount>)
    ensures r == ClassResult(rows)
  {
    var keyed := Keyed(rows, ClassKey);
    var acc := Group(keyed);
    GroupedConsistent(keyed);
    r := ClassCounts(Entries(acc));
  }

  /** `GET /classificacao`. */
  method GetClass(valor: Option<string>, status: Option<string>, db: seq<Condition> -> Fetch<RfvRow>)
    returns (res: Response<seq<ClassCount>>)
    ensures var f := db(ClassConditions(valor, status));
      Answers(f, res, if f.Rows? then ClassResult(f.rows) else [])
  {
    var f := db(ClassConditions(valor, status));
    if f.Failed? {
      res := Error(500, f.message);
    } else {
      var data := AggregateClass(f.rows);
      res := Ok(data);
    }
  }

  /** The class's descricao is that of the first row of the class, or the class itself when that one is falsy. */
  ghost predicate DescribedByFirstRow(rows: seq<RfvRow>, c: ClassCount) {
    exists j :: FirstWithKey(rows, ClassKey, j, c.classificacao) && c.descricao == StringOr(rows[j].descricao, c.classificacao)
  }

  /** Each class's descricao is fixed by the first row of that class; later rows only add to the count. */
  lemma ClassResultFirstRow(rows: seq<RfvRow>)
    ensures forall i :: 0 <= i < |ClassResult(rows)| ==> DescribedByFirstRow(rows, ClassResult(rows)[i])
  {
    var r := ClassResult(rows);
    forall i | 0 <= i < |r|
      ensures DescribedByFirstRow(rows, r[i])
    {
      ClassEntryFirstRow(rows, i);
    }
  }

  lemma ClassEntryFirstRow(rows: seq<RfvRow>, i: nat)
    requires i < |ClassResult(rows)|
    ensures DescribedByFirstRow(rows, ClassResult(rows)[i])
  {
    var es := EntriesOf(Keyed(rows, ClassKey));
    KeyedEntryFirst(rows, ClassKey, i);
    var j :| FirstWithKey(rows, ClassKey, j, es[i].0) && es[i].1.first == rows[j];
    assert FirstWithKey(rows, ClassKey, j, ClassResult(rows)[i].classificacao);
  }

  /** Each class (a falsy one as 'Sem classificação') is listed once with its number of rows; the counts add up to the number of rows. */
  lemma ClassResultCounts(rows: seq<RfvRow>)
    ensures forall i :: 0 <= i < |ClassResult(rows)| ==>
      ClassResult(rows)[i].quantidade == CountWhere(rows, HasKey(ClassKey, ClassResult(rows)[i].classificacao))
    ensures forall i, j :: 0 <= i < j < |ClassResult(rows)| ==> ClassResult(rows)[i].classificacao != ClassResult(rows)[j].classificacao
    ensures Total(ClassResult(rows), ClassQuantity) == |rows|
  {
    var keyed := Keyed(rows, ClassKey);
    var es := EntriesOf(keyed);
    var r := ClassResult(rows);
    EntriesOfCounts(keyed);
    EntriesOfDistinct(keyed);
    forall i | 0 <= i < |r|
      ensures r[i].quantidade == CountWhere(rows, HasKey(ClassKey, r[i].classificacao))
    {
      KeyedCount(rows, ClassKey, es[i].0);
    }
    EntriesOfTotal(keyed);
    TotalPointwise(r, ClassQuantity, es, CountOf);
  }

  /** Every row's class is listed. */
  lemma ClassResultCover(rows: seq<RfvRow>, t: nat)
    requires t < |rows|
    ensures exists i :: 0 <= i < |ClassResult(rows)| && ClassResult(rows)[i].classificacao == ClassKey(rows[t])
  {
    var es := EntriesOf(Keyed(rows, ClassKey));
    KeyedCover(rows, ClassKey, t);
    var i :| 0 <= i < |es| && es[i].0 == ClassKey(rows[t]);
    assert ClassResult(rows)[i].classificacao == es[i].0;
  }

  // GET /, POST /by-codigos, GET /:id

  /** `GET /`: every row, or 500 with the database's message. */
  function ListAll(f: Fetch<RfvRow>): (res: Response<seq<RfvRow>>)
    ensures Answers(f, res, if f.Rows? then f.rows else [])
  {
    match f
    case Failed(message) => Error(500, message)
    case Rows(rows) => Ok(rows)
  }

  /** The `codigos` field of the request body: an array of codes, or anything else (missing, null, a string, ...). */
  datatype CodesParam = NotAnArray | AnArray(codes: seq<string>)

  /** At most this many codes are looked up per request. */
  const MaxCodes := 100

  /** The codes `/by-codigos` queries, or None when it answers without a query. */
  function CodesToQuery(p: CodesParam): (q: Option<seq<string>>)
    ensures q.None? <==> p.NotAnArray? || p.codes == []
    ensures q.Some? ==> 1 <= |q.value| <= MaxCodes
    ensures q.Some? ==> |q.value| == (if |p.codes| < MaxCodes then |p.codes| else MaxCodes)
    ensures q.Some? ==> forall i :: 0 <= i < |q.value| ==> q.value[i] == p.codes[i]
  {
    if p.NotAnArray? || p.codes == [] then None
    else if |p.codes| <= MaxCodes then Some(p.codes)
    else Some(p.codes[..MaxCodes])
  }

  /** `POST /by-codigos`: the rows of the first 100 codes; empty data, with no query, for an empty or missing list. */
  function ByCodes(p: CodesParam, db: seq<string> -> Fetch<RfvRow>): (res: Response<seq<RfvRow>>)
    ensures CodesToQuery(p).None? ==> res == Ok([])
    ensures CodesToQuery(p).Some? ==> Answers(db(CodesToQuery(p).value), res,
      if db(CodesToQuery(p).value).Rows? then db(CodesToQuery(p).value).rows else [])
  {
    match CodesToQuery(p)
    case None => Ok([])
    case Some(codes) => ListAll(db(codes))
  }

  /** `GET /:id`: the one row with that id; anything else, a database error included, is 404. */
  function ById(id: string, db: string -> Fetch<RfvRow>): (res: Response<RfvRow>)
    ensures res.Ok? <==> db(id).Rows? && |db(id).rows| == 1
    ensures res.Ok? ==> res.data == db(id).rows[0]
    ensures res.Error? ==> res.status == 404 && res.error == "Registro não encontrado"
  {
    match Single(db(id))
    case Some(row) => Ok(row)
    case None => Error(404, "Registro não encontrado")
  }
}
