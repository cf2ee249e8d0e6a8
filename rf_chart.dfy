/**
 * The recency × frequency chart of the customer-analysis page: the grid of
 * recencia 1..5 by frequencia 0..5 filled from the server's counts (the last
 * entry for a cell wins, entries outside the grid are dropped), the list of
 * non-empty cells in row-major order, the largest count, and the five-shade
 * colour scale over count / largest count.
 */
module RfChart {
  import opened Wrappers
  import opened Text
  import opened Numbers

  /** One entry of the `/recencia-frequencia` reply. */
  datatype Entry = Entry(recencia: int, frequencia: int, quantidade: real)

  /** One non-empty cell of the chart; `tag` is its `label` field, `R{r} F{f}`. */
  datatype Cell = Cell(recencia: int, frequencia: int, quantidade: real, tag: string)

  /** The cells the grid initialises: recencia 1..5, frequencia 0..5. */
  predicate InGrid(r: int, f: int) {
    1 <= r <= 5 && 0 <= f <= 5
  }

  function Label(r: int, f: int): string {
    "R" + IntToString(r) + " F" + IntToString(f)
  }

  /** The row-major position of a grid cell: rows by recencia, columns by frequencia. */
  function Index(r: int, f: int): int {
    (r - 1) * 6 + f
  }

  /**
   * The matrix value of cell (r, f) after the entries are written in order:
   * the quantity of the last entry for that cell, 0 when there is none.
   */
  function LastQuantity(data: seq<Entry>, r: int, f: int): real {
    if |data| == 0 then 0.0
    else if data[|data| - 1].recencia == r && data[|data| - 1].frequencia == f then data[|data| - 1].quantidade
    else LastQuantity(data[..|data| - 1], r, f)
  }

  /** Cell (r, f) of the read-out: present when the matrix value is positive. */
  function CellAt(data: seq<Entry>, r: int, f: int): seq<Cell> {
    var q := LastQuantity(data, r, f);
    if q > 0.0 then [Cell(r, f, q, Label(r, f))] else []
  }

  /** The non-empty cells of row r among frequencias 0..n-1, in order. */
  function RowCells(data: seq<Entry>, r: int, n: nat): seq<Cell>
    requires n <= 6
  {
    if n == 0 then [] else RowCells(data, r, n - 1) + CellAt(data, r, n - 1)
  }

  /** The non-empty cells of rows 1..n, row after row. */
  function GridRows(data: seq<Entry>, n: nat): seq<Cell>
    requires n <= 5
  {
    if n == 0 then [] else GridRows(data, n - 1) + RowCells(data, n, 6)
  }

  /** The chart's data: every non-empty cell of the whole grid, in row-major order. */
  function HeatmapCells(data: seq<Entry>): seq<Cell> {
    GridRows(data, 5)
  }

  /**
   * `heatmapData`: the matrix initialised to 0 over the grid, filled from the
   * entries whose cell exists, then read out row by row keeping the positive
   * counts.
   */
  method HeatmapData(data: seq<Entry>) returns (result: seq<Cell>)
    ensures result == HeatmapCells(data)
  {
    var matrix := ZeroMatrix();
    matrix := Fill(matrix, data);
    result := ReadOut(matrix, data);
  }

  /** The matrix over the grid, every cell 0. */
  method ZeroMatrix() returns (matrix: map<(int, int), real>)
    ensures forall key :: key in matrix <==> InGrid(key.0, key.1)
    ensures forall key :: key in matrix ==> matrix[key] == 0.0
  {
    matrix := map[];
    var r := 1;
    while r <= 5
      invariant 1 <= r <= 6
      invariant forall key :: key in matrix <==> 1 <= key.0 < r && 0 <= key.1 <= 5
      invariant forall key :: key in matrix ==> matrix[key] == 0.0
    {
      var f := 0;
      while f <= 5
        invariant 0 <= f <= 6
        invariant forall key :: key in matrix <==> (1 <= key.0 < r && 0 <= key.1 <= 5) || (key.0 == r && 0 <= key.1 < f)
        invariant forall key :: key in matrix ==> matrix[key] == 0.0
      {
        matrix := matrix[(r, f) := 0.0];
        f := f + 1;
      }
      r := r + 1;
    }
  }

  /** The entries written into the matrix in order, each only when its cell exists. */
  method Fill(zero: map<(int, int), real>, data: seq<Entry>) returns (matrix: map<(int, int), real>)
    requires forall key :: key in zero <==> InGrid(key.0, key.1)
    requires forall key :: key in zero ==> zero[key] == 0.0
    ensures forall key :: key in matrix <==> InGrid(key.0, key.1)
    ensures forall key :: key in matrix ==> matrix[key] == LastQuantity(data, key.0, key.1)
  {
    matrix := zero;
    for i := 0 to |data|
      invariant forall key :: key in matrix <==> InGrid(key.0, key.1)
      invariant forall key :: key in matrix ==> matrix[key] == LastQuantity(data[..i], key.0, key.1)
    {
      assert data[..i + 1][..i] == data[..i];
      var key := (data[i].recencia, data[i].frequencia);
      if key in matrix {
        matrix := matrix[key := data[i].quantidade];
      }
    }
    assert data[..|data|] == data;
  }

  /** The positive cells read out row by row. */
  method ReadOut(matrix: map<(int, int), real>, data: seq<Entry>) returns (result: seq<Cell>)
    requires forall key :: key in matrix <==> InGrid(key.0, key.1)
    requires forall key :: key in matrix ==> matrix[key] == LastQuantity(data, key.0, key.1)
    ensures result == HeatmapCells(data)
  {
    result := [];
    var r := 1;
    while r <= 5
      invariant 1 <= r <= 6
      invariant result == GridRows(data, r - 1)
    {
      result := ReadRow(matrix, data, r, result);
      r := r + 1;
    }
  }

  /** Row r of the read-out: its positive cells, by frequencia, appended to the rows before it. */
  method ReadRow(matrix: map<(int, int), real>, data: seq<Entry>, r: int, before: seq<Cell>) returns (result: seq<Cell>)
    requires 1 <= r <= 5
    requires forall key :: key in matrix <==> InGrid(key.0, key.1)
    requires forall key :: key in matrix ==> matrix[key] == LastQuantity(data, key.0, key.1)
    requires before == GridRows(data, r - 1)
    ensures result == GridRows(data, r)
  {
    result := before;
    var f := 0;
    while f <= 5
      invariant 0 <= f <= 6
      invariant result == GridRows(data, r - 1) + RowCells(data, r, f)
    {
      var quantidade := matrix[(r, f)];
      if quantidade > 0.0 {
        result := result + [Cell(r, f, quantidade, Label(r, f))];
      }
      f := f + 1;
    }
  }

  /** A cell of row r is listed exactly when its frequencia is below n and its matrix value is positive. */
  lemma {:induction false} RowCellsMembership(data: seq<Entry>, r: int, n: nat, c: Cell)
    requires n <= 6
    ensures c in RowCells(data, r, n) <==>
      c.recencia == r && 0 <= c.frequencia < n &&
      c.quantidade == LastQuantity(data, r, c.frequencia) && c.quantidade > 0.0 && c.tag == Label(r, c.frequencia)
  {
    if n > 0 {
      RowCellsMembership(data, r, n - 1, c);
    }
  }

  /**
   * A cell is listed exactly when it is in the grid and the last entry for it
   * has a positive count; the listed count is that entry's.
   */
  lemma {:induction false} GridRowsMembership(data: seq<Entry>, n: nat, c: Cell)
    requires n <= 5
    ensures c in GridRows(data, n) <==>
      InGrid(c.recencia, c.frequencia) && c.recencia <= n &&
      c.quantidade == LastQuantity(data, c.recencia, c.frequencia) && c.quantidade > 0.0 &&
      c.tag == Label(c.recencia, c.frequencia)
  {
    if n > 0 {
      GridRowsMembership(data, n - 1, c);
      RowCellsMembership(data, n, 6, c);
    }
  }

  lemma HeatmapCellsMembership(data: seq<Entry>, c: Cell)
    ensures c in HeatmapCells(data) <==>
      InGrid(c.recencia, c.frequencia) &&
      c.quantidade == LastQuantity(data, c.recencia, c.frequencia) && c.quantidade > 0.0 &&
      c.tag == Label(c.recencia, c.frequencia)
  {
    GridRowsMembership(data, 5, c);
  }

  /** A row holds at most n cells, all of row r, in increasing frequencia below n. */
  lemma {:induction false} RowCellsOrdered(data: seq<Entry>, r: int, n: nat)
    requires n <= 6
    ensures |RowCells(data, r, n)| <= n
    ensures forall i :: 0 <= i < |RowCells(data, r, n)| ==>
      RowCells(data, r, n)[i].recencia == r && 0 <= RowCells(data, r, n)[i].frequencia < n
    ensures forall i, j :: 0 <= i < j < |RowCells(data, r, n)| ==>
      RowCells(data, r, n)[i].frequencia < RowCells(data, r, n)[j].frequencia
  {
    if n > 0 {
      RowCellsOrdered(data, r, n - 1);
    }
  }

  /** The cells come in strictly increasing row-major position, at most 6 per row. */
  lemma {:induction false} GridRowsOrdered(data: seq<Entry>, n: nat)
    requires n <= 5
    ensures |GridRows(data, n)| <= 6 * n
    ensures forall i :: 0 <= i < |GridRows(data, n)| ==>
      InGrid(GridRows(data, n)[i].recencia, GridRows(data, n)[i].frequencia) && GridRows(data, n)[i].recencia <= n
    ensures forall i, j :: 0 <= i < j < |GridRows(data, n)| ==>
      Index(GridRows(data, n)[i].recencia, GridRows(data, n)[i].frequencia) <
      Index(GridRows(data, n)[j].recencia, GridRows(data, n)[j].frequencia)
  {
    if n > 0 {
      GridRowsOrdered(data, n - 1);
      RowCellsOrdered(data, n, 6);
      var before: seq<Cell>, row: seq<Cell> := GridRows(data, n - 1), RowCells(data, n, 6);
      assert GridRows(data, n) == before + row;
      forall i, j | 0 <= i < j < |before + row|
        ensures Index((before + row)[i].recencia, (before + row)[i].frequencia) <
                Index((before + row)[j].recencia, (before + row)[j].frequencia)
      {
        if j >= |before| && i < |before| {
          assert (before + row)[i] == before[i];
          assert (before + row)[j] == row[j - |before|];
        }
      }
    }
  }

  /** The whole chart: row-major order, at most 30 cells, and no (recencia, frequencia) twice. */
  lemma HeatmapCellsDistinct(data: seq<Entry>)
    ensures |HeatmapCells(data)| <= 30
    ensures forall i, j :: 0 <= i < j < |HeatmapCells(data)| ==>
      (HeatmapCells(data)[i].recencia, HeatmapCells(data)[i].frequencia) !=
      (HeatmapCells(data)[j].recencia, HeatmapCells(data)[j].frequencia)
  {
    GridRowsOrdered(data, 5);
  }

  lemma {:induction false} RowCellsFromMatrix(d1: seq<Entry>, d2: seq<Entry>, r: int, n: nat)
    requires n <= 6 && 1 <= r <= 5
    requires forall r, f :: InGrid(r, f) ==> LastQuantity(d1, r, f) == LastQuantity(d2, r, f)
    ensures RowCells(d1, r, n) == RowCells(d2, r, n)
  {
    if n > 0 {
      RowCellsFromMatrix(d1, d2, r, n - 1);
      assert InGrid(r, n - 1);
    }
  }

  /** The chart depends on the entries only through the grid's matrix. */
  lemma {:induction false} GridRowsFromMatrix(d1: seq<Entry>, d2: seq<Entry>, n: nat)
    requires n <= 5
    requires forall r, f :: InGrid(r, f) ==> LastQuantity(d1, r, f) == LastQuantity(d2, r, f)
    ensures GridRows(d1, n) == GridRows(d2, n)
  {
    if n > 0 {
      GridRowsFromMatrix(d1, d2, n - 1);
      RowCellsFromMatrix(d1, d2, n, 6);
    }
  }

  /** An entry outside the grid (a recencia of 0, say) changes nothing. */
  lemma OutsideEntryDropped(data: seq<Entry>, e: Entry)
    requires !InGrid(e.recencia, e.frequencia)
    ensures HeatmapCells(data + [e]) == HeatmapCells(data)
  {
    assert (data + [e])[..|data|] == data;
    GridRowsFromMatrix(data + [e], data, 5);
  }

  /** A second entry for the same cell overwrites the first: its count is not added. */
  lemma LastEntryWins(data: seq<Entry>, e1: Entry, e2: Entry)
    requires e1.recencia == e2.recencia && e1.frequencia == e2.frequencia
    ensures HeatmapCells(data + [e1, e2]) == HeatmapCells(data + [e2])
  {
    assert (data + [e1, e2])[..|data| + 1] == data + [e1];
    assert (data + [e1])[..|data|] == data;
    assert (data + [e2])[..|data|] == data;
    GridRowsFromMatrix(data + [e1, e2], data + [e2], 5);
  }

  /** `heatmapData.find(d => d.recencia === r && d.frequencia === f)`. */
  function Find(cells: seq<Cell>, r: int, f: int): (found: Option<Cell>)
    ensures found.Some? ==> found.value in cells && found.value.recencia == r && found.value.frequencia == f
    ensures found.None? ==> forall c :: c in cells ==> !(c.recencia == r && c.frequencia == f)
  {
    if |cells| == 0 then None
    else if cells[0].recencia == r && cells[0].frequencia == f then Some(cells[0])
    else Find(cells[1..], r, f)
  }

  /** `item?.quantidade || 0`: the count the grid square (r, f) shows. */
  function Displayed(cells: seq<Cell>, r: int, f: int): real {
    match Find(cells, r, f)
    case None => 0.0
    case Some(c) => c.quantidade
  }

  /** Each grid square shows the matrix value when positive and 0 otherwise. */
  lemma DisplayedIsMatrix(data: seq<Entry>, r: int, f: int)
    requires InGrid(r, f)
    ensures Displayed(HeatmapCells(data), r, f) ==
      if LastQuantity(data, r, f) > 0.0 then LastQuantity(data, r, f) else 0.0
  {
    var q := LastQuantity(data, r, f);
    HeatmapCellsMembership(data, Cell(r, f, q, Label(r, f)));
    var found := Find(HeatmapCells(data), r, f);
    if found.Some? {
      HeatmapCellsMembership(data, found.value);
    }
  }

  function Quantities(cells: seq<Cell>): (qs: seq<real>)
    ensures |qs| == |cells| && forall i :: 0 <= i < |cells| ==> qs[i] == cells[i].quantidade
  {
    seq(|cells|, i requires 0 <= i < |cells| => cells[i].quantidade)
  }

  /** `maxQuantidade`: `Math.max` over the counts and 1. */
  function MaxQuantidade(cells: seq<Cell>): real {
    Max(Quantities(cells) + [1.0])
  }

  /** It is at least 1, no count exceeds it, and it is one of the counts unless it is 1. */
  lemma MaxQuantidadeBounds(cells: seq<Cell>)
    ensures MaxQuantidade(cells) >= 1.0
    ensures forall i :: 0 <= i < |cells| ==> cells[i].quantidade <= MaxQuantidade(cells)
    ensures MaxQuantidade(cells) == 1.0 || exists i :: 0 <= i < |cells| && cells[i].quantidade == MaxQuantidade(cells)
  {
    var qs := Quantities(cells) + [1.0];
    MaxIsGreatest(qs);
    assert qs[|cells|] == 1.0;
    assert forall i :: 0 <= i < |cells| ==> qs[i] == cells[i].quantidade;
  }

  const Palette: seq<string> := ["#f0f0f0", "#e3f2fd", "#90caf9", "#42a5f5", "#1e88e5", "#1565c0"]

  /** The shade's position in the palette for an intensity, following `getColor`'s thresholds. */
  function Level(intensity: real): (level: nat)
    ensures level < 6
    ensures level == 0 <==> intensity == 0.0
    ensures level == 1 ==> intensity < 0.2
    ensures 2 <= level <= 4 ==> 0.2 * (level - 1) as real <= intensity < 0.2 * level as real
    ensures level == 5 <==> intensity >= 0.8
  {
    if intensity == 0.0 then 0
    else if intensity < 0.2 then 1
    else if intensity < 0.4 then 2
    else if intensity < 0.6 then 3
    else if intensity < 0.8 then 4
    else 5
  }

  /** `getColor`: the shade of a count relative to the largest count. */
  function GetColor(quantidade: real, maxQuantidade: real): string
    requires maxQuantidade > 0.0
  {
    Palette[Level(quantidade / maxQuantidade)]
  }

  /** A larger non-negative count never gets a lighter shade. */
  lemma ColorMonotone(q1: real, q2: real, maxQuantidade: real)
    requires 0.0 <= q1 <= q2 && maxQuantidade > 0.0
    ensures Level(q1 / maxQuantidade) <= Level(q2 / maxQuantidade)
  {
    DivideMonotone(q1, q2, maxQuantidade);
    DivideMonotone(0.0, q1, maxQuantidade);
  }

  /** Grey exactly for a zero count; the darkest shade exactly from 80% of the largest count up. */
  lemma ColorThresholds(q: real, maxQuantidade: real)
    requires maxQuantidade > 0.0
    ensures GetColor(q, maxQuantidade) == Palette[0] <==> q == 0.0
    ensures GetColor(q, maxQuantidade) == Palette[5] <==> q >= 0.8 * maxQuantidade
  {
    var i := q / maxQuantidade;
    assert i * maxQuantidade == q;
    assert Palette[Level(i)] == Palette[0] <==> Level(i) == 0;
    assert Palette[Level(i)] == Palette[5] <==> Level(i) == 5;
    if i >= 0.8 {
      assert i * maxQuantidade >= 0.8 * maxQuantidade;
    }
    if q >= 0.8 * maxQuantidade {
      assert i * maxQuantidade >= 0.8 * maxQuantidade;
    }
  }

  /**
   * On the chart, a square is grey exactly when it shows no count, and the
   * square holding the largest count has the darkest shade.
   */
  lemma ChartColors(data: seq<Entry>, r: int, f: int)
    requires InGrid(r, f)
    ensures var m := MaxQuantidade(HeatmapCells(data));
      m >= 1.0 &&
      (GetColor(Displayed(HeatmapCells(data), r, f), m) == Palette[0] <==> LastQuantity(data, r, f) <= 0.0) &&
      (Displayed(HeatmapCells(data), r, f) == m ==> GetColor(Displayed(HeatmapCells(data), r, f), m) == Palette[5])
  {
    var cells := HeatmapCells(data);
    var m := MaxQuantidade(cells);
    MaxQuantidadeBounds(cells);
    DisplayedIsMatrix(data, r, f);
    var q := Displayed(cells, r, f);
    ColorThresholds(q, m);
  }
}
