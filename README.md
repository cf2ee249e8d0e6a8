# adm — verified model of the sales-analytics core

The `adm` system is a sales dashboard with two parts. An Express backend
reads a Supabase database and computes metrics. A React frontend charts
them. This project models in Dafny the parts of both that compute
something, and proves what they promise:

- **Seller metrics** (`Vendedores`). The backend cleans and parses sale
  amounts (`processarValor`). Revenue is the sum of the positive amounts.
  The order count is the number of distinct invoice ids. The variation
  formula guards against a zero base. The historical average is the
  12-month trimmed mean: one minimum and one maximum are dropped. The
  backend also classifies the active clients of a portfolio. It assembles
  one record per seller; any failure turns the metrics into zeros. The
  calendar-month windows reached by counting back from "now" are in
  `Calendar`.
- **RFV aggregations** (`Rfv`). These are the group-and-count folds of
  `/valor`, `/recencia-frequencia`, `/status` and `/classificacao`. Each
  one applies its query-parameter filters and has its own ordering. The
  order depends on how JavaScript lists the keys of an object, which
  `Grouping` models. `/by-codigos` caps a lookup at 100 codes. `/:id`
  answers 404 when no single row matches.
- **Geolocation** (`Geoloc`). RFV mode builds the RFV code set and keeps
  the rows whose client is in it. Both modes keep only rows with valid
  coordinates.
- **Authentication** (`Auth`). The sign-in and session decision chains,
  and sign-out.
- **API client** (`Api`). `ApiClient` is a class with a token field and
  the browser storage it mirrors. The module also covers URL and endpoint
  normalisation, headers, response unwrapping, error mapping and the
  query-string builders.
- **Client filters** (`Filters`, `AnaliseCliente`). `FilterStore` is a
  class with five filter fields and the setters of the filter context.
  The module also covers the chart click toggles and the active-filter
  label.
- **Client-side logic**:
  - `Insights`: the insight rules, their priority sort and the top-3
    panel.
  - `RfChart`: the recency × frequency grid and its colour scale.
  - `SellerList`: the seller list search, availability filter and sort.
  - `Heatmap`: the map click tooltip, the map centre and the heat points.

Library modules model the JavaScript built-ins the code relies on:

- `Text`: `replace` of the first occurrence, `trim`, `split`, and the
  decimal rendering of integers.
- `Numbers`: `parseFloat` and `parseInt` as longest-prefix parsers over
  exact reals, plus sums, minimum and maximum.
- `Sorting`: `Array.prototype.sort` as a stable sort by a real key.
- `Seqs`: `filter` and `splice`.
- `Db`: a query's outcome and `.single()`.
- `Wrappers`: `Option` and `Result`.

Database queries, JWT signing and verification, case folding, collation,
distance and URL encoding are given as function parameters.

## Model

| member | source | states |
|---|---|---|
| Vendedores.CleanAmount | backend/src/routes/vendedores.ts:68 | the cleanup of an amount text: keep digits, ',', '.' and '-', then turn the first ',' into '.'; CleanIntegerText, CleanDecimalComma and CleanThousands give its effect |
| Vendedores.ProcessAmount | backend/src/routes/vendedores.ts:66-71 | `processarValor`: 0 for a null or empty text, otherwise the parse of the cleaned text with NaN read as 0; its value on integers, decimal commas and thousands separators is given by ProcessAmountOfInteger, ProcessAmountDecimalComma and ThousandsSeparatorTruncates |
| Vendedores.Revenue | backend/src/routes/vendedores.ts:74-75 | the sum of the positive parsed amounts; RevenueNonNegative, RevenuePositive, RevenueAppend and RevenueIgnoresNonPositive state its properties |
| Vendedores.OrderCount | backend/src/routes/vendedores.ts:76 | the number of distinct invoice ids, null counting as one id; OrderCountBounds and OrderCountRepeatedInvoice state its bounds |
| Vendedores.Variation | backend/src/routes/vendedores.ts:84-87 | `calcularVariacao`: 100 or 0 on a zero base, otherwise the percentage change; VariationRecovers inverts it and VariationSign gives its sign |
| Vendedores.PeriodSales | backend/src/routes/vendedores.ts:38-97 | the two-period sales metrics, or the first fetch error; PeriodSalesErrors and PeriodSalesBounds characterise it |
| Vendedores.MonthlyValues | backend/src/routes/vendedores.ts:119-125 | the measure of each answered month in order, failed months skipped; the loop CollectMonthly computes it and MonthlyValuesLength bounds it |
| Vendedores.TrimmedMean | backend/src/routes/vendedores.ts:129-156 | the reference definition of the historical average: 0 below three values, otherwise (sum − min − max)/(n − 2); the splice code TrimmedAverage is proved equal to it and TrimmedMeanBounds bounds it |
| Vendedores.OrdersAverage | backend/src/routes/vendedores.ts:100-157 | `calcularPedidosMedio`: the trimmed mean of twelve months of order counts (HistoricalAverage) |
| Vendedores.RevenueAverage | backend/src/routes/vendedores.ts:160-225 | `calcularFaturamentoMedio`: the trimmed mean of twelve months of revenue (HistoricalAverage) |
| Vendedores.IsActive | backend/src/routes/vendedores.ts:247-249 | an active client has recencia at most 2 and frequencia at least 2, nulls as 0; MissingFrequencyInactive and AllActiveIff use it |
| Vendedores.PortfolioMetrics | backend/src/routes/vendedores.ts:228-255 | the portfolio size and active count, or the query error; PortfolioCounts and AllActiveIff characterise it |
| Vendedores.ComputeMetrics | backend/src/routes/vendedores.ts:290-319 | the seller's metrics or the first error; VariationAgainstAverage and MetricsBounds state its fields |
| Vendedores.SellerEntry | backend/src/routes/vendedores.ts:289-338 | the seller with its metrics, all zero on any error (SellerEntryShape) |
| Vendedores.ProcessAmountOfInteger | backend/src/routes/vendedores.ts:66-71 | a plain integer amount, signed or not, is read back as its own value |
| Vendedores.CleanIntegerText | backend/src/routes/vendedores.ts:68 | the cleanup leaves the text of an integer unchanged |
| Vendedores.ProcessAmountDecimalComma | backend/src/routes/vendedores.ts:66-71 | "a,ds" with a decimal comma is read as a + ds/10^\|ds\| |
| Vendedores.CleanDecimalComma | backend/src/routes/vendedores.ts:68 | the cleanup turns the one comma of "w,ds" into a point and keeps every digit |
| Vendedores.SignedDigitsKept | backend/src/routes/vendedores.ts:68 | digits and a leading minus all pass the character filter |
| Vendedores.FilterKeepsAmountText | backend/src/routes/vendedores.ts:68 | text made only of digits, ',', '.' and '-' passes the filter unchanged |
| Vendedores.CleanAmountIsFiniteOrNaN | backend/src/routes/vendedores.ts:68-70 | after the cleanup the parse is a finite number or NaN, never an infinity, so the NaN guard covers every failure |
| Vendedores.ThousandsSeparatorTruncates | backend/src/routes/vendedores.ts:68-69 | "R$ 1.234,56" is read as 1.234: only the first comma becomes a point and parsing stops at the second point |
| Vendedores.CleanThousands | backend/src/routes/vendedores.ts:68 | the cleanup turns "R$ 1.234,56" into "1.234.56" |
| Vendedores.FilterThousands | backend/src/routes/vendedores.ts:68 | the character filter drops the currency prefix and the space and keeps "1.234,56" |
| Vendedores.CurrencyDropped | backend/src/routes/vendedores.ts:68 | "R$ " has no character that passes the filter |
| Vendedores.OneDot234 | backend/src/routes/vendedores.ts:69 | the digits "1" and "234" around a point make 1.234 |
| Vendedores.Amounts | backend/src/routes/vendedores.ts:74 | one parsed amount per sale row, in row order |
| Vendedores.RevenueNonNegative | backend/src/routes/vendedores.ts:74-75 | revenue is never negative |
| Vendedores.RevenuePositive | backend/src/routes/vendedores.ts:74-75 | a single positive amount makes revenue positive |
| Vendedores.SumOfPositives | backend/src/routes/vendedores.ts:75 | a sum of positive values is non-negative, and positive when there is at least one |
| Vendedores.RevenueAppend | backend/src/routes/vendedores.ts:74-75 | the revenue of two batches of rows is the sum of their revenues |
| Vendedores.AmountsAppend | backend/src/routes/vendedores.ts:74 | the amounts of two batches are the two batches' amounts in order |
| Vendedores.RevenueIgnoresNonPositive | backend/src/routes/vendedores.ts:74 | a row whose amount is zero or negative leaves revenue unchanged |
| Vendedores.Invoices | backend/src/routes/vendedores.ts:76 | one invoice id per row, null included, in row order |
| Vendedores.DistinctCount | backend/src/routes/vendedores.ts:76 | the size of a set of values is at most their number, at least 1 when there are some, and equal to it when they are distinct |
| Vendedores.OrderCountBounds | backend/src/routes/vendedores.ts:76 | the order count is at most the row count, at least 1 when there are rows, and equal to it when all invoice ids differ |
| Vendedores.OrderCountRepeatedInvoice | backend/src/routes/vendedores.ts:76 | a row whose invoice id was already seen leaves the order count unchanged |
| Vendedores.VariationRecovers | backend/src/routes/vendedores.ts:84-87 | for a non-zero base, applying the percentage to the base gives the current value back |
| Vendedores.VariationSign | backend/src/routes/vendedores.ts:84-87 | for a positive base, the variation is positive exactly when the current value is higher and negative exactly when it is lower |
| Vendedores.PeriodSalesErrors | backend/src/routes/vendedores.ts:61-63 | the period metrics fail exactly when either fetch fails; the current period's message takes precedence, then the previous one's, then a default; the error is never empty |
| Vendedores.PeriodSalesBounds | backend/src/routes/vendedores.ts:73-96 | with both fetches answered, both revenues are non-negative and each order count is at most its period's row count |
| Vendedores.MonthFetches | backend/src/routes/vendedores.ts:108-117 | fetch i is the seller's query over the calendar month i months before now |
| Vendedores.CollectMonthly | backend/src/routes/vendedores.ts:108-126 | the loop's series is the per-month values of the answered months in order, with failed months skipped |
| Vendedores.MonthFetchesSnoc | backend/src/routes/vendedores.ts:108 | one more iteration adds the fetch of the next month back |
| Vendedores.MonthlyValuesSnoc | backend/src/routes/vendedores.ts:119-125 | a failed month adds nothing to the series; an answered one adds its value |
| Vendedores.MonthlyValuesLength | backend/src/routes/vendedores.ts:119-125 | the series is at most as long as the number of months, and as long exactly when no month failed |
| Vendedores.SortedEnds | backend/src/routes/vendedores.ts:134-136 | the first and last elements of the ascending sort are the minimum and the maximum |
| Vendedores.SortedFirst | backend/src/routes/vendedores.ts:134-135 | a sorted permutation starts with the least element |
| Vendedores.SortedLast | backend/src/routes/vendedores.ts:134-136 | a sorted permutation ends with the greatest element |
| Vendedores.RemoveExtremes | backend/src/routes/vendedores.ts:139-148 | splicing out a minimum and then a maximum leaves n−2 values, all within [min, max], whose sum is the total less both |
| Vendedores.HighestSurvives | backend/src/routes/vendedores.ts:139-145 | after one minimum is removed from three or more values, a maximum is still there to be found |
| Vendedores.SpliceExtremes | backend/src/routes/vendedores.ts:139-156 | the trimmed mean is the plain mean of what the two splices leave |
| Vendedores.TrimmedAverage | backend/src/routes/vendedores.ts:129-156 | the copy-sort-indexOf-splice code computes the trimmed mean: 0 below three values, otherwise the mean without one minimum and one maximum |
| Vendedores.TrimmedWitness | backend/src/routes/vendedores.ts:139-156 | for three or more values there are n−2 values within [min, max] whose mean is the trimmed mean |
| Vendedores.TrimmedMeanBounds | backend/src/routes/vendedores.ts:129-156 | the trimmed mean lies between the minimum and the maximum |
| Vendedores.TrimmedMeanExamples | backend/src/routes/vendedores.ts:129-156 | [5,5,5] averages to 5; [10,30,20] to 20; two values give 0 |
| Vendedores.HistoricalAverage | backend/src/routes/vendedores.ts:100-225 | both historical averages are the trimmed mean of the series of answered months |
| Vendedores.PortfolioCounts | backend/src/routes/vendedores.ts:239-254 | the portfolio size is the row count and the active count is the number of active rows; the active count never exceeds the size; an empty portfolio gives (0, 0) |
| Vendedores.AllActiveIff | backend/src/routes/vendedores.ts:246-249 | the active count equals the portfolio size exactly when every client is active |
| Vendedores.MissingFrequencyInactive | backend/src/routes/vendedores.ts:248 | a client whose frequency is null, 0 or 1 is never active |
| Vendedores.ComputeSellerEntry | backend/src/routes/vendedores.ts:289-338 | the per-seller computation gives the seller's record as specified |
| Vendedores.VariationAgainstAverage | backend/src/routes/vendedores.ts:304-316 | the published revenue variation is against the historical average, overwriting the period one; the order variation stays period over period |
| Vendedores.SellerEntryShape | backend/src/routes/vendedores.ts:309-337 | the record keeps the seller; its metrics fail exactly when a period fetch or the portfolio fetch fails, and then they are all zeros |
| Vendedores.MetricsBounds | backend/src/routes/vendedores.ts:309-319 | in a computed record both revenues are non-negative and the active clients are at most the portfolio |
| Vendedores.ListSellers | backend/src/routes/vendedores.ts:258-346 | a failed directory query is 500 with its message; otherwise there is one record per seller, in directory order |
| Vendedores.SellerDetail | backend/src/routes/vendedores.ts:349-410 | no single matching seller is 404 "Vendedor não encontrado"; a failed metric is 500 with its message; otherwise it is the seller's record |
| Calendar.DaysInMonth | backend/src/routes/vendedores.ts:110 | every month has 28 to 31 days |
| Calendar.MakeDate | backend/src/routes/vendedores.ts:109-110 | `new Date(y, m, d)` always lands on a valid calendar date |
| Calendar.MakeDateInRange | backend/src/routes/vendedores.ts:109-110 | a day already inside its month is kept as given |
| Calendar.MonthsBefore | backend/src/routes/vendedores.ts:109 | counting months back rolls over year boundaries: the result is a month index in 0..11 at the right distance |
| Calendar.MakeDateFirstDay | backend/src/routes/vendedores.ts:109 | day 1 of an out-of-range month is day 1 of the normalised year and month |
| Calendar.MakeDateDayZero | backend/src/routes/vendedores.ts:110 | day 0 of a month is the last day of the month before |
| Calendar.MonthWindowSpan | backend/src/routes/vendedores.ts:108-110 | window i runs from the first to the last day of the month i months back |
| Calendar.MonthStart | backend/src/routes/vendedores.ts:109 | the window's start is day 1 of the month it names |
| Calendar.MonthEnd | backend/src/routes/vendedores.ts:110 | the window's end is the last day of the month it names |
| Calendar.MonthWindowsAdjacent | backend/src/routes/vendedores.ts:108-110 | the day after one window ends is the first day of the next later window, so the windows tile time with no gap or overlap |
| Calendar.MonthWindowsDistinct | backend/src/routes/vendedores.ts:108-110 | different months back give different windows |
| Calendar.PeriodsAroundToday | backend/src/routes/vendedores.ts:279-285 | the current period is today's whole calendar month and contains today; the previous period ends on the day before the current one starts |
| Db.Single | backend/src/routes/vendedores.ts:354-362 | `.single()` gives a row exactly when the query answered with exactly one row |
| Db.InternalError | backend/src/routes/vendedores.ts:407-409 | the outer handler answers 500 with a non-empty message |
| Rfv.Applies | backend/src/routes/rfv.ts:57-63 | a parameter filters only when it is present, non-empty and not the text "null"; the four *ConditionsFollowParameters rows apply it |
| Rfv.ValorResult | backend/src/routes/rfv.ts:71-82 | the `/valor` data; the ValorResult* rows characterise it |
| Rfv.RecFreqResult | backend/src/routes/rfv.ts:115-130 | the `/recencia-frequencia` data; the RecFreqResult* rows characterise it |
| Rfv.StatusResult | backend/src/routes/rfv.ts:158-169 | the `/status` data; the StatusResult* rows characterise it |
| Rfv.ClassResult | backend/src/routes/rfv.ts:198-213 | the `/classificacao` data; the ClassResult* rows characterise it |
| Rfv.FilterOn | backend/src/routes/rfv.ts:55-63 | the filter on a column is absent exactly when no condition names that column |
| Rfv.FilterOnAppend | backend/src/routes/rfv.ts:55-63 | chaining `.eq` calls: the first condition on a column decides |
| Rfv.ValorConditionsFollowParameters | backend/src/routes/rfv.ts:57-63 | `/valor` filters on classificacao and status exactly when the parameter is present and not "null", and never on valor |
| Rfv.RecFreqConditionsFollowParameters | backend/src/routes/rfv.ts:96-106 | `/recencia-frequencia` filters on classificacao, on valor parsed as an integer, and on status, each only when present and not "null" |
| Rfv.StatusConditionsFollowParameters | backend/src/routes/rfv.ts:144-150 | `/status` filters on classificacao and valor under the same rule, and never on status |
| Rfv.ClassConditionsFollowParameters | backend/src/routes/rfv.ts:184-190 | `/classificacao` filters on valor and status under the same rule, and never on classificacao |
| Rfv.ValorCounts | backend/src/routes/rfv.ts:77-81 | one count per object entry: the key parsed as an integer and the entry's row count |
| Rfv.AggregateValor | backend/src/routes/rfv.ts:71-82 | the fold and shaping compute the `/valor` result |
| Rfv.GetValor | backend/src/routes/rfv.ts:51-88 | a failed query is 500 with its message; otherwise the answer is the `/valor` result of the filtered rows |
| Rfv.ValorKeyCount | backend/src/routes/rfv.ts:72-73 | the key of a valor occurs once per row whose valor, with null as 0, is that valor |
| Rfv.ValorEntryCounted | backend/src/routes/rfv.ts:77-81 | the entry made from a row's key holds that row's valor and the number of rows with it |
| Rfv.ValorCountsAreNumbers | backend/src/routes/rfv.ts:77-81 | every entry's key parses back to a valor that occurs, counted correctly |
| Rfv.ValorResultCounts | backend/src/routes/rfv.ts:71-82 | `/valor` is sorted by valor ascending, and each entry is an occurring valor with its number of rows |
| Rfv.ValorResultTotal | backend/src/routes/rfv.ts:71-82 | the quantities add up to the number of rows |
| Rfv.ValorResultDistinct | backend/src/routes/rfv.ts:71-82 | no valor is listed twice |
| Rfv.ValorResultCover | backend/src/routes/rfv.ts:71-82 | every row's valor, with null as 0, is listed |
| Rfv.DigitsNumber | backend/src/routes/rfv.ts:124 | `Number` of a piece gives a number exactly when the piece is all digits; the empty piece reads as 0 |
| Rfv.PairCounts | backend/src/routes/rfv.ts:123-130 | one count per entry: the key split at '-' into recencia and frequencia, and the entry's row count |
| Rfv.AggregateRecFreq | backend/src/routes/rfv.ts:115-130 | the fold and shaping compute the `/recencia-frequencia` result |
| Rfv.GetRecFreq | backend/src/routes/rfv.ts:90-136 | a failed query is 500 with its message; otherwise the answer is the `/recencia-frequencia` result of the filtered rows |
| Rfv.DigitsNumberOfNat | backend/src/routes/rfv.ts:124 | the decimal text of a natural number reads back as that number |
| Rfv.SplitDigitPair | backend/src/routes/rfv.ts:124 | "a-b" with digit strings a and b splits into [a, b] |
| Rfv.RecFreqRoundTrip | backend/src/routes/rfv.ts:118-124 | for non-negative scores the key decodes back to the scores |
| Rfv.NegativeRecencyMisread | backend/src/routes/rfv.ts:118-124 | a negative recencia does not round-trip: "-r-f" splits at its leading dash and reads as (0, r) |
| Rfv.DecodeLeadingDash | backend/src/routes/rfv.ts:124 | a key that starts with '-' decodes to 0 and the digits before its second dash |
| Rfv.RecFreqKeyNamed | backend/src/routes/rfv.ts:118 | a key holds a dash, so it is never an array index |
| Rfv.RecFreqResultOrder | backend/src/routes/rfv.ts:115-130 | the result is unsorted: one entry per distinct key, in the order each key first appeared in the rows |
| Rfv.RecFreqOrderNamed | backend/src/routes/rfv.ts:115-123 | no key of the fold's object is an array index, so `Object.entries` keeps creation order |
| Rfv.RecFreqKeyInjective | backend/src/routes/rfv.ts:116-118 | for non-negative scores, equal keys mean equal scores |
| Rfv.PairEntryCounted | backend/src/routes/rfv.ts:115-130 | the entry made from a row's key holds that row's scores and the number of rows with them |
| Rfv.RecFreqResultCounts | backend/src/routes/rfv.ts:115-130 | each entry is an occurring (recencia, frequencia) pair, nulls as 0, with its number of rows |
| Rfv.RecFreqResultTotal | backend/src/routes/rfv.ts:115-130 | the quantities add up to the number of rows |
| Rfv.RecFreqResultDistinct | backend/src/routes/rfv.ts:115-130 | no pair is listed twice |
| Rfv.KeysDecodeApart | backend/src/routes/rfv.ts:118-124 | different keys of the fold decode to different pairs |
| Rfv.StatusCounts | backend/src/routes/rfv.ts:164-168 | one count per entry: the status and the entry's row count |
| Rfv.AggregateStatus | backend/src/routes/rfv.ts:158-169 | the fold and shaping compute the `/status` result |
| Rfv.GetStatus | backend/src/routes/rfv.ts:138-175 | a failed query is 500 with its message; otherwise the answer is the `/status` result of the filtered rows |
| Rfv.StatusResultCounts | backend/src/routes/rfv.ts:158-169 | sorted by quantity, largest first; each entry is an occurring status, falsy as "Sem status", with its number of rows |
| Rfv.StatusResultTotal | backend/src/routes/rfv.ts:158-169 | the quantities add up to the number of rows |
| Rfv.StatusResultDistinct | backend/src/routes/rfv.ts:158-169 | no status is listed twice, and every row's status is listed |
| Rfv.StatusTiesKeepEntriesOrder | backend/src/routes/rfv.ts:164-169 | statuses with equal quantities keep the order `Object.entries` gave them |
| Rfv.ClassCounts | backend/src/routes/rfv.ts:209-213 | one count per entry: the class, the descricao held by the entry, and its row count |
| Rfv.AggregateClass | backend/src/routes/rfv.ts:198-213 | the fold and shaping compute the `/classificacao` result |
| Rfv.GetClass | backend/src/routes/rfv.ts:178-219 | a failed query is 500 with its message; otherwise the answer is the `/classificacao` result of the filtered rows |
| Rfv.ClassResultFirstRow | backend/src/routes/rfv.ts:198-207 | each class's descricao comes from its first row, falling back to the class name; later rows only add to the count |
| Rfv.ClassEntryFirstRow | backend/src/routes/rfv.ts:199-205 | one entry's descricao comes from the first row of its class |
| Rfv.ClassResultCounts | backend/src/routes/rfv.ts:198-213 | each class, falsy as "Sem classificação", is listed once with its number of rows; the quantities add up to the number of rows |
| Rfv.ClassResultCover | backend/src/routes/rfv.ts:198-213 | every row's class is listed |
| Rfv.ListAll | backend/src/routes/rfv.ts:34-49 | a failed query is 500 with its message; otherwise the rows as served |
| Rfv.CodesToQuery | backend/src/routes/rfv.ts:226-231 | a missing, non-array or empty list means no query; otherwise the first min(n, 100) codes in order |
| Rfv.ByCodes | backend/src/routes/rfv.ts:222-246 | no query answers empty data; otherwise 500 on a failed query, or the rows found |
| Rfv.ById | backend/src/routes/rfv.ts:248-262 | exactly one matching row is returned; anything else is 404 "Registro não encontrado" |
| Geoloc.ParseCell | backend/src/routes/geoloc.ts:56-57 | `parseFloat` of a coordinate cell: a number reads as itself, a text goes through the parseFloat model |
| Geoloc.ValidCoords | backend/src/routes/geoloc.ts:54-59 | the coordinate test of both modes; ValidPairMeaning gives its meaning |
| Geoloc.ValidPoints | backend/src/routes/geoloc.ts:77-88 | the points of the valid rows, in order; PlainModeKeepsValidRows states both directions |
| Geoloc.InCodes | backend/src/routes/geoloc.ts:50-52 | `codigos.has(item.id_cliente)`: only a string code can match; RfvModeSound and RfvModeComplete rest on it |
| Geoloc.RfvMode | backend/src/routes/geoloc.ts:18 | RFV mode is on only for the exact text "true" |
| Geoloc.ValidPairMeaning | backend/src/routes/geoloc.ts:56-58 | a row passes exactly when both coordinates parse to finite numbers with lat in [−90, 90] and lon in [−180, 180] |
| Geoloc.ToPoint | backend/src/routes/geoloc.ts:60-65 | a kept row becomes id, id_cliente and the two parsed coordinates, within their ranges |
| Geoloc.ToPoints | backend/src/routes/geoloc.ts:60-65 | one point per kept row, in order |
| Geoloc.CodeSet | backend/src/routes/geoloc.ts:33-37 | the set holds exactly the non-empty string codes of the RFV rows |
| Geoloc.Locate | backend/src/routes/geoloc.ts:6-94 | RFV mode with a failed code query is 500; RFV mode with no codes is empty data; otherwise a failed geolocation query is 500 with its message in either mode; plain mode serves the points of the valid rows; every point served is within range |
| Geoloc.RfvModeKeepsListedRows | backend/src/routes/geoloc.ts:18-67 | RFV mode (`rfv` exactly "true") serves the rows whose client is in the code set and whose coordinates are valid, in input order |
| Geoloc.RfvModeSound | backend/src/routes/geoloc.ts:50-52 | every point served in RFV mode belongs to a client with a non-empty RFV code |
| Geoloc.RfvModeComplete | backend/src/routes/geoloc.ts:50-65 | every valid row of a client with an RFV code is served in RFV mode |
| Geoloc.ValidPointsSound | backend/src/routes/geoloc.ts:77-88 | every point the coordinate filter and map produce is the point of an input row with valid coordinates |
| Geoloc.PlainModeKeepsValidRows | backend/src/routes/geoloc.ts:70-90 | outside RFV mode every valid row is served, every served point comes from a valid row, and there are no more points than rows |
| Auth.IsInactive | backend/src/routes/auth.ts:49 | the inactive test; InactiveMeaning gives its meaning |
| Auth.BearerToken | backend/src/routes/auth.ts:95 | the token of an Authorization header; BearerTokenCases and BearerTokenFirstOnly give its meaning |
| Auth.InactiveMeaning | backend/src/routes/auth.ts:49 | a status is inactive exactly when it spells "inativo" in any mix of cases; null and "" pass |
| Auth.Publish | backend/src/routes/auth.ts:63-70 | the public user carries the stringified id and the email, name, role and photo |
| Auth.SignIn | backend/src/routes/auth.ts:25-78 | a missing email or password is 400; every refusal is 400, 401 or 403; sign-in succeeds exactly when the single user found has that password and is not inactive |
| Auth.MissingCredentialsBeforeLookup | backend/src/routes/auth.ts:29-31 | missing credentials are refused with 400 whatever the database holds |
| Auth.UnknownEmailLooksLikeWrongPassword | backend/src/routes/auth.ts:39-47 | an unknown email and a wrong password give the same 401 reply |
| Auth.InactiveOnlyAfterPassword | backend/src/routes/auth.ts:45-51 | an inactive user gets 403 only with the right password, 401 otherwise |
| Auth.SignInSuccess | backend/src/routes/auth.ts:53-74 | success replies with the published user and a token signed over {id, email, nome} |
| Auth.BearerTokenCases | backend/src/routes/auth.ts:95 | a header starting with "Bearer " loses that prefix; a header without it is kept whole |
| Auth.BearerTokenFirstOnly | backend/src/routes/auth.ts:95 | only the first "Bearer " is removed |
| Auth.Session | backend/src/routes/auth.ts:88-135 | a user is returned exactly when the header is present, the token verifies, the id finds one user and the user is not inactive, and then it is the published user; otherwise `user: null`, never an error status |
| Auth.SessionAfterSignIn | backend/src/routes/auth.ts:53-74 | the token from a sign-in, sent as a Bearer header, opens a session for the same user |
| Auth.SignOut | backend/src/routes/auth.ts:80-86 | sign-out answers "Logout realizado com sucesso" in both the try and the catch branch |
| Api.Envelope | backend/src/routes/rfv.ts:67-84 | the backend's reply shape, `{ data }` or `{ error }`; UnwrapEnvelope proves the client unwraps it |
| Api.Url | src/lib/api.ts:36-37 | the request URL; UrlSingleSlash gives its shape |
| Api.Persisted | src/lib/api.ts:18-29 | the ApiClient invariant: the token field and the storage agree whenever either holds a token; every method keeps it and ReloadSendsSameHeaders rests on it |
| Api.TextParam | src/lib/api.ts:160-174 | a text filter is appended only when truthy; TextParamReadBack pairs it with the server's reading |
| Api.NumberParam | src/lib/api.ts:160-191 | a numeric filter is appended whenever not null; NumberParamReadBack pairs it with the server's reading |
| Api.ClassificacaoParams | src/lib/api.ts:160-166 | the parameters of `getRFVClassificacao`; ClassificacaoFiltersReachServer pairs them with the route's conditions |
| Api.ValorParams | src/lib/api.ts:168-174 | the parameters of `getRFVValor`; ValorFiltersReachServer pairs them with the route's conditions |
| Api.RecFreqParams | src/lib/api.ts:176-183 | the parameters of `getRFVRecenciaFrequencia`; RecFreqFiltersReachServer pairs them with the route's conditions |
| Api.StatusParams | src/lib/api.ts:185-191 | the parameters of `getRFVStatus`; StatusFiltersReachServer pairs them with the route's conditions |
| Api.Field | src/lib/api.ts:61 | a field is read exactly when the body is an object holding it |
| Api.CatchError | src/lib/api.ts:62-66 | a thrown "Failed to fetch" or "ERR_CONNECTION_REFUSED" becomes the backend-down message; another message is kept; no message is "Erro de conexão"; the error is never empty |
| Api.Unwrap | src/lib/api.ts:53-61 | there is data exactly when the reply is ok and its body is not null; every error is non-empty |
| Api.UnwrapEnvelope | src/lib/api.ts:53-61 | an ok `{data}` envelope yields its payload; a non-ok `{error}` yields the error, or "Erro na requisição" when it is empty |
| Api.UnwrapBareReply | src/lib/api.ts:61 | an ok body without a `data` field is returned whole |
| Api.NormalizeEndpoint | src/lib/api.ts:36 | the endpoint always starts with '/', which is added only when it is missing |
| Api.NormalizeEndpointIdempotent | src/lib/api.ts:36 | normalising twice is normalising once |
| Api.UrlSingleSlash | src/lib/api.ts:36-37 | the URL is the stripped base, then exactly one '/' and the endpoint |
| Api.Headers | src/lib/api.ts:38-45 | Content-Type defaults to JSON and a caller's value wins; Authorization is "Bearer token" exactly when the token is truthy; the other caller headers are kept |
| Api.AuthorizationIffToken | src/lib/api.ts:43-45 | an Authorization header is sent exactly when there is a token |
| Api.ReloadSendsSameHeaders | src/lib/api.ts:18-29 | a client rebuilt from storage sends the same headers as the one that stored the token |
| Api.AccessToken | src/lib/api.ts:79 | a token is taken from a reply only when it is non-empty |
| Api.AccessTokenOfSignInReply | src/lib/api.ts:71-81 | the access token of a successful sign-in reply is found |
| Api.ApiClient.constructor | src/lib/api.ts:12-20 | trailing slashes are dropped from the base URL and the token is loaded from storage |
| Api.ApiClient.SetToken | src/lib/api.ts:22-29 | the field becomes the argument; storage holds it when it is truthy and is cleared otherwise |
| Api.ApiClient.Request | src/lib/api.ts:31-68 | the request goes to the normalised URL with the built headers, and the reply is unwrapped |
| Api.ApiClient.SignIn | src/lib/api.ts:70-84 | the token is stored only when the reply carries an access token; otherwise the client is unchanged |
| Api.ApiClient.SignOut | src/lib/api.ts:86-92 | the token and storage are cleared whatever the server answered |
| Api.Lookup | src/lib/api.ts:160-191 | a parameter is absent exactly when no pair has its name |
| Api.QueryString | src/lib/api.ts:160-191 | the query string is empty exactly when there are no parameters |
| Api.WithQuery | src/lib/api.ts:160-191 | no '?' without parameters, otherwise "path?query" |
| Api.GeolocUrl | src/lib/api.ts:193-196 | the geolocation URL carries a query exactly when RFV mode is asked for |
| Api.LookupAppend | src/lib/api.ts:160-191 | among appended parameters the first with a name decides |
| Api.TextParamReadBack | src/lib/api.ts:160-174 | a text parameter is sent only when truthy, and the server applies it unless it is the string "null" |
| Api.NumberParamReadBack | src/lib/api.ts:160-191 | a numeric valor is sent whenever it is not null, 0 included, and the server reads the same integer back |
| Api.ClassificacaoFiltersReachServer | src/lib/api.ts:160-166 | the classification chart's valor and status reach the `/classificacao` query as sent |
| Api.ValorFiltersReachServer | src/lib/api.ts:168-174 | the valor chart's classificacao and status reach the `/valor` query as sent |
| Api.RecFreqFiltersReachServer | src/lib/api.ts:176-183 | the grid's classificacao, valor and status reach the `/recencia-frequencia` query as sent |
| Api.StatusFiltersReachServer | src/lib/api.ts:185-191 | the status chart's classificacao and valor reach the `/status` query as sent |
| Filters.SetCount | src/contexts/FilterContext.tsx:3-9 | at most five filters are set, and none exactly when the state is all null |
| Filters.FilterStore.constructor | src/contexts/FilterContext.tsx:24-30 | the initial state has all five filters null |
| Filters.FilterStore.SetClassificacao | src/contexts/FilterContext.tsx:32-42 | classificacao becomes the argument and the other four become null, whatever the prior state |
| Filters.FilterStore.SetValor | src/contexts/FilterContext.tsx:44-53 | valor becomes the argument and the other four become null |
| Filters.FilterStore.SetRecencia | src/contexts/FilterContext.tsx:55-64 | recencia becomes the argument and the other four become null |
| Filters.FilterStore.SetFrequencia | src/contexts/FilterContext.tsx:66-75 | frequencia becomes the argument and the other four become null |
| Filters.FilterStore.SetStatus | src/contexts/FilterContext.tsx:77-86 | status becomes the argument and the other four become null |
| Filters.FilterStore.Clear | src/contexts/FilterContext.tsx:88-96 | all five filters become null |
| Filters.FilterStore.ToggleValor | src/components/ValorChart.tsx:107-111 | clicking a legend entry toggles the valor filter |
| Filters.FilterStore.ToggleClassificacao | src/components/ClassificacaoChart.tsx:76-80 | clicking a bar toggles the classificacao filter |
| Filters.FilterStore.ToggleStatus | src/components/StatusChart.tsx:75-79 | clicking a bar toggles the status filter |
| Filters.ToggledValor | src/components/ValorChart.tsx:107-111 | clicking the active valor clears every filter; clicking another makes it the only filter |
| Filters.ToggledClassificacao | src/components/ClassificacaoChart.tsx:76-80 | clicking the active class clears every filter; clicking another makes it the only filter |
| Filters.ToggledStatus | src/components/StatusChart.tsx:75-79 | clicking the active status clears every filter; clicking another makes it the only filter |
| Filters.ToggleValorTwice | src/components/ValorChart.tsx:107-111 | clicking the same valor twice returns to the state before, or to no filter |
| Filters.ToggleClassificacaoTwice | src/components/ClassificacaoChart.tsx:76-80 | clicking the same class twice returns to the state before, or to no filter |
| Filters.ToggleStatusTwice | src/components/StatusChart.tsx:75-79 | clicking the same status twice returns to the state before, or to no filter |
| Filters.UseFilters | src/contexts/FilterContext.tsx:115-121 | outside a provider the hook fails with its message; inside it, it gives the provider's store |
| AnaliseCliente.ShowsIndicator | src/pages/AnaliseCliente.tsx:23-28 | the indicator is rendered when the label is a non-empty text; IndicatorIffLabel gives its meaning |
| AnaliseCliente.FilterLabel | src/pages/AnaliseCliente.tsx:11-16 | a truthy class labels first, then any non-null valor (0 included), then a truthy status; otherwise there is no label |
| AnaliseCliente.IndicatorIffLabel | src/pages/AnaliseCliente.tsx:23-28 | the indicator and its clear button are shown exactly when there is a label |
| AnaliseCliente.LabelIgnoresRecenciaFrequencia | src/pages/AnaliseCliente.tsx:11-16 | recencia and frequencia never change the label |
| AnaliseCliente.LabelOfReachableState | src/pages/AnaliseCliente.tsx:11-16 | in a reachable state a recencia or frequencia filter shows no indicator, and a valor or status filter labels itself |
| Insights.Message | src/components/VendedorInsights.tsx:31-127 | the text each rule pushes |
| Insights.Fires | src/components/VendedorInsights.tsx:30-127 | the threshold of each rule; PushedIffFires and DifferenceMeaning give its meaning |
| Insights.PushedBy | src/components/VendedorInsights.tsx:30-127 | the insights pushed by the first k rules; PushedByIffFires and PushedOnce characterise it |
| Insights.Rank | src/components/VendedorInsights.tsx:140-142 | `prioridadeOrder`: alta 3, media 2, baixa 1 |
| Insights.ByPriority | src/components/VendedorInsights.tsx:140-146 | the reference order of the panel: the "alta" insights then the "media" ones, each in push order; SortIsByPriority proves the sort equals it |
| Insights.DifferenceMeaning | src/components/VendedorInsights.tsx:39-53 | with no positive average the difference is 0; otherwise above +20% means above 1.2 × average, below −20% means below 0.8 × average, and below 0 means below average |
| Insights.ScaleComparison | src/components/VendedorInsights.tsx:88-119 | multiplying by a positive factor keeps comparisons |
| Insights.RuleAt | src/components/VendedorInsights.tsx:31-127 | the k-th rule in source order sits at position k |
| Insights.Position | src/components/VendedorInsights.tsx:31-127 | each insight has a place among the eleven rules |
| Insights.BuildInsights | src/components/VendedorInsights.tsx:24-127 | the pushes build the list of insights whose rules fire, in rule order |
| Insights.PushOpportunities | src/components/VendedorInsights.tsx:30-61 | the three opportunity rules push in order |
| Insights.PushAlerts | src/components/VendedorInsights.tsx:63-102 | the five alert rules push in order |
| Insights.PushRecommendations | src/components/VendedorInsights.tsx:104-127 | the three recommendation rules push in order |
| Insights.PushedByIffFires | src/components/VendedorInsights.tsx:31-127 | after the first k rules, an insight is in the list exactly when it is among them and its threshold holds |
| Insights.PushedIffFires | src/components/VendedorInsights.tsx:31-127 | an insight is pushed exactly when its threshold holds |
| Insights.PushedOnce | src/components/VendedorInsights.tsx:31-127 | after k rules at most k insights are listed, none twice, each from those k rules, and none with priority "baixa" |
| Insights.LowActivityAlsoRecommendsReactivation | src/components/VendedorInsights.tsx:88-119 | the low-activity alert always comes with the reactivation campaign, because the 30% threshold implies a non-empty portfolio and the 40% one |
| Insights.SortedTwoKeys | src/components/VendedorInsights.tsx:142 | a descending sort over two key values is the high group followed by the low group |
| Insights.SortIsByPriority | src/components/VendedorInsights.tsx:141-142 | sorting by priority lists the "alta" insights before the "media" ones, each group in push order |
| Insights.Present | src/components/VendedorInsights.tsx:129-146 | with no insights a single neutral message is shown; otherwise the first min(n, 3) insights in priority order |
| RfChart.LastQuantity | src/components/RecenciaFrequenciaChart.tsx:54-59 | the matrix value of a cell after the fill: the last entry's quantity, or 0; Fill and LastEntryWins rest on it |
| RfChart.CellAt | src/components/RecenciaFrequenciaChart.tsx:64-74 | a cell is read out when its matrix value is positive |
| RfChart.HeatmapCells | src/components/RecenciaFrequenciaChart.tsx:62-75 | the reference read-out of the grid; HeatmapCellsMembership, HeatmapCellsDistinct and GridRowsOrdered characterise it and HeatmapData computes it |
| RfChart.MaxQuantidade | src/components/RecenciaFrequenciaChart.tsx:81-83 | `Math.max` over the quantities and 1; MaxQuantidadeBounds bounds it |
| RfChart.GetColor | src/components/RecenciaFrequenciaChart.tsx:86-94 | the shade of a quantity relative to the maximum; ColorThresholds, ColorMonotone and ChartColors give its meaning |
| RfChart.HeatmapData | src/components/RecenciaFrequenciaChart.tsx:43-78 | the memo's loops compute the grid's cells |
| RfChart.ZeroMatrix | src/components/RecenciaFrequenciaChart.tsx:47-51 | the matrix holds exactly the 30 cells recencia 1..5 × frequencia 0..5, all at 0 |
| RfChart.Fill | src/components/RecenciaFrequenciaChart.tsx:54-59 | after the fill each cell holds the quantity of the last entry for it, or 0; there are still exactly the 30 cells |
| RfChart.ReadOut | src/components/RecenciaFrequenciaChart.tsx:62-75 | reading the filled matrix row by row gives the grid's cells |
| RfChart.ReadRow | src/components/RecenciaFrequenciaChart.tsx:64-74 | reading one row appends that row's cells |
| RfChart.RowCellsMembership | src/components/RecenciaFrequenciaChart.tsx:64-74 | a row lists exactly its positive cells, with their quantities and labels |
| RfChart.GridRowsMembership | src/components/RecenciaFrequenciaChart.tsx:62-75 | the first n rows list exactly their positive cells |
| RfChart.HeatmapCellsMembership | src/components/RecenciaFrequenciaChart.tsx:62-75 | the output holds exactly the in-grid cells with a positive last quantity, labelled "R{r} F{f}" |
| RfChart.RowCellsOrdered | src/components/RecenciaFrequenciaChart.tsx:64-74 | a row's cells go by increasing frequencia |
| RfChart.GridRowsOrdered | src/components/RecenciaFrequenciaChart.tsx:63-74 | the cells go in row-major order |
| RfChart.HeatmapCellsDistinct | src/components/RecenciaFrequenciaChart.tsx:62-75 | there are at most 30 cells and no two share (r, f) |
| RfChart.RowCellsFromMatrix | src/components/RecenciaFrequenciaChart.tsx:64-74 | a row depends only on the matrix contents |
| RfChart.GridRowsFromMatrix | src/components/RecenciaFrequenciaChart.tsx:62-75 | the output depends only on the matrix contents |
| RfChart.OutsideEntryDropped | src/components/RecenciaFrequenciaChart.tsx:56 | an entry outside the grid changes nothing |
| RfChart.LastEntryWins | src/components/RecenciaFrequenciaChart.tsx:57 | a later entry for the same cell overwrites the earlier one rather than adding to it |
| RfChart.Find | src/components/RecenciaFrequenciaChart.tsx:135 | the lookup finds a cell with those coordinates when there is one, and none otherwise |
| RfChart.DisplayedIsMatrix | src/components/RecenciaFrequenciaChart.tsx:135-136 | the grid shows each cell's last quantity when positive, otherwise 0 |
| RfChart.Quantities | src/components/RecenciaFrequenciaChart.tsx:82 | one quantity per cell, in order |
| RfChart.MaxQuantidadeBounds | src/components/RecenciaFrequenciaChart.tsx:81-83 | the maximum is at least 1, bounds every quantity, and is 1 or some cell's quantity |
| RfChart.Level | src/components/RecenciaFrequenciaChart.tsx:86-94 | the shade is the grey of zero intensity or one of five blues by the 0.2/0.4/0.6/0.8 thresholds |
| RfChart.ColorMonotone | src/components/RecenciaFrequenciaChart.tsx:86-94 | a larger quantity never gets a lighter shade |
| RfChart.ColorThresholds | src/components/RecenciaFrequenciaChart.tsx:86-94 | "#f0f0f0" exactly for 0, "#1565c0" exactly from 80% of the maximum |
| RfChart.ChartColors | src/components/RecenciaFrequenciaChart.tsx:81-141 | an empty cell is grey, and the fullest cell is the darkest blue |
| SellerList.MatchesSearch | src/pages/AnaliseVendedor.tsx:67-71 | a blank search passes every seller, otherwise the lowered name must contain the lowered search |
| SellerList.MatchesAvailability | src/pages/AnaliseVendedor.tsx:74-78 | "todos" passes everyone, the other two filters split on `disponivel` (AvailabilitySplits) |
| SellerList.Visible | src/pages/AnaliseVendedor.tsx:64-78 | the sellers that pass both filters, in server order; ListedSellers and BlankSearchKeepsAll characterise it |
| SellerList.SortKey | src/pages/AnaliseVendedor.tsx:81-94 | the key of each ordering: the collation rank of the name, or the metric |
| SellerList.Listed | src/pages/AnaliseVendedor.tsx:63-97 | the list the page shows; ListedSellers and ListedOrder characterise it and FiltrarEOrdenar computes it |
| SellerList.SortDirection | src/pages/AnaliseVendedor.tsx:81-94 | only the name order is ascending; the metric orders are largest first |
| SellerList.FiltrarEOrdenar | src/pages/AnaliseVendedor.tsx:63-97 | the copy is searched when the search is not blank, filtered unless "todos", then sorted, which gives the listed sellers |
| SellerList.ListedSellers | src/pages/AnaliseVendedor.tsx:64-94 | the list is a permutation of a part of the input, holding exactly the sellers that pass both filters |
| SellerList.ListedOrder | src/pages/AnaliseVendedor.tsx:80-94 | the list is ordered by the chosen key, and equal keys keep the server's order |
| SellerList.NoFilterListsAll | src/pages/AnaliseVendedor.tsx:66-78 | a blank search with "todos" lists every seller, only reordered |
| SellerList.BlankSearchKeepsAll | src/pages/AnaliseVendedor.tsx:67 | a blank search with "todos" lets every seller through in order |
| SellerList.AvailabilitySplits | src/pages/AnaliseVendedor.tsx:74-78 | the sellers listed under "disponivel" and under "indisponivel" together are those under "todos" |
| Heatmap.Nearby | src/pages/Heatmap.tsx:92-95 | the served points within 0.5 km of the click; LookedUpCodesAreNear and ClickOutcome use it |
| Heatmap.FatTotal | src/pages/Heatmap.tsx:126 | the crowd's total amount, a null amount counting as 0 (FatTotalNonNegative) |
| Heatmap.Summary | src/pages/Heatmap.tsx:121-134 | the crowd record: no codigo, the name "<n> clientes nesta área", the total amount, every other figure 0 and every optional field null |
| Heatmap.IsSummary | src/pages/Heatmap.tsx:420 | the tooltip's test for a summary: one record with an empty codigo; SummaryDetection gives its meaning |
| Heatmap.MapCenter | src/pages/Heatmap.tsx:268-277 | the mean of the served coordinates, or the centre of Brazil; CenterWithinPoints and CenterOnMap bound it |
| Heatmap.Codes | src/pages/Heatmap.tsx:103 | at most one code per nearby point |
| Heatmap.CodesMembership | src/pages/Heatmap.tsx:103 | the codes are exactly the non-empty client codes of the points |
| Heatmap.FatTotalNonNegative | src/pages/Heatmap.tsx:126 | the summary total counts a null amount as 0, so it is never negative when no amount is |
| Heatmap.Collapse | src/pages/Heatmap.tsx:121-138 | more than five records become exactly the one summary record; five or fewer pass unchanged; at most five are shown |
| Heatmap.Click | src/pages/Heatmap.tsx:88-143 | a tooltip is shown at the click position with at most five records |
| Heatmap.ClickOutcome | src/pages/Heatmap.tsx:92-142 | the tooltip is cleared exactly when no point is within 0.5 km, no nearby point has a code, or the lookup fails; otherwise it shows the collapsed lookup result |
| Heatmap.LookedUpCodesAreNear | src/pages/Heatmap.tsx:92-111 | every code looked up belongs to a client within 0.5 km of the click |
| Heatmap.SummaryDetection | src/pages/Heatmap.tsx:121-134 | the tooltip shows a summary for every collapsed crowd, naming the count, and otherwise only for a lone record with an empty codigo |
| Heatmap.CenterWithinPoints | src/pages/Heatmap.tsx:268-277 | the centre lies within the bounding box of the points |
| Heatmap.CenterOnMap | src/pages/Heatmap.tsx:268-277 | the centre of served points is a valid coordinate, and so is the fixed centre of Brazil used when there are none |
| Heatmap.HeatPoints | src/pages/Heatmap.tsx:280-284 | one heat point per row, in order, with its coordinates and weight 2.0 |
| Grouping.Group | backend/src/routes/rfv.ts:71-75 | the in-place fold over the rows builds the grouped dictionary |
| Grouping.GroupedOrder | backend/src/routes/rfv.ts:71-75 | the object's keys are created in order of first appearance, each once |
| Grouping.GroupedCounts | backend/src/routes/rfv.ts:73 | each key's count is the number of rows with that key |
| Grouping.GroupedKeys | backend/src/routes/rfv.ts:71-75 | a key is in the object exactly when some row has it |
| Grouping.GroupedFirst | backend/src/routes/rfv.ts:202-204 | each key keeps what its first row carried |
| Grouping.GroupedTotal | backend/src/routes/rfv.ts:71-75 | the counts add up to the number of rows |
| Grouping.Arrange | backend/src/routes/rfv.ts:77 | `Object.entries` lists the same entries, array-index keys first |
| Grouping.EntriesListed | backend/src/routes/rfv.ts:77 | each entry is a key of the object with its value |
| Grouping.EntriesNamed | backend/src/routes/rfv.ts:123 | an object with no array-index key lists its entries in creation order |
| Grouping.EntriesOfCounts | backend/src/routes/rfv.ts:71-81 | each entry's count is the number of rows with its key |
| Grouping.EntriesOfFirst | backend/src/routes/rfv.ts:198-213 | each entry holds its key's first row |
| Grouping.EntriesOfCover | backend/src/routes/rfv.ts:71-81 | every row's key has an entry |
| Grouping.EntriesOfDistinct | backend/src/routes/rfv.ts:71-81 | no key has two entries |
| Grouping.EntriesOfTotal | backend/src/routes/rfv.ts:71-81 | the entries' counts add up to the number of rows |
| Grouping.KeyedCount | backend/src/routes/rfv.ts:72-73 | a key occurs once per row the key function maps to it |
| Grouping.KeyedCover | backend/src/routes/rfv.ts:71-81 | every row's key has an entry |
| Grouping.KeyedFirst | backend/src/routes/rfv.ts:202-204 | each entry holds the first row with its key |
| Sorting.Sort | backend/src/routes/rfv.ts:82 | the sort is a permutation ordered by the key in the chosen direction |
| Sorting.SortStable | src/components/VendedorInsights.tsx:142 | the sort is stable: elements with equal keys keep their order |
| Seqs.Filter | backend/src/routes/vendedores.ts:74 | `filter` keeps exactly the passing elements, in order |
| Seqs.FilterSubMultiset | src/pages/AnaliseVendedor.tsx:68-77 | a filtered list is a sub-multiset of its input |
| Seqs.FilterFusion | src/pages/AnaliseVendedor.tsx:67-78 | two filters in a row are one filter by both tests |
| Seqs.RemoveAt | backend/src/routes/vendedores.ts:139-148 | `splice(i, 1)` removes exactly the element at i |
| Seqs.IndexOfValue | backend/src/routes/vendedores.ts:139-146 | `indexOf` finds the first occurrence, or reports none |
| Text.ReplaceFirst | backend/src/routes/auth.ts:95 | `replace` of the first occurrence of a text; the ReplaceFirst* rows give its effect |
| Text.Trim | src/pages/AnaliseVendedor.tsx:67 | `trim()`; TrimEmptyIffBlank gives its meaning |
| Text.SplitOn | backend/src/routes/rfv.ts:124 | `split` at a separator; SplitOnSeparator gives its effect |
| Text.IndexOf | backend/src/routes/auth.ts:95 | the first occurrence of a pattern, or none |
| Text.ReplaceFirstAtStart | backend/src/routes/auth.ts:95 | replacing a leading pattern by "" drops it |
| Text.ReplaceFirstAbsent | backend/src/routes/auth.ts:95 | replacing an absent pattern changes nothing |
| Text.ReplaceFirstCharAt | backend/src/routes/vendedores.ts:68 | replacing the first ',' changes only that position |
| Text.TrimEmptyIffBlank | src/pages/AnaliseVendedor.tsx:67 | `trim()` is empty exactly when the text is all whitespace |
| Text.StripTrailingSlashes | src/lib/api.ts:14 | the result is the input without its trailing slashes and does not end in one |
| Text.LowerAscii | backend/src/routes/auth.ts:49 | each upper-case letter is lowered and every other character is kept |
| Text.StringOr | backend/src/routes/rfv.ts:159 | a truthy string is kept and a falsy one replaced by the fallback |
| Text.NatToStringRoundTrip | backend/src/routes/rfv.ts:118 | the decimal text of a number reads back as the number |
| Text.IntToStringInjective | backend/src/routes/rfv.ts:72-73 | different integers have different texts |
| Text.SplitOnSeparator | backend/src/routes/rfv.ts:124 | splitting at a separator splits the two sides separately |
| Numbers.ParseFloat | backend/src/routes/vendedores.ts:69 | `parseFloat`: leading white space skipped, then the longest numeric prefix, NaN when there is none; the ParseFloat* rows give its values |
| Numbers.ParseInt | backend/src/routes/rfv.ts:79 | `parseInt`: the longest signed digit prefix; ParseIntOfIntToString gives its value on integer text |
| Numbers.ParseFloatOfIntToString | backend/src/routes/vendedores.ts:69 | `parseFloat` reads the text of an integer back exactly |
| Numbers.ParseFloatDecimal | backend/src/routes/vendedores.ts:69 | `parseFloat` reads "w.ds" followed by a non-digit as w.ds and ignores the rest |
| Numbers.ParseFloatWithoutLetters | backend/src/routes/vendedores.ts:69 | `parseFloat` of a text without letters is finite or NaN |
| Numbers.ParseIntOfIntToString | backend/src/routes/rfv.ts:79 | `parseInt` reads the text of an integer back exactly |
| Numbers.MinIsLeast | backend/src/routes/vendedores.ts:135 | the minimum is an element and no element is smaller |
| Numbers.MaxIsGreatest | backend/src/routes/vendedores.ts:136 | the maximum is an element and no element is larger |
| Numbers.MeanWithin | src/pages/Heatmap.tsx:273-274 | the mean of values within [lo, hi] is within [lo, hi] |

## Left out

- The `/:id/carteira` route (vendedores.ts:413 on) and the other plain read routes are not part of this model. They only pass rows through.
- Query execution in Supabase, JWT signing and verification, `localStorage`, `fetch` and `response.json()` are given as function parameters or fields. The Express wiring and server start-up are not part of this model.
- The clock is read once. The source reads it once in the route and again in each history helper, so a request that straddles a month boundary can compare windows of different months; the model uses one `now` for all of them.
- `Promise.all` and the async ordering are left out. Each seller's record is computed by one sequential function mapped over the directory.
- `Date`, `toISOString` and its UTC shift are left out. A window is a pair of (year, month, day) dates on the Gregorian calendar.
- IEEE floats are left out: no rounding, no overflow to infinity, no NaN arithmetic. Amounts and quantities are exact reals, and `parseFloat` is exact on them.
- Scores, valor and record ids are integers. A non-integer recencia, frequencia or valor is not modelled.
- Rfv.RecFreqResultCounts: proved only for non-negative scores. A negative recencia is misread by the key split (Rfv.NegativeRecencyMisread).
- Rfv.RecFreqResultDistinct: proved only for non-negative scores, for the same reason.
- Rfv.KeysDecodeApart: proved only for non-negative scores, for the same reason.
- Object keys inherited from `Object.prototype` are not modelled. A status or class named like one of them would misbehave.
- Geoloc.CodeSet: takes the RFV codes as optional strings. A non-string code counts as absent.
- Api.AccessToken: a non-string `access_token` counts as absent.
- The message shown for a null ok body and the URL encoding of parameters are given as parameters. A numeric valor is an integer in the query builders.
- Auth.SignIn: the outer 500 for a thrown exception is left out; the database lookup is a total function.
- Auth.IsInactive lowers ASCII letters only. JavaScript `toLowerCase` also folds non-ASCII letters, which cannot spell "inativo".
- The seller list's `toLowerCase` and `localeCompare` are given as functions. A collation rank stands in for the comparison.
- The Haversine distance in the map click is a function parameter.
- Heatmap.Click: the lookup's error reply, empty data and a thrown exception all collapse to one failed lookup. The click handler is only mounted in RFV mode; that guard is React wiring.
- Rendering, hooks, Leaflet layers, the chart fetch effects, `VendedorCard`, the route guard and the layout components are not part of this model.
- The client-side descending sort of the classification chart is not modelled. It is rendering order only.
- The code is followed where descriptions of it differ. "R$ 1.234,56" parses to 1.234 (Vendedores.ThousandsSeparatorTruncates). `/classificacao` lists classes in `Object.entries` order.
