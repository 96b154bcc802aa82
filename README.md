# Sales analysis pipeline: a verified model in Dafny

This project models the core of a small sales-analysis pipeline written in
Python with pandas and SQLite:

- **The cleaner** (`DataProcessor`) holds a record set of sales rows (date,
  product, quantity, unit price). It narrows the set through a fixed chain of
  row filters:
  - drop rows with a null cell;
  - coerce dates and drop those that do not parse;
  - drop non-positive quantities;
  - drop non-positive prices;
  - drop blank products.

  It reports how many rows were removed. It then adds a `total` column.
- **The analyzer** (`SalesAnalyzer`) offers pure grouped views of the cleaned rows:
  - the product with the largest summed quantity;
  - the product with the largest summed revenue;
  - revenue per calendar month;
  - the top-N products by quantity and by revenue;
  - a summary bundling all five.
- **The persistence layer** (`DatabaseManager`) keeps two SQLite tables,
  `ventas` and `analisis_resultados`. It replaces their contents (delete, then
  insert) and re-derives the top products and the monthly revenue with SQL
  grouped queries.
- **The driver** (`main.py`) runs the three in order. It then re-queries the
  top three products from the database as a cross-check of the in-memory
  analysis.

Each module follows the form of the code it models:

- The cleaner and the database object are classes whose fields the methods
  reassign: `Processor.df`, `SalesDb.ventas` and `SalesDb.analisisResultados`.
  `SaveAnalysisResults` inserts the ranked rows in a loop, as the source does.
- The analyzer and the two SQL queries are functions. Each query is defined
  as one pass that accumulates per-group sums, followed by a stable sort. SQL
  fixes no order among groups that tie on the sort key, and keeping the groups
  in order of first appearance is this model's choice. This definition is
  independent of the analyzer's, which ranks by repeated selection of the
  maximum. Lemmas connect the two.

Files:
- `wrappers.dfy`: `Option` and `Result`.
- `seqs.dfy`: generic selection, mapping, de-duplication and sorting, with the
  multiset facts about them.
- `text.dfy`: Python whitespace and `str.strip`, decimal digit strings, and
  Python's string order.
- `dates.dfy`: ISO dates as `pd.to_datetime` coerces them, and year-months.
- `records.dfy`: raw rows, cleaned sales, grouped entries and grouped sums.
- `ranking.dfy`: the maximum of a total preorder, and a ranking built by
  repeatedly taking it.
- `data_processor.dfy`, `analyzer.dfy` and `database.dfy`: the three core
  classes.
- `pipeline.dfy`: the driver.
- `fixtures.dfy`: the record sets of the test suite, with the results the
  tests expect, derived from the general contracts.

Ties. pandas sorts `groupby` keys, `idxmax` returns the first maximum, and
`nlargest` keeps the first of equal values. Among products with equal sums, the
analyzer therefore picks the lexicographically smallest name (by code point),
and the model states that order explicitly (`Analyzer.Beats`). SQLite's
`ORDER BY cantidad_total DESC` has no secondary key. The model's query sorts
stably over groups in order of first appearance. Every cross-check lemma
compares only what holds for any tie order: the same number of rows and the
same sums at each position. Products are compared only when no two products
tie.

Edge cases the model pins down:
- `nlargest(n)` returns nothing for `n <= 0`, so `Analyzer.TakeCount` is 0
  there. A negative SQL `LIMIT` imposes no limit (`Database.LimitCount`).
- The SQL re-query has no tie-break. `Database.TopQueryMatchesAnalyzer`
  therefore compares only lengths and the sums at each position. Exact
  equality is proved when no two products tie
  (`Database.TopQueryEqualsAnalyzerWithoutTies`).
- The CSV reader reads an empty product cell as NaN, and `dropna` removes that
  row before the blank-product filter sees it. The fixture models that cell
  as missing.

## Model

| member | source | states |
|---|---|---|
| DataProcessor.Processor.constructor | src/data_processor.py:7-8 | a new processor holds no record set |
| DataProcessor.Processor.LoadData | src/data_processor.py:10-14 | after loading, `df` is exactly the rows read |
| DataProcessor.Processor.CleanData | src/data_processor.py:20-46 | with no data it fails with the "no data loaded" error and changes nothing; otherwise `df` becomes the filter chain applied to the old `df`, and the reported removed count is the old row count minus the new one |
| DataProcessor.Processor.CalculateTotals | src/data_processor.py:48-54 | with no data it fails and changes nothing; otherwise every row keeps its position and its other columns and gains `total = cantidad * precio_unitario`; the row count is unchanged |
| DataProcessor.Processor.GetCleanData | src/data_processor.py:56-58 | returns the current record set |
| DataProcessor.Processor.SaveCleanData | src/data_processor.py:60-65 | fails with the "no data to save" error exactly when no data is loaded; otherwise hands over exactly the current rows |
| DataProcessor.CoerceFecha | src/data_processor.py:31 | coercing a date changes no other column; a surviving date is a real calendar date that came from a present cell; a cell that already holds a date is left as it is; which date a text cell becomes is stated by `DataProcessor.CoerceIsoText` and `DataProcessor.CoerceUnparsed` |
| DataProcessor.CoerceIsoText | src/data_processor.py:31 | an ISO `YYYY-MM-DD` text naming a representable day coerces to exactly that day |
| DataProcessor.CoerceUnparsed | src/data_processor.py:31 | a text that does not parse as a date coerces to NaT (`errors='coerce'`) |
| DataProcessor.Clean | src/data_processor.py:27-41 | cleaning never adds rows |
| DataProcessor.CleanIsSinglePass | src/data_processor.py:27-41 | the five-step chain equals one pass that coerces every date and keeps exactly the rows that are complete, dated, positive in quantity and price, and not blank in product, in input order |
| DataProcessor.CleanMembership | src/data_processor.py:27-41 | a row is in the cleaned set if and only if it is the date-coerced form of an input row and passes every check |
| DataProcessor.CleanRowsAreClean | src/data_processor.py:28-41 | every remaining row has no null cell, a coerced date, `cantidad > 0`, `precio_unitario > 0` and a product that is non-empty after stripping whitespace |
| DataProcessor.CleanConcat | src/data_processor.py:28-41 | with dates coerced cell by cell (as `CoerceFecha` does), the filters judge each row on its own: cleaning two record sets joined is joining their cleanings |
| DataProcessor.CleanIsSubsequence | src/data_processor.py:28-41 | the cleaned set is an order-preserving subsequence of the date-coerced input: rows are only dropped, never altered or reordered |
| DataProcessor.CleanIdempotent | src/data_processor.py:28-41 | cleaning an already cleaned set keeps every row |
| DataProcessor.WithTotal | src/data_processor.py:53 | adding the total changes no other column; the total is present exactly when quantity and price are, and is then their product |
| DataProcessor.TotalsAfterClean | src/data_processor.py:53 | after cleaning and adding totals, every row is clean and carries `total = cantidad * precio_unitario` |
| DataProcessor.ToSale | main.py:37-42 | a cleaned, totalled row read as a sale keeps its date, product, quantity, price and total, and satisfies the sale invariant |
| DataProcessor.CleanedSales | main.py:32-42 | the analyzer receives one valid sale per cleaned row, in the same order, with the same product, quantity and price |
| Dates.ParseDate | src/data_processor.py:31 | a date results only from ten-character text with dashes at the fifth and eighth positions, and is always a real calendar day within the range a pandas timestamp can hold |
| Dates.ParseFormatRoundTrip | src/data_processor.py:31 | every representable date written as ISO text parses back to itself; `DataProcessor.CoerceIsoText` carries this over to the coercion of a cell |
| Dates.InvalidDateIsRejected | tests/conftest.py:36 | `invalid-date` and the nonexistent `2024-02-30` both coerce to NaT |
| Dates.MonthIndexInjective | src/analyzer.py:34 | two year-months with the same calendar position are the same month, so ordering by position orders `Period('M')` keys |
| Text.Strip | src/data_processor.py:41 | `str.strip()` yields the empty string exactly when the text is all whitespace, and otherwise neither starts nor ends with whitespace |
| Text.StrLtTotal | src/analyzer.py:10-11 | any two distinct product names are ordered one way or the other |
| Text.StrLtTransitive | src/analyzer.py:10-11 | the order on product names is transitive |
| Text.StrLtAsymmetric | src/analyzer.py:10-11 | no two product names precede each other |
| Text.NatToString | src/database.py:92 | `str(i)` is a non-empty digit string without leading zeros that denotes `i` |
| Records.SumOfPermutation | src/analyzer.py:10 | a grouped sum does not depend on the order of the rows |
| Ranking.BestAboveAll | src/analyzer.py:11 | under a total preorder, the element `idxmax` selects ranks at or above every element |
| Ranking.RankByPermutation | src/analyzer.py:42 | a ranking only reorders the groups |
| Ranking.RankByDescending | src/analyzer.py:42 | every element of a ranking ranks at or above every later one |
| Analyzer.Products | src/analyzer.py:10 | the group keys are pairwise distinct and are exactly the products that occur in the rows |
| Analyzer.Beats | src/analyzer.py:10-11 | the ranking behind `idxmax` and `nlargest`: a product ranked at or above another never has a smaller sum, a strictly larger sum always ranks above, and among equal sums a name never ranks above one that precedes it |
| Analyzer.BeatsTotal | src/analyzer.py:10-11 | of any two products, one ranks at or above the other |
| Analyzer.BeatsTransitive | src/analyzer.py:10-11 | ranking is transitive |
| Analyzer.BeatsAntisymmetric | src/analyzer.py:10-11 | two products that rank at or above each other are the same product |
| Analyzer.TopProduct | src/analyzer.py:10-12 | the winner is a product present in the rows, paired with its own sum, and it ranks at or above every product |
| Analyzer.ProductoMasVendido | src/analyzer.py:8-17 | the product occurs in the rows, the value is its summed quantity, no product sums to more, and every product with an equal sum has a name that is not smaller |
| Analyzer.ProductoMayorFacturacion | src/analyzer.py:19-28 | the same for summed `total` |
| Analyzer.TopProductOrderIndependent | src/analyzer.py:10-12 | the winner of either view is the same for any reordering of the rows |
| Analyzer.ProductoMasVendidoOrderIndependent | src/analyzer.py:8-17 | `producto_mas_vendido` is the same for any reordering of the rows |
| Analyzer.ProductoMayorFacturacionOrderIndependent | src/analyzer.py:19-28 | `producto_mayor_facturacion` is the same for any reordering of the rows |
| Analyzer.TakeCount | src/analyzer.py:42 | `nlargest` never returns more groups than exist |
| Analyzer.TopN | src/analyzer.py:41-42 | the top-N holds `n` products, or all of them if there are fewer, and none when `n <= 0` |
| Analyzer.TopNCorrect | src/analyzer.py:39-42 | the products of the top-N are distinct products of the rows, each with its exact sum, and each ranks at or above every later one |
| Analyzer.TopNBeatsRest | src/analyzer.py:39-42 | every product in the top-N ranks at or above every product left out |
| Analyzer.GetTopProductosCantidad | src/analyzer.py:39-42 | `min(n, products)` entries (none for `n <= 0`), each mapped to its exact summed quantity, in non-increasing order |
| Analyzer.GetTopProductosFacturacion | src/analyzer.py:44-47 | the same for summed `total` |
| Analyzer.Months | src/analyzer.py:34-35 | the month keys are pairwise distinct and are exactly the months that occur in the rows |
| Analyzer.FacturacionPorMes | src/analyzer.py:30-37 | one entry per month present |
| Analyzer.FacturacionPorMesCorrect | src/analyzer.py:30-37 | the months are strictly ascending, are exactly the months present, and each carries the sum of `total` over its rows |
| Analyzer.GetResumenCompleto | src/analyzer.py:49-57 | both top-3 lists hold three products or all of them, and at least one; each starts with the corresponding winner; there is at least one month |
| Analyzer.TopPrefix | src/analyzer.py:39-42 | a non-empty top-N starts with the product `idxmax` picks |
| Database.AddToCorrect | src/database.py:101-103 | adding a row to the running groups keeps the keys distinct and in place, adds the value to its own group only, and opens a new group at the end for a new key |
| Database.GroupBy | src/database.py:101-103 | `GROUP BY` never yields more groups than rows, and at least one group when there are rows |
| Database.GroupByCorrect | src/database.py:101-103 | `GROUP BY` yields each key once (in order of first appearance, the model's choice of group order), holding the sum over its rows |
| Database.LimitCount | src/database.py:105 | `LIMIT` never lets through more rows than exist, and lets through exactly `min(limit, rows)` for a non-negative limit |
| Database.SortedProductGroups | src/database.py:100-104 | the sorted groups hold every product once, each with its summed quantity |
| Database.TopProductosQuery | src/database.py:98-106 | the query returns no more rows than `ventas` holds and no more than a non-negative limit, in non-increasing order of summed quantity |
| Database.TopProductosQueryCorrect | src/database.py:98-109 | `min(limit, products)` rows (all of them for a negative limit), distinct products present in `ventas`, each with its summed quantity |
| Database.TopProductosQueryLimitPrefix | src/database.py:105 | under the model's tie order (stable, groups in order of first appearance; SQLite leaves the order of equal sums open), raising `LIMIT` only appends rows: the answer for a smaller limit is a prefix of the answer for a larger one; a negative limit returns every product whatever the tie order |
| Database.TopProductosQueryComplete | src/database.py:98-109 | no product left out sums to more than a listed one |
| Database.FacturacionMensualQuery | src/database.py:111-118 | the query returns no more rows than `ventas` holds, in non-decreasing month order |
| Database.FacturacionMensualQueryCorrect | src/database.py:111-121 | the months are strictly ascending, are exactly the months present in `ventas`, and each carries its summed `total` |
| Database.MonthlyQueryMatchesAnalyzer | src/database.py:111-121 | the monthly query returns exactly what `facturacion_por_mes` computes |
| Database.ProductRankingsAgree | src/database.py:101-104 | the query's sorted groups and the analyzer's full ranking have the same length and the same sums position by position |
| Database.TopQueryMatchesAnalyzer | main.py:58-66 | the re-query returns as many rows as `get_top_productos_cantidad(n)`, with the same sums position by position |
| Database.TopQueryEqualsAnalyzerWithoutTies | main.py:63-64 | when no two products have equal sums, the re-query and the analyzer return the same products in the same order |
| Database.RankLabelInjective | src/database.py:92 | different positions get different `top_3_cantidad_puesto_{i}` labels |
| Database.RankRows | src/database.py:88-92 | one row per ranked product, labelled with its position counted from the start, holding its product and value |
| Database.AnalysisRows | src/database.py:73-92 | the saved results are two winner rows plus one row per ranked product |
| Database.AnalysisRowsReadBack | src/database.py:74-85 | looking up `producto_mas_vendido` and `producto_mayor_facturacion` in the saved rows yields the winners saved |
| Database.AnalysisRowsReadBackRanked | src/database.py:88-92 | looking up `top_3_cantidad_puesto_{i}` yields the i-th ranked product and its quantity |
| Database.SalesDb.constructor | src/database.py:9-12 | opening the database creates the missing tables empty and keeps existing ones |
| Database.SalesDb.CreateTables | src/database.py:24-52 | a missing table is created empty and an existing table keeps its rows, so a second call changes nothing |
| Database.SalesDb.InsertVentasData | src/database.py:54-61 | afterwards `ventas` holds exactly the given rows, with nothing left from before, and `analisis_resultados` is untouched |
| Database.SalesDb.SaveAnalysisResults | src/database.py:65-94 | afterwards `analisis_resultados` holds exactly the two winner rows and one row per ranked product (`2 + \|top_3_cantidad\|` rows), and `ventas` is untouched |
| Database.SalesDb.GetTopProductosQuery | src/database.py:98-109 | returns the top-products query over the current `ventas` table |
| Database.SalesDb.GetFacturacionMensualQuery | src/database.py:111-121 | returns the monthly query over the current `ventas` table |
| Pipeline.RunPipeline | main.py:18-76 | fails exactly when no row survives cleaning, and then leaves the database unchanged; otherwise it passes the cleaned sales to the analyzer, stores them in `ventas`, stores the summary in `analisis_resultados`, reports the removed count, and the re-query agrees with the top three in length and sums |
| Fixtures.SampleQuantities | tests/test_analyzer.py:56-65 | in the analyzer fixture, ProductoA sells 25 units, ProductoB 5 and ProductoC 8 |
| Fixtures.SampleRevenues | tests/test_analyzer.py:56-65 | in the analyzer fixture, ProductoA earns 2500.0, ProductoB 1000.0 and ProductoC 1200.0 |
| Fixtures.SampleMasVendido | tests/test_analyzer.py:67-74 | the best-selling product of the fixture is ProductoA, with 25 units |
| Fixtures.SampleMayorFacturacion | tests/test_analyzer.py:76-83 | the top-revenue product of the fixture is ProductoA, with 2500.0 |
| Fixtures.SampleTopTwo | tests/test_analyzer.py:101-109 | the top two by quantity are two products, ProductoA first with 25 |
| Fixtures.TwoMonthRevenue | src/analyzer.py:30-37 | rows from exactly two months give exactly two monthly entries, the earlier first, each with its month's revenue |
| Fixtures.SampleFacturacionPorMes | tests/test_analyzer.py:85-99 | the fixture's monthly revenue is January 2000.0 followed by February 2700.0 |
| Fixtures.CalculateTotalsExample | tests/test_analyzer.py:17-34 | the processor computes the totals 1000.0, 1000.0 and 1200.0 |
| Fixtures.CleanDataExample | tests/test_analyzer.py:36-52 | the processor keeps two of the three rows, all with a positive quantity, and reports one removed |
| Fixtures.CleanNegativeQuantityRows | tests/test_analyzer.py:36-52 | cleaning the negative-quantity rows leaves two rows |
| Fixtures.ParseSampleDates | tests/test_analyzer.py:41 | `2024-01-01` and `2024-01-03` coerce to those days |
| Fixtures.RejectedWhateverTheDate | src/data_processor.py:28-38 | a row with a non-positive quantity, a missing product or a non-positive price is dropped whatever its date |
| Fixtures.RejectedForDate | src/data_processor.py:31-32 | a row whose date text does not parse is dropped |
| Fixtures.CleanKeepsOnlyFirst | src/data_processor.py:28-41 | when only the first row passes the checks, cleaning leaves that row alone |
| Fixtures.InvalidRowsRejected | tests/conftest.py:35-38 | the rows with a negative quantity, an invalid date, a blank product and a zero price all fail the checks |
| Fixtures.CleanInvalidRows | tests/conftest.py:33-38 | cleaning the invalid fixture keeps only its first row, with the date coerced |

## Left out

- DataProcessor.CoerceFecha: coerces each cell on its own. `pd.to_datetime(errors='coerce')` at src/data_processor.py:31 infers one format from the first non-null `fecha` text and turns cells in any other format into NaT, so whether an ISO row survives can depend on other rows. `DataProcessor.CleanConcat` holds only for per-cell coercion.
- DataProcessor.Complete: checks the four input columns. `dropna()` at src/data_processor.py:28 checks every column, including extra CSV columns and an existing `total`.
- DataProcessor.NonBlankProducto: assumes `producto` is text. `.str.strip()` at src/data_processor.py:41 raises AttributeError when the column is not text (numeric product codes, or a column whose cells are all empty and so read as float). In those cases `Processor.CleanData` succeeds where the source raises.
- Integer overflow: pandas and SQLite sum quantities as 64-bit integers, which can overflow. The model's sums are unbounded reals.
- Reading the CSV file (`read_csv`, the file-not-found and parse errors at src/data_processor.py:15-18): `LoadData` receives the rows already parsed.
- Writing files: `save_clean_data`'s `to_csv` (src/data_processor.py:65) and the directory creation in main.py and `ensure_directory`. `SaveCleanData` models only the guard and the rows that would be written.
- All `print` output, the GUI (src/gui/), the charts (src/visualizer.py), app.py and build_exe.py.
- Column type inference: `cantidad` is an integer and `precio_unitario` a number. Prices, totals and every sum are exact reals, so floating-point rounding is not modelled. Summed quantities are reals, where pandas and SQLite sum integers.
- `pd.to_datetime` accepts many formats. The model accepts ISO `YYYY-MM-DD` text naming a day that a nanosecond timestamp can hold, and nothing else. Times of day are not modelled.
- SQLite's `strftime('%Y-%m', fecha)` text and pandas' `Period` keys are both modelled as a year-month value ordered by calendar position. For the four-digit years a timestamp can hold, this is the same order as the text.
- The `id` and `fecha_calculo` columns, connections, commits, transactions and concurrent writers.
- The SQL order among products with equal sums: SQLite leaves it unspecified, and the model uses a stable sort over groups in order of first appearance.
- Analyzer.ProductoMasVendido, Analyzer.ProductoMayorFacturacion and Analyzer.GetResumenCompleto require a non-empty record set. pandas' `idxmax` raises on an empty one, and `Pipeline.RunPipeline` returns `Failure(NoValidRows)` in that case. The other exceptions that main.py catches (src/database.py errors, I/O) are not modelled.
- Database.TopQueryMatchesAnalyzer: states equal lengths and equal sums position by position, not equal products, because the SQL tie order is unspecified. `Database.TopQueryEqualsAnalyzerWithoutTies` gives full equality when there are no ties.
- DataProcessor.CleanedSales: relates product, quantity and price to the cleaned rows but not the date. `DataProcessor.ToSale` states the date for each row.
- Analyzer.GetResumenCompleto: its fields are the five views by definition; its contract states how they relate to each other.
- `SaveAnalysisResults` takes the summary as a datatype rather than a dictionary. As in the source, it stores neither the monthly revenue nor the top three by revenue.
- `facturacion_por_mes` works on a copy of the record set. In the model every analyzer view is a function, so no view can modify the record set.
