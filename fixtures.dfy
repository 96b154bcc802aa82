/** The record sets of tests/test_analyzer.py and tests/conftest.py, and the
    results the tests expect of them, derived from the general contracts. */
module Fixtures {
  import opened Wrappers
  import opened Seqs
  import opened Text
  import opened Dates
  import opened Records
  import opened Analyzer
  import opened DataProcessor

  const RowA1 := Sale(Date(2024, 1, 1), "ProductoA", 10, 100.0, 1000.0)
  const RowB := Sale(Date(2024, 1, 2), "ProductoB", 5, 200.0, 1000.0)
  const RowA2 := Sale(Date(2024, 2, 1), "ProductoA", 15, 100.0, 1500.0)
  const RowC := Sale(Date(2024, 2, 2), "ProductoC", 8, 150.0, 1200.0)

  /** The `sample_data` fixture of the analyzer tests. */
  function SampleSales(): seq<Sale> {
    [RowA1, RowB, RowA2, RowC]
  }

  lemma ProductNamesDiffer()
    ensures "ProductoA" != "ProductoB" && "ProductoA" != "ProductoC" && "ProductoB" != "ProductoC"
  {
    assert "ProductoA"[8] == 'A' && "ProductoB"[8] == 'B' && "ProductoC"[8] == 'C';
  }

  /** `groupby(key)[value].sum()` over the fixture, one row at a time. */
  lemma SampleSumSteps<K>(keyOf: Sale -> K, valOf: Sale -> real, k: K)
    ensures SumOf(SampleSales(), keyOf, valOf, k) ==
      (if keyOf(RowA1) == k then valOf(RowA1) else 0.0) + (if keyOf(RowB) == k then valOf(RowB) else 0.0) +
      (if keyOf(RowA2) == k then valOf(RowA2) else 0.0) + (if keyOf(RowC) == k then valOf(RowC) else 0.0)
  {
    assert [RowA1] == [] + [RowA1];
    SumOfSnoc([], RowA1, keyOf, valOf, k);
    SumOfSnoc([RowA1], RowB, keyOf, valOf, k);
    SumOfSnoc([RowA1, RowB], RowA2, keyOf, valOf, k);
    SumOfSnoc([RowA1, RowB, RowA2], RowC, keyOf, valOf, k);
    assert [RowA1] + [RowB] == [RowA1, RowB];
    assert [RowA1, RowB] + [RowA2] == [RowA1, RowB, RowA2];
    assert [RowA1, RowB, RowA2] + [RowC] == SampleSales();
  }

  /** The summed quantity of each product of the fixture (ProductoA sells 10 + 15). */
  lemma SampleQuantities(p: string)
    ensures ProductSum(SampleSales(), Cantidad, p) ==
      if p == "ProductoA" then 25.0 else if p == "ProductoB" then 5.0 else if p == "ProductoC" then 8.0 else 0.0
  {
    ProductNamesDiffer();
    SampleSumSteps(ProductOf, QuantityOf, p);
  }

  /** The summed revenue of each product of the fixture (ProductoA earns 1000 + 1500). */
  lemma SampleRevenues(p: string)
    ensures ProductSum(SampleSales(), Facturacion, p) ==
      if p == "ProductoA" then 2500.0 else if p == "ProductoB" then 1000.0 else if p == "ProductoC" then 1200.0 else 0.0
  {
    ProductNamesDiffer();
    SampleSumSteps(ProductOf, TotalOf, p);
  }

  /** `test_producto_mas_vendido`: ProductoA, with 25 units. */
  lemma SampleMasVendido()
    ensures ProductoMasVendido(SampleSales()) == Entry("ProductoA", 25.0)
  {
    var e := ProductoMasVendido(SampleSales());
    SampleQuantities(e.key);
    SampleQuantities("ProductoA");
    assert SampleSales()[0].producto == "ProductoA";
  }

  /** `test_producto_mayor_facturacion`: ProductoA, with 2500.0. */
  lemma SampleMayorFacturacion()
    ensures ProductoMayorFacturacion(SampleSales()) == Entry("ProductoA", 2500.0)
  {
    var e := ProductoMayorFacturacion(SampleSales());
    SampleRevenues(e.key);
    SampleRevenues("ProductoA");
    assert SampleSales()[0].producto == "ProductoA";
  }

  /** `test_get_top_productos_cantidad`: two products, ProductoA first with 25 units. */
  lemma SampleTopTwo()
    ensures |GetTopProductosCantidad(SampleSales(), 2)| == 2
    ensures GetTopProductosCantidad(SampleSales(), 2)[0] == Entry("ProductoA", 25.0)
  {
    var s := SampleSales();
    var ps := Products(s);
    assert s[0].producto == "ProductoA" && s[1].producto == "ProductoB";
    assert "ProductoA" in ps && "ProductoB" in ps;
    ProductNamesDiffer();
    assert |ps| >= 2;
    TopPrefix(s, Cantidad, 2);
    SampleMasVendido();
  }

  const January := YearMonth(2024, 1)
  const February := YearMonth(2024, 2)

  /** The revenue of each month of the fixture. */
  lemma SampleMonthSums(ym: YearMonth)
    ensures MonthSum(SampleSales(), ym) ==
      if ym == January then 2000.0 else if ym == February then 2700.0 else 0.0
  {
    SampleSumSteps(MonthOf, TotalOf, ym);
  }

  /** A strictly ascending list of months that holds two months and no others holds them in order. */
  lemma TwoAscendingMonths(r: seq<Entry<YearMonth>>, early: YearMonth, late: YearMonth)
    requires MonthIndex(early) < MonthIndex(late)
    requires forall i, j :: 0 <= i < j < |r| ==> MonthIndex(r[i].key) < MonthIndex(r[j].key)
    requires early in Keys(r) && late in Keys(r)
    requires forall i :: 0 <= i < |r| ==> r[i].key == early || r[i].key == late
    ensures |r| == 2 && r[0].key == early && r[1].key == late
  {
    var a :| 0 <= a < |r| && Keys(r)[a] == early;
    var b :| 0 <= b < |r| && Keys(r)[b] == late;
    assert r[a].key == early && r[b].key == late && a != b;
    var first, second, last := r[0].key, r[1].key, r[|r| - 1].key;
    assert first == early || first == late;
    assert a == 0;
    assert second == early || second == late;
    assert b == 1;
    assert last == early || last == late;
    assert b == |r| - 1;
  }

  /** A record set whose rows fall in two months, both present, has exactly
      those two months in its monthly revenue, the earlier first. */
  lemma TwoMonthRevenue(sales: seq<Sale>, early: YearMonth, late: YearMonth, ie: nat, il: nat)
    requires MonthIndex(early) < MonthIndex(late)
    requires ie < |sales| && MonthOf(sales[ie]) == early
    requires il < |sales| && MonthOf(sales[il]) == late
    requires forall i :: 0 <= i < |sales| ==> MonthOf(sales[i]) == early || MonthOf(sales[i]) == late
    ensures FacturacionPorMes(sales) == [Entry(early, MonthSum(sales, early)), Entry(late, MonthSum(sales, late))]
  {
    var r := FacturacionPorMes(sales);
    FacturacionPorMesCorrect(sales);
    assert early in Keys(r) && late in Keys(r);
    forall i | 0 <= i < |r| ensures r[i].key == early || r[i].key == late {
      assert r[i].key == Keys(r)[i] && Keys(r)[i] in Keys(r);
      var j :| 0 <= j < |sales| && MonthOf(sales[j]) == r[i].key;
    }
    TwoAscendingMonths(r, early, late);
  }

  /** `test_facturacion_por_mes`: two months, January with 2000.0, then February with 2700.0. */
  lemma SampleFacturacionPorMes()
    ensures FacturacionPorMes(SampleSales()) == [Entry(January, 2000.0), Entry(February, 2700.0)]
  {
    var s := SampleSales();
    assert forall i :: 0 <= i < |s| ==> MonthOf(s[i]) == January || MonthOf(s[i]) == February;
    TwoMonthRevenue(s, January, February, 0, 2);
    SampleMonthSums(January);
    SampleMonthSums(February);
  }

  /** A raw row as `pd.DataFrame` builds it from the test's columns: every cell present, no total yet. */
  function RawRow(fecha: string, producto: string, cantidad: int, precio: real): Row {
    Row(Some(Text(fecha)), Some(producto), Some(cantidad), Some(precio), None)
  }

  /** The rows of `test_calculate_totals`. */
  function TotalsRows(): seq<Row> {
    [RawRow("2024-01-01", "ProductoA", 10, 100.0),
     RawRow("2024-01-02", "ProductoB", 5, 200.0),
     RawRow("2024-01-03", "ProductoC", 8, 150.0)]
  }

  /** `test_calculate_totals`: the processor computes the totals 1000.0, 1000.0 and 1200.0. */
  method CalculateTotalsExample() returns (totals: seq<Option<real>>)
    ensures totals == [Some(1000.0), Some(1000.0), Some(1200.0)]
  {
    var processor := new Processor();
    processor.LoadData(TotalsRows());
    var r := processor.CalculateTotals();
    totals := Map(r.value, (row: Row) => row.total);
  }

  /** The rows of `test_clean_data_removes_negative_quantities`. */
  function NegativeQuantityRows(): seq<Row> {
    [RawRow("2024-01-01", "ProductoA", 10, 100.0),
     RawRow("2024-01-02", "ProductoB", -5, 200.0),
     RawRow("2024-01-03", "ProductoC", 8, 150.0)]
  }

  lemma SampleDigits()
    ensures DecimalValue("2024") == 2024 && DecimalValue("01") == 1 && DecimalValue("03") == 3
  {
    assert "2024"[..3] == "202" && "202"[..2] == "20" && "20"[..1] == "2" && "2"[..0] == "";
    TwoDigitValue('0', '1');
    TwoDigitValue('0', '3');
  }

  lemma ParseSampleDates()
    ensures ParseDate("2024-01-01") == Some(Date(2024, 1, 1))
    ensures ParseDate("2024-01-03") == Some(Date(2024, 1, 3))
  {
    var s1, s3 := "2024-01-01", "2024-01-03";
    assert s1[..4] == "2024" && s1[5..7] == "01" && s1[8..] == "01";
    assert s3[..4] == "2024" && s3[5..7] == "01" && s3[8..] == "03";
    SampleDigits();
    assert ValidDate(Date(2024, 1, 1)) && ValidDate(Date(2024, 1, 3));
    ParseDigits(s1, Date(2024, 1, 1));
    ParseDigits(s3, Date(2024, 1, 3));
  }

  /** Selection over three rows of which the middle one fails the mask. */
  lemma WhereDropsMiddle<T(!new)>(a: T, b: T, c: T, keep: T -> bool)
    requires keep(a) && !keep(b) && keep(c)
    ensures Where([a, b, c], keep) == [a, c]
  {
    WhereCons(c, [], keep);
    assert [c] + [] == [c];
    WhereCons(b, [c], keep);
    assert [b] + [c] == [b, c];
    WhereCons(a, [b, c], keep);
    assert [a] + [b, c] == [a, b, c];
  }

  /** Which rows of the negative-quantity test are clean once their dates are coerced. */
  lemma NegativeQuantityRowsCoerced()
    ensures CleanRow(CoerceFecha(NegativeQuantityRows()[0]))
    ensures !CleanRow(CoerceFecha(NegativeQuantityRows()[1]))
    ensures CleanRow(CoerceFecha(NegativeQuantityRows()[2]))
  {
    ParseSampleDates();
    assert !IsSpace("ProductoA"[0]) && !IsSpace("ProductoC"[0]);
  }

  /** The negative-quantity row goes; the other two rows stay, with their dates coerced. */
  lemma CleanNegativeQuantityRows()
    ensures |Clean(NegativeQuantityRows())| == 2
  {
    var raw := NegativeQuantityRows();
    var a, b, c := CoerceFecha(raw[0]), CoerceFecha(raw[1]), CoerceFecha(raw[2]);
    assert Map(raw, CoerceFecha) == [a, b, c];
    NegativeQuantityRowsCoerced();
    CleanIsSinglePass(raw);
    WhereDropsMiddle(a, b, c, CleanRow);
  }

  /** `test_clean_data_removes_negative_quantities`: the processor keeps two rows,
      all with a positive quantity, and reports one removed. */
  method CleanDataExample() returns (rows: seq<Row>, removed: nat)
    ensures |rows| == 2 && removed == 1
    ensures forall r :: r in rows ==> r.cantidad.Some? && r.cantidad.value > 0
  {
    var processor := new Processor();
    processor.LoadData(NegativeQuantityRows());
    var r := processor.CleanData();
    rows, removed := r.value.rows, r.value.removed;
    CleanNegativeQuantityRows();
    CleanRowsAreClean(NegativeQuantityRows());
  }

  /** The `sample_invalid_csv_file` fixture: a good row, then one row failing each
      check (negative quantity, unparseable date, blank product read as NaN, zero price). */
  function InvalidRows(): seq<Row> {
    [RawRow("2024-01-01", "ProductoA", 10, 100.0),
     RawRow("2024-01-02", "ProductoB", -5, 200.0),
     RawRow("invalid-date", "ProductoC", 8, 150.0),
     Row(Some(Text("2024-02-01")), None, Some(12), Some(200.0), None),
     RawRow("2024-02-02", "ProductoD", 15, 0.0)]
  }

  /** A row with a non-positive quantity, a missing product or a non-positive price is dropped whatever its date. */
  lemma RejectedWhateverTheDate(r: Row)
    requires (r.cantidad.Some? && r.cantidad.value <= 0) || r.producto.None? ||
             (r.precioUnitario.Some? && r.precioUnitario.value <= 0.0)
    ensures !CleanRow(CoerceFecha(r))
  {
  }

  /** A row whose date text does not parse is dropped. */
  lemma RejectedForDate(r: Row, text: string)
    requires r.fecha == Some(Text(text)) && ParseDate(text).None?
    ensures !CleanRow(CoerceFecha(r))
  {
  }

  /** When only the first row is clean once coerced, cleaning keeps that row alone. */
  lemma CleanKeepsOnlyFirst(raw: seq<Row>)
    requires raw != [] && CleanRow(CoerceFecha(raw[0]))
    requires forall i :: 1 <= i < |raw| ==> !CleanRow(CoerceFecha(raw[i]))
    ensures Clean(raw) == [CoerceFecha(raw[0])]
  {
    CleanIsSinglePass(raw);
    WhereOnlyFirst(Map(raw, CoerceFecha), CleanRow);
  }

  /** A mask that only the first element passes selects just that element. */
  lemma WhereOnlyFirst<T(!new)>(s: seq<T>, keep: T -> bool)
    requires s != [] && keep(s[0])
    requires forall i :: 1 <= i < |s| ==> !keep(s[i])
    ensures Where(s, keep) == [s[0]]
  {
    var w := Where(s[1..], keep);
    assert forall x :: x !in w;
    WhereCons(s[0], s[1..], keep);
    assert [s[0]] + s[1..] == s;
  }

  /** Every row of the invalid fixture after the first fails one of the checks. */
  lemma InvalidRowsRejected()
    ensures forall i :: 1 <= i < |InvalidRows()| ==> !CleanRow(CoerceFecha(InvalidRows()[i]))
  {
    var raw := InvalidRows();
    forall i | 1 <= i < |raw| ensures !CleanRow(CoerceFecha(raw[i])) {
      if i == 2 {
        InvalidDateIsRejected();
        RejectedForDate(raw[2], "invalid-date");
      } else {
        RejectedWhateverTheDate(raw[i]);
      }
    }
  }

  /** The first row of the invalid fixture is clean once its date is coerced. */
  lemma InvalidRowsFirstKept()
    ensures CoerceFecha(InvalidRows()[0]) == InvalidRows()[0].(fecha := Some(Stamp(Date(2024, 1, 1))))
    ensures CleanRow(CoerceFecha(InvalidRows()[0]))
  {
    ParseSampleDates();
    NegativeQuantityRowsCoerced();
    assert InvalidRows()[0] == NegativeQuantityRows()[0];
  }

  /** Cleaning the invalid fixture keeps only its first row, with the date coerced. */
  lemma CleanInvalidRows()
    ensures Clean(InvalidRows()) == [InvalidRows()[0].(fecha := Some(Stamp(Date(2024, 1, 1))))]
  {
    InvalidRowsRejected();
    InvalidRowsFirstKept();
    CleanKeepsOnlyFirst(InvalidRows());
  }
}
