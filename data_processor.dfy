/** The cleaner of src/data_processor.py: a `Processor` holds the loaded record
    set in `df` and narrows it through a fixed chain of row filters, then adds
    the `total` column. The filters are boolean masks over the rows, so each is
    a `Where`; the chain as a whole is specified by `Clean`. */
module DataProcessor {
  import opened Wrappers
  import opened Seqs
  import opened Text
  import opened Dates
  import opened Records

  /** The `ValueError`s the processor raises when `df` is unset. */
  datatype ProcessorError = NoDataLoaded | NoDataToSave

  /** What `clean_data` hands back: the cleaned rows and the count it reports as removed. */
  datatype CleanReport = CleanReport(rows: seq<Row>, removed: nat)

  /** `dropna()`: every input column holds a value. */
  predicate Complete(r: Row) {
    r.fecha.Some? && r.producto.Some? && r.cantidad.Some? && r.precioUnitario.Some?
  }

  /** `pd.to_datetime(fecha, errors='coerce')` on one cell: text becomes a date or
      `NaT`, a date stays as it is. */
  function CoerceFecha(r: Row): (c: Row)
    ensures c.producto == r.producto && c.cantidad == r.cantidad
    ensures c.precioUnitario == r.precioUnitario && c.total == r.total
    ensures c.fecha.Some? ==> c.fecha.value.Stamp? && r.fecha.Some?
    ensures r.fecha.Some? && r.fecha.value.Stamp? ==> c == r
  {
    match r.fecha
    case Some(Text(s)) =>
      r.(fecha := match ParseDate(s) case Some(d) => Some(Stamp(d)) case None => None)
    case _ => r
  }

  /** An ISO `YYYY-MM-DD` text naming a representable day coerces to that day. */
  lemma CoerceIsoText(r: Row, d: Date)
    requires ValidDate(d) && r.fecha == Some(Text(FormatDate(d)))
    ensures CoerceFecha(r).fecha == Some(Stamp(d))
  {
    ParseFormatRoundTrip(d);
  }

  /** A text that does not parse as a date coerces to `NaT`. */
  lemma CoerceUnparsed(r: Row, s: string)
    requires r.fecha == Some(Text(s)) && ParseDate(s).None?
    ensures CoerceFecha(r).fecha.None?
  {
  }

  /** `dropna(subset=['fecha'])`. */
  predicate HasFecha(r: Row) {
    r.fecha.Some?
  }

  /** `df['cantidad'] > 0` (a comparison with NaN is false). */
  predicate PositiveCantidad(r: Row) {
    r.cantidad.Some? && r.cantidad.value > 0
  }

  /** `df['precio_unitario'] > 0`. */
  predicate PositivePrecio(r: Row) {
    r.precioUnitario.Some? && r.precioUnitario.value > 0.0
  }

  /** `df['producto'].str.strip() != ''` (NaN compares unequal to '', so it passes). */
  predicate NonBlankProducto(r: Row) {
    r.producto.None? || Strip(r.producto.value) != []
  }

  /** A row the cleaner keeps: complete, with a coerced date, positive quantity
      and price, and a product that is not blank. */
  predicate CleanRow(r: Row) {
    Complete(r) && r.fecha.value.Stamp? && r.cantidad.value > 0 &&
    r.precioUnitario.value > 0.0 && Strip(r.producto.value) != []
  }

  /** The filter chain of `clean_data`, step by step. */
  function Clean(rows: seq<Row>): (c: seq<Row>)
    ensures |c| <= |rows|
  {
    var complete := Where(rows, Complete);
    var coerced := Map(complete, CoerceFecha);
    var dated := Where(coerced, HasFecha);
    var positiveCantidad := Where(dated, PositiveCantidad);
    var positivePrecio := Where(positiveCantidad, PositivePrecio);
    Where(positivePrecio, NonBlankProducto)
  }

  lemma CleanOfOne(x: Row)
    ensures Clean([x]) == Where([CoerceFecha(x)], CleanRow)
  {
    assert [x][1..] == [];
    if Complete(x) {
      assert Where([x], Complete) == [x];
      assert Map([x], CoerceFecha) == [CoerceFecha(x)];
    } else {
      assert Where([x], Complete) == [];
    }
  }

  lemma CleanConcat(a: seq<Row>, b: seq<Row>)
    ensures Clean(a + b) == Clean(a) + Clean(b)
  {
    WhereConcat(a, b, Complete);
    var ca, cb := Where(a, Complete), Where(b, Complete);
    MapConcat(ca, cb, CoerceFecha);
    var ma, mb := Map(ca, CoerceFecha), Map(cb, CoerceFecha);
    WhereConcat(ma, mb, HasFecha);
    var da, db := Where(ma, HasFecha), Where(mb, HasFecha);
    WhereConcat(da, db, PositiveCantidad);
    var qa, qb := Where(da, PositiveCantidad), Where(db, PositiveCantidad);
    WhereConcat(qa, qb, PositivePrecio);
    WhereConcat(Where(qa, PositivePrecio), Where(qb, PositivePrecio), NonBlankProducto);
  }

  /** The chain equals one pass: coerce every date, then keep exactly the rows
      that satisfy `CleanRow`, in their input order. */
  lemma {:induction false} CleanIsSinglePass(rows: seq<Row>)
    ensures Clean(rows) == Where(Map(rows, CoerceFecha), CleanRow)
  {
    if rows != [] {
      var x, rest := rows[0], rows[1..];
      assert rows == [x] + rest;
      CleanConcat([x], rest);
      CleanOfOne(x);
      CleanIsSinglePass(rest);
      MapConcat([x], rest, CoerceFecha);
      assert Map([x], CoerceFecha) == [CoerceFecha(x)];
      WhereConcat([CoerceFecha(x)], Map(rest, CoerceFecha), CleanRow);
    }
  }

  /** A row survives cleaning exactly when its coerced form is a clean row of the input. */
  lemma CleanMembership(rows: seq<Row>, r: Row)
    ensures r in Clean(rows) <==> r in Map(rows, CoerceFecha) && CleanRow(r)
  {
    CleanIsSinglePass(rows);
  }

  /** Every row that survives cleaning is a clean row. */
  lemma CleanRowsAreClean(rows: seq<Row>)
    ensures forall r :: r in Clean(rows) ==> CleanRow(r)
  {
    CleanIsSinglePass(rows);
  }

  /** Cleaning only deletes rows: the result embeds, in order, in the date-coerced input. */
  lemma CleanIsSubsequence(rows: seq<Row>)
    ensures IsSubsequence(Clean(rows), Map(rows, CoerceFecha))
  {
    CleanIsSinglePass(rows);
    WhereIsSubsequence(Map(rows, CoerceFecha), CleanRow);
  }

  /** Cleaning an already cleaned record set keeps every row. */
  lemma CleanIdempotent(rows: seq<Row>)
    ensures Clean(Clean(rows)) == Clean(rows)
  {
    var c := Clean(rows);
    CleanRowsAreClean(rows);
    forall i | 0 <= i < |c| ensures CoerceFecha(c[i]) == c[i] {
      assert c[i] in c;
    }
    assert Map(c, CoerceFecha) == c;
    WhereKeepsAll(c, CleanRow);
    CleanIsSinglePass(c);
  }

  /** `cantidad * precio_unitario` for one row (NaN when either is NaN). */
  function WithTotal(r: Row): (t: Row)
    ensures t.(total := r.total) == r
    ensures t.total.Some? <==> r.cantidad.Some? && r.precioUnitario.Some?
    ensures t.total.Some? ==> t.total.value == r.cantidad.value as real * r.precioUnitario.value
  {
    r.(total := if r.cantidad.Some? && r.precioUnitario.Some?
                then Some(Revenue(r.cantidad.value, r.precioUnitario.value))
                else None)
  }

  /** A cleaned row whose `total` column has been computed. */
  predicate Totalled(r: Row) {
    CleanRow(r) && r.total == Some(Revenue(r.cantidad.value, r.precioUnitario.value))
  }

  lemma WithTotalOfClean(x: Row)
    requires CleanRow(x)
    ensures Totalled(WithTotal(x))
  {
    var y := WithTotal(x);
    assert CleanRow(y) by {
      assert y.fecha == x.fecha && y.producto == x.producto;
      assert y.cantidad == x.cantidad && y.precioUnitario == x.precioUnitario;
    }
  }

  /** Adding totals to clean rows gives totalled rows. */
  lemma TotalsOfCleanRows(c: seq<Row>)
    requires forall r :: r in c ==> CleanRow(r)
    ensures forall r :: r in Map(c, WithTotal) ==> Totalled(r)
  {
    var t := Map(c, WithTotal);
    forall r | r in t ensures Totalled(r) {
      var i :| 0 <= i < |t| && t[i] == r;
      assert c[i] in c;
      WithTotalOfClean(c[i]);
    }
  }

  /** After cleaning and `calculate_totals`, every row carries a consistent total. */
  lemma TotalsAfterClean(rows: seq<Row>)
    ensures forall r :: r in Map(Clean(rows), WithTotal) ==> Totalled(r)
  {
    CleanRowsAreClean(rows);
    TotalsOfCleanRows(Clean(rows));
  }

  /** A totalled row as a record of the analyzed DataFrame. */
  function ToSale(r: Row): (s: Sale)
    requires Totalled(r)
    ensures ValidSale(s)
    ensures s.producto == r.producto.value && s.cantidad == r.cantidad.value
    ensures s.precioUnitario == r.precioUnitario.value && Some(s.total) == r.total
    ensures Some(Stamp(s.fecha)) == r.fecha
  {
    var d := r.fecha.value.date;
    assert r.fecha == Some(Stamp(d));
    Sale(d, r.producto.value, r.cantidad.value, r.precioUnitario.value, r.total.value)
  }

  function AsSales(rows: seq<Row>): (sales: seq<Sale>)
    requires forall r :: r in rows ==> Totalled(r)
    ensures |sales| == |rows|
    ensures forall i :: 0 <= i < |rows| ==> sales[i] == ToSale(rows[i])
  {
    seq(|rows|, i requires 0 <= i < |rows| => ToSale(rows[i]))
  }

  /** The record set the analyzer receives from raw rows: cleaned, totalled, as sales. */
  function CleanedSales(raw: seq<Row>): (sales: seq<Sale>)
    ensures |sales| == |Clean(raw)|
    ensures forall i :: 0 <= i < |sales| ==> ValidSale(sales[i])
    ensures forall i :: 0 <= i < |sales| ==>
      Some(sales[i].producto) == Clean(raw)[i].producto && Some(sales[i].cantidad) == Clean(raw)[i].cantidad &&
      Some(sales[i].precioUnitario) == Clean(raw)[i].precioUnitario
  {
    TotalsAfterClean(raw);
    var c := Clean(raw);
    var totalled := Map(c, WithTotal);
    var sales := AsSales(totalled);
    forall i | 0 <= i < |sales|
      ensures ValidSale(sales[i])
      ensures Some(sales[i].producto) == c[i].producto && Some(sales[i].cantidad) == c[i].cantidad
      ensures Some(sales[i].precioUnitario) == c[i].precioUnitario
    {
      assert totalled[i] in totalled;
      assert sales[i] == ToSale(totalled[i]);
    }
    sales
  }

  /** The processor object: `df` is `None` until data is loaded. */
  class Processor {
    var df: Option<seq<Row>>

    constructor ()
      ensures df == None
    {
      df := None;
    }

    /** `load_data`: the rows read from the CSV file become `df`. */
    method LoadData(rows: seq<Row>)
      modifies this
      ensures df == Some(rows)
    {
      df := Some(rows);
    }

    /** Narrow `df` through the filter chain and report how many rows went. */
    method CleanData() returns (r: Result<CleanReport, ProcessorError>)
      modifies this
      ensures old(df).None? ==> r == Failure(NoDataLoaded) && df == old(df)
      ensures old(df).Some? ==> df == Some(Clean(old(df).value))
      ensures old(df).Some? ==> r.Success? && r.value.rows == df.value
      ensures old(df).Some? ==> r.value.removed == |old(df).value| - |df.value|
    {
      if df.None? {
        return Failure(NoDataLoaded);
      }
      var initialRows := |df.value|;
      df := Some(Where(df.value, Complete));
      df := Some(Map(df.value, CoerceFecha));
      df := Some(Where(df.value, HasFecha));
      df := Some(Where(df.value, PositiveCantidad));
      df := Some(Where(df.value, PositivePrecio));
      df := Some(Where(df.value, NonBlankProducto));
      var finalRows := |df.value|;
      r := Success(CleanReport(df.value, initialRows - finalRows));
    }

    /** Add `total = cantidad * precio_unitario` to every row of `df`. */
    method CalculateTotals() returns (r: Result<seq<Row>, ProcessorError>)
      modifies this
      ensures old(df).None? ==> r == Failure(NoDataLoaded) && df == old(df)
      ensures old(df).Some? ==> df == Some(Map(old(df).value, WithTotal)) && r == Success(df.value)
      ensures old(df).Some? ==> forall i :: 0 <= i < |df.value| ==>
        var before, after := old(df).value[i], df.value[i];
        after.fecha == before.fecha && after.producto == before.producto &&
        after.cantidad == before.cantidad && after.precioUnitario == before.precioUnitario &&
        (before.cantidad.Some? && before.precioUnitario.Some? ==>
          after.total == Some(Revenue(before.cantidad.value, before.precioUnitario.value)))
    {
      if df.None? {
        return Failure(NoDataLoaded);
      }
      var rows := df.value;
      df := Some(Map(rows, WithTotal));
      assert forall i :: 0 <= i < |rows| ==> df.value[i] == WithTotal(rows[i]);
      r := Success(df.value);
    }

    method GetCleanData() returns (r: Option<seq<Row>>)
      ensures r == df
    {
      r := df;
    }

    /** The guard of `save_clean_data`; on success, the rows the CSV file would receive. */
    method SaveCleanData() returns (r: Result<seq<Row>, ProcessorError>)
      ensures r.Failure? <==> df.None?
      ensures df.None? ==> r.error == NoDataToSave
      ensures df.Some? ==> r.value == df.value
    {
      if df.None? {
        return Failure(NoDataToSave);
      }
      r := Success(df.value);
    }
  }
}
