/** The views of src/analyzer.py over a cleaned, totalled record set. Every
    view groups the rows by a key and sums a measure; pandas sorts the group
    keys, `idxmax` takes the first maximum and `nlargest(keep='first')` keeps
    the earlier of equal values, so among equal sums the lexicographically
    smallest product wins. `Beats` states that order; the winner is its
    `Best` and the top-N a prefix of the ranking `RankBy` builds with it. */
module Analyzer {
  import opened Seqs
  import opened Ranking
  import opened Text
  import opened Dates
  import opened Records

  /** The column a product view sums: `cantidad` or `total`. */
  datatype Metric = Cantidad | Facturacion

  function MeasureOf(m: Metric): Sale -> real {
    match m
    case Cantidad => QuantityOf
    case Facturacion => TotalOf
  }

  /** `groupby('producto')[metric].sum()` at product `p`. */
  function ProductSum(sales: seq<Sale>, m: Metric, p: string): real {
    SumOf(sales, ProductOf, MeasureOf(m), p)
  }

  /** The group keys of `groupby('producto')`, each once. */
  function Products(sales: seq<Sale>): (ps: seq<string>)
    ensures NoDuplicates(ps)
    ensures forall p :: p in ps <==> exists i :: 0 <= i < |sales| && sales[i].producto == p
  {
    var names := Map(sales, ProductOf);
    assert forall i :: 0 <= i < |sales| ==> names[i] == sales[i].producto;
    Distinct(names)
  }

  /** `p` ranks at or above `q`: a larger sum, or an equal sum and a name that is not larger. */
  predicate Beats(sales: seq<Sale>, m: Metric, p: string, q: string): (b: bool)
    ensures b ==> ProductSum(sales, m, p) >= ProductSum(sales, m, q)
    ensures ProductSum(sales, m, p) > ProductSum(sales, m, q) ==> b
    ensures b && p != q && ProductSum(sales, m, p) == ProductSum(sales, m, q) ==> !StrLt(q, p)
  {
    StrLtAsymmetric(p, q);
    ProductSum(sales, m, p) > ProductSum(sales, m, q) ||
    (ProductSum(sales, m, p) == ProductSum(sales, m, q) && (p == q || StrLt(p, q)))
  }

  lemma BeatsTotal(sales: seq<Sale>, m: Metric, p: string, q: string)
    ensures Beats(sales, m, p, q) || Beats(sales, m, q, p)
  {
    if p != q {
      StrLtTotal(p, q);
    }
  }

  lemma BeatsTransitive(sales: seq<Sale>, m: Metric, p: string, q: string, r: string)
    requires Beats(sales, m, p, q) && Beats(sales, m, q, r)
    ensures Beats(sales, m, p, r)
  {
    if p != q && q != r && StrLt(p, q) && StrLt(q, r) {
      StrLtTransitive(p, q, r);
    }
  }

  /** Two products that beat each other are the same product. */
  lemma BeatsAntisymmetric(sales: seq<Sale>, m: Metric, p: string, q: string)
    requires Beats(sales, m, p, q) && Beats(sales, m, q, p)
    ensures p == q
  {
    StrLtAsymmetric(p, q);
  }

  /** `Beats` as the ranking relation of a product view. */
  function Above(sales: seq<Sale>, m: Metric): (above: (string, string) -> bool) {
    (p, q) => Beats(sales, m, p, q)
  }

  lemma AbovePreorder(sales: seq<Sale>, m: Metric, ps: seq<string>)
    ensures Preorder(Above(sales, m), ps)
  {
    var above := Above(sales, m);
    forall p, q | p in ps && q in ps ensures above(p, q) || above(q, p) {
      BeatsTotal(sales, m, p, q);
    }
    forall p, q, r | p in ps && q in ps && r in ps && above(p, q) && above(q, r) ensures above(p, r) {
      BeatsTransitive(sales, m, p, q, r);
    }
  }

  /** `idxmax` and `max` of a product view: the product that beats every other, with its sum. */
  function TopProduct(sales: seq<Sale>, m: Metric): (e: Entry<string>)
    requires |sales| > 0
    ensures e.key in Products(sales) && e.value == ProductSum(sales, m, e.key)
    ensures forall q :: q in Products(sales) ==> Beats(sales, m, e.key, q)
  {
    var ps := Products(sales);
    assert sales[0].producto in ps;
    AbovePreorder(sales, m, ps);
    BestAboveAll(ps, Above(sales, m));
    var b := Best(ps, Above(sales, m));
    Entry(b, ProductSum(sales, m, b))
  }

  /** `producto_mas_vendido`: a product whose summed quantity no other product
      exceeds, the smallest name among equal sums, together with that sum. */
  function ProductoMasVendido(sales: seq<Sale>): (e: Entry<string>)
    requires |sales| > 0
    ensures exists i :: 0 <= i < |sales| && sales[i].producto == e.key
    ensures e.value == ProductSum(sales, Cantidad, e.key)
    ensures forall i :: 0 <= i < |sales| ==> ProductSum(sales, Cantidad, sales[i].producto) <= e.value
    ensures forall i :: 0 <= i < |sales| && ProductSum(sales, Cantidad, sales[i].producto) == e.value ==>
      sales[i].producto == e.key || StrLt(e.key, sales[i].producto)
  {
    var e := TopProduct(sales, Cantidad);
    assert forall i :: 0 <= i < |sales| ==> sales[i].producto in Products(sales);
    e
  }

  /** `producto_mayor_facturacion`: the same, for summed `total`. */
  function ProductoMayorFacturacion(sales: seq<Sale>): (e: Entry<string>)
    requires |sales| > 0
    ensures exists i :: 0 <= i < |sales| && sales[i].producto == e.key
    ensures e.value == ProductSum(sales, Facturacion, e.key)
    ensures forall i :: 0 <= i < |sales| ==> ProductSum(sales, Facturacion, sales[i].producto) <= e.value
    ensures forall i :: 0 <= i < |sales| && ProductSum(sales, Facturacion, sales[i].producto) == e.value ==>
      sales[i].producto == e.key || StrLt(e.key, sales[i].producto)
  {
    var e := TopProduct(sales, Facturacion);
    assert forall i :: 0 <= i < |sales| ==> sales[i].producto in Products(sales);
    e
  }

  /** The winner of a product view does not depend on the order of the rows. */
  lemma TopProductOrderIndependent(a: seq<Sale>, b: seq<Sale>, m: Metric)
    requires |a| > 0 && multiset(a) == multiset(b)
    ensures |b| > 0 && TopProduct(a, m) == TopProduct(b, m)
  {
    assert |b| == |multiset(b)| == |multiset(a)| == |a|;
    var ta, tb := TopProduct(a, m), TopProduct(b, m);
    forall p ensures ProductSum(a, m, p) == ProductSum(b, m, p) {
      SumOfPermutation(a, b, ProductOf, MeasureOf(m), p);
    }
    forall p ensures p in Products(a) <==> p in Products(b) {
      if p in Products(a) {
        var i :| 0 <= i < |a| && a[i].producto == p;
        assert a[i] in multiset(b);
        var j :| 0 <= j < |b| && b[j] == a[i];
      }
      if p in Products(b) {
        var j :| 0 <= j < |b| && b[j].producto == p;
        assert b[j] in multiset(a);
        var i :| 0 <= i < |a| && a[i] == b[j];
      }
    }
    assert Beats(a, m, ta.key, tb.key);
    assert Beats(b, m, tb.key, ta.key);
    BeatsAntisymmetric(a, m, ta.key, tb.key);
  }

  lemma ProductoMasVendidoOrderIndependent(a: seq<Sale>, b: seq<Sale>)
    requires |a| > 0 && multiset(a) == multiset(b)
    ensures |b| > 0 && ProductoMasVendido(a) == ProductoMasVendido(b)
  {
    TopProductOrderIndependent(a, b, Cantidad);
  }

  lemma ProductoMayorFacturacionOrderIndependent(a: seq<Sale>, b: seq<Sale>)
    requires |a| > 0 && multiset(a) == multiset(b)
    ensures |b| > 0 && ProductoMayorFacturacion(a) == ProductoMayorFacturacion(b)
  {
    TopProductOrderIndependent(a, b, Facturacion);
  }

  /** How many entries `nlargest(n)` returns out of `size` groups (none when `n <= 0`). */
  function TakeCount(n: int, size: nat): (k: nat)
    ensures k <= size
  {
    if n <= 0 then 0 else Min(n, size)
  }

  /** The entries of a product view for the products `ps`, in that order. */
  function WithSums(sales: seq<Sale>, m: Metric, ps: seq<string>): (r: seq<Entry<string>>)
    ensures Keys(r) == ps
    ensures forall i :: 0 <= i < |r| ==> r[i].value == ProductSum(sales, m, r[i].key)
  {
    var r := Map(ps, p => Entry(p, ProductSum(sales, m, p)));
    assert Keys(r) == ps;
    r
  }

  /** `nlargest(n)` of a product view: the first `n` products of its ranking, with their sums. */
  function TopN(sales: seq<Sale>, m: Metric, n: int): (r: seq<Entry<string>>)
    ensures |r| == TakeCount(n, |Products(sales)|)
  {
    var order := RankBy(Products(sales), Above(sales, m));
    WithSums(sales, m, order[..TakeCount(n, |order|)])
  }

  /** The products of the top-N are distinct products of the view, each with
      its sum, and each beats every product after it. */
  lemma TopNCorrect(sales: seq<Sale>, m: Metric, n: int)
    ensures NoDuplicates(Keys(TopN(sales, m, n)))
    ensures forall i :: 0 <= i < |TopN(sales, m, n)| ==> TopN(sales, m, n)[i].key in Products(sales)
    ensures forall i :: 0 <= i < |TopN(sales, m, n)| ==>
      TopN(sales, m, n)[i].value == ProductSum(sales, m, TopN(sales, m, n)[i].key)
    ensures forall i, j :: 0 <= i < j < |TopN(sales, m, n)| ==>
      Beats(sales, m, TopN(sales, m, n)[i].key, TopN(sales, m, n)[j].key)
  {
    var ps := Products(sales);
    var above := Above(sales, m);
    var order := RankBy(ps, above);
    var k := TakeCount(n, |order|);
    var r := TopN(sales, m, n);
    assert Keys(r) == order[..k];
    AbovePreorder(sales, m, ps);
    RankByPermutation(ps, above);
    RankByDescending(ps, above);
    PermutationNoDuplicates(ps, order);
    SameElements(order, ps);
    forall i | 0 <= i < |r| ensures r[i].key == order[i] {
      assert Keys(r)[i] == order[i];
    }
  }

  /** Every product of the top-N beats every product it leaves out. */
  lemma TopNBeatsRest(sales: seq<Sale>, m: Metric, n: int, q: string)
    requires q in Products(sales) && q !in Keys(TopN(sales, m, n))
    ensures forall i :: 0 <= i < |TopN(sales, m, n)| ==> Beats(sales, m, TopN(sales, m, n)[i].key, q)
  {
    var ps := Products(sales);
    var above := Above(sales, m);
    var order := RankBy(ps, above);
    var k := TakeCount(n, |order|);
    var r := TopN(sales, m, n);
    assert Keys(r) == order[..k];
    AbovePreorder(sales, m, ps);
    RankByPermutation(ps, above);
    RankByDescending(ps, above);
    SameElements(order, ps);
    var j :| 0 <= j < |order| && order[j] == q;
    assert forall i :: 0 <= i < k ==> order[i] in order[..k];
    forall i | 0 <= i < |r| ensures r[i].key == order[i] {
      assert Keys(r)[i] == order[i];
    }
  }

  /** `get_top_productos_cantidad(n)`. */
  function GetTopProductosCantidad(sales: seq<Sale>, n: int): (r: seq<Entry<string>>)
    ensures |r| == TakeCount(n, |Products(sales)|)
    ensures forall i :: 0 <= i < |r| ==> r[i].value == ProductSum(sales, Cantidad, r[i].key)
    ensures forall i, j :: 0 <= i < j < |r| ==> r[i].value >= r[j].value
  {
    TopNCorrect(sales, Cantidad, n);
    TopN(sales, Cantidad, n)
  }

  /** `get_top_productos_facturacion(n)`. */
  function GetTopProductosFacturacion(sales: seq<Sale>, n: int): (r: seq<Entry<string>>)
    ensures |r| == TakeCount(n, |Products(sales)|)
    ensures forall i :: 0 <= i < |r| ==> r[i].value == ProductSum(sales, Facturacion, r[i].key)
    ensures forall i, j :: 0 <= i < j < |r| ==> r[i].value >= r[j].value
  {
    TopNCorrect(sales, Facturacion, n);
    TopN(sales, Facturacion, n)
  }

  /** `groupby(fecha.dt.to_period('M'))['total'].sum()` at month `ym`. */
  function MonthSum(sales: seq<Sale>, ym: YearMonth): real {
    SumOf(sales, MonthOf, TotalOf, ym)
  }

  function Months(sales: seq<Sale>): (ms: seq<YearMonth>)
    ensures NoDuplicates(ms)
    ensures forall ym :: ym in ms <==> exists i :: 0 <= i < |sales| && MonthOf(sales[i]) == ym
  {
    Distinct(Map(sales, MonthOf))
  }

  /** Calendar order on months, as the ranking relation that puts the earliest first. */
  function NotLater(a: YearMonth, b: YearMonth): bool {
    MonthIndex(a) <= MonthIndex(b)
  }

  lemma NotLaterPreorder(ms: seq<YearMonth>)
    ensures Preorder(NotLater, ms)
  {
  }

  /** `facturacion_por_mes`: the months present, in calendar order, each with its summed `total`. */
  function FacturacionPorMes(sales: seq<Sale>): (r: seq<Entry<YearMonth>>)
    ensures |r| == |Months(sales)|
  {
    var order := RankBy(Months(sales), NotLater);
    seq(|order|, i requires 0 <= i < |order| => Entry(order[i], MonthSum(sales, order[i])))
  }

  /** One entry per month present, strictly ascending, each holding the month's revenue. */
  lemma FacturacionPorMesCorrect(sales: seq<Sale>)
    ensures forall i, j :: 0 <= i < j < |FacturacionPorMes(sales)| ==>
      MonthIndex(FacturacionPorMes(sales)[i].key) < MonthIndex(FacturacionPorMes(sales)[j].key)
    ensures forall ym :: ym in Keys(FacturacionPorMes(sales)) <==>
      exists i :: 0 <= i < |sales| && MonthOf(sales[i]) == ym
    ensures forall i :: 0 <= i < |FacturacionPorMes(sales)| ==>
      FacturacionPorMes(sales)[i].value == MonthSum(sales, FacturacionPorMes(sales)[i].key)
  {
    var ms := Months(sales);
    var order := RankBy(ms, NotLater);
    var r := FacturacionPorMes(sales);
    assert Keys(r) == order;
    NotLaterPreorder(ms);
    RankByPermutation(ms, NotLater);
    RankByDescending(ms, NotLater);
    PermutationNoDuplicates(ms, order);
    SameElements(order, ms);
    forall i, j | 0 <= i < j < |order| ensures MonthIndex(order[i]) < MonthIndex(order[j]) {
      if MonthIndex(order[i]) == MonthIndex(order[j]) {
        MonthIndexInjective(order[i], order[j]);
      }
    }
  }

  /** `get_resumen_completo`: the five views together, top-N taken with n = 3. */
  datatype Summary = Summary(
    masVendido: Entry<string>,
    mayorFacturacion: Entry<string>,
    facturacionMensual: seq<Entry<YearMonth>>,
    top3Cantidad: seq<Entry<string>>,
    top3Facturacion: seq<Entry<string>>)

  const DefaultTopN := 3

  /** The bundle is internally consistent: each ranking starts with the
      corresponding winner and holds three products or all of them, and
      there is a month for every non-empty record set. */
  function GetResumenCompleto(sales: seq<Sale>): (s: Summary)
    requires |sales| > 0
    ensures |s.top3Cantidad| == |s.top3Facturacion| == Min(DefaultTopN, |Products(sales)|) >= 1
    ensures s.top3Cantidad[0] == s.masVendido
    ensures s.top3Facturacion[0] == s.mayorFacturacion
    ensures |s.facturacionMensual| >= 1
  {
    assert sales[0].producto in Products(sales);
    assert MonthOf(sales[0]) in Months(sales);
    TopPrefix(sales, Cantidad, DefaultTopN);
    TopPrefix(sales, Facturacion, DefaultTopN);
    Summary(
      ProductoMasVendido(sales),
      ProductoMayorFacturacion(sales),
      FacturacionPorMes(sales),
      GetTopProductosCantidad(sales, DefaultTopN),
      GetTopProductosFacturacion(sales, DefaultTopN))
  }

  /** Every non-empty top-N starts with the winner of the view. */
  lemma TopPrefix(sales: seq<Sale>, m: Metric, n: int)
    requires |sales| > 0 && n > 0
    ensures |TopN(sales, m, n)| > 0 && TopN(sales, m, n)[0] == TopProduct(sales, m)
  {
    var ps := Products(sales);
    assert sales[0].producto in ps;
    var order := RankBy(ps, Above(sales, m));
    assert order[0] == Best(ps, Above(sales, m));
    assert order[..TakeCount(n, |order|)][0] == order[0];
  }
}
