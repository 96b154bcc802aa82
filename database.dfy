/** The SQLite store of src/database.py. The two tables are sequences of rows
    held by a `SalesDb` object (`None` while a table does not exist); the
    grouped queries are functions of the `ventas` table, defined independently
    of the analyzer: one pass accumulating per-group sums, then a stable sort.
    SQL fixes no order among groups that tie on the sort key; keeping the
    groups in order of first appearance is this model's choice. */
module Database {
  import opened Wrappers
  import opened Seqs
  import opened Ranking
  import opened Text
  import opened Dates
  import opened Records
  import opened Analyzer

  /** A row of `analisis_resultados` (the `id` and `fecha_calculo` columns are left out). */
  datatype AnalysisRow = AnalysisRow(tipoAnalisis: string, resultado: string, valor: real)

  /** Add `v` to the group `k`, opening it at the end if it is new. */
  function AddTo<K(==)>(g: seq<Entry<K>>, k: K, v: real): (r: seq<Entry<K>>)
    ensures |r| == if k in Keys(g) then |g| else |g| + 1
  {
    if g == [] then [Entry(k, v)]
    else if g[0].key == k then [Entry(k, g[0].value + v)] + g[1..]
    else
      assert Keys(g)[1..] == Keys(g[1..]);
      [g[0]] + AddTo(g[1..], k, v)
  }

  /** `AddTo` keeps the groups in place, adds `v` to group `k` only, and opens `k` at the end when it is new. */
  lemma {:induction false} AddToCorrect<K>(g: seq<Entry<K>>, k: K, v: real)
    requires NoDuplicates(Keys(g))
    ensures NoDuplicates(Keys(AddTo(g, k, v)))
    ensures k in Keys(g) ==> Keys(AddTo(g, k, v)) == Keys(g)
    ensures k !in Keys(g) ==> Keys(AddTo(g, k, v)) == Keys(g) + [k]
    ensures forall i :: 0 <= i < |g| ==>
      AddTo(g, k, v)[i].value == g[i].value + (if g[i].key == k then v else 0.0)
    ensures k !in Keys(g) ==> AddTo(g, k, v)[|g|].value == v
  {
    if g != [] {
      var r := AddTo(g, k, v);
      assert g == [g[0]] + g[1..];
      KeysCons(g[0], g[1..]);
      if g[0].key == k {
        assert r == [Entry(k, g[0].value + v)] + g[1..];
        KeysCons(Entry(k, g[0].value + v), g[1..]);
        assert forall i :: 1 <= i < |g| ==> g[i].key == Keys(g)[i] != Keys(g)[0] == k;
      } else {
        var rest := AddTo(g[1..], k, v);
        assert r == [g[0]] + rest;
        AddToCorrect(g[1..], k, v);
        KeysCons(g[0], rest);
      }
    }
  }

  /** `GROUP BY key` with `SUM(value)`. The groups are kept in order of first
      appearance; SQL leaves that order open, and only the `ORDER BY` that
      follows fixes it up to ties. */
  function GroupBy<K(==)>(rows: seq<Sale>, keyOf: Sale -> K, valOf: Sale -> real): (g: seq<Entry<K>>)
    ensures |g| <= |rows|
    ensures rows != [] ==> g != []
  {
    if rows == [] then []
    else AddTo(GroupBy(rows[..|rows| - 1], keyOf, valOf), keyOf(rows[|rows| - 1]), valOf(rows[|rows| - 1]))
  }

  /** The groups are the distinct keys of the rows, each holding the sum over its rows. */
  lemma {:induction false} GroupByCorrect<K(!new)>(rows: seq<Sale>, keyOf: Sale -> K, valOf: Sale -> real)
    ensures NoDuplicates(Keys(GroupBy(rows, keyOf, valOf)))
    ensures Keys(GroupBy(rows, keyOf, valOf)) == Distinct(Map(rows, keyOf))
    ensures forall i :: 0 <= i < |GroupBy(rows, keyOf, valOf)| ==>
      GroupBy(rows, keyOf, valOf)[i].value == SumOf(rows, keyOf, valOf, GroupBy(rows, keyOf, valOf)[i].key)
  {
    if rows != [] {
      var prefix := rows[..|rows| - 1];
      var last := rows[|rows| - 1];
      GroupByCorrect(prefix, keyOf, valOf);
      var g := GroupBy(prefix, keyOf, valOf);
      assert rows == prefix + [last];
      assert GroupBy(rows, keyOf, valOf) == AddTo(g, keyOf(last), valOf(last));
      GroupByKeysStep(prefix, last, g, keyOf, valOf);
      GroupBySumsStep(prefix, last, g, keyOf, valOf);
    }
  }

  /** Adding one row to the distinct keys of `prefix` gives the distinct keys of `prefix + [last]`. */
  lemma GroupByKeysStep<K(!new)>(prefix: seq<Sale>, last: Sale, g: seq<Entry<K>>, keyOf: Sale -> K, valOf: Sale -> real)
    requires NoDuplicates(Keys(g)) && Keys(g) == Distinct(Map(prefix, keyOf))
    ensures NoDuplicates(Keys(AddTo(g, keyOf(last), valOf(last))))
    ensures Keys(AddTo(g, keyOf(last), valOf(last))) == Distinct(Map(prefix + [last], keyOf))
  {
    AddToCorrect(g, keyOf(last), valOf(last));
    var keys := Map(prefix + [last], keyOf);
    assert keys[..|keys| - 1] == Map(prefix, keyOf);
    assert keys[|keys| - 1] == keyOf(last);
  }

  /** Adding one row to correct groups of `prefix` gives correct groups of `prefix + [last]`. */
  lemma GroupBySumsStep<K(!new)>(prefix: seq<Sale>, last: Sale, g: seq<Entry<K>>, keyOf: Sale -> K, valOf: Sale -> real)
    requires NoDuplicates(Keys(g)) && Keys(g) == Distinct(Map(prefix, keyOf))
    requires forall i :: 0 <= i < |g| ==> g[i].value == SumOf(prefix, keyOf, valOf, g[i].key)
    ensures forall i :: 0 <= i < |AddTo(g, keyOf(last), valOf(last))| ==>
      AddTo(g, keyOf(last), valOf(last))[i].value ==
      SumOf(prefix + [last], keyOf, valOf, AddTo(g, keyOf(last), valOf(last))[i].key)
  {
    var r := AddTo(g, keyOf(last), valOf(last));
    AddToCorrect(g, keyOf(last), valOf(last));
    forall i | 0 <= i < |r| ensures r[i].value == SumOf(prefix + [last], keyOf, valOf, r[i].key) {
      SumOfSnoc(prefix, last, keyOf, valOf, r[i].key);
      if i < |g| {
        assert r[i].key == Keys(r)[i] == Keys(g)[i] == g[i].key;
      } else {
        assert r[i].key == Keys(r)[i] == keyOf(last);
        assert keyOf(last) !in Map(prefix, keyOf);
        SumOfAbsent(prefix, keyOf, valOf, keyOf(last));
      }
    }
  }

  /** A key that no row has sums to zero. */
  lemma {:induction false} SumOfAbsent<K(!new)>(rows: seq<Sale>, keyOf: Sale -> K, valOf: Sale -> real, k: K)
    requires k !in Map(rows, keyOf)
    ensures SumOf(rows, keyOf, valOf, k) == 0.0
  {
    if rows != [] {
      var prefix := rows[..|rows| - 1];
      assert Map(rows, keyOf)[|rows| - 1] == keyOf(rows[|rows| - 1]);
      forall x | x in Map(prefix, keyOf) ensures x in Map(rows, keyOf) {
        var i :| 0 <= i < |prefix| && Map(prefix, keyOf)[i] == x;
        assert Map(rows, keyOf)[i] == x;
      }
      SumOfAbsent(prefix, keyOf, valOf, k);
    }
  }

  /** How many rows `LIMIT limit` lets through out of `size` (a negative limit means none is imposed). */
  function LimitCount(limit: int, size: nat): (k: nat)
    ensures k <= size
    ensures limit >= 0 ==> k == Min(limit, size)
  {
    if limit < 0 then size else Min(limit, size)
  }

  /** The sort key of `ORDER BY cantidad_total DESC`. */
  function NegatedValue<K>(e: Entry<K>): real {
    -e.value
  }

  /** The sort key of `ORDER BY mes`: the calendar position of the month. */
  function Chronological(e: Entry<YearMonth>): real {
    MonthIndex(e.key) as real
  }

  /** `SELECT producto, SUM(cantidad) ... GROUP BY producto ORDER BY cantidad_total DESC LIMIT limit`. */
  function TopProductosQuery(ventas: seq<Sale>, limit: int): (r: seq<Entry<string>>)
    ensures |r| <= |ventas|
    ensures limit >= 0 ==> |r| <= limit
    ensures forall i, j :: 0 <= i < j < |r| ==> r[i].value >= r[j].value
  {
    var groups := GroupBy(ventas, ProductOf, QuantityOf);
    var sorted := SortBy(groups, NegatedValue);
    assert |sorted| == |multiset(sorted)| == |multiset(groups)| == |groups|;
    var r := sorted[..LimitCount(limit, |sorted|)];
    assert forall i :: 0 <= i < |r| ==> r[i] == sorted[i];
    r
  }

  /** `SELECT strftime('%Y-%m', fecha) AS mes, SUM(total) ... GROUP BY mes ORDER BY mes`. */
  function FacturacionMensualQuery(ventas: seq<Sale>): (r: seq<Entry<YearMonth>>)
    ensures |r| <= |ventas|
    ensures forall i, j :: 0 <= i < j < |r| ==> MonthIndex(r[i].key) <= MonthIndex(r[j].key)
  {
    SortBy(GroupBy(ventas, MonthOf, TotalOf), Chronological)
  }

  /** The sorted groups of the top-products query: every product once, with its summed quantity, largest first. */
  lemma SortedProductGroups(ventas: seq<Sale>)
    ensures |SortBy(GroupBy(ventas, ProductOf, QuantityOf), NegatedValue)| == |Products(ventas)|
    ensures multiset(Keys(SortBy(GroupBy(ventas, ProductOf, QuantityOf), NegatedValue))) == multiset(Products(ventas))
    ensures forall e :: e in SortBy(GroupBy(ventas, ProductOf, QuantityOf), NegatedValue) ==>
      e.value == ProductSum(ventas, Cantidad, e.key)
  {
    var g := GroupBy(ventas, ProductOf, QuantityOf);
    var sorted := SortBy(g, NegatedValue);
    GroupByCorrect(ventas, ProductOf, QuantityOf);
    KeysPermutation(sorted, g);
    assert |sorted| == |multiset(sorted)| == |multiset(g)| == |g|;
    forall e | e in sorted ensures e.value == ProductSum(ventas, Cantidad, e.key) {
      assert e in multiset(g);
    }
  }

  /** A prefix of a permutation of the groups `ks` whose values are `f` of their keys. */
  lemma GroupsPrefix<K>(sorted: seq<Entry<K>>, k: nat, ks: seq<K>, f: K -> real)
    requires k <= |sorted| && NoDuplicates(ks) && multiset(Keys(sorted)) == multiset(ks)
    requires forall e :: e in sorted ==> e.value == f(e.key)
    ensures NoDuplicates(Keys(sorted[..k]))
    ensures forall i :: 0 <= i < k ==> sorted[..k][i].key in ks && sorted[..k][i].value == f(sorted[..k][i].key)
  {
    PermutationNoDuplicates(ks, Keys(sorted));
    SameElements(Keys(sorted), ks);
    assert Keys(sorted[..k]) == Keys(sorted)[..k];
    forall i | 0 <= i < k ensures sorted[..k][i].key in ks && sorted[..k][i].value == f(sorted[..k][i].key) {
      assert sorted[..k][i] == sorted[i] && sorted[i] in sorted;
      assert Keys(sorted)[i] == sorted[i].key;
    }
  }

  /** In groups sorted by decreasing value, a key left out of a prefix has a value
      no larger than any value in the prefix. */
  lemma SortedPrefixBeatsRest<K>(sorted: seq<Entry<K>>, k: nat, f: K -> real, q: K)
    requires k <= |sorted| && SortedBy(sorted, NegatedValue)
    requires forall e :: e in sorted ==> e.value == f(e.key)
    requires q in Keys(sorted) && q !in Keys(sorted[..k])
    ensures forall i :: 0 <= i < k ==> f(q) <= sorted[i].value
  {
    var j :| 0 <= j < |sorted| && Keys(sorted)[j] == q;
    assert Keys(sorted[..k]) == Keys(sorted)[..k];
    assert forall i :: 0 <= i < k ==> Keys(sorted)[i] in Keys(sorted[..k]);
    assert sorted[j] in sorted;
  }

  /** `get_top_productos_query(limit)`: at most `limit` distinct products of
      `ventas`, each with its summed quantity. */
  lemma TopProductosQueryCorrect(ventas: seq<Sale>, limit: int)
    ensures |TopProductosQuery(ventas, limit)| == LimitCount(limit, |Products(ventas)|)
    ensures NoDuplicates(Keys(TopProductosQuery(ventas, limit)))
    ensures forall i :: 0 <= i < |TopProductosQuery(ventas, limit)| ==>
      TopProductosQuery(ventas, limit)[i].key in Products(ventas) &&
      TopProductosQuery(ventas, limit)[i].value == ProductSum(ventas, Cantidad, TopProductosQuery(ventas, limit)[i].key)
  {
    var sorted := SortBy(GroupBy(ventas, ProductOf, QuantityOf), NegatedValue);
    SortedProductGroups(ventas);
    GroupsPrefix(sorted, LimitCount(limit, |sorted|), Products(ventas), p => ProductSum(ventas, Cantidad, p));
  }

  /** Under the model's stable tie order, raising `LIMIT` only appends rows: the
      answer for a smaller limit is a prefix of the answer for a larger one.
      No limit gives every product. */
  lemma TopProductosQueryLimitPrefix(ventas: seq<Sale>, small: int, large: int)
    requires 0 <= small <= large
    ensures TopProductosQuery(ventas, small) <= TopProductosQuery(ventas, large)
    ensures |TopProductosQuery(ventas, -1)| == |Products(ventas)|
  {
    var sorted := SortBy(GroupBy(ventas, ProductOf, QuantityOf), NegatedValue);
    assert LimitCount(small, |sorted|) <= LimitCount(large, |sorted|);
    SortedProductGroups(ventas);
  }

  /** No product left out of the query has a larger sum than one listed. */
  lemma TopProductosQueryComplete(ventas: seq<Sale>, limit: int, q: string)
    requires q in Products(ventas) && q !in Keys(TopProductosQuery(ventas, limit))
    ensures forall i :: 0 <= i < |TopProductosQuery(ventas, limit)| ==>
      ProductSum(ventas, Cantidad, q) <= TopProductosQuery(ventas, limit)[i].value
  {
    var sorted := SortBy(GroupBy(ventas, ProductOf, QuantityOf), NegatedValue);
    SortedProductGroups(ventas);
    SameElements(Keys(sorted), Products(ventas));
    SortedPrefixBeatsRest(sorted, LimitCount(limit, |sorted|), p => ProductSum(ventas, Cantidad, p), q);
  }

  /** `get_facturacion_mensual_query`: one row per month present in `ventas`, in
      strictly ascending calendar order, each holding that month's summed `total`. */
  lemma FacturacionMensualQueryCorrect(ventas: seq<Sale>)
    ensures forall i, j :: 0 <= i < j < |FacturacionMensualQuery(ventas)| ==>
      MonthIndex(FacturacionMensualQuery(ventas)[i].key) < MonthIndex(FacturacionMensualQuery(ventas)[j].key)
    ensures forall ym :: ym in Keys(FacturacionMensualQuery(ventas)) <==>
      exists i :: 0 <= i < |ventas| && MonthOf(ventas[i]) == ym
    ensures forall i :: 0 <= i < |FacturacionMensualQuery(ventas)| ==>
      FacturacionMensualQuery(ventas)[i].value == MonthSum(ventas, FacturacionMensualQuery(ventas)[i].key)
  {
    var r := FacturacionMensualQuery(ventas);
    MonthlyGroups(ventas);
    forall i, j | 0 <= i < j < |r| ensures MonthIndex(r[i].key) < MonthIndex(r[j].key) {
      assert Keys(r)[i] != Keys(r)[j];
      if MonthIndex(r[i].key) == MonthIndex(r[j].key) {
        MonthIndexInjective(r[i].key, r[j].key);
      }
    }
    forall ym ensures ym in Keys(r) <==> exists i :: 0 <= i < |ventas| && MonthOf(ventas[i]) == ym {
      if ym in Map(ventas, MonthOf) {
        var i :| 0 <= i < |ventas| && Map(ventas, MonthOf)[i] == ym;
      }
      if exists i :: 0 <= i < |ventas| && MonthOf(ventas[i]) == ym {
        var i :| 0 <= i < |ventas| && MonthOf(ventas[i]) == ym;
        assert Map(ventas, MonthOf)[i] == ym;
      }
    }
  }

  /** The monthly query's rows are the month groups, reordered: distinct months,
      exactly the months of the rows, each holding its revenue. */
  lemma MonthlyGroups(ventas: seq<Sale>)
    ensures NoDuplicates(Keys(FacturacionMensualQuery(ventas)))
    ensures forall ym :: ym in Keys(FacturacionMensualQuery(ventas)) <==> ym in Map(ventas, MonthOf)
    ensures forall i :: 0 <= i < |FacturacionMensualQuery(ventas)| ==>
      FacturacionMensualQuery(ventas)[i].value == MonthSum(ventas, FacturacionMensualQuery(ventas)[i].key)
  {
    var g := GroupBy(ventas, MonthOf, TotalOf);
    var r := FacturacionMensualQuery(ventas);
    GroupByCorrect(ventas, MonthOf, TotalOf);
    KeysPermutation(r, g);
    PermutationNoDuplicates(Keys(g), Keys(r));
    SameElements(Keys(r), Keys(g));
    forall i | 0 <= i < |r| ensures r[i].value == MonthSum(ventas, r[i].key) {
      assert r[i] in multiset(g);
    }
  }

  /** The monthly query returns exactly what `facturacion_por_mes` computes. */
  lemma MonthlyQueryMatchesAnalyzer(ventas: seq<Sale>)
    ensures FacturacionMensualQuery(ventas) == FacturacionPorMes(ventas)
  {
    var q := FacturacionMensualQuery(ventas);
    var a := FacturacionPorMes(ventas);
    FacturacionMensualQueryCorrect(ventas);
    FacturacionPorMesCorrect(ventas);
    AscendingMonthsUnique(q, a);
    forall i | 0 <= i < |q| ensures q[i].key == a[i].key && q[i].value == a[i].value {
      MonthIndexInjective(q[i].key, a[i].key);
    }
    EntriesEqual(q, a);
  }

  /** Two strictly ascending month lists with the same months agree position by position. */
  lemma AscendingMonthsUnique(a: seq<Entry<YearMonth>>, b: seq<Entry<YearMonth>>)
    requires forall i, j :: 0 <= i < j < |a| ==> MonthIndex(a[i].key) < MonthIndex(a[j].key)
    requires forall i, j :: 0 <= i < j < |b| ==> MonthIndex(b[i].key) < MonthIndex(b[j].key)
    requires forall ym :: ym in Keys(a) <==> ym in Keys(b)
    ensures |a| == |b|
    ensures forall i :: 0 <= i < |a| ==> MonthIndex(a[i].key) == MonthIndex(b[i].key)
  {
    forall i, j | 0 <= i < j < |a| ensures Keys(a)[i] != Keys(a)[j] {
      assert MonthIndex(a[i].key) < MonthIndex(a[j].key);
    }
    forall i, j | 0 <= i < j < |b| ensures Keys(b)[i] != Keys(b)[j] {
      assert MonthIndex(b[i].key) < MonthIndex(b[j].key);
    }
    DistinctSameElements(Keys(a), Keys(b));
    assert |a| == |multiset(Keys(a))| == |multiset(Keys(b))| == |b|;
    var ka := Map(a, Chronological);
    var kb := Map(b, Chronological);
    var idx := (ym: YearMonth) => MonthIndex(ym) as real;
    assert ka == Map(Keys(a), idx);
    assert kb == Map(Keys(b), idx);
    MapPermutation(Keys(a), Keys(b), idx);
    SortedKeysUnique(a, b, Chronological);
  }

  /** The query's sorted groups and the analyzer's full ranking hold the same entries. */
  lemma ProductRankingsSameEntries(ventas: seq<Sale>)
    ensures multiset(SortBy(GroupBy(ventas, ProductOf, QuantityOf), NegatedValue)) ==
      multiset(WithSums(ventas, Cantidad, RankBy(Products(ventas), Above(ventas, Cantidad))))
  {
    var ps := Products(ventas);
    var order := RankBy(ps, Above(ventas, Cantidad));
    var sql := SortBy(GroupBy(ventas, ProductOf, QuantityOf), NegatedValue);
    var ranked := WithSums(ventas, Cantidad, order);
    var f := p => ProductSum(ventas, Cantidad, p);
    SortedProductGroups(ventas);
    RankByPermutation(ps, Above(ventas, Cantidad));
    forall e | e in ranked ensures e.value == f(e.key) {
      var i :| 0 <= i < |ranked| && ranked[i] == e;
    }
    SameKeysSameEntries(sql, ranked, f);
  }

  /** The analyzer's full ranking lists the sums in non-increasing order. */
  lemma RankingSumsDescend(ventas: seq<Sale>)
    ensures SortedBy(WithSums(ventas, Cantidad, RankBy(Products(ventas), Above(ventas, Cantidad))), NegatedValue)
  {
    var ps := Products(ventas);
    var above := Above(ventas, Cantidad);
    var order := RankBy(ps, above);
    var ranked := WithSums(ventas, Cantidad, order);
    AbovePreorder(ventas, Cantidad, ps);
    RankByDescending(ps, above);
    forall i, j | 0 <= i < j < |ranked| ensures NegatedValue(ranked[i]) <= NegatedValue(ranked[j]) {
      assert above(order[i], order[j]);
      assert ranked[i].key == Keys(ranked)[i] && ranked[j].key == Keys(ranked)[j];
    }
  }

  /** The full sorted product groups of the query and the analyzer's full ranking
      list the same sums in the same order; they can differ only in which of
      several products with equal sums comes first. */
  lemma ProductRankingsAgree(ventas: seq<Sale>)
    ensures |SortBy(GroupBy(ventas, ProductOf, QuantityOf), NegatedValue)| ==
      |WithSums(ventas, Cantidad, RankBy(Products(ventas), Above(ventas, Cantidad)))|
    ensures forall i :: 0 <= i < |SortBy(GroupBy(ventas, ProductOf, QuantityOf), NegatedValue)| ==>
      SortBy(GroupBy(ventas, ProductOf, QuantityOf), NegatedValue)[i].value ==
      WithSums(ventas, Cantidad, RankBy(Products(ventas), Above(ventas, Cantidad)))[i].value
  {
    var sql := SortBy(GroupBy(ventas, ProductOf, QuantityOf), NegatedValue);
    var ranked := WithSums(ventas, Cantidad, RankBy(Products(ventas), Above(ventas, Cantidad)));
    ProductRankingsSameEntries(ventas);
    RankingSumsDescend(ventas);
    MapPermutation(sql, ranked, NegatedValue);
    SortedKeysUnique(sql, ranked, NegatedValue);
  }

  /** The check main.py makes after persisting: `get_top_productos_query(n)` returns as
      many rows as `get_top_productos_cantidad(n)`, with the same sums position by position. */
  lemma TopQueryMatchesAnalyzer(ventas: seq<Sale>, n: nat)
    ensures |TopProductosQuery(ventas, n)| == |GetTopProductosCantidad(ventas, n)|
    ensures forall i :: 0 <= i < |TopProductosQuery(ventas, n)| ==>
      TopProductosQuery(ventas, n)[i].value == GetTopProductosCantidad(ventas, n)[i].value
  {
    var order := RankBy(Products(ventas), Above(ventas, Cantidad));
    var sql := SortBy(GroupBy(ventas, ProductOf, QuantityOf), NegatedValue);
    var ranked := WithSums(ventas, Cantidad, order);
    var q := TopProductosQuery(ventas, n);
    var a := GetTopProductosCantidad(ventas, n);
    ProductRankingsAgree(ventas);
    SortedProductGroups(ventas);
    assert |q| == |a|;
    forall i | 0 <= i < |q| ensures q[i].value == a[i].value {
      assert q[i] == sql[i];
      var k := TakeCount(n, |order|);
      assert a == WithSums(ventas, Cantidad, order[..k]);
      assert a[i].key == Keys(a)[i] == order[i] == Keys(ranked)[i] == ranked[i].key;
    }
  }

  /** When no two products have equal summed quantities, the query and the analyzer
      return exactly the same ranking. */
  lemma TopQueryEqualsAnalyzerWithoutTies(ventas: seq<Sale>, n: nat)
    requires forall p, q :: p in Products(ventas) && q in Products(ventas) && p != q ==>
      ProductSum(ventas, Cantidad, p) != ProductSum(ventas, Cantidad, q)
    ensures TopProductosQuery(ventas, n) == GetTopProductosCantidad(ventas, n)
  {
    var q := TopProductosQuery(ventas, n);
    var a := GetTopProductosCantidad(ventas, n);
    TopQueryMatchesAnalyzer(ventas, n);
    TopProductosQueryCorrect(ventas, n);
    TopNCorrect(ventas, Cantidad, n);
    forall i | 0 <= i < |q| ensures q[i].key == a[i].key {
    }
    EntriesEqual(q, a);
  }

  const RankPrefix := "top_3_cantidad_puesto_"

  /** The `tipo_analisis` of the `i`-th ranked product (`f'top_3_cantidad_puesto_{i}'`). */
  function RankLabel(i: nat): string {
    RankPrefix + NatToString(i)
  }

  /** Different positions get different labels. */
  lemma RankLabelInjective(i: nat, j: nat)
    requires RankLabel(i) == RankLabel(j)
    ensures i == j
  {
    var n := |RankPrefix|;
    assert RankLabel(i)[n..] == NatToString(i);
    assert RankLabel(j)[n..] == NatToString(j);
  }

  /** The rows `save_analysis_results` writes for the ranked products, numbered from `start`. */
  function RankRows(top: seq<Entry<string>>, start: nat): (rows: seq<AnalysisRow>)
    ensures |rows| == |top|
    ensures forall i :: 0 <= i < |top| ==> rows[i] == AnalysisRow(RankLabel(start + i), top[i].key, top[i].value)
  {
    seq(|top|, i requires 0 <= i < |top| => AnalysisRow(RankLabel(start + i), top[i].key, top[i].value))
  }

  /** Ranking one more product appends one row. */
  lemma RankRowsStep(top: seq<Entry<string>>, start: nat, i: nat)
    requires i < |top|
    ensures RankRows(top[..i + 1], start) ==
      RankRows(top[..i], start) + [AnalysisRow(RankLabel(start + i), top[i].key, top[i].value)]
  {
    var a := RankRows(top[..i + 1], start);
    var b := RankRows(top[..i], start) + [AnalysisRow(RankLabel(start + i), top[i].key, top[i].value)];
    assert forall j :: 0 <= j < |a| ==> a[j] == b[j];
  }

  /** Everything `save_analysis_results` writes, in insertion order. */
  function AnalysisRows(s: Summary): (rows: seq<AnalysisRow>)
    ensures |rows| == 2 + |s.top3Cantidad|
  {
    [AnalysisRow("producto_mas_vendido", s.masVendido.key, s.masVendido.value),
     AnalysisRow("producto_mayor_facturacion", s.mayorFacturacion.key, s.mayorFacturacion.value)] +
    RankRows(s.top3Cantidad, 1)
  }

  /** The first row of `rows` whose `tipo_analisis` is `tipo`, if any. */
  function Lookup(rows: seq<AnalysisRow>, tipo: string): (r: Option<AnalysisRow>)
    ensures r.Some? ==> r.value in rows && r.value.tipoAnalisis == tipo
    ensures r.None? ==> forall x :: x in rows ==> x.tipoAnalisis != tipo
  {
    if rows == [] then None
    else if rows[0].tipoAnalisis == tipo then Some(rows[0])
    else Lookup(rows[1..], tipo)
  }

  /** Reading the two winners back by `tipo_analisis` yields what was saved. */
  lemma AnalysisRowsReadBack(s: Summary)
    ensures Lookup(AnalysisRows(s), "producto_mas_vendido") ==
      Some(AnalysisRow("producto_mas_vendido", s.masVendido.key, s.masVendido.value))
    ensures Lookup(AnalysisRows(s), "producto_mayor_facturacion") ==
      Some(AnalysisRow("producto_mayor_facturacion", s.mayorFacturacion.key, s.mayorFacturacion.value))
  {
    var rows := AnalysisRows(s);
    assert rows[0].tipoAnalisis == "producto_mas_vendido";
    assert rows[1].tipoAnalisis == "producto_mayor_facturacion";
    assert "producto_mas_vendido"[0] == 'p';
    assert rows[1..][0] == rows[1];
  }

  /** Reading the `i`-th ranked label back yields the `i`-th product of the top three by quantity. */
  lemma AnalysisRowsReadBackRanked(s: Summary, i: nat)
    requires i < |s.top3Cantidad|
    ensures Lookup(AnalysisRows(s), RankLabel(i + 1)) ==
      Some(AnalysisRow(RankLabel(i + 1), s.top3Cantidad[i].key, s.top3Cantidad[i].value))
  {
    var header := AnalysisRows(s)[..2];
    var ranked := RankRows(s.top3Cantidad, 1);
    assert AnalysisRows(s) == header + ranked;
    LookupRanked(s.top3Cantidad, 1, i);
    HeaderIsNotRanked(header, i + 1);
    LookupAfter(header, ranked, RankLabel(i + 1));
  }

  /** The two winner rows carry labels that no ranked row has. */
  lemma HeaderIsNotRanked(header: seq<AnalysisRow>, n: nat)
    requires |header| == 2
    requires header[0].tipoAnalisis == "producto_mas_vendido"
    requires header[1].tipoAnalisis == "producto_mayor_facturacion"
    ensures forall j :: 0 <= j < |header| ==> header[j].tipoAnalisis != RankLabel(n)
  {
    assert RankLabel(n)[0] == RankPrefix[0] == 't';
    assert header[0].tipoAnalisis[0] == 'p' && header[1].tipoAnalisis[0] == 'p';
  }

  /** Looking up the `i`-th label among the ranked rows finds the `i`-th row. */
  lemma LookupRanked(top: seq<Entry<string>>, start: nat, i: nat)
    requires i < |top|
    ensures Lookup(RankRows(top, start), RankLabel(start + i)) ==
      Some(AnalysisRow(RankLabel(start + i), top[i].key, top[i].value))
  {
    var rows := RankRows(top, start);
    forall j | 0 <= j < i ensures rows[j].tipoAnalisis != RankLabel(start + i) {
      if RankLabel(start + j) == RankLabel(start + i) {
        RankLabelInjective(start + j, start + i);
      }
    }
    LookupSkip(rows, i, RankLabel(start + i));
    assert rows[i..][0] == rows[i];
  }

  /** A header without the looked-up label does not affect the lookup. */
  lemma LookupAfter(header: seq<AnalysisRow>, rows: seq<AnalysisRow>, tipo: string)
    requires forall j :: 0 <= j < |header| ==> header[j].tipoAnalisis != tipo
    ensures Lookup(header + rows, tipo) == Lookup(rows, tipo)
  {
    assert (header + rows)[|header|..] == rows;
    LookupSkip(header + rows, |header|, tipo);
  }

  /** Rows before the first match do not affect the lookup. */
  lemma {:induction false} LookupSkip(rows: seq<AnalysisRow>, k: nat, tipo: string)
    requires k <= |rows|
    requires forall j :: 0 <= j < k ==> rows[j].tipoAnalisis != tipo
    ensures Lookup(rows, tipo) == Lookup(rows[k..], tipo)
    decreases k
  {
    if k > 0 {
      assert rows[1..][k - 1..] == rows[k..];
      LookupSkip(rows[1..], k - 1, tipo);
    }
  }

  /** The SQLite file: each table is `None` until it has been created. */
  class SalesDb {
    var ventas: Option<seq<Sale>>
    var analisisResultados: Option<seq<AnalysisRow>>

    /** Both tables exist. */
    predicate Valid()
      reads this
    {
      ventas.Some? && analisisResultados.Some?
    }

    /** Open the database holding the given tables (as left by an earlier run) and create the missing ones. */
    constructor (existingVentas: Option<seq<Sale>>, existingAnalisis: Option<seq<AnalysisRow>>)
      ensures Valid()
      ensures existingVentas.Some? ==> ventas == existingVentas
      ensures existingAnalisis.Some? ==> analisisResultados == existingAnalisis
      ensures existingVentas.None? ==> ventas == Some([])
      ensures existingAnalisis.None? ==> analisisResultados == Some([])
    {
      ventas := existingVentas;
      analisisResultados := existingAnalisis;
      new;
      CreateTables();
    }

    /** `CREATE TABLE IF NOT EXISTS` for both tables: a missing table is created
        empty and an existing one keeps its rows. */
    method CreateTables()
      modifies this
      ensures Valid()
      ensures ventas == if old(ventas).None? then Some([]) else old(ventas)
      ensures analisisResultados == if old(analisisResultados).None? then Some([]) else old(analisisResultados)
    {
      if ventas.None? {
        ventas := Some([]);
      }
      if analisisResultados.None? {
        analisisResultados := Some([]);
      }
    }

    /** `DELETE FROM ventas`, then append `rows`. */
    method InsertVentasData(rows: seq<Sale>)
      requires Valid()
      modifies this
      ensures Valid()
      ensures ventas == Some(rows)
      ensures analisisResultados == old(analisisResultados)
    {
      ventas := Some([]);
      ventas := Some(ventas.value + rows);
      assert ventas.value == rows;
    }

    /** `DELETE FROM analisis_resultados`, then insert the two winners and one row per ranked product. */
    method SaveAnalysisResults(s: Summary)
      requires Valid()
      modifies this
      ensures Valid()
      ensures analisisResultados == Some(AnalysisRows(s))
      ensures ventas == old(ventas)
    {
      analisisResultados := Some([]);
      analisisResultados := Some(analisisResultados.value +
        [AnalysisRow("producto_mas_vendido", s.masVendido.key, s.masVendido.value)]);
      analisisResultados := Some(analisisResultados.value +
        [AnalysisRow("producto_mayor_facturacion", s.mayorFacturacion.key, s.mayorFacturacion.value)]);
      ghost var header := analisisResultados.value;
      assert header == AnalysisRows(s)[..2];
      var top := s.top3Cantidad;
      var i := 0;
      assert RankRows(top[..0], 1) == [];
      assert analisisResultados.value == header + RankRows(top[..0], 1);
      while i < |top|
        invariant 0 <= i <= |top|
        invariant ventas == old(ventas)
        invariant analisisResultados == Some(header + RankRows(top[..i], 1))
      {
        var row := AnalysisRow(RankLabel(i + 1), top[i].key, top[i].value);
        RankRowsStep(top, 1, i);
        assert (header + RankRows(top[..i], 1)) + [row] == header + (RankRows(top[..i], 1) + [row]);
        analisisResultados := Some(analisisResultados.value + [row]);
        i := i + 1;
      }
      assert top[..i] == top;
      assert AnalysisRows(s) == AnalysisRows(s)[..2] + RankRows(top, 1);
    }

    /** `get_top_productos_query(limit)` over the current `ventas` table. */
    method GetTopProductosQuery(limit: int) returns (r: seq<Entry<string>>)
      requires Valid()
      ensures r == TopProductosQuery(ventas.value, limit)
    {
      r := TopProductosQuery(ventas.value, limit);
    }

    /** `get_facturacion_mensual_query()` over the current `ventas` table. */
    method GetFacturacionMensualQuery() returns (r: seq<Entry<YearMonth>>)
      requires Valid()
      ensures r == FacturacionMensualQuery(ventas.value)
    {
      r := FacturacionMensualQuery(ventas.value);
    }
  }
}
