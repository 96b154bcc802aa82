/** The record shapes the pipeline passes along: a raw row of the sales table
    (every cell may be missing), a cleaned and totalled sale (the rows the
    analyzer reads and the `ventas` table stores), and an aggregate entry
    (one key of a grouped result with its summed value). */
module Records {
  import opened Wrappers
  import opened Seqs
  import opened Text
  import opened Dates

  /** A `fecha` cell: text as read from the file, or a date after `pd.to_datetime`. */
  datatype Fecha = Text(raw: string) | Stamp(date: Timestamp)

  /** One row of the loaded DataFrame; `None` is a null cell (NaN/NaT). `total`
      is `None` until `calculate_totals` adds the column. */
  datatype Row = Row(
    fecha: Option<Fecha>,
    producto: Option<string>,
    cantidad: Option<int>,
    precioUnitario: Option<real>,
    total: Option<real>)

  /** A cleaned row with its total: a row of the analyzed DataFrame and of table `ventas`. */
  datatype Sale = Sale(fecha: Date, producto: string, cantidad: int, precioUnitario: real, total: real)

  /** `cantidad * precio_unitario`: the revenue of one row. */
  function Revenue(cantidad: int, precioUnitario: real): real {
    cantidad as real * precioUnitario
  }

  /** The invariant every cleaned, totalled sale satisfies. */
  predicate ValidSale(s: Sale) {
    ValidDate(s.fecha) && s.cantidad > 0 && s.precioUnitario > 0.0 && Strip(s.producto) != [] &&
    s.total == Revenue(s.cantidad, s.precioUnitario)
  }

  /** One group of a grouped sum: its key and the summed value. */
  datatype Entry<K> = Entry(key: K, value: real)

  function Keys<K>(g: seq<Entry<K>>): (ks: seq<K>)
    ensures |ks| == |g|
    ensures forall i :: 0 <= i < |g| ==> ks[i] == g[i].key
  {
    seq(|g|, i requires 0 <= i < |g| => g[i].key)
  }

  lemma KeysCons<K>(e: Entry<K>, rest: seq<Entry<K>>)
    ensures Keys([e] + rest) == [e.key] + Keys(rest)
  {
    assert forall i :: 0 <= i < |rest| + 1 ==> Keys([e] + rest)[i] == ([e.key] + Keys(rest))[i];
  }

  /** Sequences of entries that agree position by position are equal. */
  lemma EntriesEqual<K>(a: seq<Entry<K>>, b: seq<Entry<K>>)
    requires |a| == |b|
    requires forall i :: 0 <= i < |a| ==> a[i].key == b[i].key && a[i].value == b[i].value
    ensures a == b
  {
  }

  /** The entry of key `k` whose value is `f(k)`. */
  function WithValue<K>(f: K -> real): K -> Entry<K> {
    k => Entry(k, f(k))
  }

  /** Entries whose values are `f` of their keys are determined by their keys. */
  lemma EntriesOfKeys<K>(s: seq<Entry<K>>, f: K -> real)
    requires forall e :: e in s ==> e.value == f(e.key)
    ensures s == Map(Keys(s), WithValue(f))
  {
    var m := Map(Keys(s), WithValue(f));
    forall i | 0 <= i < |s| ensures s[i] == m[i] {
      assert s[i] in s;
    }
  }

  /** Two lists of entries valued by the same `f` with the same keys hold the same entries. */
  lemma SameKeysSameEntries<K>(a: seq<Entry<K>>, b: seq<Entry<K>>, f: K -> real)
    requires forall e :: e in a ==> e.value == f(e.key)
    requires forall e :: e in b ==> e.value == f(e.key)
    requires multiset(Keys(a)) == multiset(Keys(b))
    ensures multiset(a) == multiset(b)
  {
    EntriesOfKeys(a, f);
    EntriesOfKeys(b, f);
    MapPermutation(Keys(a), Keys(b), WithValue(f));
  }

  /** Reordering entries reorders their keys alike. */
  lemma KeysPermutation<K>(a: seq<Entry<K>>, b: seq<Entry<K>>)
    requires multiset(a) == multiset(b)
    ensures multiset(Keys(a)) == multiset(Keys(b))
  {
    var key := (e: Entry<K>) => e.key;
    assert Keys(a) == Map(a, key);
    assert Keys(b) == Map(b, key);
    MapPermutation(a, b, key);
  }

  function ProductOf(s: Sale): string {
    s.producto
  }

  function MonthOf(s: Sale): YearMonth {
    YearMonthOf(s.fecha)
  }

  function QuantityOf(s: Sale): real {
    s.cantidad as real
  }

  function TotalOf(s: Sale): real {
    s.total
  }

  /** `groupby(key)[value].sum()` at one key: the sum of `valOf` over the rows whose key is `k`. */
  function SumOf<K(==)>(s: seq<Sale>, keyOf: Sale -> K, valOf: Sale -> real, k: K): real {
    if s == [] then 0.0
    else SumOf(s[..|s| - 1], keyOf, valOf, k) + (if keyOf(s[|s| - 1]) == k then valOf(s[|s| - 1]) else 0.0)
  }

  /** One more row adds its own contribution. */
  lemma SumOfSnoc<K>(s: seq<Sale>, x: Sale, keyOf: Sale -> K, valOf: Sale -> real, k: K)
    ensures SumOf(s + [x], keyOf, valOf, k) == SumOf(s, keyOf, valOf, k) + (if keyOf(x) == k then valOf(x) else 0.0)
  {
    assert (s + [x])[..|s|] == s;
  }

  lemma {:induction false} SumOfConcat<K>(a: seq<Sale>, b: seq<Sale>, keyOf: Sale -> K, valOf: Sale -> real, k: K)
    ensures SumOf(a + b, keyOf, valOf, k) == SumOf(a, keyOf, valOf, k) + SumOf(b, keyOf, valOf, k)
    decreases |b|
  {
    if b == [] {
      assert a + b == a;
    } else {
      assert (a + b)[..|a + b| - 1] == a + b[..|b| - 1];
      SumOfConcat(a, b[..|b| - 1], keyOf, valOf, k);
    }
  }

  /** Taking one row out of the middle takes out exactly its contribution. */
  lemma SumOfRemoveAt<K>(b: seq<Sale>, i: nat, keyOf: Sale -> K, valOf: Sale -> real, k: K)
    requires i < |b|
    ensures SumOf(b, keyOf, valOf, k) ==
      SumOf(b[..i] + b[i + 1..], keyOf, valOf, k) + (if keyOf(b[i]) == k then valOf(b[i]) else 0.0)
  {
    var pre, x, post := b[..i], b[i], b[i + 1..];
    assert b == (pre + [x]) + post;
    SumOfConcat(pre + [x], post, keyOf, valOf, k);
    SumOfSnoc(pre, x, keyOf, valOf, k);
    SumOfConcat(pre, post, keyOf, valOf, k);
  }

  /** A grouped sum does not depend on the order of the rows. */
  lemma {:induction false} SumOfPermutation<K>(a: seq<Sale>, b: seq<Sale>, keyOf: Sale -> K, valOf: Sale -> real, k: K)
    requires multiset(a) == multiset(b)
    ensures SumOf(a, keyOf, valOf, k) == SumOf(b, keyOf, valOf, k)
    decreases |a|
  {
    if a == [] {
      assert |multiset(b)| == 0;
    } else {
      var x := a[|a| - 1];
      var a' := a[..|a| - 1];
      assert a == a' + [x];
      assert x in multiset(b);
      var i :| 0 <= i < |b| && b[i] == x;
      MultisetRemoveAt(b, i);
      assert multiset(a') == multiset(a) - multiset{x};
      SumOfPermutation(a', b[..i] + b[i + 1..], keyOf, valOf, k);
      SumOfRemoveAt(b, i, keyOf, valOf, k);
    }
  }
}
