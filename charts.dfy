/** The two expense charts (`src/features/gastos/components/barchart.tsx`,
    `src/features/gastos/components/areachart.tsx`). Both walk the expenses
    once, keeping a JavaScript `Map` from a grouping key to a running
    bucket: the first expense with a new key opens a zero bucket at the end
    of the map's insertion order, and every expense adds its amounts (a
    missing amount counts as zero) to its key's bucket. The bar chart
    groups by expense date and sorts by time; the area chart groups by
    month. */
module Charts {
  import opened Common
  import opened Records

  /** One group of expenses: the grouping key, the caption shown for it (the `date` or `month` field) and
      the two running sums. In the bar chart the caption is the date itself. */
  datatype Bucket = Bucket(key: string, caption: string, bolivares: real, divisa: real)

  function GastoBolivares(g: Gasto): real
  {
    OrZero(g.pago_bolivares)
  }

  function GastoDivisa(g: Gasto): real
  {
    OrZero(g.pago_divisa)
  }

  function BucketBolivares(b: Bucket): real
  {
    b.bolivares
  }

  function BucketDivisa(b: Bucket): real
  {
    b.divisa
  }

  /** The expenses of one group. */
  function HasKey(keyOf: Gasto -> string, k: string): Gasto -> bool
  {
    (g: Gasto) => keyOf(g) == k
  }

  /** An expense's amount when it belongs to group `k`, otherwise zero. */
  function InGroup(keyOf: Gasto -> string, k: string, f: Gasto -> real): Gasto -> real
  {
    (g: Gasto) => if keyOf(g) == k then f(g) else 0.0
  }

  predicate Distinct(s: seq<string>)
  {
    forall a, b :: 0 <= a < b < |s| ==> s[a] != s[b]
  }

  /** The keys of `gs`, each once, in the order they first appear. */
  function FirstKeys(gs: seq<Gasto>, keyOf: Gasto -> string): (r: seq<string>)
    ensures Distinct(r)
    ensures forall k :: k in r <==> exists i :: 0 <= i < |gs| && keyOf(gs[i]) == k
    decreases |gs|
  {
    if gs == [] then []
    else
      var init := gs[..|gs| - 1];
      var p := FirstKeys(init, keyOf);
      var k := keyOf(gs[|gs| - 1]);
      assert forall i :: 0 <= i < |init| ==> init[i] == gs[i];
      if k in p then p else p + [k]
  }

  /** `map.has(k)` / `map.get(k)` on the map's entries, kept in insertion
      order with distinct keys: where the entry for `k` is, if anywhere. */
  function KeyIndex(entries: seq<Bucket>, k: string): (r: Option<nat>)
    ensures r.Some? ==> r.value < |entries| && entries[r.value].key == k
    ensures r.None? ==> forall j :: 0 <= j < |entries| ==> entries[j].key != k
    decreases |entries|
  {
    if entries == [] then None
    else if entries[0].key == k then Some(0)
    else
      var rest := KeyIndex(entries[1..], k);
      if rest.Some? then Some(rest.value + 1) else None
  }

  /** What the map holds after the expenses `gs`: one bucket per key in
      first-appearance order, each holding its key's sums and the caption
      of its first expense, and together the sums of all expenses. */
  ghost predicate Grouped(gs: seq<Gasto>, keyOf: Gasto -> string, labelOf: Gasto -> string, entries: seq<Bucket>)
  {
    && KeysInOrder(gs, keyOf, entries)
    && (forall j :: 0 <= j < |entries| ==> BucketHolds(gs, keyOf, labelOf, entries[j].key, entries[j]))
    && TotalsMatch(gs, entries)
  }

  ghost predicate KeysInOrder(gs: seq<Gasto>, keyOf: Gasto -> string, entries: seq<Bucket>)
  {
    var keys := FirstKeys(gs, keyOf);
    |entries| == |keys| && forall j :: 0 <= j < |entries| ==> entries[j].key == keys[j]
  }

  ghost predicate TotalsMatch(gs: seq<Gasto>, entries: seq<Bucket>)
  {
    && SumOf(entries, BucketBolivares) == SumOf(gs, GastoBolivares)
    && SumOf(entries, BucketDivisa) == SumOf(gs, GastoDivisa)
  }

  ghost predicate BucketHolds(gs: seq<Gasto>, keyOf: Gasto -> string, labelOf: Gasto -> string, k: string, b: Bucket)
  {
    && b.key == k
    && b.bolivares == SumOf(gs, InGroup(keyOf, k, GastoBolivares))
    && b.divisa == SumOf(gs, InGroup(keyOf, k, GastoDivisa))
    && Find(gs, HasKey(keyOf, k)).Some?
    && b.caption == labelOf(Find(gs, HasKey(keyOf, k)).value)
  }

  /** The empty map groups no expenses. */
  lemma GroupedEmpty(keyOf: Gasto -> string, labelOf: Gasto -> string)
    ensures Grouped([], keyOf, labelOf, [])
  {
    assert FirstKeys([], keyOf) == [];
  }

  /** `Grouped` spelled out. */
  lemma GroupedMeans(gs: seq<Gasto>, keyOf: Gasto -> string, labelOf: Gasto -> string, entries: seq<Bucket>)
    requires Grouped(gs, keyOf, labelOf, entries)
    ensures |entries| == |FirstKeys(gs, keyOf)|
    ensures forall j :: 0 <= j < |entries| ==> entries[j].key == FirstKeys(gs, keyOf)[j]
    ensures forall j :: 0 <= j < |entries| ==> BucketHolds(gs, keyOf, labelOf, entries[j].key, entries[j])
    ensures SumOf(entries, BucketBolivares) == SumOf(gs, GastoBolivares)
    ensures SumOf(entries, BucketDivisa) == SumOf(gs, GastoDivisa)
  {
  }

  /** The bucket `b` after the expense `g` was added to it. */
  function Plus(b: Bucket, g: Gasto): (r: Bucket)
    ensures r.key == b.key && r.caption == b.caption
    ensures r.bolivares == b.bolivares + GastoBolivares(g) && r.divisa == b.divisa + GastoDivisa(g)
  {
    b.(bolivares := b.bolivares + GastoBolivares(g), divisa := b.divisa + GastoDivisa(g))
  }

  /** The `forEach` callback keeps `Grouped`. `mid` is the map after the
      zero bucket for a new key was set, `j` the place of `g`'s entry. */
  lemma GroupStep(gs: seq<Gasto>, g: Gasto, keyOf: Gasto -> string, labelOf: Gasto -> string,
                  e0: seq<Bucket>, mid: seq<Bucket>, j: nat, e1: seq<Bucket>)
    requires Grouped(gs, keyOf, labelOf, e0)
    requires KeyIndex(e0, keyOf(g)).Some? ==> mid == e0 && j == KeyIndex(e0, keyOf(g)).value
    requires KeyIndex(e0, keyOf(g)).None? ==> mid == e0 + [Bucket(keyOf(g), labelOf(g), 0.0, 0.0)] && j == |e0|
    requires j < |mid| && e1 == mid[j := Plus(mid[j], g)]
    ensures Grouped(gs + [g], keyOf, labelOf, e1)
  {
    KeysStep(gs, g, keyOf, labelOf, e0, mid, j, e1);
    forall i | 0 <= i < |e1|
      ensures BucketHolds(gs + [g], keyOf, labelOf, e1[i].key, e1[i])
    {
      EntryStep(gs, g, keyOf, labelOf, e0, mid, j, e1, i);
    }
    TotalsStep(gs, g, keyOf(g), Bucket(keyOf(g), labelOf(g), 0.0, 0.0), e0, mid, j, e1);
  }

  lemma KeysStep(gs: seq<Gasto>, g: Gasto, keyOf: Gasto -> string, labelOf: Gasto -> string,
                 e0: seq<Bucket>, mid: seq<Bucket>, j: nat, e1: seq<Bucket>)
    requires KeysInOrder(gs, keyOf, e0)
    requires KeyIndex(e0, keyOf(g)).Some? ==> mid == e0 && j == KeyIndex(e0, keyOf(g)).value
    requires KeyIndex(e0, keyOf(g)).None? ==> mid == e0 + [Bucket(keyOf(g), labelOf(g), 0.0, 0.0)] && j == |e0|
    requires j < |mid| && e1 == mid[j := Plus(mid[j], g)]
    ensures KeysInOrder(gs + [g], keyOf, e1)
  {
    var t := gs + [g];
    assert t[..|t| - 1] == gs;
    var keys := FirstKeys(gs, keyOf);
    var k := keyOf(g);
    if KeyIndex(e0, k).Some? {
      assert k in keys;
    } else {
      assert k !in keys;
    }
  }

  lemma EntryStep(gs: seq<Gasto>, g: Gasto, keyOf: Gasto -> string, labelOf: Gasto -> string,
                  e0: seq<Bucket>, mid: seq<Bucket>, j: nat, e1: seq<Bucket>, i: nat)
    requires Grouped(gs, keyOf, labelOf, e0)
    requires KeyIndex(e0, keyOf(g)).Some? ==> mid == e0 && j == KeyIndex(e0, keyOf(g)).value
    requires KeyIndex(e0, keyOf(g)).None? ==> mid == e0 + [Bucket(keyOf(g), labelOf(g), 0.0, 0.0)] && j == |e0|
    requires j < |mid| && e1 == mid[j := Plus(mid[j], g)]
    requires i < |e1|
    ensures BucketHolds(gs + [g], keyOf, labelOf, e1[i].key, e1[i])
  {
    var k := keyOf(g);
    if i < |e0| {
      var keys := FirstKeys(gs, keyOf);
      assert e0[i].key == keys[i];
      if i != j {
        assert keys[i] != k by {
          if KeyIndex(e0, k).Some? {
            assert keys[j] == k;
          }
        }
      }
      BucketStep(gs, g, keyOf, labelOf, e0[i].key, Some(e0[i]), e1[i]);
    } else {
      assert i == j == |e0|;
      assert k !in FirstKeys(gs, keyOf);
      BucketStep(gs, g, keyOf, labelOf, k, None, e1[i]);
    }
  }

  lemma BucketStep(gs: seq<Gasto>, g: Gasto, keyOf: Gasto -> string, labelOf: Gasto -> string,
                   k: string, b0: Option<Bucket>, b1: Bucket)
    requires b0.Some? ==> BucketHolds(gs, keyOf, labelOf, k, b0.value)
    requires b0.None? ==> forall i :: 0 <= i < |gs| ==> keyOf(gs[i]) != k
    requires b0.None? ==> keyOf(g) == k && b1 == Bucket(k, labelOf(g), GastoBolivares(g), GastoDivisa(g))
    requires b0.Some? && keyOf(g) == k ==> b1 == Plus(b0.value, g)
    requires b0.Some? && keyOf(g) != k ==> b1 == b0.value
    ensures BucketHolds(gs + [g], keyOf, labelOf, k, b1)
  {
    var p := HasKey(keyOf, k);
    SumOfAppend(gs, [g], InGroup(keyOf, k, GastoBolivares));
    SumOfAppend(gs, [g], InGroup(keyOf, k, GastoDivisa));
    SumOfSingleton(g, InGroup(keyOf, k, GastoBolivares));
    SumOfSingleton(g, InGroup(keyOf, k, GastoDivisa));
    FindExtend(gs, g, p);
    if b0.None? {
      SumOfZero(gs, InGroup(keyOf, k, GastoBolivares));
      SumOfZero(gs, InGroup(keyOf, k, GastoDivisa));
      assert Find(gs, p).None?;
    }
  }

  lemma TotalsStep(gs: seq<Gasto>, g: Gasto, k: string, zero: Bucket,
                   e0: seq<Bucket>, mid: seq<Bucket>, j: nat, e1: seq<Bucket>)
    requires TotalsMatch(gs, e0)
    requires zero.bolivares == 0.0 && zero.divisa == 0.0
    requires KeyIndex(e0, k).Some? ==> mid == e0 && j == KeyIndex(e0, k).value
    requires KeyIndex(e0, k).None? ==> mid == e0 + [zero] && j == |e0|
    requires j < |mid| && e1 == mid[j := Plus(mid[j], g)]
    ensures TotalsMatch(gs + [g], e1)
  {
    SumOfAppend(gs, [g], GastoBolivares);
    SumOfAppend(gs, [g], GastoDivisa);
    SumOfSingleton(g, GastoBolivares);
    SumOfSingleton(g, GastoDivisa);
    if KeyIndex(e0, k).None? {
      SumOfAppend(e0, [zero], BucketBolivares);
      SumOfAppend(e0, [zero], BucketDivisa);
      SumOfSingleton(zero, BucketBolivares);
      SumOfSingleton(zero, BucketDivisa);
    }
    SumOfUpdate(mid, j, Plus(mid[j], g), BucketBolivares);
    SumOfUpdate(mid, j, Plus(mid[j], g), BucketDivisa);
  }

  /** One turn of the `forEach`: find the entry of the expense's key, add
      a zero entry when there is none, and add the expense's amounts to it. */
  method AddToGroup(entries: seq<Bucket>, g: Gasto, keyOf: Gasto -> string, labelOf: Gasto -> string,
                    ghost seen: seq<Gasto>) returns (r: seq<Bucket>)
    requires Grouped(seen, keyOf, labelOf, entries)
    ensures Grouped(seen + [g], keyOf, labelOf, r)
  {
    var k := keyOf(g);
    r := entries;
    var at := KeyIndex(r, k);
    if at.None? {
      r := r + [Bucket(k, labelOf(g), 0.0, 0.0)];
      at := Some(|r| - 1);
    }
    ghost var mid := r;
    var e := r[at.value];
    r := r[at.value := Plus(e, g)];
    GroupStep(seen, g, keyOf, labelOf, entries, mid, at.value, r);
  }

  /** The `forEach` over the expenses and `Array.from(map.values())`; the
      map is its entries in insertion order. */
  method GroupExpenses(gastos: seq<Gasto>, keyOf: Gasto -> string, labelOf: Gasto -> string) returns (buckets: seq<Bucket>)
    ensures |buckets| == |FirstKeys(gastos, keyOf)|
    ensures forall j :: 0 <= j < |buckets| ==> buckets[j].key == FirstKeys(gastos, keyOf)[j]
    ensures forall j :: 0 <= j < |buckets| ==> BucketHolds(gastos, keyOf, labelOf, buckets[j].key, buckets[j])
    ensures SumOf(buckets, BucketBolivares) == SumOf(gastos, GastoBolivares)
    ensures SumOf(buckets, BucketDivisa) == SumOf(gastos, GastoDivisa)
  {
    var entries: seq<Bucket> := [];
    GroupedEmpty(keyOf, labelOf);
    for i := 0 to |gastos|
      invariant Grouped(gastos[..i], keyOf, labelOf, entries)
    {
      assert gastos[..i + 1] == gastos[..i] + [gastos[i]];
      entries := AddToGroup(entries, gastos[i], keyOf, labelOf, gastos[..i]);
    }
    assert gastos[..|gastos|] == gastos;
    buckets := entries;
    GroupedMeans(gastos, keyOf, labelOf, buckets);
  }

  function DateOf(g: Gasto): string
  {
    g.expense_date
  }

  /** The bar chart's `chartData`: one bucket per expense date, captioned by
      that date, ordered by the date's time (`timeOf` stands for
      `new Date(date).getTime()`), with the chart totals equal to the
      expenses' totals. */
  method BarChartData(gastos: seq<Gasto>, timeOf: string -> int) returns (data: seq<Bucket>)
    ensures SortedBy(data, (b: Bucket) => timeOf(b.key))
    ensures |data| == |FirstKeys(gastos, DateOf)|
    ensures forall k :: k in FirstKeys(gastos, DateOf) ==> exists j :: 0 <= j < |data| && data[j].key == k
    ensures forall j :: 0 <= j < |data| ==> BucketHolds(gastos, DateOf, DateOf, data[j].key, data[j])
    ensures forall j :: 0 <= j < |data| ==> data[j].caption == data[j].key
    ensures SumOf(data, BucketBolivares) == SumOf(gastos, GastoBolivares)
    ensures SumOf(data, BucketDivisa) == SumOf(gastos, GastoDivisa)
  {
    var grouped := GroupExpenses(gastos, DateOf, DateOf);
    data := SortBy(grouped, (b: Bucket) => timeOf(b.key));
    forall j | 0 <= j < |data|
      ensures BucketHolds(gastos, DateOf, DateOf, data[j].key, data[j])
    {
      assert data[j] in multiset(grouped);
    }
    forall k | k in FirstKeys(gastos, DateOf)
      ensures exists j :: 0 <= j < |data| && data[j].key == k
    {
      var i :| 0 <= i < |grouped| && FirstKeys(gastos, DateOf)[i] == k;
      assert grouped[i] in multiset(data);
    }
    SumOfPermutation(data, grouped, BucketBolivares);
    SumOfPermutation(data, grouped, BucketDivisa);
  }

  function MonthKeyOf(monthKey: string -> string): Gasto -> string
  {
    (g: Gasto) => monthKey(g.expense_date)
  }

  function MonthLabelOf(monthLabel: string -> string): Gasto -> string
  {
    (g: Gasto) => monthLabel(g.expense_date)
  }

  /** The area chart's `data`: one bucket per month (`monthKey` stands for
      the ISO "YYYY-MM" prefix of the date), captioned with the localized
      month of its first expense (`monthLabel`), in first-appearance order. */
  method AreaChartData(gastos: seq<Gasto>, monthKey: string -> string, monthLabel: string -> string) returns (data: seq<Bucket>)
    ensures |data| == |FirstKeys(gastos, MonthKeyOf(monthKey))|
    ensures forall j :: 0 <= j < |data| ==> data[j].key == FirstKeys(gastos, MonthKeyOf(monthKey))[j]
    ensures forall j :: 0 <= j < |data| ==>
      BucketHolds(gastos, MonthKeyOf(monthKey), MonthLabelOf(monthLabel), data[j].key, data[j])
    ensures SumOf(data, BucketBolivares) == SumOf(gastos, GastoBolivares)
    ensures SumOf(data, BucketDivisa) == SumOf(gastos, GastoDivisa)
  {
    data := GroupExpenses(gastos, MonthKeyOf(monthKey), MonthLabelOf(monthLabel));
  }
}
