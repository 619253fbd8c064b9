/** The server page that lists expenses (`src/features/gastos/gastos-listing.tsx`):
    it reads paging, list filters and date bounds from the query string,
    builds the database query step by step, and asks for one page of rows.
    Instants are time values in milliseconds; the ISO strings the page sends
    order the same way. */
module GastosListing {
  import opened Common
  import opened Records
  import opened DateFilter

  /** One day in milliseconds. */
  const Day: int := 86_400_000

  /** The query-string values the page reads, `None` where absent. */
  datatype ListingParams = ListingParams(
    page: Option<int>,
    perPage: Option<int>,
    categories: Option<seq<string>>,
    currencies: Option<seq<string>>,
    tipoTasas: Option<seq<string>>,
    from: Option<string>,
    to: Option<string>,
    dateArr: Option<seq<string>>)

  // ---------------------------------------------------------------- parseInt

  predicate IsSpace(c: char)
  {
    c == ' ' || c == '\t' || c == '\n' || c == '\r' || c == '\U{B}' || c == '\U{C}'
  }

  function TrimStart(s: string): (r: string)
    ensures |r| <= |s| && r == s[|s| - |r|..]
    ensures r == [] || !IsSpace(r[0])
  {
    if s != [] && IsSpace(s[0]) then TrimStart(s[1..]) else s
  }

  /** The longest prefix made of decimal digits. */
  function DigitPrefix(s: string): (r: string)
    ensures AllDigits(r) && |r| <= |s| && r == s[..|r|]
    ensures |r| < |s| ==> !IsDigit(s[|r|])
  {
    if s != [] && IsDigit(s[0]) then [s[0]] + DigitPrefix(s[1..]) else []
  }

  /** `parseInt(s, 10)`: leading blanks, an optional sign, then as many
      digits as there are; NaN (`None`) when there is no digit. */
  function ParseInt(s: string): (r: Option<int>)
    ensures r.Some? ==> exists i :: 0 <= i < |s| && IsDigit(s[i])
  {
    var t := TrimStart(s);
    var negative := t != [] && t[0] == '-';
    var body := if t != [] && (t[0] == '-' || t[0] == '+') then t[1..] else t;
    var d := DigitPrefix(body);
    if d == [] then None
    else
      assert body[0] == d[0];
      assert IsDigit(s[|s| - |t| + (|t| - |body|)]);
      Some(if negative then -(DigitsValue(d) as int) else DigitsValue(d) as int)
  }

  lemma {:induction false} DigitPrefixOfDigits(s: string)
    requires AllDigits(s)
    ensures DigitPrefix(s) == s
  {
    if s != [] {
      DigitPrefixOfDigits(s[1..]);
    }
  }

  /** `parseInt` of a non-empty digit string, with or without a leading minus. */
  lemma ParseIntOfDigits(d: string, negative: bool)
    requires d != [] && AllDigits(d)
    ensures ParseInt((if negative then "-" else "") + d) ==
      Some(if negative then -(DigitsValue(d) as int) else DigitsValue(d) as int)
  {
    var s := (if negative then "-" else "") + d;
    assert !IsSpace(s[0]);
    assert TrimStart(s) == s;
    DigitPrefixOfDigits(d);
    if negative {
      assert s[1..] == d;
    } else {
      assert s == d;
    }
  }

  /** A time value the date filter writes is read back by `parseInt`. */
  lemma ParseIntOfDecimalString(n: int)
    ensures ParseInt(DecimalString(n)) == Some(n)
  {
    var m: nat := if n < 0 then -n else n;
    var d := Digits(m);
    DigitsRoundTrip(m);
    ParseIntOfDigits(d, n < 0);
    assert DecimalString(n) == (if n < 0 then "-" else "") + d;
  }

  // ---------------------------------------------------------------- instants

  /** `new Date(ms).toISOString()`: it throws for an invalid date. */
  function Instant(ms: int): (r: Result<int>)
    ensures r.Ok? <==> -MaxTime <= ms <= MaxTime
    ensures r.Ok? ==> r.data == ms
  {
    if -MaxTime <= ms <= MaxTime then Ok(ms) else Err("Invalid time value")
  }

  /** `setHours(23, 59, 59, 999)` on the date `ms`, in a zone `offset`
      milliseconds ahead of UTC, then `toISOString()`. */
  function EndOfDay(ms: int, offset: int): (r: Result<int>)
    ensures !(-MaxTime <= ms <= MaxTime) ==> r.Err?
    // a date at least a day away from the end of the range always has an end of day
    ensures -MaxTime <= ms && ms + Day <= MaxTime ==> r.Ok?
    ensures r.Ok? ==> -MaxTime <= r.data <= MaxTime
    ensures r.Ok? ==> ms <= r.data < ms + Day && (r.data + offset) % Day == Day - 1
  {
    if !(-MaxTime <= ms <= MaxTime) then Err("Invalid time value")
    else
      var local := ms + offset;
      Instant(local - local % Day + Day - 1 - offset)
  }

  /** The end bound is on the same local day, at its last millisecond, and
      moving it to the end of its day again changes nothing. */
  lemma EndOfDayLaw(ms: int, offset: int)
    requires EndOfDay(ms, offset).Ok?
    ensures var e := EndOfDay(ms, offset).data;
      ms <= e < ms + Day && (e + offset) % Day == Day - 1 &&
      (e + offset) / Day == (ms + offset) / Day &&
      EndOfDay(e, offset) == Ok(e)
  {
  }

  // ---------------------------------------------------------------- the bounds

  /** A truthy string parameter read by `parseInt`. */
  function TextMs(x: Option<string>): Option<int>
  {
    if Blank(x) then None else ParseInt(x.value)
  }

  function ArrMs(arr: seq<string>, i: nat): Option<int>
  {
    if |arr| > i then ParseInt(arr[i]) else None
  }

  function ArrOf(x: Option<seq<string>>): seq<string>
  {
    if x.None? then [] else x.value
  }

  /** The time value the start bound is taken from: `expense_date_from` when
      it parses, else the first `expense_date` element. */
  function StartMs(p: ListingParams): Option<int>
  {
    if TextMs(p.from).Some? then TextMs(p.from) else ArrMs(ArrOf(p.dateArr), 0)
  }

  /** The time value the end bound is taken from: `expense_date_to` when it
      parses, else the second `expense_date` element. */
  function EndMs(p: ListingParams): Option<int>
  {
    if TextMs(p.to).Some? then TextMs(p.to) else ArrMs(ArrOf(p.dateArr), 1)
  }

  /** Both bounds, or the error of a date that cannot be written as ISO. */
  function Bounds(p: ListingParams, offset: int): (r: Result<(Option<int>, Option<int>)>)
    ensures r.Ok? ==> (r.data.0.None? <==> StartMs(p).None?)
    ensures r.Ok? ==> (r.data.1.None? <==> EndMs(p).None?)
    ensures r.Ok? && r.data.0.Some? ==> r.data.0.value == StartMs(p).value
    ensures r.Ok? && r.data.1.Some? ==> Ok(r.data.1.value) == EndOfDay(EndMs(p).value, offset)
  {
    var s := StartMs(p);
    var e := EndMs(p);
    if s.Some? && Instant(s.value).Err? then Err("Invalid time value")
    else if e.Some? && EndOfDay(e.value, offset).Err? then Err("Invalid time value")
    else Ok((s, if e.None? then None else Some(EndOfDay(e.value, offset).data)))
  }

  // ---------------------------------------------------------------- the query

  datatype Constraint =
    | In(column: string, values: seq<string>)
    | Gte(column: string, at: int)
    | Lte(column: string, at: int)

  /** The filters, and the rows asked for (`range(fromIdx, toIdx)`). */
  datatype Query = Query(constraints: seq<Constraint>, fromIdx: int, toIdx: int)

  function FromIdx(page: int, perPage: int): int
  {
    (page - 1) * perPage
  }

  function ToIdx(page: int, perPage: int): int
  {
    page * perPage - 1
  }

  function OrInt(x: Option<int>, d: int): int
  {
    if x.None? then d else x.value
  }

  /** The `in` filter on a column, when its list is not empty. */
  function InFilter(column: string, vs: seq<string>): seq<Constraint>
  {
    if |vs| > 0 then [In(column, vs)] else []
  }

  /** The lower bound on the expense date, when there is one. */
  function GteFilter(start: Option<int>): seq<Constraint>
  {
    if start.Some? then [Gte("expense_date", start.value)] else []
  }

  /** The upper bound on the expense date, when there is one. */
  function LteFilter(end: Option<int>): seq<Constraint>
  {
    if end.Some? then [Lte("expense_date", end.value)] else []
  }

  /** The constraints for the given lists and bounds. */
  function ConstraintsFor(cats: seq<string>, currs: seq<string>, tipos: seq<string>,
                          start: Option<int>, end: Option<int>): (r: seq<Constraint>)
    // an `in` filter is only sent for a non-empty list, and only with that list
    ensures forall c :: c in r && c.In? ==>
      |c.values| > 0 && c in [In("category", cats), In("original_currency", currs), In("tipo_tasa", tipos)]
    ensures (exists c :: c in r && c.Gte?) <==> start.Some?
    ensures (exists c :: c in r && c.Lte?) <==> end.Some?
    ensures r == [] <==> cats == [] && currs == [] && tipos == [] && start.None? && end.None?
  {
    var ins := InFilter("category", cats) + InFilter("original_currency", currs) + InFilter("tipo_tasa", tipos);
    assert forall c :: c in ins ==> c.In?;
    var r := ins + GteFilter(start) + LteFilter(end);
    assert start.Some? ==> Gte("expense_date", start.value) in r;
    assert end.Some? ==> Lte("expense_date", end.value) in r;
    r
  }

  /** The query the page sends. */
  function QueryFor(p: ListingParams, offset: int): (r: Result<Query>)
    ensures r.Err? <==> Bounds(p, offset).Err?
    // one page of `perPage` rows, by default the first ten
    ensures r.Ok? ==> r.data.toIdx - r.data.fromIdx + 1 == OrInt(p.perPage, 10)
    ensures r.Ok? && p.page.None? && p.perPage.None? ==> r.data.fromIdx == 0 && r.data.toIdx == 9
    ensures r.Ok? ==> ((exists c :: c in r.data.constraints && c.Gte?) <==> StartMs(p).Some?)
    ensures r.Ok? ==> ((exists c :: c in r.data.constraints && c.Lte?) <==> EndMs(p).Some?)
  {
    match Bounds(p, offset)
    case Err(m) => Err(m)
    case Ok((start, end)) =>
      var page := OrInt(p.page, 1);
      var perPage := OrInt(p.perPage, 10);
      Ok(Query(ConstraintsFor(ArrOf(p.categories), ArrOf(p.currencies), ArrOf(p.tipoTasas), start, end),
               FromIdx(page, perPage), ToIdx(page, perPage)))
  }

  /** The conversion of one start candidate, as the page does it. */
  method StartInstant(ms: Option<int>) returns (r: Result<Option<int>>)
    ensures ms.None? ==> r == Ok(None)
    ensures ms.Some? ==> (r.Ok? <==> Instant(ms.value).Ok?)
    ensures ms.Some? && r.Ok? ==> r.data == Some(ms.value)
  {
    if ms.None? {
      return Ok(None);
    }
    var iso := Instant(ms.value);
    if iso.Err? {
      return Err(iso.message);
    }
    return Ok(Some(iso.data));
  }

  /** The conversion of one end candidate, as the page does it. */
  method EndInstant(ms: Option<int>, offset: int) returns (r: Result<Option<int>>)
    ensures ms.None? ==> r == Ok(None)
    ensures ms.Some? ==> (r.Ok? <==> EndOfDay(ms.value, offset).Ok?)
    ensures ms.Some? && r.Ok? ==> r.data == Some(EndOfDay(ms.value, offset).data)
  {
    if ms.None? {
      return Ok(None);
    }
    var iso := EndOfDay(ms.value, offset);
    if iso.Err? {
      return Err(iso.message);
    }
    return Ok(Some(iso.data));
  }

  /** The last two `if`s: a bound the text parameters left unset falls back
      to the `expense_date` array. */
  method ArrayFallback(dateArr: seq<string>, startISO: Option<int>, endISO: Option<int>, offset: int)
    returns (r: Result<(Option<int>, Option<int>)>)
    ensures r.Err? <==>
      (startISO.None? && ArrMs(dateArr, 0).Some? && Instant(ArrMs(dateArr, 0).value).Err?) ||
      (endISO.None? && ArrMs(dateArr, 1).Some? && EndOfDay(ArrMs(dateArr, 1).value, offset).Err?)
    ensures r.Ok? ==> r.data.0 == if startISO.Some? then startISO else ArrMs(dateArr, 0)
    ensures r.Ok? && endISO.Some? ==> r.data.1 == endISO
    ensures r.Ok? && endISO.None? ==> (r.data.1.None? <==> ArrMs(dateArr, 1).None?)
    ensures r.Ok? && endISO.None? && r.data.1.Some? ==> Ok(r.data.1.value) == EndOfDay(ArrMs(dateArr, 1).value, offset)
  {
    var start := startISO;
    var end := endISO;
    if start.None? && |dateArr| >= 1 {
      var step := StartInstant(ParseInt(dateArr[0]));
      if step.Err? {
        return Err(step.message);
      }
      start := step.data;
    }
    if end.None? && |dateArr| >= 2 {
      var step := EndInstant(ParseInt(dateArr[1]), offset);
      if step.Err? {
        return Err(step.message);
      }
      end := step.data;
    }
    r := Ok((start, end));
  }

  /** The four `if`s that assign `startISO` and `endISO`; the first date
      that cannot be written throws. */
  method ResolveBounds(p: ListingParams, offset: int) returns (r: Result<(Option<int>, Option<int>)>)
    ensures r.Err? <==> Bounds(p, offset).Err?
    ensures r.Ok? ==> r == Bounds(p, offset)
  {
    assert StartMs(p) == if TextMs(p.from).Some? then TextMs(p.from) else ArrMs(ArrOf(p.dateArr), 0);
    assert EndMs(p) == if TextMs(p.to).Some? then TextMs(p.to) else ArrMs(ArrOf(p.dateArr), 1);
    var startISO: Option<int> := None;
    var endISO: Option<int> := None;
    var step := StartInstant(TextMs(p.from));
    if step.Err? {
      return Err(step.message);
    }
    startISO := step.data;
    step := EndInstant(TextMs(p.to), offset);
    if step.Err? {
      return Err(step.message);
    }
    endISO := step.data;
    r := ArrayFallback(ArrOf(p.dateArr), startISO, endISO, offset);
    if r.Ok? {
      var b := Bounds(p, offset);
      assert b.Ok?;
      assert r.data.0 == b.data.0;
      assert r.data.1 == b.data.1;
    }
  }

  /** The chained `query = query.in(…)`, `gte`, `lte` calls. */
  method AddFilters(categories: seq<string>, currencies: seq<string>, tipoTasas: seq<string>,
                    startISO: Option<int>, endISO: Option<int>) returns (constraints: seq<Constraint>)
    ensures constraints == ConstraintsFor(categories, currencies, tipoTasas, startISO, endISO)
  {
    constraints := [];
    if |categories| > 0 {
      constraints := constraints + [In("category", categories)];
    }
    assert constraints == InFilter("category", categories);
    if |currencies| > 0 {
      constraints := constraints + [In("original_currency", currencies)];
    }
    assert constraints == InFilter("category", categories) + InFilter("original_currency", currencies);
    if |tipoTasas| > 0 {
      constraints := constraints + [In("tipo_tasa", tipoTasas)];
    }
    ghost var lists := constraints;
    assert lists == InFilter("category", categories) + InFilter("original_currency", currencies) +
      InFilter("tipo_tasa", tipoTasas);
    if startISO.Some? {
      constraints := constraints + [Gte("expense_date", startISO.value)];
    }
    assert constraints == lists + GteFilter(startISO);
    if endISO.Some? {
      constraints := constraints + [Lte("expense_date", endISO.value)];
    }
    assert constraints == lists + GteFilter(startISO) + LteFilter(endISO);
  }

  /** `GastosListingPage` up to the request. */
  method BuildQuery(p: ListingParams, offset: int) returns (r: Result<Query>)
    ensures r.Err? <==> QueryFor(p, offset).Err?
    ensures r.Ok? ==> r == QueryFor(p, offset)
  {
    var page := OrInt(p.page, 1);
    var perPage := OrInt(p.perPage, 10);
    var bounds := ResolveBounds(p, offset);
    if bounds.Err? {
      return Err(bounds.message);
    }
    var constraints := AddFilters(ArrOf(p.categories), ArrOf(p.currencies), ArrOf(p.tipoTasas),
                                  bounds.data.0, bounds.data.1);
    r := Ok(Query(constraints, FromIdx(page, perPage), ToIdx(page, perPage)));
  }

  // ---------------------------------------------------------------- what the query selects

  /** A constraint as the database applies it; `timeOf` reads the stored
      `expense_date`. A null `tipo_tasa` is never in a list. */
  predicate Holds(c: Constraint, g: Gasto, timeOf: string -> int)
  {
    match c
    case In(col, vs) =>
      if col == "category" then g.category in vs
      else if col == "original_currency" then g.original_currency in vs
      else if col == "tipo_tasa" then g.tipo_tasa.Some? && g.tipo_tasa.value in vs
      else false
    case Gte(_, at) => timeOf(g.expense_date) >= at
    case Lte(_, at) => timeOf(g.expense_date) <= at
  }

  predicate Matches(q: Query, g: Gasto, timeOf: string -> int)
  {
    AllHold(q.constraints, g, timeOf)
  }

  /** An empty list and an undefined bound restrict nothing; the others keep
      exactly the rows in the list or on the right side of the bound. */
  lemma ConstraintsSelect(cats: seq<string>, currs: seq<string>, tipos: seq<string>,
                          start: Option<int>, end: Option<int>, g: Gasto, timeOf: string -> int)
    ensures AllHold(ConstraintsFor(cats, currs, tipos, start, end), g, timeOf) <==>
      (cats == [] || g.category in cats) &&
      (currs == [] || g.original_currency in currs) &&
      (tipos == [] || (g.tipo_tasa.Some? && g.tipo_tasa.value in tipos)) &&
      (start.None? || timeOf(g.expense_date) >= start.value) &&
      (end.None? || timeOf(g.expense_date) <= end.value)
  {
    var a := InFilter("category", cats);
    var b := InFilter("original_currency", currs);
    var c := InFilter("tipo_tasa", tipos);
    var d := GteFilter(start);
    var e := LteFilter(end);
    if cats != [] { AllHoldSingleton(a[0], g, timeOf); }
    if currs != [] { AllHoldSingleton(b[0], g, timeOf); }
    if tipos != [] { AllHoldSingleton(c[0], g, timeOf); }
    if start.Some? { AllHoldSingleton(d[0], g, timeOf); }
    if end.Some? { AllHoldSingleton(e[0], g, timeOf); }
    AllHoldAppend(a + b + c + d, e, g, timeOf);
    AllHoldAppend(a + b + c, d, g, timeOf);
    AllHoldAppend(a + b, c, g, timeOf);
    AllHoldAppend(a, b, g, timeOf);
  }

  /** The rows the page's query selects. */
  lemma QuerySelects(p: ListingParams, offset: int, g: Gasto, timeOf: string -> int)
    requires QueryFor(p, offset).Ok?
    ensures Matches(QueryFor(p, offset).data, g, timeOf) <==>
      (ArrOf(p.categories) == [] || g.category in ArrOf(p.categories)) &&
      (ArrOf(p.currencies) == [] || g.original_currency in ArrOf(p.currencies)) &&
      (ArrOf(p.tipoTasas) == [] || (g.tipo_tasa.Some? && g.tipo_tasa.value in ArrOf(p.tipoTasas))) &&
      (Bounds(p, offset).data.0.None? || timeOf(g.expense_date) >= Bounds(p, offset).data.0.value) &&
      (Bounds(p, offset).data.1.None? || timeOf(g.expense_date) <= Bounds(p, offset).data.1.value)
  {
    ConstraintsSelect(ArrOf(p.categories), ArrOf(p.currencies), ArrOf(p.tipoTasas),
                      Bounds(p, offset).data.0, Bounds(p, offset).data.1, g, timeOf);
  }

  predicate AllHold(cs: seq<Constraint>, g: Gasto, timeOf: string -> int)
  {
    forall i :: 0 <= i < |cs| ==> Holds(cs[i], g, timeOf)
  }

  lemma AllHoldSingleton(c: Constraint, g: Gasto, timeOf: string -> int)
    ensures AllHold([c], g, timeOf) <==> Holds(c, g, timeOf)
  {
    assert [c][0] == c;
  }

  lemma AllHoldAppend(cs: seq<Constraint>, ds: seq<Constraint>, g: Gasto, timeOf: string -> int)
    ensures AllHold(cs + ds, g, timeOf) <==> AllHold(cs, g, timeOf) && AllHold(ds, g, timeOf)
  {
    if AllHold(cs, g, timeOf) && AllHold(ds, g, timeOf) {
      forall i | 0 <= i < |cs + ds|
        ensures Holds((cs + ds)[i], g, timeOf)
      {
        if i >= |cs| {
          assert (cs + ds)[i] == ds[i - |cs|];
        }
      }
    }
    if AllHold(cs + ds, g, timeOf) {
      forall i | 0 <= i < |cs|
        ensures Holds(cs[i], g, timeOf)
      {
        assert (cs + ds)[i] == cs[i];
      }
      forall i | 0 <= i < |ds|
        ensures Holds(ds[i], g, timeOf)
      {
        assert (cs + ds)[|cs| + i] == ds[i];
      }
    }
  }

  /** A bound the date filter wrote in `expense_date_from` is the start. */
  lemma WrittenStartIsUsed(p: ListingParams, ms: int)
    requires p.from == Some(DecimalString(ms))
    ensures StartMs(p) == Some(ms)
  {
    ParseIntOfDecimalString(ms);
  }

  /** The values the page gets from `searchParamsCache` as written: the
      cache parses only the keys it declares, and of the keys the page reads
      it declares just `page`, `perPage` and `category`; `original_currency`,
      `tipo_tasa`, `expense_date_from`, `expense_date_to` and `expense_date`
      always come back undefined, whatever the query string holds. */
  function FromCache(page: int, perPage: int, categories: Option<seq<string>>): (r: ListingParams)
    ensures r.page == Some(page) && r.perPage == Some(perPage) && r.categories == categories
    ensures r.currencies.None? && r.tipoTasas.None?
    ensures r.from.None? && r.to.None? && r.dateArr.None?
  {
    ListingParams(Some(page), Some(perPage), categories, None, None, None, None, None)
  }

  /** As written, the page never restricts the currency, the rate type or
      the expense date: the only constraint it can send is the category's,
      so the table's currency, rate-type and date-range filters have no
      effect on the rows listed. */
  lemma CachedQueryIgnoresFilters(page: int, perPage: int, categories: Option<seq<string>>, offset: int)
    ensures QueryFor(FromCache(page, perPage, categories), offset)
            == Ok(Query(InFilter("category", ArrOf(categories)), FromIdx(page, perPage), ToIdx(page, perPage)))
  {
    var p := FromCache(page, perPage, categories);
    assert StartMs(p).None? && EndMs(p).None?;
    assert Bounds(p, offset) == Ok((None, None));
    assert ConstraintsFor(ArrOf(categories), [], [], None, None) == InFilter("category", ArrOf(categories));
  }

  /** Counterexample: a start the date filter wrote, with the intended
      keys, is the start bound; through the cache as written it is lost and
      the query has no lower bound on the expense date. */
  lemma WrittenStartLostAsWritten(ms: int, offset: int)
    ensures StartMs(ListingParams(None, None, None, None, None, Some(DecimalString(ms)), None, None)) == Some(ms)
    ensures StartMs(FromCache(1, 10, None)) == None
    ensures forall i :: 0 <= i < |QueryFor(FromCache(1, 10, None), offset).data.constraints| ==>
              !QueryFor(FromCache(1, 10, None), offset).data.constraints[i].Gte?
  {
    WrittenStartIsUsed(ListingParams(None, None, None, None, None, Some(DecimalString(ms)), None, None), ms);
    CachedQueryIgnoresFilters(1, 10, None, offset);
  }

  // ---------------------------------------------------------------- paging

  /** A page spans `perPage` rows and the next page starts right after it. */
  lemma PagesTile(page: int, perPage: int)
    ensures ToIdx(page, perPage) - FromIdx(page, perPage) + 1 == perPage
    ensures FromIdx(page + 1, perPage) == ToIdx(page, perPage) + 1
  {
    assert (page - 1) * perPage == page * perPage - perPage;
    assert (page + 1 - 1) * perPage == page * perPage;
  }

  /** Every row index lies on exactly one page. */
  lemma RowOnOnePage(n: nat, page: int, perPage: int)
    requires perPage >= 1 && page >= 1
    ensures FromIdx(page, perPage) <= n <= ToIdx(page, perPage) <==> page == n / perPage + 1
  {
    var k := n / perPage;
    var m := n % perPage;
    assert n == k * perPage + m && 0 <= m < perPage;
    var lo := (page - 1) * perPage;
    assert FromIdx(page, perPage) == lo;
    assert page * perPage == lo + perPage;
    assert ToIdx(page, perPage) == lo + perPage - 1;
    if page - 1 < k {
      MulMonotone(page, k, perPage);
      assert lo + perPage == page * perPage <= k * perPage;
      assert !(n <= lo + perPage - 1);
    } else if page - 1 > k {
      MulMonotone(k + 1, page - 1, perPage);
      assert (k + 1) * perPage == k * perPage + perPage;
      assert !(lo <= n);
    } else {
      assert lo == k * perPage;
    }
  }

  lemma MulMonotone(a: int, b: int, c: int)
    requires a <= b && c >= 0
    ensures a * c <= b * c
  {
    assert b * c - a * c == (b - a) * c;
  }

  // ---------------------------------------------------------------- the response

  /** What reaches the table: a failed request throws; missing data is an
      empty list and a missing count is zero. */
  function TableInput(response: Result<(Option<seq<Gasto>>, Option<int>)>): (r: Result<(seq<Gasto>, int)>)
    ensures response.Err? <==> r.Err?
    ensures r.Ok? && response.data.0.Some? ==> r.data.0 == response.data.0.value
    ensures r.Ok? && response.data.0.None? ==> r.data.0 == []
    ensures r.Ok? ==> r.data.1 == OrInt(response.data.1, 0)
  {
    match response
    case Err(m) => Err(m)
    case Ok((data, count)) => Ok((if data.None? then [] else data.value, OrInt(count, 0)))
  }
}
