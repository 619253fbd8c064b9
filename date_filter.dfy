/** The date filter of a table column
    (`src/components/ui/table/data-table-date-filter.tsx`). A single-date
    column keeps its date in the query parameter named after the column; a
    range column keeps its bounds in `<column>_from` and `<column>_to`.
    Dates travel as their time value in milliseconds, written in decimal. */
module DateFilter {
  import opened Common
  import opened SearchParams

  // ---------------------------------------------------------------- column filter values

  /** A value of unknown type, as handed to `parseColumnFilterValue`. */
  datatype Unknown =
    | JNull
    | JUndefined
    | JString(s: string)
    | JNumber(n: real)
    | JBool(b: bool)
    | JArray(items: seq<Unknown>)
    | JObject

  datatype Scalar = SString(str: string) | SNumber(num: real)

  /** An array item is kept when it is a string or a number, and becomes
      undefined otherwise. */
  function ItemOf(v: Unknown): (r: Option<Scalar>)
    ensures r.Some? <==> v.JString? || v.JNumber?
  {
    match v
    case JString(s) => Some(SString(s))
    case JNumber(n) => Some(SNumber(n))
    case _ => None
  }

  function ValueOf(x: Scalar): Unknown
  {
    match x
    case SString(s) => JString(s)
    case SNumber(n) => JNumber(n)
  }

  /** `parseColumnFilterValue`: the value as a list. */
  function ParseColumnFilterValue(v: Unknown): (r: seq<Option<Scalar>>)
    ensures v.JNull? || v.JUndefined? || v.JBool? || v.JObject? ==> r == []
    ensures v.JString? || v.JNumber? ==> r == [ItemOf(v)]
    ensures v.JArray? ==> |r| == |v.items| && forall i :: 0 <= i < |r| ==> r[i] == ItemOf(v.items[i])
  {
    match v
    case JArray(items) => seq(|items|, i requires 0 <= i < |items| => ItemOf(items[i]))
    case JString(_) => [ItemOf(v)]
    case JNumber(_) => [ItemOf(v)]
    case _ => []
  }

  /** A list of strings and numbers comes back unchanged; the rest of an
      array becomes undefined in place. */
  lemma ParsedArrayKeepsScalars(items: seq<Unknown>, i: nat)
    requires i < |items|
    ensures |ParseColumnFilterValue(JArray(items))| == |items|
    ensures items[i].JString? || items[i].JNumber? ==>
      ParseColumnFilterValue(JArray(items))[i].Some? &&
      ValueOf(ParseColumnFilterValue(JArray(items))[i].value) == items[i]
    ensures !(items[i].JString? || items[i].JNumber?) ==>
      ParseColumnFilterValue(JArray(items))[i] == None
  {
  }

  // ---------------------------------------------------------------- numbers and dates

  /** The largest time value a `Date` may hold, in milliseconds. */
  const MaxTime: int := 8_640_000_000_000_000

  predicate IsDigit(c: char)
  {
    '0' <= c <= '9'
  }

  predicate AllDigits(s: string)
  {
    forall i :: 0 <= i < |s| ==> IsDigit(s[i])
  }

  function DigitsValue(s: string): nat
    requires AllDigits(s)
  {
    if s == [] then 0
    else DigitsValue(s[..|s| - 1]) * 10 + (s[|s| - 1] as int - '0' as int)
  }

  /** `Number(s)` on a string of decimal digits with an optional sign; any
      other string is NaN (`None`). */
  function NumberOf(s: string): (r: Option<real>)
    ensures r.Some? ==> r.value == r.value.Floor as real
    ensures r.Some? ==> |s| > 0 && (r.value < 0.0 ==> s[0] == '-')
    ensures |s| > 0 && AllDigits(s) ==> r.Some? && r.value >= 0.0
  {
    if |s| > 0 && AllDigits(s) then Some(DigitsValue(s) as real)
    else if |s| > 1 && (s[0] == '-' || s[0] == '+') && AllDigits(s[1..]) then
      var n: int := DigitsValue(s[1..]);
      Some((if s[0] == '-' then -n else n) as real)
    else None
  }

  function Digits(n: nat): (r: string)
    ensures |r| >= 1 && AllDigits(r)
  {
    if n < 10 then [('0' as int + n) as char]
    else Digits(n / 10) + [('0' as int + n % 10) as char]
  }

  /** `toString()` of an integral time value (plain decimal, as every time
      value is below 10^21). */
  function DecimalString(n: int): (r: string)
    ensures r != ""
  {
    if n < 0 then "-" + Digits(-n) else Digits(n)
  }

  lemma {:induction false} DigitsRoundTrip(n: nat)
    ensures DigitsValue(Digits(n)) == n
  {
    var d := Digits(n);
    if n >= 10 {
      DigitsRoundTrip(n / 10);
      assert d[..|d| - 1] == Digits(n / 10);
    }
  }

  /** Reading back the decimal form of an integer gives the integer. */
  lemma NumberOfDecimalString(n: int)
    ensures NumberOf(DecimalString(n)) == Some(n as real)
  {
    if n < 0 {
      var d := Digits(-n);
      assert DecimalString(n)[1..] == d;
      DigitsRoundTrip(-n);
    } else {
      DigitsRoundTrip(n);
    }
  }

  /** Truncation toward zero. */
  function Trunc(x: real): int
  {
    if x >= 0.0 then x.Floor else -((-x).Floor)
  }

  /** `new Date(n)` and its validity: NaN and values beyond `MaxTime` give an
      invalid date, others are truncated to whole milliseconds. */
  function DateOf(n: Option<real>): (r: Option<int>)
    ensures r.Some? ==> -MaxTime <= r.value <= MaxTime
  {
    if n.None? || n.value > MaxTime as real || n.value < -(MaxTime as real) then None
    else Some(Trunc(n.value))
  }

  /** A timestamp as it reaches `parseAsDate`. */
  datatype Stamp = StampText(text: string) | StampNumber(n: real)

  /** `parseAsDate`: undefined for a missing or falsy timestamp, or one that
      does not make a valid date. */
  function ParseAsDate(t: Option<Stamp>): (r: Option<int>)
    ensures t.None? || t == Some(StampText("")) || t == Some(StampNumber(0.0)) ==> r.None?
    ensures t.Some? && t.value.StampText? && NumberOf(t.value.text).None? ==> r.None?
    ensures r.Some? ==> -MaxTime <= r.value <= MaxTime
  {
    match t
    case None => None
    case Some(StampText(s)) => if s == "" then None else DateOf(NumberOf(s))
    case Some(StampNumber(n)) => if n == 0.0 then None else DateOf(Some(n))
  }

  /** The decimal time value this filter writes reads back as the same date. */
  lemma StoredDateReadsBack(ms: int)
    requires -MaxTime <= ms <= MaxTime
    ensures ParseAsDate(Some(StampText(DecimalString(ms)))) == Some(ms)
  {
    NumberOfDecimalString(ms);
    assert Trunc(ms as real) == ms;
  }

  // ---------------------------------------------------------------- the current selection

  /** `DateSelection`: a list of dates, or a range with optional ends. */
  datatype Selection = Days(days: seq<int>) | Span(from: Option<int>, to: Option<int>)

  /** `getIsDateRange`. */
  predicate IsDateRange(v: Selection)
  {
    v.Span?
  }

  /** A parameter read as a date, when it is present and non-empty. */
  function ParamDate(p: Option<string>): Option<int>
  {
    if Blank(p) then None else ParseAsDate(Some(StampText(p.value)))
  }

  /** `selectedDates`: the bounds in range mode, at most one date otherwise. */
  function SelectedDates(multiple: bool, fromParam: Option<string>, toParam: Option<string>,
                         singleParam: Option<string>): (r: Selection)
    ensures multiple ==> r == Span(ParamDate(fromParam), ParamDate(toParam))
    ensures !multiple ==> r.Days? && |r.days| <= 1
    ensures !multiple ==> (r.days == [] <==> ParamDate(singleParam).None?)
    ensures !multiple && r.days != [] ==> r.days[0] == ParamDate(singleParam).value
  {
    if multiple then Span(ParamDate(fromParam), ParamDate(toParam))
    else
      var d := ParamDate(singleParam);
      Days(if d.Some? then [d.value] else [])
  }

  /** `hasValue`. */
  predicate HasValue(multiple: bool, sel: Selection)
    // only a selection of the column's own shape has a value
    ensures HasValue(multiple, sel) ==> (multiple <==> sel.Span?)
  {
    if multiple then sel.Span? && (sel.from.Some? || sel.to.Some?)
    else sel.Days? && |sel.days| > 0
  }

  /** The clear button shows exactly when a bound of the range, or the single
      date, parses. */
  lemma HasValueIff(multiple: bool, fromParam: Option<string>, toParam: Option<string>,
                    singleParam: Option<string>)
    ensures HasValue(multiple, SelectedDates(multiple, fromParam, toParam, singleParam)) <==>
      (multiple && (ParamDate(fromParam).Some? || ParamDate(toParam).Some?)) ||
      (!multiple && ParamDate(singleParam).Some?)
  {
  }

  /** `formatDateRange`; `format` is the locale formatting of a date. */
  function FormatDateRange(from: Option<int>, to: Option<int>, format: int -> string): (r: string)
    ensures from.None? && to.None? ==> r == ""
    ensures from.Some? && to.Some? ==> r == format(from.value) + " - " + format(to.value)
    ensures from.Some? && to.None? ==> r == format(from.value)
    ensures from.None? && to.Some? ==> r == format(to.value)
  {
    if from.None? && to.None? then ""
    else if from.Some? && to.Some? then format(from.value) + " - " + format(to.value)
    else format(if from.Some? then from.value else to.value)
  }

  /** The button's `label`: the title and, when something is selected, the
      date text; nothing when the selection has the other mode's shape. */
  function Label(multiple: bool, sel: Selection, title: string, format: int -> string): (r: Option<(string, Option<string>)>)
    ensures r.Some? <==> (multiple <==> sel.Span?)
    ensures r.Some? ==> r.value.0 == title
    ensures r.Some? ==> (r.value.1.Some? <==> HasValue(multiple, sel))
    ensures r.Some? && !multiple && r.value.1.Some? ==> r.value.1.value == format(sel.days[0])
  {
    if multiple then
      if !sel.Span? then None
      else Some((title, if sel.from.Some? || sel.to.Some? then Some(FormatDateRange(sel.from, sel.to, format)) else None))
    else
      if sel.Span? then None
      else Some((title, if |sel.days| > 0 then Some(format(sel.days[0])) else None))
  }

  /** The label shows date text exactly when the clear button shows. */
  lemma LabelShowsDateIffHasValue(multiple: bool, fromParam: Option<string>, toParam: Option<string>,
                                  singleParam: Option<string>, title: string, format: int -> string)
    ensures Label(multiple, SelectedDates(multiple, fromParam, toParam, singleParam), title, format).Some?
    ensures Label(multiple, SelectedDates(multiple, fromParam, toParam, singleParam), title, format).value.1.Some? <==>
      HasValue(multiple, SelectedDates(multiple, fromParam, toParam, singleParam))
  {
  }

  // ---------------------------------------------------------------- writing the parameters

  function FromName(col: string): string
  {
    col + "_from"
  }

  function ToName(col: string): string
  {
    col + "_to"
  }

  /** The keys this column's filter owns in the given mode. */
  function Owned(col: string, multiple: bool): set<string>
  {
    if multiple then {FromName(col), ToName(col)} else {col}
  }

  lemma BoundNamesDiffer(col: string)
    ensures FromName(col) != ToName(col)
  {
    assert |FromName(col)| != |ToName(col)|;
  }

  /** An update: null deletes the key, a string sets it. */
  type Update = (string, Option<string>)

  function ApplyUpdate(s: seq<Entry>, u: Update): seq<Entry>
  {
    if u.1.None? then Drop(s, {u.0}) else SetValue(s, u.0, u.1.value)
  }

  /** The updates applied in order. */
  function ApplyUpdates(s: seq<Entry>, us: seq<Update>): seq<Entry>
    decreases |us|
  {
    if us == [] then s else ApplyUpdate(ApplyUpdates(s, us[..|us| - 1]), us[|us| - 1])
  }

  function KeysOf(us: seq<Update>): set<string>
  {
    set i | 0 <= i < |us| :: us[i].0
  }

  /** The keys of a record are distinct. */
  predicate DistinctKeys(us: seq<Update>)
  {
    forall i, j :: 0 <= i < j < |us| ==> us[i].0 != us[j].0
  }

  /** What a key holds after its update. */
  function Expected(v: Option<string>): seq<string>
  {
    if v.None? then [] else [v.value]
  }

  /** One update leaves every key outside `ks` as it was and gives its own
      key the expected values. */
  lemma ApplyUpdateLaw(s: seq<Entry>, u: Update, ks: set<string>)
    requires u.0 in ks
    ensures Drop(ApplyUpdate(s, u), ks) == Drop(s, ks)
    ensures GetAll(ApplyUpdate(s, u), u.0) == Expected(u.1)
  {
    if u.1.None? {
      DropDrop(s, {u.0}, ks);
      assert {u.0} + ks == ks;
      GetAllOfDrop(s, {u.0}, u.0);
    } else {
      SetValueLaw(s, u.0, u.1.value, ks);
    }
  }

  /** Applying updates leaves alone every key none of them names. */
  lemma {:induction false} ApplyUpdatesKeepOthers(s: seq<Entry>, us: seq<Update>, ks: set<string>)
    requires KeysOf(us) <= ks
    ensures Drop(ApplyUpdates(s, us), ks) == Drop(s, ks)
    decreases |us|
  {
    if us != [] {
      var init := us[..|us| - 1];
      assert KeysOf(init) <= KeysOf(us);
      ApplyUpdatesKeepOthers(s, init, ks);
      assert us[|us| - 1].0 in KeysOf(us);
      ApplyUpdateLaw(ApplyUpdates(s, init), us[|us| - 1], ks);
    }
  }

  /** With distinct keys, a key mapped to null is gone afterwards and a key
      mapped to a string holds exactly that string. */
  lemma {:induction false} ApplyUpdatesValue(s: seq<Entry>, us: seq<Update>, i: nat)
    requires DistinctKeys(us)
    requires i < |us|
    ensures GetAll(ApplyUpdates(s, us), us[i].0) == Expected(us[i].1)
    decreases |us|
  {
    var n := |us| - 1;
    var init := us[..n];
    var before := ApplyUpdates(s, init);
    if i == n {
      ApplyUpdateLaw(before, us[n], {us[n].0});
    } else {
      ApplyUpdatesValue(s, init, i);
      ApplyUpdateLaw(before, us[n], {us[n].0});
      OtherKeyUnchanged(before, ApplyUpdate(before, us[n]), us[n].0, us[i].0);
    }
  }

  /** `updateSearchParams`: the updates applied to the parameters one by one. */
  method UpdateSearchParams(params: Params, updates: seq<Update>)
    modifies params
    ensures params.entries == ApplyUpdates(old(params.entries), updates)
  {
    ghost var start := params.entries;
    for i := 0 to |updates|
      invariant params.entries == ApplyUpdates(start, updates[..i])
    {
      var (key, value) := updates[i];
      assert updates[..i + 1][..i] == updates[..i];
      if value.None? {
        params.Delete(key);
      } else {
        params.Set(key, value.value);
      }
    }
    assert updates[..|updates|] == updates;
  }

  /** What the calendar hands to `onSelect`. */
  datatype Picked = PickedDay(ms: int) | PickedSpan(from: Option<int>, to: Option<int>)

  function StampOf(d: Option<int>): Option<string>
  {
    if d.None? then None else Some(DecimalString(d.value))
  }

  /** The updates `onSelect` makes, or `None` when the calendar's value has
      the other mode's shape and nothing is written. */
  function SelectUpdates(col: string, multiple: bool, picked: Option<Picked>): (r: Option<seq<Update>>)
    ensures r.None? <==> picked.Some? && (multiple <==> picked.value.PickedDay?)
    ensures r.Some? ==> |r.value| == if multiple then 2 else 1
    // clearing the calendar deletes every owned key
    ensures picked.None? ==> r.Some? && forall i :: 0 <= i < |r.value| ==> r.value[i].1.None?
    // a picked day is written so that `Number()` reads it back
    ensures r.Some? && picked.Some? && picked.value.PickedDay? ==>
      r.value[0].1.Some? && NumberOf(r.value[0].1.value) == Some(picked.value.ms as real)
  {
    match picked
    case None =>
      if multiple then Some([(FromName(col), None), (ToName(col), None)])
      else Some([(col, None)])
    case Some(PickedSpan(f, t)) =>
      if multiple then Some([(FromName(col), StampOf(f)), (ToName(col), StampOf(t))]) else None
    case Some(PickedDay(ms)) =>
      NumberOfDecimalString(ms);
      if !multiple then Some([(col, Some(DecimalString(ms)))]) else None
  }

  /** The updates `onReset` makes. */
  function ResetUpdates(col: string, multiple: bool): seq<Update>
  {
    if multiple then [(FromName(col), None), (ToName(col), None)] else [(col, None)]
  }

  /** Each mode writes only the keys it owns, each at most once. */
  lemma SelectWritesOwnedKeys(col: string, multiple: bool, picked: Option<Picked>)
    ensures SelectUpdates(col, multiple, picked).Some? ==>
      KeysOf(SelectUpdates(col, multiple, picked).value) <= Owned(col, multiple) &&
      DistinctKeys(SelectUpdates(col, multiple, picked).value)
    ensures KeysOf(ResetUpdates(col, multiple)) <= Owned(col, multiple)
    ensures DistinctKeys(ResetUpdates(col, multiple))
  {
    BoundNamesDiffer(col);
  }

  /** Selecting nothing writes exactly what the reset button writes, and
      both leave the owned keys empty. */
  lemma ClearingMatchesReset(s: seq<Entry>, col: string, multiple: bool, k: string)
    requires k in Owned(col, multiple)
    ensures SelectUpdates(col, multiple, None) == Some(ResetUpdates(col, multiple))
    ensures GetAll(ApplyUpdates(s, ResetUpdates(col, multiple)), k) == []
  {
    var us := ResetUpdates(col, multiple);
    SelectWritesOwnedKeys(col, multiple, None);
    var i :| 0 <= i < |us| && us[i].0 == k;
    ApplyUpdatesValue(s, us, i);
  }

  /** `onSelect`. */
  method OnSelect(params: Params, col: string, multiple: bool, picked: Option<Picked>)
    modifies params
    ensures SelectUpdates(col, multiple, picked).None? ==> params.entries == old(params.entries)
    ensures SelectUpdates(col, multiple, picked).Some? ==>
      params.entries == ApplyUpdates(old(params.entries), SelectUpdates(col, multiple, picked).value)
  {
    var updates := SelectUpdates(col, multiple, picked);
    if updates.Some? {
      UpdateSearchParams(params, updates.value);
    }
  }

  /** `onReset`. */
  method OnReset(params: Params, col: string, multiple: bool)
    modifies params
    ensures params.entries == ApplyUpdates(old(params.entries), ResetUpdates(col, multiple))
  {
    UpdateSearchParams(params, ResetUpdates(col, multiple));
  }

  /** Whatever is picked, the parameters the column does not own are kept,
      in order. */
  lemma SelectKeepsOtherParams(s: seq<Entry>, col: string, multiple: bool, picked: Option<Picked>)
    requires SelectUpdates(col, multiple, picked).Some?
    ensures Drop(ApplyUpdates(s, SelectUpdates(col, multiple, picked).value), Owned(col, multiple))
      == Drop(s, Owned(col, multiple))
  {
    SelectWritesOwnedKeys(col, multiple, picked);
    ApplyUpdatesKeepOthers(s, SelectUpdates(col, multiple, picked).value, Owned(col, multiple));
  }

  /** A picked range is stored so that it reads back as the same range; a
      missing end leaves no parameter for that end. */
  lemma PickedRangeReadsBack(s: seq<Entry>, col: string, f: Option<int>, t: Option<int>)
    requires f.Some? ==> -MaxTime <= f.value <= MaxTime
    requires t.Some? ==> -MaxTime <= t.value <= MaxTime
    ensures t.None? ==> GetAll(ApplyUpdates(s, SelectUpdates(col, true, Some(PickedSpan(f, t))).value), ToName(col)) == []
    ensures f.None? ==> GetAll(ApplyUpdates(s, SelectUpdates(col, true, Some(PickedSpan(f, t))).value), FromName(col)) == []
    ensures var r := ApplyUpdates(s, SelectUpdates(col, true, Some(PickedSpan(f, t))).value);
      SelectedDates(true, Get(r, FromName(col)), Get(r, ToName(col)), Get(r, col)) == Span(f, t)
  {
    var us := SelectUpdates(col, true, Some(PickedSpan(f, t))).value;
    var r := ApplyUpdates(s, us);
    SelectWritesOwnedKeys(col, true, Some(PickedSpan(f, t)));
    ApplyUpdatesValue(s, us, 0);
    ApplyUpdatesValue(s, us, 1);
    if f.Some? {
      StoredDateReadsBack(f.value);
    }
    if t.Some? {
      StoredDateReadsBack(t.value);
    }
  }

  /** A picked day is stored so that it reads back as the same day. */
  lemma PickedDayReadsBack(s: seq<Entry>, col: string, ms: int)
    requires -MaxTime <= ms <= MaxTime
    ensures var r := ApplyUpdates(s, SelectUpdates(col, false, Some(PickedDay(ms))).value);
      SelectedDates(false, Get(r, FromName(col)), Get(r, ToName(col)), Get(r, col)) == Days([ms])
  {
    var us := SelectUpdates(col, false, Some(PickedDay(ms))).value;
    ApplyUpdatesValue(s, us, 0);
    StoredDateReadsBack(ms);
  }
}
