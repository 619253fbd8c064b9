/** The filter bar above a data table
    (`src/components/ui/table/data-table-toolbar.tsx`): one widget per
    filterable column, chosen by the column's variant; every change of a
    filter is mirrored into the query string, and the reset button clears
    the filters and their parameters. */
module Toolbar {
  import opened Common
  import opened SearchParams

  /** A column's filter value: a list whose items may be undefined, or a
      single value that may be undefined. */
  datatype FilterValue = Many(items: seq<Option<string>>) | One(value: Option<string>)

  /** An item that reaches the query string: neither undefined nor ''. */
  predicate Kept(v: Option<string>)
  {
    v.Some? && v.value != ""
  }

  /** The kept items, in order. */
  function KeptValues(items: seq<Option<string>>): (r: seq<string>)
    ensures |r| <= |items|
    ensures forall x :: x in r <==> Some(x) in items && x != ""
  {
    if items == [] then []
    else (if Kept(items[0]) then [items[0].value] else []) + KeptValues(items[1..])
  }

  /** `id` paired with each value. */
  function Pairs(id: string, vs: seq<string>): (r: seq<Entry>)
    ensures |r| == |vs|
    ensures forall i :: 0 <= i < |vs| ==> r[i] == (id, vs[i])
  {
    seq(|vs|, i requires 0 <= i < |vs| => (id, vs[i]))
  }

  lemma {:induction false} GetAllOfPairs(id: string, vs: seq<string>, k: string)
    ensures GetAll(Pairs(id, vs), k) == if k == id then vs else []
  {
    if vs != [] {
      GetAllOfPairs(id, vs[1..], k);
      assert Pairs(id, vs)[1..] == Pairs(id, vs[1..]);
    }
  }

  lemma DropPairs(id: string, vs: seq<string>)
    ensures Drop(Pairs(id, vs), {id}) == []
  {
    if vs != [] {
      assert Pairs(id, vs)[1..] == Pairs(id, vs[1..]);
      DropPairs(id, vs[1..]);
    }
  }

  /** `set` on a key that is not there appends it. */
  lemma {:induction false} SetValueAbsent(s: seq<Entry>, k: string, v: string)
    requires forall i :: 0 <= i < |s| ==> s[i].0 != k
    ensures SetValue(s, k, v) == s + [(k, v)]
  {
    if s != [] {
      SetValueAbsent(s[1..], k, v);
      assert s == [s[0]] + s[1..];
    }
  }

  /** What `updateSearchParam` leaves: the other parameters as they were,
      then the new values of `id`. */
  function UpdatedParams(s: seq<Entry>, id: string, value: FilterValue): (r: seq<Entry>)
    // no empty or undefined value is ever written under `id`
    ensures forall e :: e in r && e.0 == id ==> e.1 != ""
    // every other entry was already there
    ensures forall e :: e in r && e.0 != id ==> e in s
    ensures forall e :: e in s && e.0 != id ==> e in r
  {
    match value
    case Many(items) =>
      var kept := KeptValues(items);
      assert forall i :: 0 <= i < |kept| ==> kept[i] in kept;
      Drop(s, {id}) + Pairs(id, kept)
    case One(v) => Drop(s, {id}) + (if Kept(v) then [(id, v.value)] else [])
  }

  /** The `forEach` that appends each kept value under `id`. */
  method AppendAll(params: Params, id: string, kept: seq<string>)
    modifies params
    ensures params.entries == old(params.entries) + Pairs(id, kept)
  {
    ghost var base := params.entries;
    for i := 0 to |kept|
      invariant params.entries == base + Pairs(id, kept[..i])
    {
      assert Pairs(id, kept[..i + 1]) == Pairs(id, kept[..i]) + [(id, kept[i])];
      params.Append(id, kept[i]);
    }
    assert kept[..|kept|] == kept;
  }

  /** `updateSearchParam`. */
  method UpdateSearchParam(params: Params, id: string, value: FilterValue)
    modifies params
    ensures params.entries == UpdatedParams(old(params.entries), id, value)
  {
    params.Delete(id);
    match value
    case Many(items) =>
      AppendAll(params, id, KeptValues(items));
    case One(v) =>
      if Kept(v) {
        SetValueAbsent(params.entries, id, v.value);
        params.Set(id, v.value);
      } else {
        assert params.entries == params.entries + [];
      }
  }

  /** After an update, `id` holds the kept values in order and every other
      key holds what it held. */
  lemma UpdatedParamsLaw(s: seq<Entry>, id: string, value: FilterValue)
    ensures value.Many? ==> GetAll(UpdatedParams(s, id, value), id) == KeptValues(value.items)
    ensures value.One? ==> GetAll(UpdatedParams(s, id, value), id) == if Kept(value.value) then [value.value.value] else []
    ensures Drop(UpdatedParams(s, id, value), {id}) == Drop(s, {id})
  {
    var pairs := match value
      case Many(items) => Pairs(id, KeptValues(items))
      case One(v) => if Kept(v) then [(id, v.value)] else [];
    assert UpdatedParams(s, id, value) == Drop(s, {id}) + pairs;
    GetAllAppend(Drop(s, {id}), pairs, id);
    GetAllOfDrop(s, {id}, id);
    DropAppend(Drop(s, {id}), pairs, {id});
    DropDrop(s, {id}, {id});
    assert {id} + {id} == {id};
    if value.Many? {
      GetAllOfPairs(id, KeptValues(value.items), id);
      DropPairs(id, KeptValues(value.items));
    }
  }

  /** Applying the same update twice is applying it once. */
  lemma UpdateIsIdempotent(s: seq<Entry>, id: string, value: FilterValue)
    ensures UpdatedParams(UpdatedParams(s, id, value), id, value) == UpdatedParams(s, id, value)
  {
    UpdatedParamsLaw(s, id, value);
  }

  // ---------------------------------------------------------------- the bar

  /** The table's column-filter state. */
  class TableState {
    var columnFilters: seq<(string, FilterValue)>

    constructor(filters: seq<(string, FilterValue)>)
      ensures columnFilters == filters
    {
      columnFilters := filters;
    }

    /** `isFiltered`: whether the reset button shows. */
    predicate IsFiltered()
      reads this
    {
      |columnFilters| > 0
    }
  }

  function IdSet(ids: seq<string>): set<string>
  {
    set i | 0 <= i < |ids| :: ids[i]
  }

  /** `onReset`: clear the table's filters and delete the parameter of every
      filterable column; other parameters (range bounds, paging) stay. */
  method OnReset(table: TableState, params: Params, filterable: seq<string>)
    modifies table, params
    ensures table.columnFilters == [] && !table.IsFiltered()
    ensures params.entries == Drop(old(params.entries), IdSet(filterable))
  {
    ghost var start := params.entries;
    assert Drop(start, {}) == start by {
      DropAbsent(start, {});
    }
    assert IdSet(filterable[..0]) == {};
    for i := 0 to |filterable|
      invariant params.entries == Drop(start, IdSet(filterable[..i]))
    {
      assert IdSet(filterable[..i + 1]) == IdSet(filterable[..i]) + {filterable[i]};
      DropDrop(start, IdSet(filterable[..i]), {filterable[i]});
      params.Delete(filterable[i]);
    }
    assert filterable[..|filterable|] == filterable;
    table.columnFilters := [];
  }

  /** After a reset, a filterable column has no parameter and any other key
      keeps its values. */
  lemma ResetLaw(s: seq<Entry>, filterable: seq<string>, k: string)
    ensures k in filterable ==> GetAll(Drop(s, IdSet(filterable)), k) == []
    ensures k !in filterable ==> GetAll(Drop(s, IdSet(filterable)), k) == GetAll(s, k)
  {
    GetAllOfDrop(s, IdSet(filterable), k);
    assert k in filterable <==> k in IdSet(filterable);
  }

  // ---------------------------------------------------------------- widgets

  /** The widget rendered for a column. */
  datatype Widget =
    | NoWidget
    | TextInput
    | NumberInput
    | SliderFilter
    | DateFilterWidget(multiple: bool)
    | FacetedFilter(multiple: bool)

  const Variants: set<string> := {"text", "number", "range", "date", "dateRange", "select", "multiSelect"}

  /** `onFilterRender`. */
  function WidgetFor(variant: Option<string>): (r: Widget)
    ensures r.NoWidget? <==> variant.None? || variant.value !in Variants
    ensures r.TextInput? <==> variant == Some("text")
    ensures r.NumberInput? <==> variant == Some("number")
    ensures r.SliderFilter? <==> variant == Some("range")
    ensures r.DateFilterWidget? <==> variant == Some("date") || variant == Some("dateRange")
    ensures r.DateFilterWidget? ==> (r.multiple <==> variant == Some("dateRange"))
    ensures r.FacetedFilter? <==> variant == Some("select") || variant == Some("multiSelect")
    ensures r.FacetedFilter? ==> (r.multiple <==> variant == Some("multiSelect"))
  {
    if variant.None? || variant.value == "" then NoWidget
    else match variant.value
      case "text" => TextInput
      case "number" => NumberInput
      case "range" => SliderFilter
      case "date" => DateFilterWidget(false)
      case "dateRange" => DateFilterWidget(true)
      case "select" => FacetedFilter(false)
      case "multiSelect" => FacetedFilter(true)
      case _ => NoWidget
  }
}
