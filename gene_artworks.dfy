/**
 * The filterable artwork listing of a gene page: the sort pulldown, one
 * filter dropdown per aggregation, the pagination variables handed to the
 * query layer, and the defaults of the listing's fragment arguments.
 */
module GeneArtworks {
  import opened Wrappers
  import opened Strings

  /** The declared page size; it equals the fragment's default `count`. */
  const PageSize: int := 10

  /** A query variable value. */
  datatype VarValue = IntV(i: int) | StrV(s: string) | BoolV(b: bool) | EnumListV(items: seq<string>) | NullV

  type Variables = map<string, VarValue>

  datatype AggregationCount = AggregationCount(name: Option<string>, id: Option<string>)

  /** A facet of the listing, such as MEDIUM or PRICE_RANGE, with its counts. */
  datatype Aggregation = Aggregation(slice: string, counts: seq<AggregationCount>)

  /** The props this model reads; an absent prop is `None`. */
  datatype Props = Props(
    geneId: string,
    aggregations: seq<Aggregation>,
    sort: Option<string>,
    forSale: Option<bool>,
    medium: Option<string>,
    priceRange: Option<string>,
    dimensionRange: Option<string>)

  // ---- Sort pulldown ----------------------------------------------------

  datatype SortOption = SortOption(val: string, name: string)

  const PulldownOptions: seq<SortOption> := [
    SortOption("-partner_updated_at", "Recently Updated"),
    SortOption("-year", "Artwork Year (desc.)"),
    SortOption("year", "Artwork Year (asc.)")
  ]

  const DefaultSortLabel: string := "Recently Updated"

  /** `Array.prototype.find` on the options: the first one whose `val` is `sort`. */
  function FindSort(options: seq<SortOption>, sort: Option<string>): (r: Option<SortOption>)
    ensures r.None? <==> forall i :: 0 <= i < |options| ==> sort != Some(options[i].val)
    ensures r.Some? ==> exists i :: 0 <= i < |options| && options[i] == r.value && sort == Some(r.value.val)
                          && forall j :: 0 <= j < i ==> sort != Some(options[j].val)
  {
    if options == [] then None
    else if sort == Some(options[0].val) then Some(options[0])
    else
      var r := FindSort(options[1..], sort);
      if r.Some? then
        ghost var i :| 0 <= i < |options[1..]| && options[1..][i] == r.value && sort == Some(r.value.val)
                         && forall j :: 0 <= j < i ==> sort != Some(options[1..][j].val);
        assert options[i + 1] == r.value;
        assert forall j :: 0 <= j < i + 1 ==> sort != Some(options[j].val) by {
          forall j | 0 <= j < i + 1 ensures sort != Some(options[j].val) {
            if j > 0 { assert options[j] == options[1..][j - 1]; }
          }
        }
        r
      else
        assert forall i :: 0 <= i < |options| ==> sort != Some(options[i].val) by {
          forall i | 0 <= i < |options| ensures sort != Some(options[i].val) {
            if i > 0 { assert options[i] == options[1..][i - 1]; }
          }
        }
        r
  }

  /** The props of the sort pulldown. */
  datatype PulldownView = PulldownView(defaultValue: string, selectedName: Option<string>, options: seq<SortOption>)

  /** The sort pulldown of `renderArtworks`: `selectedName` is the name of the option matching `sort`, if any. */
  function SortPulldown(sort: Option<string>): (v: PulldownView)
    ensures v.defaultValue == DefaultSortLabel && v.options == PulldownOptions
    ensures v.selectedName.Some? <==> exists o :: o in PulldownOptions && sort == Some(o.val)
  {
    var found := FindSort(PulldownOptions, sort);
    PulldownView(DefaultSortLabel, if found.Some? then Some(found.value.name) else None, PulldownOptions)
  }

  /** The three option values are distinct. */
  lemma OptionValuesDistinct()
    ensures forall i, j :: 0 <= i < j < |PulldownOptions| ==> PulldownOptions[i].val != PulldownOptions[j].val
  {
  }

  /** The selected name is that of the one option whose value is `sort`. */
  lemma SelectedSortIsUnique(sort: Option<string>, o: SortOption)
    requires o in PulldownOptions && sort == Some(o.val)
    ensures SortPulldown(sort).selectedName == Some(o.name)
  {
    OptionValuesDistinct();
    var found := FindSort(PulldownOptions, sort);
    var i :| 0 <= i < |PulldownOptions| && PulldownOptions[i] == found.value && sort == Some(found.value.val);
    var k :| 0 <= k < |PulldownOptions| && PulldownOptions[k] == o;
    assert i == k;
  }

  /** An unset or unknown sort selects no name, and the pulldown shows "Recently Updated". */
  lemma UnknownSortFallsBack(sort: Option<string>)
    requires sort.None? || sort.value !in {"-partner_updated_at", "-year", "year"}
    ensures SortPulldown(sort).selectedName.None?
    ensures SortPulldown(sort).defaultValue == "Recently Updated"
  {
  }

  /** The fallback label is the name of the option for the fragment's default sort. */
  lemma FallbackLabelMatchesDefaultSort()
    ensures SortPulldown(Some("-partner_updated_at")).selectedName == Some(DefaultSortLabel)
    ensures FragmentArgumentDefaults["sort"] == StrV("-partner_updated_at")
  {
    SelectedSortIsUnique(Some("-partner_updated_at"), PulldownOptions[0]);
  }

  // ---- Filter dropdowns -------------------------------------------------

  /** The value of a filter prop: a string, or the boolean `for_sale`. */
  datatype PropValue = StrProp(s: string) | BoolProp(b: bool)

  function StrPropOf(o: Option<string>): Option<PropValue> {
    match o
    case None => None
    case Some(s) => Some(StrProp(s))
  }

  /** The names of the props a dropdown can read. */
  const FilterPropNames: set<string> := {"medium", "price_range", "dimension_range", "sort", "for_sale"}

  /**
   * `this.props[name]` for the filter and sort props; every other name reads
   * `undefined`.
   */
  function PropNamed(props: Props, name: string): (r: Option<PropValue>)
    ensures r.Some? ==> name in FilterPropNames
    ensures name == "for_sale" ==> (r.Some? <==> props.forSale.Some?) && (r.Some? ==> r.value == BoolProp(props.forSale.value))
    ensures name in FilterPropNames - {"for_sale"} ==> r.None? || r.value.StrProp?
    ensures name == "medium" ==> r == StrPropOf(props.medium)
    ensures name == "price_range" ==> r == StrPropOf(props.priceRange)
    ensures name == "dimension_range" ==> r == StrPropOf(props.dimensionRange)
    ensures name == "sort" ==> r == StrPropOf(props.sort)
  {
    match name
    case "medium" => StrPropOf(props.medium)
    case "price_range" => StrPropOf(props.priceRange)
    case "dimension_range" => StrPropOf(props.dimensionRange)
    case "sort" => StrPropOf(props.sort)
    case "for_sale" => if props.forSale.Some? then Some(BoolProp(props.forSale.value)) else None
    case _ => None
  }

  /**
   * `aggregation.slice && this.props[aggregation.slice.toLowerCase()]`: an
   * empty slice selects nothing; otherwise the prop named by the lower-cased
   * slice is selected.
   */
  function SelectedFor(props: Props, slice: string): (r: Option<PropValue>)
    ensures slice == "" ==> r.None?
    ensures r.Some? ==> ToLower(slice) in FilterPropNames
    ensures ToLower(slice) == "medium" ==> r == StrPropOf(props.medium)
    ensures ToLower(slice) == "price_range" ==> r == StrPropOf(props.priceRange)
    ensures ToLower(slice) == "dimension_range" ==> r == StrPropOf(props.dimensionRange)
    ensures ToLower(slice) == "sort" ==> r == StrPropOf(props.sort)
    ensures ToLower(slice) == "for_sale" ==>
              (r.Some? <==> props.forSale.Some?) && (r.Some? ==> r.value == BoolProp(props.forSale.value))
  {
    if slice == "" then None else PropNamed(props, ToLower(slice))
  }

  /** The props of one filter dropdown. */
  datatype DropdownView = DropdownView(aggregation: Aggregation, key: string, selected: Option<PropValue>)

  /** `renderDropdown`: one dropdown per aggregation, in order. */
  function Dropdowns(props: Props, aggregations: seq<Aggregation>): (r: seq<DropdownView>)
    ensures |r| == |aggregations|
    ensures forall i :: 0 <= i < |r| ==>
              r[i].aggregation == aggregations[i] && r[i].key == aggregations[i].slice
              && r[i].selected == SelectedFor(props, aggregations[i].slice)
  {
    if aggregations == [] then []
    else
      [DropdownView(aggregations[0], aggregations[0].slice, SelectedFor(props, aggregations[0].slice))]
      + Dropdowns(props, aggregations[1..])
  }

  /** The dropdowns of the component, one for each aggregation of its listing. */
  function RenderDropdown(props: Props): (r: seq<DropdownView>)
    ensures |r| == |props.aggregations|
    ensures forall i :: 0 <= i < |r| ==>
              r[i].aggregation == props.aggregations[i] && r[i].key == props.aggregations[i].slice
              && r[i].selected == SelectedFor(props, props.aggregations[i].slice)
  {
    Dropdowns(props, props.aggregations)
  }

  /** Rendering the dropdowns of two lists of aggregations concatenates their dropdowns. */
  lemma DropdownsAppend(props: Props, a: seq<Aggregation>, b: seq<Aggregation>)
    ensures Dropdowns(props, a + b) == Dropdowns(props, a) + Dropdowns(props, b)
  {
  }

  /** The upper-case slice names select the filter prop of the same lower-case name. */
  lemma SliceSelections(props: Props)
    ensures SelectedFor(props, "MEDIUM") == StrPropOf(props.medium)
    ensures SelectedFor(props, "PRICE_RANGE") == StrPropOf(props.priceRange)
    ensures SelectedFor(props, "DIMENSION_RANGE") == StrPropOf(props.dimensionRange)
    ensures SelectedFor(props, "TOTAL") == None
    ensures SelectedFor(props, "") == None
  {
    assert ToLower("MEDIUM") == "medium";
    assert ToLower("PRICE_RANGE") == "price_range";
    assert ToLower("DIMENSION_RANGE") == "dimension_range";
    assert ToLower("TOTAL") == "total";
  }

  /** The selection ignores the case of the slice name. */
  lemma SelectionIgnoresCase(props: Props, slice: string)
    ensures SelectedFor(props, ToLower(slice)) == SelectedFor(props, slice)
  {
    ToLowerIdempotent(slice);
  }

  // ---- Pagination variables ---------------------------------------------

  /** `getFragmentVariables`: the previous variables with `count` set to `totalCount`. */
  function GetFragmentVariables(prevVars: Variables, totalCount: int): (r: Variables)
    ensures r.Keys == prevVars.Keys + {"count"}
    ensures r["count"] == IntV(totalCount)
    ensures forall k :: k in prevVars && k != "count" ==> r[k] == prevVars[k]
  {
    prevVars["count" := IntV(totalCount)]
  }

  /** The cursor handed to `getVariables`, which may be `null`. */
  function CursorValue(cursor: Option<string>): (v: VarValue)
    ensures v == NullV <==> cursor.None?
    ensures cursor.Some? ==> v == StrV(cursor.value)
  {
    match cursor
    case None => NullV
    case Some(c) => StrV(c)
  }

  /**
   * `getVariables`: every fragment variable is kept, except that `count`,
   * `cursor` and `geneNodeID` are set from the pagination request and the gene.
   */
  function GetVariables(props: Props, count: int, cursor: Option<string>, fragmentVariables: Variables): (r: Variables)
    ensures r.Keys == fragmentVariables.Keys + {"count", "cursor", "geneNodeID"}
    ensures r["count"] == IntV(count) && r["cursor"] == CursorValue(cursor) && r["geneNodeID"] == StrV(props.geneId)
    ensures forall k :: k in fragmentVariables && k !in {"count", "cursor", "geneNodeID"} ==> r[k] == fragmentVariables[k]
  {
    fragmentVariables["count" := IntV(count)]["cursor" := CursorValue(cursor)]["geneNodeID" := StrV(props.geneId)]
  }

  /** Only the last count given to `getFragmentVariables` survives. */
  lemma FragmentCountLastWins(v: Variables, a: int, b: int)
    ensures GetFragmentVariables(GetFragmentVariables(v, a), b) == GetFragmentVariables(v, b)
  {
    assert GetFragmentVariables(GetFragmentVariables(v, a), b).Keys == GetFragmentVariables(v, b).Keys;
  }

  /** The count set by `getFragmentVariables` is overwritten by `getVariables`. */
  lemma GetVariablesIgnoresFragmentCount(props: Props, count: int, cursor: Option<string>, v: Variables, total: int)
    ensures GetVariables(props, count, cursor, GetFragmentVariables(v, total)) == GetVariables(props, count, cursor, v)
  {
    var l := GetVariables(props, count, cursor, GetFragmentVariables(v, total));
    var r := GetVariables(props, count, cursor, v);
    assert l.Keys == r.Keys;
    forall k | k in l ensures l[k] == r[k] {
    }
  }

  /**
   * Across a whole pagination round, `getFragmentVariables` and then
   * `getVariables`, the sort and filter variables reach the next query unchanged.
   */
  lemma GetVariablesKeepsFilters(props: Props, count: int, cursor: Option<string>, v: Variables, total: int)
    ensures forall k :: k in v && k in {"sort", "for_sale", "medium", "price_range", "dimension_range", "aggregations"}
              ==> GetVariables(props, count, cursor, GetFragmentVariables(v, total))[k] == v[k]
  {
  }

  // ---- Fragment argument defaults ---------------------------------------

  /** The arguments the listing fragment declares. */
  const FragmentArgumentNames: set<string> :=
    {"count", "cursor", "sort", "for_sale", "medium", "aggregations", "price_range", "dimension_range"}

  /** The declared defaults; `for_sale` has none. */
  const FragmentArgumentDefaults: Variables := map[
    "count" := IntV(10),
    "cursor" := StrV(""),
    "sort" := StrV("-partner_updated_at"),
    "medium" := StrV("*"),
    "aggregations" := EnumListV(["MEDIUM", "TOTAL", "PRICE_RANGE", "DIMENSION_RANGE"]),
    "price_range" := StrV("*"),
    "dimension_range" := StrV("*")
  ]

  /** The fragment's arguments: each declared argument takes the supplied value, else its default. */
  function FragmentArguments(supplied: Variables): (r: Variables)
    ensures r.Keys <= FragmentArgumentNames
    ensures forall k :: k in FragmentArgumentNames && k in supplied ==> k in r && r[k] == supplied[k]
    ensures forall k :: k in FragmentArgumentDefaults && k !in supplied ==> k in r && r[k] == FragmentArgumentDefaults[k]
    ensures "for_sale" in r <==> "for_sale" in supplied
  {
    map k | k in FragmentArgumentNames && (k in supplied || k in FragmentArgumentDefaults) ::
      if k in supplied then supplied[k] else FragmentArgumentDefaults[k]
  }

  /** With nothing supplied, a page holds `PageSize` artworks, from the start, sorted by update. */
  lemma FragmentDefaultsWithNothingSupplied()
    ensures var r := FragmentArguments(map[]);
            r.Keys == FragmentArgumentNames - {"for_sale"}
            && r["count"] == IntV(PageSize) && r["cursor"] == StrV("") && r["sort"] == StrV("-partner_updated_at")
            && r["medium"] == StrV("*") && r["price_range"] == StrV("*") && r["dimension_range"] == StrV("*")
  {
    var r := FragmentArguments(map[]);
    assert r.Keys == FragmentArgumentNames - {"for_sale"} by {
      forall k | k in FragmentArgumentNames - {"for_sale"} ensures k in r {
        assert k in FragmentArgumentDefaults;
      }
    }
  }

  // ---- Component state --------------------------------------------------

  /** The component's state: `loading` is the only field. */
  datatype State = State(loading: bool)

  /** The constructor's state. */
  const InitialState: State := State(false)

  /** The spinner is rendered exactly while loading. */
  predicate SpinnerVisible(s: State) {
    s.loading
  }

  /** `onLoadMore`, which the grid calls when it reaches its end: it does nothing. */
  function OnLoadMore(s: State): (r: State)
    ensures r.loading == s.loading
  {
    s
  }

  /** The spinner is hidden at first, and asking for more never changes whether it shows. */
  lemma SpinnerNeverShown(s: State)
    ensures !SpinnerVisible(InitialState)
    ensures SpinnerVisible(OnLoadMore(s)) == SpinnerVisible(s)
  {
  }
}
