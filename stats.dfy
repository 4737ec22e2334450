/** The statistics overview (backend/app/service/stats_cache_service.py and
    backend/app/routers/stats_router.py): one filter per distinct value of each category,
    the statistics of every filter fetched in construction order, and the results placed in a
    map per category by zipping the (category, key) list with the result list. The
    statistics themselves come from a service that is not part of this model, so they are a
    function parameter here. */
module Stats {
  import opened Wrappers
  import opened Transactions

  /** A key of a category map: a distinct value from the table (NULL included), a Python
      bool or a small integer. */
  datatype Key = KeyText(text: string) | KeyInt(number: int) | KeyBool(flag: bool) | KeyNone

  /** The categories of the response. */
  datatype Category =
    | CatCountries | CatMerchantCategory | CatDevice | CatChannel | CatHighRisk | CatDistance
    | CatCardPresent | CatWeekend

  /** The categories of the cached overview: all but card_present. */
  const ServiceCategories: set<Category> :=
    {CatCountries, CatMerchantCategory, CatDevice, CatChannel, CatHighRisk, CatDistance, CatWeekend}

  /** The categories of the router's overview: all of them. */
  const RouterCategories: set<Category> := ServiceCategories + {CatCardPresent}

  /** The key of each category in the response dict. */
  function CategoryName(c: Category): string {
    match c
    case CatCountries => "countries"
    case CatMerchantCategory => "merchant_category"
    case CatDevice => "device"
    case CatChannel => "channel"
    case CatHighRisk => "high_risk_merchant"
    case CatDistance => "distance_from_home"
    case CatCardPresent => "card_present"
    case CatWeekend => "weekend_transaction"
  }

  /** The keyword argument one filter is built with: TransactionFilter(<field>=<value>). */
  datatype FilterArg =
    | CountryArg(country: Option<string>)
    | MerchantCategoryArg(category: Option<string>)
    | DeviceArg(device: Option<string>)
    | ChannelArg(channel: Option<string>)
    | HighRiskArg(risky: bool)
    | DistanceArg(distance: Option<int>)
    | CardPresentArg(present: bool)
    | WeekendArg(weekend: bool)

  function TextKey(v: Option<string>): Key {
    if v.Some? then KeyText(v.value) else KeyNone
  }

  function IntKey(v: Option<int>): Key {
    if v.Some? then KeyInt(v.value) else KeyNone
  }

  /** The key the value is stored under. */
  function KeyOf(a: FilterArg): Key {
    match a
    case CountryArg(v) => TextKey(v)
    case MerchantCategoryArg(v) => TextKey(v)
    case DeviceArg(v) => TextKey(v)
    case ChannelArg(v) => TextKey(v)
    case HighRiskArg(b) => KeyBool(b)
    case DistanceArg(v) => IntKey(v)
    case CardPresentArg(b) => KeyBool(b)
    case WeekendArg(b) => KeyBool(b)
  }

  /** The filter pydantic builds from the keyword. card_present is an optional int, so a bool
      becomes 1 or 0; weekend_transaction is not a field of TransactionFilter and is ignored,
      which leaves the filter empty. */
  function KeywordFilter(a: FilterArg): (f: TransactionFilter)
    ensures a.WeekendArg? ==> f == NoFilter
    ensures a.CardPresentArg? ==> f == NoFilter.(cardPresent := Some(if a.present then 1 else 0))
  {
    match a
    case CountryArg(v) => NoFilter.(country := v)
    case MerchantCategoryArg(v) => NoFilter.(merchantCategory := v)
    case DeviceArg(v) => NoFilter.(device := v)
    case ChannelArg(v) => NoFilter.(channel := v)
    case HighRiskArg(b) => NoFilter.(highRiskMerchant := Some(b))
    case DistanceArg(v) => NoFilter.(distanceFromHome := v)
    case CardPresentArg(b) => NoFilter.(cardPresent := Some(if b then 1 else 0))
    case WeekendArg(_) => NoFilter
  }

  /** Two arguments with the same key give the same filter. */
  predicate Consistent(args: seq<FilterArg>) {
    forall a, b | a in args && b in args && KeyOf(a) == KeyOf(b) :: KeywordFilter(a) == KeywordFilter(b)
  }

  /** Arguments built with the same keyword. */
  predicate SameKeyword(a: FilterArg, b: FilterArg) {
    (a.CountryArg? && b.CountryArg?) || (a.MerchantCategoryArg? && b.MerchantCategoryArg?)
    || (a.DeviceArg? && b.DeviceArg?) || (a.ChannelArg? && b.ChannelArg?) || (a.HighRiskArg? && b.HighRiskArg?)
    || (a.DistanceArg? && b.DistanceArg?) || (a.CardPresentArg? && b.CardPresentArg?) || (a.WeekendArg? && b.WeekendArg?)
  }

  /** With one keyword, the key determines the filter. */
  lemma KeyDeterminesFilter(a: FilterArg, b: FilterArg)
    requires SameKeyword(a, b) && KeyOf(a) == KeyOf(b)
    ensures KeywordFilter(a) == KeywordFilter(b)
  {
  }

  /** Arguments built with one keyword are consistent. */
  lemma OneKeywordConsistent(args: seq<FilterArg>)
    requires forall a, b | a in args && b in args :: SameKeyword(a, b)
    ensures Consistent(args)
  {
    forall a, b | a in args && b in args && KeyOf(a) == KeyOf(b) ensures KeywordFilter(a) == KeywordFilter(b) {
      KeyDeterminesFilter(a, b);
    }
  }

  /** The keys a list of arguments is stored under. */
  function KeysOf(args: seq<FilterArg>): set<Key> {
    set a | a in args :: KeyOf(a)
  }

  /** A category and the arguments of its filters, in order. */
  datatype Dimension = Dimension(category: Category, args: seq<FilterArg>)

  /** One element of the zipped filter_keys / all_filters lists. */
  datatype Entry = Entry(category: Category, key: Key, filter: TransactionFilter)

  function EntryOf(c: Category, a: FilterArg): Entry {
    Entry(c, KeyOf(a), KeywordFilter(a))
  }

  /** The entries one category's `for` loop appends. */
  function Entries(d: Dimension): (r: seq<Entry>)
    ensures |r| == |d.args|
    decreases |d.args|
  {
    if d.args == [] then []
    else Entries(Dimension(d.category, d.args[..|d.args| - 1])) + [EntryOf(d.category, d.args[|d.args| - 1])]
  }

  /** The i-th entry of a category is built from its i-th argument. */
  lemma {:induction false} EntriesAt(d: Dimension)
    ensures forall i | 0 <= i < |Entries(d)| :: Entries(d)[i] == EntryOf(d.category, d.args[i])
    decreases |d.args|
  {
    if d.args != [] {
      var front := Dimension(d.category, d.args[..|d.args| - 1]);
      EntriesAt(front);
      assert Entries(d) == Entries(front) + [EntryOf(d.category, d.args[|d.args| - 1])];
    }
  }

  /** Every category's entries, category after category. */
  function Plan(dims: seq<Dimension>): seq<Entry> {
    if dims == [] then [] else Plan(dims[..|dims| - 1]) + Entries(dims[|dims| - 1])
  }

  function Categories(dims: seq<Dimension>): set<Category> {
    set d | d in dims :: d.category
  }

  predicate DistinctCategories(dims: seq<Dimension>) {
    forall i, j | 0 <= i < j < |dims| :: dims[i].category != dims[j].category
  }

  /** Every entry of the plan belongs to one of the categories. */
  lemma {:induction false} PlanCategories(dims: seq<Dimension>)
    ensures forall i | 0 <= i < |Plan(dims)| :: Plan(dims)[i].category in Categories(dims)
    decreases |dims|
  {
    if dims != [] {
      var front := dims[..|dims| - 1];
      var last := dims[|dims| - 1];
      PlanCategories(front);
      EntriesAt(last);
      assert forall d | d in front :: d in dims;
      assert last in dims;
      var p := Plan(dims);
      forall i | 0 <= i < |p| ensures p[i].category in Categories(dims) {
        if i < |Plan(front)| {
          assert p[i] == Plan(front)[i];
        } else {
          assert p[i] == Entries(last)[i - |Plan(front)|];
        }
      }
    }
  }

  /** response[category][key] = result. */
  function Assign<S>(m: map<Category, map<Key, S>>, e: Entry, r: S): (m': map<Category, map<Key, S>>)
    requires e.category in m
    ensures m'.Keys == m.Keys
  {
    m[e.category := m[e.category][e.key := r]]
  }

  /** The response after the zip loop has stored the result of every entry. */
  ghost function Fill<S>(m: map<Category, map<Key, S>>, plan: seq<Entry>, stats: TransactionFilter -> S)
    : (m': map<Category, map<Key, S>>)
    requires forall i | 0 <= i < |plan| :: plan[i].category in m
    ensures m'.Keys == m.Keys
  {
    if plan == [] then m
    else
      var last := plan[|plan| - 1];
      Assign(Fill(m, plan[..|plan| - 1], stats), last, stats(last.filter))
  }

  /** A dict built from (key, stats(filter)) pairs, later pairs winning: one category's map,
      and also what the single-dimension endpoints' comprehensions build. */
  ghost function CategoryMap<S>(args: seq<FilterArg>, stats: TransactionFilter -> S): map<Key, S> {
    if args == [] then map[]
    else
      var last := args[|args| - 1];
      CategoryMap(args[..|args| - 1], stats)[KeyOf(last) := stats(KeywordFilter(last))]
  }

  /** The response dict before the zip loop: an empty map per category. */
  function Init<S>(dims: seq<Dimension>): map<Category, map<Key, S>> {
    map c | c in Categories(dims) :: map[]
  }

  /** The whole response, as the source builds it. */
  ghost function Overview<S>(dims: seq<Dimension>, stats: TransactionFilter -> S): map<Category, map<Key, S>> {
    PlanCategories(dims);
    Fill(Init(dims), Plan(dims), stats)
  }

  // ---------------------------------------------------------------------------------------
  // What the response means

  /** A category's map has one key per argument. */
  lemma {:induction false} CategoryMapKeys<S>(args: seq<FilterArg>, stats: TransactionFilter -> S)
    ensures CategoryMap(args, stats).Keys == KeysOf(args)
    decreases |args|
  {
    if args != [] {
      var front := args[..|args| - 1];
      var last := args[|args| - 1];
      CategoryMapKeys(front, stats);
      assert args == front + [last];
      assert KeysOf(args) == KeysOf(front) + {KeyOf(last)};
    }
  }

  /** Each argument's key holds the statistics of that argument's filter. */
  lemma {:induction false} CategoryMapValues<S>(args: seq<FilterArg>, stats: TransactionFilter -> S)
    requires Consistent(args)
    ensures forall a | a in args :: KeyOf(a) in CategoryMap(args, stats)
                                 && CategoryMap(args, stats)[KeyOf(a)] == stats(KeywordFilter(a))
    decreases |args|
  {
    if args != [] {
      var front := args[..|args| - 1];
      var last := args[|args| - 1];
      assert args == front + [last];
      assert forall a | a in front :: a in args;
      CategoryMapValues(front, stats);
    }
  }

  lemma {:induction false} FillConcat<S>(m: map<Category, map<Key, S>>, a: seq<Entry>, b: seq<Entry>, stats: TransactionFilter -> S)
    requires forall i | 0 <= i < |a| :: a[i].category in m
    requires forall i | 0 <= i < |b| :: b[i].category in m
    ensures forall i | 0 <= i < |a + b| :: (a + b)[i].category in m
    ensures Fill(m, a + b, stats) == Fill(Fill(m, a, stats), b, stats)
    decreases |b|
  {
    assert forall i | 0 <= i < |a + b| :: (a + b)[i] == if i < |a| then a[i] else b[i - |a|];
    if b == [] {
      assert a + b == a;
    } else {
      var front := b[..|b| - 1];
      assert (a + b)[..|a + b| - 1] == a + front;
      FillConcat(m, a, front, stats);
    }
  }

  /** One category's loop fills exactly that category's (empty) map. */
  lemma {:induction false} FillEntries<S>(m: map<Category, map<Key, S>>, d: Dimension, stats: TransactionFilter -> S)
    requires d.category in m && m[d.category] == map[]
    ensures forall i | 0 <= i < |Entries(d)| :: Entries(d)[i].category in m
    ensures Fill(m, Entries(d), stats) == m[d.category := CategoryMap(d.args, stats)]
    decreases |d.args|
  {
    EntriesAt(d);
    if d.args == [] {
      assert m[d.category := map[]] == m;
    } else {
      var front := Dimension(d.category, d.args[..|d.args| - 1]);
      FillEntries(m, front, stats);
      FillEntriesStep(m, d, front, stats);
    }
  }

  /** The step of FillEntries: the last argument's entry is stored in the category's map. */
  lemma FillEntriesStep<S>(m: map<Category, map<Key, S>>, d: Dimension, front: Dimension, stats: TransactionFilter -> S)
    requires d.args != [] && front == Dimension(d.category, d.args[..|d.args| - 1])
    requires forall i | 0 <= i < |Entries(d)| :: Entries(d)[i].category in m
    requires forall i | 0 <= i < |Entries(front)| :: Entries(front)[i].category in m
    requires d.category in m
    requires Fill(m, Entries(front), stats) == m[d.category := CategoryMap(front.args, stats)]
    ensures Fill(m, Entries(d), stats) == m[d.category := CategoryMap(d.args, stats)]
  {
    var e := EntryOf(d.category, d.args[|d.args| - 1]);
    assert Entries(d) == Entries(front) + [e];
    FillSnoc(m, Entries(front), e, stats);
    AssignAfterSet(m, CategoryMap(front.args, stats), e, stats(e.filter));
    assert CategoryMap(d.args, stats) == CategoryMap(front.args, stats)[e.key := stats(e.filter)];
  }

  /** Storing a result in a category whose map was just set updates that map. */
  lemma AssignAfterSet<S>(m: map<Category, map<Key, S>>, x: map<Key, S>, e: Entry, r: S)
    ensures Assign(m[e.category := x], e, r) == m[e.category := x[e.key := r]]
  {
  }

  /** Filling one more entry stores its result after the earlier ones. */
  lemma FillSnoc<S>(m: map<Category, map<Key, S>>, p: seq<Entry>, e: Entry, stats: TransactionFilter -> S)
    requires forall i | 0 <= i < |p| :: p[i].category in m
    requires e.category in m
    ensures forall i | 0 <= i < |p + [e]| :: (p + [e])[i].category in m
    ensures Fill(m, p + [e], stats) == Assign(Fill(m, p, stats), e, stats(e.filter))
  {
    assert forall i | 0 <= i < |p + [e]| :: (p + [e])[i] == if i < |p| then p[i] else e;
    assert (p + [e])[..|p|] == p;
  }

  /** The last category of a distinct list is none of the earlier ones. */
  lemma LastCategoryIsNew(dims: seq<Dimension>)
    requires dims != [] && DistinctCategories(dims)
    ensures DistinctCategories(dims[..|dims| - 1])
    ensures dims[|dims| - 1].category !in Categories(dims[..|dims| - 1])
    ensures Categories(dims) == Categories(dims[..|dims| - 1]) + {dims[|dims| - 1].category}
  {
    var front := dims[..|dims| - 1];
    forall d | d in front ensures d.category != dims[|dims| - 1].category {
      var k :| 0 <= k < |front| && front[k] == d;
      assert dims[k] == d;
    }
    assert dims == front + [dims[|dims| - 1]];
  }

  /** Every category of the list holds its own category map; nothing else is touched. */
  lemma {:induction false} PlanFill<S>(init: map<Category, map<Key, S>>, dims: seq<Dimension>, stats: TransactionFilter -> S)
    requires DistinctCategories(dims)
    requires forall d | d in dims :: d.category in init && init[d.category] == map[]
    ensures forall i | 0 <= i < |Plan(dims)| :: Plan(dims)[i].category in init
    ensures forall j | 0 <= j < |dims| :: Fill(init, Plan(dims), stats)[dims[j].category] == CategoryMap(dims[j].args, stats)
    ensures forall c | c in init && c !in Categories(dims) :: Fill(init, Plan(dims), stats)[c] == init[c]
    decreases |dims|
  {
    if dims != [] {
      var front := dims[..|dims| - 1];
      assert forall d | d in front :: d in dims;
      LastCategoryIsNew(dims);
      PlanFill(init, front, stats);
      forall j | 0 <= j < |front| ensures dims[j] == front[j] { }
      PlanFillStep(init, dims, front, stats);
    }
  }

  /** The step of PlanFill: the last category, new to the list, is filled and nothing else. */
  lemma PlanFillStep<S>(init: map<Category, map<Key, S>>, dims: seq<Dimension>, front: seq<Dimension>, stats: TransactionFilter -> S)
    requires dims != [] && front == dims[..|dims| - 1]
    requires forall d | d in dims :: d.category in init && init[d.category] == map[]
    requires dims[|dims| - 1].category !in Categories(front)
    requires Categories(dims) == Categories(front) + {dims[|dims| - 1].category}
    requires forall i | 0 <= i < |Plan(front)| :: Plan(front)[i].category in init
    requires forall j | 0 <= j < |front| :: Fill(init, Plan(front), stats)[dims[j].category] == CategoryMap(dims[j].args, stats)
    requires forall c | c in init && c !in Categories(front) :: Fill(init, Plan(front), stats)[c] == init[c]
    ensures forall i | 0 <= i < |Plan(dims)| :: Plan(dims)[i].category in init
    ensures forall j | 0 <= j < |dims| :: Fill(init, Plan(dims), stats)[dims[j].category] == CategoryMap(dims[j].args, stats)
    ensures forall c | c in init && c !in Categories(dims) :: Fill(init, Plan(dims), stats)[c] == init[c]
  {
    var last := dims[|dims| - 1];
    assert last in dims;
    assert dims == front + [last];
    PlanFillLast(init, front, last, stats);
    var after := Fill(init, Plan(dims), stats);
    forall j | 0 <= j < |dims| ensures after[dims[j].category] == CategoryMap(dims[j].args, stats) {
      if j < |front| {
        assert dims[j] == front[j] && front[j] in front;
      }
    }
  }

  /** Filling one more category after the earlier ones sets that category's map. */
  lemma PlanFillLast<S>(init: map<Category, map<Key, S>>, front: seq<Dimension>, last: Dimension, stats: TransactionFilter -> S)
    requires forall i | 0 <= i < |Plan(front)| :: Plan(front)[i].category in init
    requires last.category in init
    requires Fill(init, Plan(front), stats)[last.category] == map[]
    ensures forall i | 0 <= i < |Plan(front + [last])| :: Plan(front + [last])[i].category in init
    ensures Fill(init, Plan(front + [last]), stats)
         == Fill(init, Plan(front), stats)[last.category := CategoryMap(last.args, stats)]
  {
    assert (front + [last])[..|front|] == front;
    var r := Fill(init, Plan(front), stats);
    FillEntries(r, last, stats);
    FillConcat(init, Plan(front), Entries(last), stats);
  }

  /** The overview has one map per category, and each is that category's map. */
  lemma OverviewMeaning<S>(dims: seq<Dimension>, stats: TransactionFilter -> S)
    requires DistinctCategories(dims)
    ensures Overview(dims, stats).Keys == Categories(dims)
    ensures forall j | 0 <= j < |dims| :: Overview(dims, stats)[dims[j].category] == CategoryMap(dims[j].args, stats)
  {
    var init: map<Category, map<Key, S>> := Init(dims);
    PlanFill(init, dims, stats);
  }

  // ---------------------------------------------------------------------------------------
  // The loops

  /** One category's loop: `for v in values: all_filters.append(...); filter_keys.append(...)`.
      The two parallel lists are kept as one list of entries. */
  method AppendDimension(plan: seq<Entry>, d: Dimension) returns (p: seq<Entry>)
    ensures p == plan + Entries(d)
  {
    p := plan;
    for i := 0 to |d.args|
      invariant p == plan + Entries(Dimension(d.category, d.args[..i]))
    {
      var e := EntryOf(d.category, d.args[i]);
      assert d.args[..i + 1][..i] == d.args[..i];
      p := p + [e];
    }
    assert d.args[..|d.args|] == d.args;
  }

  /** Step 3: every filter's statistics, fetched one after the other in construction order. */
  method FetchSequentially<S>(plan: seq<Entry>, stats: TransactionFilter -> S) returns (results: seq<S>)
    ensures |results| == |plan|
    ensures forall i | 0 <= i < |plan| :: results[i] == stats(plan[i].filter)
  {
    results := [];
    for i := 0 to |plan|
      invariant |results| == i
      invariant forall k | 0 <= k < i :: results[k] == stats(plan[k].filter)
    {
      results := results + [stats(plan[i].filter)];
    }
  }

  /** Step 4: `for (category, key), result in zip(filter_keys, results)`. */
  method Categorize<S>(init: map<Category, map<Key, S>>, plan: seq<Entry>, results: seq<S>, ghost stats: TransactionFilter -> S)
    returns (response: map<Category, map<Key, S>>)
    requires forall i | 0 <= i < |plan| :: plan[i].category in init
    requires |results| == |plan| && forall i | 0 <= i < |plan| :: results[i] == stats(plan[i].filter)
    ensures response == Fill(init, plan, stats)
  {
    response := init;
    for i := 0 to |plan|
      invariant response == Fill(init, plan[..i], stats)
    {
      assert plan[..i + 1][..i] == plan[..i];
      var e := plan[i];
      response := response[e.category := response[e.category][e.key := results[i]]];
    }
    assert plan[..|plan|] == plan;
  }

  /** Steps 2 to 4 for a list of distinct categories. */
  method BuildOverview<S>(dims: seq<Dimension>, stats: TransactionFilter -> S) returns (response: map<Category, map<Key, S>>)
    requires DistinctCategories(dims)
    ensures response == Overview(dims, stats)
    ensures response.Keys == Categories(dims)
    ensures forall j | 0 <= j < |dims| :: response[dims[j].category] == CategoryMap(dims[j].args, stats)
  {
    var plan: seq<Entry> := [];
    for j := 0 to |dims|
      invariant plan == Plan(dims[..j])
    {
      assert dims[..j + 1][..j] == dims[..j];
      plan := AppendDimension(plan, dims[j]);
    }
    assert dims[..|dims|] == dims;
    var results := FetchSequentially(plan, stats);
    var init: map<Category, map<Key, S>> := map c | c in Categories(dims) :: map[];
    PlanCategories(dims);
    response := Categorize(init, plan, results, stats);
    OverviewMeaning(dims, stats);
  }

  // ---------------------------------------------------------------------------------------
  // The two overviews

  function CountryArgs(vs: seq<Option<string>>): (r: seq<FilterArg>)
    ensures |r| == |vs| && forall i | 0 <= i < |vs| :: r[i] == CountryArg(vs[i])
  {
    seq(|vs|, i requires 0 <= i < |vs| => CountryArg(vs[i]))
  }

  function MerchantCategoryArgs(vs: seq<Option<string>>): (r: seq<FilterArg>)
    ensures |r| == |vs| && forall i | 0 <= i < |vs| :: r[i] == MerchantCategoryArg(vs[i])
  {
    seq(|vs|, i requires 0 <= i < |vs| => MerchantCategoryArg(vs[i]))
  }

  function DeviceArgs(vs: seq<Option<string>>): (r: seq<FilterArg>)
    ensures |r| == |vs| && forall i | 0 <= i < |vs| :: r[i] == DeviceArg(vs[i])
  {
    seq(|vs|, i requires 0 <= i < |vs| => DeviceArg(vs[i]))
  }

  function ChannelArgs(vs: seq<Option<string>>): (r: seq<FilterArg>)
    ensures |r| == |vs| && forall i | 0 <= i < |vs| :: r[i] == ChannelArg(vs[i])
  {
    seq(|vs|, i requires 0 <= i < |vs| => ChannelArg(vs[i]))
  }

  function DistanceArgs(vs: seq<Option<int>>): (r: seq<FilterArg>)
    ensures |r| == |vs| && forall i | 0 <= i < |vs| :: r[i] == DistanceArg(vs[i])
  {
    seq(|vs|, i requires 0 <= i < |vs| => DistanceArg(vs[i]))
  }

  const HighRiskArgs: seq<FilterArg> := [HighRiskArg(true), HighRiskArg(false)]
  const CardPresentArgs: seq<FilterArg> := [CardPresentArg(true), CardPresentArg(false)]
  const WeekendArgs: seq<FilterArg> := [WeekendArg(true), WeekendArg(false)]

  /** The categories of the cached overview, in the order their loops run. */
  function ServiceDimensions(countries: seq<Option<string>>, categories: seq<Option<string>>,
                             devices: seq<Option<string>>, channels: seq<Option<string>>,
                             distances: seq<Option<int>>): seq<Dimension>
  {
    [Dimension(CatCountries, CountryArgs(countries)), Dimension(CatMerchantCategory, MerchantCategoryArgs(categories)),
     Dimension(CatDevice, DeviceArgs(devices)), Dimension(CatChannel, ChannelArgs(channels)),
     Dimension(CatHighRisk, HighRiskArgs), Dimension(CatDistance, DistanceArgs(distances)),
     Dimension(CatWeekend, WeekendArgs)]
  }

  /** The categories of the router's overview: the same, with card_present before weekend. */
  function RouterDimensions(countries: seq<Option<string>>, categories: seq<Option<string>>,
                            devices: seq<Option<string>>, channels: seq<Option<string>>,
                            distances: seq<Option<int>>): seq<Dimension>
  {
    [Dimension(CatCountries, CountryArgs(countries)), Dimension(CatMerchantCategory, MerchantCategoryArgs(categories)),
     Dimension(CatDevice, DeviceArgs(devices)), Dimension(CatChannel, ChannelArgs(channels)),
     Dimension(CatHighRisk, HighRiskArgs), Dimension(CatDistance, DistanceArgs(distances)),
     Dimension(CatCardPresent, CardPresentArgs), Dimension(CatWeekend, WeekendArgs)]
  }

  /** Seven dimensions, one per category but card_present, in the cached overview's order,
      have distinct categories covering all but card_present. */
  lemma SevenCategories(dims: seq<Dimension>)
    requires |dims| == 7
    requires dims[0].category == CatCountries && dims[1].category == CatMerchantCategory
    requires dims[2].category == CatDevice && dims[3].category == CatChannel && dims[4].category == CatHighRisk
    requires dims[5].category == CatDistance && dims[6].category == CatWeekend
    ensures DistinctCategories(dims) && Categories(dims) == ServiceCategories
  {
    assert dims[0] in dims && dims[1] in dims && dims[2] in dims && dims[3] in dims;
    assert dims[4] in dims && dims[5] in dims && dims[6] in dims;
  }

  /** Eight dimensions in the router's order have distinct categories covering all. */
  lemma EightCategories(dims: seq<Dimension>)
    requires |dims| == 8
    requires dims[0].category == CatCountries && dims[1].category == CatMerchantCategory
    requires dims[2].category == CatDevice && dims[3].category == CatChannel && dims[4].category == CatHighRisk
    requires dims[5].category == CatDistance && dims[6].category == CatCardPresent && dims[7].category == CatWeekend
    ensures DistinctCategories(dims) && Categories(dims) == RouterCategories
  {
    assert dims[0] in dims && dims[1] in dims && dims[2] in dims && dims[3] in dims;
    assert dims[4] in dims && dims[5] in dims && dims[6] in dims && dims[7] in dims;
  }

  /** StatsCacheService._compute_stats_overview: seven categories, each holding its own
      category map. */
  method ComputeStatsOverview<S>(countries: seq<Option<string>>, categories: seq<Option<string>>,
                                 devices: seq<Option<string>>, channels: seq<Option<string>>,
                                 distances: seq<Option<int>>, stats: TransactionFilter -> S)
    returns (response: map<Category, map<Key, S>>)
    ensures response.Keys == ServiceCategories
    ensures response == Overview(ServiceDimensions(countries, categories, devices, channels, distances), stats)
    ensures forall d | d in ServiceDimensions(countries, categories, devices, channels, distances) ::
      response[d.category] == CategoryMap(d.args, stats)
  {
    var dims := ServiceDimensions(countries, categories, devices, channels, distances);
    SevenCategories(dims);
    response := BuildOverview(dims, stats);
  }

  /** The router's /overview: all eight categories. */
  method GetStatsOverview<S>(countries: seq<Option<string>>, categories: seq<Option<string>>,
                             devices: seq<Option<string>>, channels: seq<Option<string>>,
                             distances: seq<Option<int>>, stats: TransactionFilter -> S)
    returns (response: map<Category, map<Key, S>>)
    ensures response.Keys == RouterCategories
    ensures response == Overview(RouterDimensions(countries, categories, devices, channels, distances), stats)
    ensures forall d | d in RouterDimensions(countries, categories, devices, channels, distances) ::
      response[d.category] == CategoryMap(d.args, stats)
  {
    var dims := RouterDimensions(countries, categories, devices, channels, distances);
    EightCategories(dims);
    response := BuildOverview(dims, stats);
  }

  /** The two-valued categories are keyed exactly True and False; the weekend entries are
      both the unfiltered statistics, because weekend_transaction is not a filter field;
      card_present True and False filter on 1 and 0. */
  lemma TwoValuedCategories<S>(stats: TransactionFilter -> S)
    ensures CategoryMap(HighRiskArgs, stats)
         == map[KeyBool(true) := stats(NoFilter.(highRiskMerchant := Some(true))),
                KeyBool(false) := stats(NoFilter.(highRiskMerchant := Some(false)))]
    ensures CategoryMap(CardPresentArgs, stats)
         == map[KeyBool(true) := stats(NoFilter.(cardPresent := Some(1))),
                KeyBool(false) := stats(NoFilter.(cardPresent := Some(0)))]
    ensures CategoryMap(WeekendArgs, stats) == map[KeyBool(true) := stats(NoFilter), KeyBool(false) := stats(NoFilter)]
  {
    assert HighRiskArgs[..1] == [HighRiskArg(true)] && HighRiskArgs[..1][..0] == [];
    assert CardPresentArgs[..1] == [CardPresentArg(true)] && CardPresentArgs[..1][..0] == [];
    assert WeekendArgs[..1] == [WeekendArg(true)] && WeekendArgs[..1][..0] == [];
  }

  /** The arguments built from a list of text values hold every value and are consistent;
      their keys are the values'. */
  lemma TextArgs(vs: seq<Option<string>>)
    ensures forall v | v in vs :: CountryArg(v) in CountryArgs(vs) && MerchantCategoryArg(v) in MerchantCategoryArgs(vs)
                                 && DeviceArg(v) in DeviceArgs(vs) && ChannelArg(v) in ChannelArgs(vs)
    ensures KeysOf(CountryArgs(vs)) == set v | v in vs :: TextKey(v)
    ensures Consistent(CountryArgs(vs)) && Consistent(MerchantCategoryArgs(vs))
    ensures Consistent(DeviceArgs(vs)) && Consistent(ChannelArgs(vs))
  {
    forall v | v in vs ensures CountryArg(v) in CountryArgs(vs) && MerchantCategoryArg(v) in MerchantCategoryArgs(vs)
                               && DeviceArg(v) in DeviceArgs(vs) && ChannelArg(v) in ChannelArgs(vs) {
      var i :| 0 <= i < |vs| && vs[i] == v;
      assert CountryArgs(vs)[i] == CountryArg(v) && MerchantCategoryArgs(vs)[i] == MerchantCategoryArg(v);
      assert DeviceArgs(vs)[i] == DeviceArg(v) && ChannelArgs(vs)[i] == ChannelArg(v);
    }
    forall k | k in KeysOf(CountryArgs(vs)) ensures k in set v | v in vs :: TextKey(v) {
      var a :| a in CountryArgs(vs) && KeyOf(a) == k;
      var i :| 0 <= i < |vs| && CountryArgs(vs)[i] == a;
      assert vs[i] in vs;
    }
    OneKeywordConsistent(CountryArgs(vs));
    OneKeywordConsistent(MerchantCategoryArgs(vs));
    OneKeywordConsistent(DeviceArgs(vs));
    OneKeywordConsistent(ChannelArgs(vs));
  }

  // ---------------------------------------------------------------------------------------
  // The single-dimension endpoints

  /** What pydantic raises for TransactionFilter(<expression>): BaseModel accepts keyword
      arguments only. */
  const PositionalError: string := "BaseModel.__init__() takes 1 positional argument but 2 were given"

  /** An endpoint whose filters are built with keywords: the dict comprehension over
      zip(values, results). */
  ghost function KeywordEndpoint<S>(args: seq<FilterArg>, stats: TransactionFilter -> S): Result<map<Key, S>, string> {
    Success(CategoryMap(args, stats))
  }

  /** An endpoint whose filters are built with one positional argument: the list
      comprehension raises on its first element, so only an empty list gets through. */
  ghost function AsWrittenPositionalEndpoint<S>(count: nat): Result<map<Key, S>, string> {
    if count == 0 then Success(map[]) else Failure(PositionalError)
  }

  /** /countries. */
  ghost function CountriesEndpoint<S>(countries: seq<Option<string>>, stats: TransactionFilter -> S): Result<map<Key, S>, string> {
    KeywordEndpoint(CountryArgs(countries), stats)
  }

  /** /merchant_category, /device and /high_risk_merchant as written. */
  ghost function AsWrittenMerchantCategory<S>(categories: seq<Option<string>>): Result<map<Key, S>, string> {
    AsWrittenPositionalEndpoint(|categories|)
  }
  ghost function AsWrittenDevice<S>(devices: seq<Option<string>>): Result<map<Key, S>, string> {
    AsWrittenPositionalEndpoint(|devices|)
  }
  ghost function AsWrittenHighRisk<S>(): Result<map<Key, S>, string> {
    AsWrittenPositionalEndpoint(|HighRiskArgs|)
  }

  /** /channel as written: the values are the distinct *device* values, and the filters are
      built positionally. */
  ghost function AsWrittenChannel<S>(devices: seq<Option<string>>, channels: seq<Option<string>>): Result<map<Key, S>, string> {
    AsWrittenPositionalEndpoint(|devices|)
  }

  /** The endpoints as evidently intended: keyword filters on their own column. */
  ghost function MerchantCategoryEndpoint<S>(categories: seq<Option<string>>, stats: TransactionFilter -> S): Result<map<Key, S>, string> {
    KeywordEndpoint(MerchantCategoryArgs(categories), stats)
  }
  ghost function DeviceEndpoint<S>(devices: seq<Option<string>>, stats: TransactionFilter -> S): Result<map<Key, S>, string> {
    KeywordEndpoint(DeviceArgs(devices), stats)
  }
  ghost function ChannelEndpoint<S>(channels: seq<Option<string>>, stats: TransactionFilter -> S): Result<map<Key, S>, string> {
    KeywordEndpoint(ChannelArgs(channels), stats)
  }
  ghost function HighRiskEndpoint<S>(stats: TransactionFilter -> S): Result<map<Key, S>, string> {
    KeywordEndpoint(HighRiskArgs, stats)
  }

  /** /distance_from_home, /card_present and /weekend_transaction use keywords. */
  ghost function DistanceEndpoint<S>(stats: TransactionFilter -> S): Result<map<Key, S>, string> {
    KeywordEndpoint([DistanceArg(Some(1)), DistanceArg(Some(0))], stats)
  }
  ghost function CardPresentEndpoint<S>(stats: TransactionFilter -> S): Result<map<Key, S>, string> {
    KeywordEndpoint(CardPresentArgs, stats)
  }
  ghost function WeekendEndpoint<S>(stats: TransactionFilter -> S): Result<map<Key, S>, string> {
    KeywordEndpoint(WeekendArgs, stats)
  }

  /** As written, every positional endpoint fails as soon as it has one value, and
      /high_risk_merchant, whose values are fixed, always fails. */
  lemma PositionalEndpointsFail<S>(values: seq<Option<string>>)
    ensures AsWrittenMerchantCategory<S>(values).Failure? <==> values != []
    ensures AsWrittenDevice<S>(values).Failure? <==> values != []
    ensures AsWrittenHighRisk<S>() == Failure(PositionalError)
  {
  }

  /** As written, /channel never looks at the channel values: with no device values it
      answers an empty map even when channels exist, where the intended endpoint has a key
      per channel. */
  lemma AsWrittenChannelIgnoresChannels<S>(stats: TransactionFilter -> S)
    ensures AsWrittenChannel<S>([], [Some("web")]) == Success(map[])
    ensures ChannelEndpoint([Some("web")], stats) == Success(map[KeyText("web") := stats(NoFilter.(channel := Some("web")))])
  {
    var args := ChannelArgs([Some("web")]);
    assert args == [ChannelArg(Some("web"))];
    assert args[..0] == [];
  }

  /** The intended /merchant_category answers one key per value, with its own statistics. */
  lemma MerchantCategoryEndpointMeaning<S>(values: seq<Option<string>>, stats: TransactionFilter -> S)
    ensures forall v | v in values ::
      TextKey(v) in MerchantCategoryEndpoint(values, stats).value
      && MerchantCategoryEndpoint(values, stats).value[TextKey(v)] == stats(NoFilter.(merchantCategory := v))
  {
    TextArgs(values);
    CategoryMapValues(MerchantCategoryArgs(values), stats);
  }

  /** The intended /device answers one key per value, with its own statistics. */
  lemma DeviceEndpointMeaning<S>(values: seq<Option<string>>, stats: TransactionFilter -> S)
    ensures forall v | v in values ::
      TextKey(v) in DeviceEndpoint(values, stats).value
      && DeviceEndpoint(values, stats).value[TextKey(v)] == stats(NoFilter.(device := v))
  {
    TextArgs(values);
    CategoryMapValues(DeviceArgs(values), stats);
  }

  /** The intended /channel answers one key per channel value, with its own statistics. */
  lemma ChannelEndpointMeaning<S>(values: seq<Option<string>>, stats: TransactionFilter -> S)
    ensures forall v | v in values ::
      TextKey(v) in ChannelEndpoint(values, stats).value
      && ChannelEndpoint(values, stats).value[TextKey(v)] == stats(NoFilter.(channel := v))
  {
    TextArgs(values);
    CategoryMapValues(ChannelArgs(values), stats);
  }

  /** /countries has exactly one key per distinct country, holding that country's
      statistics. */
  lemma CountriesEndpointMeaning<S>(countries: seq<Option<string>>, stats: TransactionFilter -> S)
    ensures CountriesEndpoint(countries, stats).value.Keys == set c | c in countries :: TextKey(c)
    ensures forall c | c in countries ::
      TextKey(c) in CountriesEndpoint(countries, stats).value
      && CountriesEndpoint(countries, stats).value[TextKey(c)] == stats(NoFilter.(country := c))
  {
    TextArgs(countries);
    CategoryMapKeys(CountryArgs(countries), stats);
    CategoryMapValues(CountryArgs(countries), stats);
  }

  /** The distance endpoint's key 0 is built with distance_from_home=0, which the
      transaction query treats as no filter at all. */
  lemma DistanceZeroIsUnfiltered(t: Transaction)
    ensures KeywordFilter(DistanceArg(Some(0))) == NoFilter.(distanceFromHome := Some(0))
    ensures Matches(NoFilter.(distanceFromHome := Some(0)), t) <==> Matches(NoFilter, t)
  {
    var f := NoFilter.(distanceFromHome := Some(0));
    assert forall fld: Field :: FieldOk(f, fld, t) == FieldOk(NoFilter, fld, t);
  }
}
