/** Social yield pools: a list of community pools filtered by risk,
    strategy, a text search and a performance range, sorted by a criterion,
    and extended by a "create pool" form. */
module Pools {
  import opened Options
  import opened Seqs
  import opened Text
  import opened Numbers

  /** A pool as the list shows it. `id` is absent on pools the form creates;
      `performance` is display text such as "12% APY"; `risk` is `None` where
      the object has no `risk` property (`undefined`). */
  datatype Pool = Pool(
    id: Option<int>,
    name: string,
    strategy: string,
    totalFunds: int,
    contributors: int,
    performance: string,
    description: string,
    risk: Option<string>)

  /** A performance text such as "12% APY": the number written out, then
      "% APY". */
  function Apy(n: nat): string {
    NatToDigits(n) + "% APY"
  }

  function ExistingPools(): seq<Pool> {
    [ Pool(Some(1), "ETH Yield Enthusiasts", "Yield Farming", 150000, 20, Apy(12),
           "A community pool focused on ETH yield farming. High risk, high reward.", Some("High")),
      Pool(Some(2), "DeFi Diversifiers", "Multi-Chain Liquidity Pools", 75000, 15, Apy(8),
           "Diversified investments across multiple blockchains for balanced growth.", Some("Medium")),
      Pool(Some(3), "Stablecoin Saviors", "Stablecoin Staking", 50000, 10, Apy(5),
           "Low-risk pool focusing on staking stablecoins for steady returns.", Some("Low")) ]
  }

  // ---- Filtering ---------------------------------------------------------

  /** The filter state; `low` and `high` are the performance range. An empty
      risk or strategy means "any". */
  datatype Filters = Filters(risk: string, strategy: string, low: real, high: real)

  /** The two selects that write into the filters by their `name`. */
  datatype FilterField = RiskField | StrategyField

  function DefaultFilters(): Filters {
    Filters("", "", 0.0, 15.0)
  }

  /** `handleFilterChange`: overwrite the one named field. */
  function ChangeFilter(f: Filters, field: FilterField, value: string): (r: Filters)
    ensures r.low == f.low && r.high == f.high
    ensures field == RiskField ==> r.risk == value && r.strategy == f.strategy
    ensures field == StrategyField ==> r.strategy == value && r.risk == f.risk
  {
    match field
    case RiskField => f.(risk := value)
    case StrategyField => f.(strategy := value)
  }

  /** `parseFloat(pool.performance)`; `None` is NaN. */
  function PerformanceOf(p: Pool): Option<real> {
    ParseLeadingDecimal(p.performance)
  }

  /** The search: an empty query matches everything, otherwise the name or
      the description must contain it, ignoring case. */
  predicate MatchesSearch(p: Pool, query: string) {
    query == [] || IncludesIgnoringCase(p.name, query) || IncludesIgnoringCase(p.description, query)
  }

  /** The four tests of the filter callback. A NaN performance fails both
      range comparisons. */
  predicate PoolMatches(p: Pool, f: Filters, query: string) {
    && (f.risk == [] || p.risk == Some(f.risk))
    && (f.strategy == [] || p.strategy == f.strategy)
    && MatchesSearch(p, query)
    && PerformanceOf(p).Some? && f.low <= PerformanceOf(p).value <= f.high
  }

  function Matcher(f: Filters, query: string): Pool -> bool {
    (p: Pool) => PoolMatches(p, f, query)
  }

  /** `filteredPools`. */
  function FilterPools(pools: seq<Pool>, f: Filters, query: string): seq<Pool> {
    Filter(pools, Matcher(f, query))
  }

  /** The filtered list keeps exactly the matching pools, in their order. */
  lemma FilterPoolsSpec(pools: seq<Pool>, f: Filters, query: string)
    ensures IsSubsequence(FilterPools(pools, f, query), pools)
    ensures forall p :: p in FilterPools(pools, f, query) <==> p in pools && PoolMatches(p, f, query)
  {
    FilterIsSubsequence(pools, Matcher(f, query));
  }

  /** Every listed pool has a numeric performance inside the range. */
  lemma FilteredHavePerformance(pools: seq<Pool>, f: Filters, query: string)
    ensures forall p :: p in FilterPools(pools, f, query) ==>
              PerformanceOf(p).Some? && f.low <= PerformanceOf(p).value <= f.high
  {
  }

  /** Typing a search query can only narrow the list of the empty query. */
  lemma SearchNarrows(pools: seq<Pool>, f: Filters, query: string)
    ensures IsSubsequence(FilterPools(pools, f, query), FilterPools(pools, f, ""))
  {
    FilterMonotone(pools, Matcher(f, query), Matcher(f, ""));
  }

  /** Choosing a risk level where there was none can only narrow the list. */
  lemma RiskFilterNarrows(pools: seq<Pool>, f: Filters, query: string, risk: string)
    requires f.risk == ""
    ensures IsSubsequence(FilterPools(pools, ChangeFilter(f, RiskField, risk), query), FilterPools(pools, f, query))
  {
    FilterMonotone(pools, Matcher(ChangeFilter(f, RiskField, risk), query), Matcher(f, query));
  }

  /** A performance text "<n>% APY" parses to n. */
  lemma ApyParses(n: nat)
    ensures ParseLeadingDecimal(Apy(n)) == Some(n as real)
  {
    ParseWrittenNumber(n, "% APY");
  }

  /** A pool whose performance reads "<n>% APY" with n at most 15 passes
      the default filters with an empty query. */
  lemma ApyPoolShown(p: Pool, n: nat)
    requires p.performance == Apy(n) && n <= 15
    ensures PoolMatches(p, DefaultFilters(), "")
  {
    ApyParses(n);
  }

  /** With the default filters and no query all three sample pools show. */
  lemma DefaultFiltersShowAll()
    ensures FilterPools(ExistingPools(), DefaultFilters(), "") == ExistingPools()
  {
    var pools := ExistingPools();
    forall i | 0 <= i < |pools| ensures Matcher(DefaultFilters(), "")(pools[i]) {
      ApyPoolShown(pools[i], if i == 0 then 12 else if i == 1 then 8 else 5);
    }
    FilterKeepsAll(pools, Matcher(DefaultFilters(), ""));
  }

  // ---- Sorting -----------------------------------------------------------

  datatype SortCriterion = ByPerformance | ByContributors | ByTotalFunds | Unsorted

  /** The comparator's string test on `sortCriteria`. */
  function CriterionOf(s: string): SortCriterion {
    if s == "performance" then ByPerformance
    else if s == "contributors" then ByContributors
    else if s == "totalFunds" then ByTotalFunds
    else Unsorted
  }

  /** The comparator `b - a` orders by this key, largest first; an unknown
      criterion compares every pair as equal. */
  function KeyOf(c: SortCriterion): Pool -> real {
    match c
    case ByPerformance => (p: Pool) => PerformanceOf(p).GetOr(0.0)
    case ByContributors => (p: Pool) => p.contributors as real
    case ByTotalFunds => (p: Pool) => p.totalFunds as real
    case Unsorted => (p: Pool) => 0.0
  }

  /** `filteredPools.sort(…)`: a stable sort, largest key first. */
  function SortPools(pools: seq<Pool>, c: SortCriterion): seq<Pool> {
    SortDescending(pools, KeyOf(c))
  }

  /** The sorted list is a permutation, largest key first, and pools with
      equal keys keep their relative order. */
  lemma SortPoolsSpec(pools: seq<Pool>, c: SortCriterion, v: real)
    ensures multiset(SortPools(pools, c)) == multiset(pools)
    ensures IsSortedDescending(SortPools(pools, c), KeyOf(c))
    ensures WithKey(SortPools(pools, c), KeyOf(c), v) == WithKey(pools, KeyOf(c), v)
  {
    SortIsSorted(pools, KeyOf(c));
    SortIsStable(pools, KeyOf(c), v);
  }

  /** An unrecognised criterion leaves the list as it is. */
  lemma UnsortedKeepsOrder(pools: seq<Pool>, s: string)
    requires s != "performance" && s != "contributors" && s != "totalFunds"
    ensures SortPools(pools, CriterionOf(s)) == pools
  {
    SortConstantKeyIdentity(pools, KeyOf(Unsorted), 0.0);
  }

  /** The pools on screen: filtered, then sorted. */
  function VisiblePools(pools: seq<Pool>, f: Filters, query: string, c: SortCriterion): seq<Pool> {
    SortPools(FilterPools(pools, f, query), c)
  }

  /** The screen shows exactly the matching pools, each with a numeric
      performance. */
  lemma VisiblePoolsContents(pools: seq<Pool>, f: Filters, query: string, c: SortCriterion)
    ensures var r := VisiblePools(pools, f, query, c);
            && multiset(r) == multiset(FilterPools(pools, f, query))
            && (forall p :: p in r <==> p in pools && PoolMatches(p, f, query))
            && (forall i :: 0 <= i < |r| ==> PerformanceOf(r[i]).Some?)
  {
    var r := VisiblePools(pools, f, query, c);
    SortMembership(FilterPools(pools, f, query), KeyOf(c));
    assert forall i :: 0 <= i < |r| ==> r[i] in r;
  }

  /** Under the performance criterion, consecutive pools on screen never
      increase in parsed performance. */
  lemma VisiblePoolsOrdered(pools: seq<Pool>, f: Filters, query: string)
    ensures var r := VisiblePools(pools, f, query, ByPerformance);
            forall i :: 0 <= i < |r| - 1 ==> PerformanceOf(r[i]).GetOr(0.0) >= PerformanceOf(r[i + 1]).GetOr(0.0)
  {
    var filtered := FilterPools(pools, f, query);
    var r := VisiblePools(pools, f, query, ByPerformance);
    SortIsSorted(filtered, KeyOf(ByPerformance));
    forall i | 0 <= i < |r| - 1
      ensures PerformanceOf(r[i]).GetOr(0.0) >= PerformanceOf(r[i + 1]).GetOr(0.0)
    {
      assert KeyOf(ByPerformance)(r[i]) >= KeyOf(ByPerformance)(r[i + 1]);
    }
  }

  // ---- Earnings ----------------------------------------------------------

  /** `calculateEarningsPerContributor`: 0 for a pool without contributors,
      otherwise funds per contributor rounded to cents. */
  function EarningsPerContributor(p: Pool): (r: real)
    ensures p.contributors == 0 ==> r == 0.0
    ensures WholeHundredths(r)
    ensures p.contributors != 0 ==> -0.005 <= r - p.totalFunds as real / p.contributors as real <= 0.005
    ensures p.totalFunds >= 0 && p.contributors > 0 ==> r >= 0.0
  {
    if p.contributors == 0 then 0.0
    else Round2(p.totalFunds as real / p.contributors as real)
  }

  // ---- The create-pool form ----------------------------------------------

  /** The `name` attributes of the create form's six inputs. */
  datatype FormField = Name | Strategy | MinContribution | MaxParticipants | Risk | Description

  /** The form state `newPool`: field to input text. A field without an
      entry is `undefined`. */
  type Form = map<FormField, string>

  function InitialForm(): Form {
    map[Name := "", Strategy := "", MinContribution := "", MaxParticipants := "", Risk := "", Description := ""]
  }

  /** Every field the form renders has a value. */
  predicate FormComplete(form: Form) {
    forall k: FormField :: k in form
  }

  /** Every field except perhaps the risk has a value: what both the initial
      form and the form after a create provide. */
  predicate HasTextFields(form: Form) {
    forall k: FormField :: k != Risk ==> k in form
  }

  /** The initial form has all six fields. */
  lemma InitialFormComplete()
    ensures FormComplete(InitialForm())
  {
    forall k: FormField ensures k in InitialForm() {
      match k
      case Name =>
      case Strategy =>
      case MinContribution =>
      case MaxParticipants =>
      case Risk =>
      case Description =>
    }
  }

  /** `handleCreatePoolChange`: `{ ...newPool, [name]: value }`. */
  function ChangeForm(form: Form, name: FormField, value: string): (r: Form)
    ensures r.Keys == form.Keys + {name} && r[name] == value
    ensures forall k :: k in form && k != name ==> r[k] == form[k]
  {
    form[name := value]
  }

  /** The reset after a create, as written: it lists five of the six fields
      and leaves the risk out. */
  function ResetFormAsWritten(): Form {
    map[Name := "", Strategy := "", MinContribution := "", MaxParticipants := "", Description := ""]
  }

  /** Editing a complete form keeps it complete. */
  lemma ChangeKeepsComplete(form: Form, name: FormField, value: string)
    requires FormComplete(form)
    ensures FormComplete(ChangeForm(form, name, value))
  {
  }

  /** Editing never removes a field, so the text fields stay. */
  lemma ChangeKeepsTextFields(form: Form, name: FormField, value: string)
    requires HasTextFields(form)
    ensures HasTextFields(ChangeForm(form, name, value))
  {
  }

  /** The pool `handleCreateSubmit` pushes: the form's fields with no funds,
      no contributors and performance "N/A"; the risk is `undefined` when the
      form has none. */
  function CreatedPool(form: Form): (p: Pool)
    requires HasTextFields(form)
    ensures p.risk.Some? <==> Risk in form
    ensures p.id == None && p.totalFunds == 0 && p.contributors == 0 && p.performance == "N/A"
  {
    Pool(None, form[Name], form[Strategy], 0, 0, "N/A", form[Description],
         if Risk in form then Some(form[Risk]) else None)
  }

  /** The as-written reset is the initial form without its risk entry. It
      keeps the text fields, but the next pool created without touching the
      risk select is pushed with an `undefined` risk. */
  lemma ResetAsWrittenDropsRisk(name: FormField, value: string)
    requires name != Risk
    ensures ResetFormAsWritten() == map k | k in InitialForm() && k != Risk :: InitialForm()[k]
    ensures HasTextFields(ResetFormAsWritten()) && !FormComplete(ResetFormAsWritten())
    ensures CreatedPool(ChangeForm(ResetFormAsWritten(), name, value)).risk == None
  {
    assert Risk !in ResetFormAsWritten();
    assert Risk !in ChangeForm(ResetFormAsWritten(), name, value);
  }

  /** The reset evidently intended goes back to the initial form: after it,
      any edit leaves a complete form, and the next pool created carries the
      form's risk. */
  lemma CorrectedResetKeepsRisk(name: FormField, value: string)
    ensures FormComplete(ChangeForm(InitialForm(), name, value))
    ensures var form := ChangeForm(InitialForm(), name, value);
            CreatedPool(form).risk == Some(form[Risk])
  {
    InitialFormComplete();
  }

  /** A created pool never passes the filters: "N/A" parses to NaN. */
  lemma CreatedPoolHidden(form: Form, f: Filters, query: string)
    requires HasTextFields(form)
    ensures !PoolMatches(CreatedPool(form), f, query)
    ensures EarningsPerContributor(CreatedPool(form)) == 0.0
  {
    ParseNonNumeric("N/A");
  }

  /** Creating a pool leaves the filtered list as it was. */
  lemma CreateKeepsFilteredList(pools: seq<Pool>, form: Form, f: Filters, query: string)
    requires HasTextFields(form)
    ensures FilterPools(pools + [CreatedPool(form)], f, query) == FilterPools(pools, f, query)
  {
    FilterAppend(pools, [CreatedPool(form)], Matcher(f, query));
    CreatedPoolHidden(form, f, query);
    FilterKeepsNone([CreatedPool(form)], Matcher(f, query));
  }

  // ---- The component's state ---------------------------------------------

  /** The state of the `SocialYieldPools` component, with the module-level
      pool array it pushes onto. */
  class PoolsView {
    var pools: seq<Pool>
    var newPool: Form
    var filters: Filters
    var searchQuery: string
    var sortCriteria: string
    var loading: bool
    var createOpen: bool
    var selectedPool: Option<Pool>
    var joinOpen: bool

    ghost predicate Valid()
      reads this
    {
      HasTextFields(newPool)
    }

    constructor ()
      ensures Valid()
      ensures pools == ExistingPools() && newPool == InitialForm() && filters == DefaultFilters()
      ensures searchQuery == "" && sortCriteria == "performance" && !loading && !createOpen
      ensures selectedPool == None && !joinOpen
    {
      pools := ExistingPools();
      newPool := InitialForm();
      InitialFormComplete();
      filters := DefaultFilters();
      searchQuery := "";
      sortCriteria := "performance";
      loading := false;
      createOpen := false;
      selectedPool := None;
      joinOpen := false;
    }

    /** What the list renders. */
    function Visible(): seq<Pool>
      reads this
    {
      VisiblePools(pools, filters, searchQuery, CriterionOf(sortCriteria))
    }

    method SetSearchQuery(q: string)
      modifies this`searchQuery
      ensures searchQuery == q
    {
      searchQuery := q;
    }

    method FilterChange(field: FilterField, value: string)
      modifies this`filters
      ensures filters == ChangeFilter(old(filters), field, value)
    {
      filters := ChangeFilter(filters, field, value);
    }

    /** The "Clear Filters" button. */
    method ClearFilters()
      modifies this`filters
      ensures filters == DefaultFilters()
    {
      filters := DefaultFilters();
    }

    /** `handleJoinClick`. */
    method JoinClick(pool: Pool)
      modifies this`selectedPool, this`joinOpen
      ensures selectedPool == Some(pool) && joinOpen
    {
      selectedPool := Some(pool);
      joinOpen := true;
    }

    method OpenCreate()
      modifies this`createOpen
      ensures createOpen
    {
      createOpen := true;
    }

    method CreatePoolChange(name: FormField, value: string)
      requires Valid()
      modifies this`newPool
      ensures Valid()
      ensures newPool == ChangeForm(old(newPool), name, value)
    {
      newPool := ChangeForm(newPool, name, value);
    }

    /** `handleCreateSubmit`, with its reset as written. The visible list
        does not change. */
    method CreateSubmit()
      requires Valid()
      modifies this`pools, this`newPool, this`loading, this`createOpen
      ensures Valid()
      ensures pools == old(pools) + [CreatedPool(old(newPool))]
      ensures newPool == ResetFormAsWritten() && !loading && !createOpen
      ensures Visible() == old(Visible())
    {
      loading := true;
      var created := CreatedPool(newPool);
      CreateKeepsFilteredList(pools, newPool, filters, searchQuery);
      pools := pools + [created];
      newPool := ResetFormAsWritten();
      loading := false;
      createOpen := false;
    }
  }
}
