/** The derived values of one center card: per-option rows with their
    over-limit test and usage bar, the calculator totals, the mdx hardware
    panel and the card-level warnings. */
module CenterCard {
  import opened Types
  import opened Catalog
  import opened CostEngine
  import opened AppSession

  /** A row's input turns red when the quantity exceeds the option's limit;
      mdx limits are never enforced. */
  predicate OptionOverLimit(isMdx: bool, value: real, o: ResourceOption) {
    !isMdx && value > o.limit
  }

  /** The usage bar: quantity over limit as a percentage, capped at 100; 0 for
      mdx rows and for limits that are not positive. */
  function PercentUsed(isMdx: bool, value: real, limit: real): (p: real)
    ensures value >= 0.0 ==> 0.0 <= p <= 100.0
    ensures isMdx || limit <= 0.0 ==> p == 0.0
    ensures !isMdx && limit > 0.0 ==> (p == 100.0 <==> value >= limit)
    ensures !isMdx && limit > 0.0 && value < limit ==> p * limit == value * 100.0
  {
    if !isMdx && limit > 0.0 then
      var ratio := (value / limit) * 100.0;
      if ratio < 100.0 then ratio else 100.0
    else 0.0
  }

  /** A red row with a positive limit shows a full bar. */
  lemma OverLimitShowsFullBar(isMdx: bool, value: real, o: ResourceOption)
    requires OptionOverLimit(isMdx, value, o) && o.limit > 0.0
    ensures PercentUsed(isMdx, value, o.limit) == 100.0
  {
  }

  /** A limit of 0 or below (a cleared settings field stores 0) makes every
      positive quantity red while the bar stays empty. */
  lemma NonPositiveLimitShowsEmptyBar(value: real, o: ResourceOption)
    requires o.limit <= 0.0 && value > 0.0
    ensures OptionOverLimit(false, value, o) && PercentUsed(false, value, o.limit) == 0.0
  {
  }

  /** The unit passed to each input group. */
  function Unit(isMdx: bool, cat: Category): string {
    match cat
    case Cpu => if isMdx then "Pack" else "hr"
    case Gpu => if isMdx then "Pack" else "hr"
    case Storage => "TB"
  }

  predicate IsCalcEnabled(isMdx: bool, unit: string) {
    !isMdx && unit == "hr"
  }

  /** The calculator is offered exactly on the CPU and GPU rows of HPCI cards. */
  lemma CalcEnabledIff(isMdx: bool, cat: Category)
    ensures IsCalcEnabled(isMdx, Unit(isMdx, cat)) <==> !isMdx && cat != Storage
  {
  }

  /** Batch mode: time per job times number of jobs. */
  function BatchTotal(time: NumericInput, count: NumericInput): (t: real)
    ensures !time.Number? || !count.Number? ==> t == 0.0
    ensures time.Number? && count.Number? ==> t == time.value * count.value
  {
    NumberOrZero(time) * NumberOrZero(count)
  }

  /** Daily mode: time per job times jobs per day times days. */
  function DailyTotal(time: NumericInput, count: NumericInput, days: NumericInput): (t: real)
    ensures !time.Number? || !count.Number? || !days.Number? ==> t == 0.0
    ensures time.Number? && count.Number? && days.Number? ==>
      t == time.value * count.value * days.value
  {
    NumberOrZero(time) * NumberOrZero(count) * NumberOrZero(days)
  }

  /** The Apply button is disabled while the total is not positive. */
  predicate ApplyEnabled(total: real) {
    total > 0.0
  }

  /** A calculator total can only be applied when every one of its fields
      holds a non-zero number; with non-negative fields the total applied is
      never negative. */
  lemma ApplyNeedsEveryField(time: NumericInput, count: NumericInput, days: NumericInput)
    ensures ApplyEnabled(BatchTotal(time, count)) ==>
      time.Number? && count.Number? && time.value != 0.0 && count.value != 0.0
    ensures ApplyEnabled(DailyTotal(time, count, days)) ==>
      time.Number? && count.Number? && days.Number? &&
      time.value != 0.0 && count.value != 0.0 && days.value != 0.0
    ensures NumberOrZero(time) >= 0.0 && NumberOrZero(count) >= 0.0 ==> BatchTotal(time, count) >= 0.0
  {
    if time.Number? && count.Number? && time.value >= 0.0 && count.value >= 0.0 {
      assert time.value * count.value >= 0.0;
    }
  }

  /** `Math.ceil(packs / packsPerNode)`: the least number of VMs whose packs
      cover the request. */
  function MinVms(packs: real, packsPerNode: real): (m: int)
    requires packsPerNode > 0.0
    ensures m as real * packsPerNode >= packs
    ensures (m - 1) as real * packsPerNode < packs
  {
    var q := packs / packsPerNode;
    var m := -((-q).Floor);
    assert m as real >= q && (m - 1) as real < q;
    assert q * packsPerNode == packs;
    CeilingScales(q, m, packsPerNode);
    assert (m - 1) as real * packsPerNode < packs;
    m
  }

  lemma CeilingScales(q: real, m: int, d: real)
    requires d > 0.0 && m as real >= q && (m - 1) as real < q
    ensures m as real * d >= q * d && (m - 1) as real * d < q * d
  {
  }

  /** The mdx hardware panel under a row: shown for CPU and GPU rows of an
      mdx card whose center has hardware figures, once the quantity is
      positive. */
  predicate ShowsStatsPanel(isMdx: bool, specs: Option<MdxSystemSpec>, cat: Category, value: real) {
    isMdx && specs.Some? && cat != Storage && value > 0.0
  }

  /** No seed center has hardware figures, so the seed catalog never shows
      the panel. */
  lemma SeedShowsNoStatsPanel(a: nat, cat: Category, value: real)
    requires a < |Centers|
    ensures !ShowsStatsPanel(Centers[a].infra == Mdx, Centers[a].mdxSpecs, cat, value)
  {
    SeedHasNoMdxSpecs();
  }

  /** What one row displays. */
  datatype Row = Row(option: ResourceOption, value: real, overLimit: bool,
                     percentUsed: real, calcEnabled: bool)

  /** `ResourceInputGroup`: nothing for an empty category, otherwise one row
      per option in list order, each showing the selection for that option
      or 0 when there is none. */
  function InputGroup(options: seq<ResourceOption>, sels: Selections, isMdx: bool, unit: string): (g: Option<seq<Row>>)
    ensures g.None? <==> |options| == 0
    ensures g.Some? ==> |g.value| == |options| && forall k :: 0 <= k < |options| ==>
      && g.value[k].option == options[k]
      && g.value[k].value == Quantity(sels, options[k].id)
      && (g.value[k].overLimit <==> !isMdx && Quantity(sels, options[k].id) > options[k].limit)
      && g.value[k].percentUsed == PercentUsed(isMdx, Quantity(sels, options[k].id), options[k].limit)
      && g.value[k].calcEnabled == IsCalcEnabled(isMdx, unit)
  {
    if |options| == 0 then None
    else Some(seq(|options|, k requires 0 <= k < |options| =>
      var value := Quantity(sels, options[k].id);
      Row(options[k], value, OptionOverLimit(isMdx, value, options[k]),
          PercentUsed(isMdx, value, options[k].limit), IsCalcEnabled(isMdx, unit))))
  }

  /** The card's red total: an HPCI card whose cost exceeds the single-center
      limit. */
  predicate IsCostOverLimit(center: CenterSpec, cost: real) {
    center.infra == Hpci && cost > HpciSingleCenterLimit
  }

  /** Some option of one category has a selection above its limit. */
  predicate AnyOverLimit(options: seq<ResourceOption>, sels: Selections) {
    exists k :: 0 <= k < |options| && Quantity(sels, options[k].id) > options[k].limit
  }

  /** The card's limit warning: some CPU, GPU or storage option over its
      limit, on an HPCI card. */
  predicate HasLimitError(center: CenterSpec, req: ResourceRequest) {
    var isMdx := center.infra == Mdx;
    (!isMdx && AnyOverLimit(center.cpuOptions, req.cpuSelections))
    || (!isMdx && AnyOverLimit(center.gpuOptions, req.gpuSelections))
    || (!isMdx && AnyOverLimit(center.storageOptions, req.storageSelections))
  }

  /** The card-level warning is on exactly when one of the rows the card
      renders is red. */
  lemma LimitErrorIffSomeRowRed(center: CenterSpec, req: ResourceRequest)
    ensures HasLimitError(center, req) <==>
      exists cat :: RowRed(center, req, cat)
  {
    var isMdx := center.infra == Mdx;
    forall cat ensures RowRed(center, req, cat) <==> !isMdx && AnyOverLimit(Options(center, cat), SelectionsOf(req, cat)) {
      var g := InputGroup(Options(center, cat), SelectionsOf(req, cat), isMdx, Unit(isMdx, cat));
      if RowRed(center, req, cat) {
        var k :| 0 <= k < |g.value| && g.value[k].overLimit;
        assert Quantity(SelectionsOf(req, cat), Options(center, cat)[k].id) > Options(center, cat)[k].limit;
      }
      if !isMdx && AnyOverLimit(Options(center, cat), SelectionsOf(req, cat)) {
        var k :| 0 <= k < |Options(center, cat)| &&
          Quantity(SelectionsOf(req, cat), Options(center, cat)[k].id) > Options(center, cat)[k].limit;
        assert g.value[k].overLimit;
      }
    }
    assert RowRed(center, req, Cpu) <==> !isMdx && AnyOverLimit(center.cpuOptions, req.cpuSelections);
    assert RowRed(center, req, Gpu) <==> !isMdx && AnyOverLimit(center.gpuOptions, req.gpuSelections);
    assert RowRed(center, req, Storage) <==> !isMdx && AnyOverLimit(center.storageOptions, req.storageSelections);
  }

  /** Some row of the input group of category `cat` is red. */
  predicate RowRed(center: CenterSpec, req: ResourceRequest, cat: Category) {
    var isMdx := center.infra == Mdx;
    var g := InputGroup(Options(center, cat), SelectionsOf(req, cat), isMdx, Unit(isMdx, cat));
    g.Some? && exists k :: 0 <= k < |g.value| && g.value[k].overLimit
  }

  /** An mdx card never shows a limit warning or a red total. */
  lemma MdxCardNeverWarns(center: CenterSpec, req: ResourceRequest, cost: real)
    requires center.infra == Mdx
    ensures !HasLimitError(center, req) && !IsCostOverLimit(center, cost)
  {
  }

  /** `costs.find(c => c.centerId === id)?.total || 0`. */
  function CardCost(costs: seq<CostBreakdown>, centerId: string): (cost: real)
    ensures (forall i :: 0 <= i < |costs| ==> costs[i].centerId != centerId) ==> cost == 0.0
    ensures forall i :: (0 <= i < |costs| && costs[i].centerId == centerId &&
                         forall j :: 0 <= j < i ==> costs[j].centerId != centerId) ==> cost == costs[i].total
  {
    if |costs| == 0 then 0.0
    else if costs[0].centerId == centerId then costs[0].total
    else
      var cost := CardCost(costs[1..], centerId);
      assert forall i :: 1 <= i < |costs| ==> costs[i] == costs[1..][i - 1];
      cost
  }

  /** In an aligned session the card of center `i` shows the total of its
      own breakdown, and its red total agrees with that breakdown's
      over-limit flag for HPCI centers. */
  lemma CardAgreesWithBreakdown(centers: seq<CenterSpec>, requests: seq<ResourceRequest>, i: nat)
    requires Aligned(centers, requests) && i < |centers|
    ensures var costs := Summarize(centers, requests).costs;
      && CardCost(costs, centers[i].id) == costs[i].total
      && (centers[i].infra == Hpci ==>
            IsCostOverLimit(centers[i], CardCost(costs, centers[i].id)) == costs[i].isOverLimit)
      && (centers[i].infra == Mdx ==>
            !IsCostOverLimit(centers[i], CardCost(costs, centers[i].id)) && !costs[i].isOverLimit)
  {
    var costs := Summarize(centers, requests).costs;
    SummaryProperties(centers, requests);
    AlignedFindsOwnCenter(centers, requests, i);
    forall j | 0 <= j < i ensures costs[j].centerId != centers[i].id {
      assert costs[j].centerId == centers[j].id;
    }
  }
}
