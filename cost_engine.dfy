/** The cost aggregation of the planner's main view: per-request category
    costs, the HPCI and mdx class totals and the over-limit flags. */
module CostEngine {
  import opened Types
  import opened Catalog

  /** The cost of one option: its requested quantity (0 when absent) times
      its unit price. */
  function LineCost(o: ResourceOption, sels: Selections): real {
    Quantity(sels, o.id) * o.price
  }

  /** The sum of the line costs of `options`, added up in list order. */
  function CategoryCost(options: seq<ResourceOption>, sels: Selections): real
    decreases |options|
  {
    if |options| == 0 then 0.0
    else CategoryCost(options[..|options| - 1], sels) + LineCost(options[|options| - 1], sels)
  }

  /** The accumulator loop of one category (`let cost = 0; forEach … +=`). */
  method SumCategory(options: seq<ResourceOption>, sels: Selections) returns (cost: real)
    ensures cost == CategoryCost(options, sels)
  {
    cost := 0.0;
    var i := 0;
    while i < |options|
      invariant 0 <= i <= |options|
      invariant cost == CategoryCost(options[..i], sels)
    {
      assert options[..i + 1][..i] == options[..i];
      cost := cost + Quantity(sels, options[i].id) * options[i].price;
      i := i + 1;
    }
    assert options[..i] == options;
  }

  /** A category cost is determined by the quantities of that category's own
      options: keys naming other options never matter. */
  lemma {:induction false} CategoryCostDependsOnOwnKeys(options: seq<ResourceOption>, s1: Selections, s2: Selections)
    requires forall k :: 0 <= k < |options| ==> Quantity(s1, options[k].id) == Quantity(s2, options[k].id)
    ensures CategoryCost(options, s1) == CategoryCost(options, s2)
    decreases |options|
  {
    if |options| > 0 {
      var init := options[..|options| - 1];
      assert forall k :: 0 <= k < |init| ==> init[k] == options[k];
      CategoryCostDependsOnOwnKeys(init, s1, s2);
    }
  }

  /** Drift tolerance: a selection under an id that no option of the
      category has leaves the cost unchanged. */
  lemma CategoryCostIgnoresForeignKey(options: seq<ResourceOption>, sels: Selections, key: string, value: real)
    requires forall k :: 0 <= k < |options| ==> options[k].id != key
    ensures CategoryCost(options, sels[key := value]) == CategoryCost(options, sels)
  {
    CategoryCostDependsOnOwnKeys(options, sels[key := value], sels);
  }

  lemma {:induction false} CategoryCostOfEmptySelections(options: seq<ResourceOption>)
    ensures CategoryCost(options, map[]) == 0.0
    decreases |options|
  {
    if |options| > 0 {
      CategoryCostOfEmptySelections(options[..|options| - 1]);
    }
  }

  lemma {:induction false} CategoryCostNonNegative(options: seq<ResourceOption>, sels: Selections)
    requires forall k :: 0 <= k < |options| ==> options[k].price >= 0.0 && Quantity(sels, options[k].id) >= 0.0
    ensures CategoryCost(options, sels) >= 0.0
    decreases |options|
  {
    if |options| > 0 {
      var init := options[..|options| - 1];
      assert forall k :: 0 <= k < |init| ==> init[k] == options[k];
      CategoryCostNonNegative(init, sels);
    }
  }

  /** Setting the quantity of an option whose id occurs once in the category
      replaces that option's line cost and no other. */
  lemma {:induction false} CategoryCostAfterSet(options: seq<ResourceOption>, sels: Selections, i: nat, value: real)
    requires i < |options|
    requires forall k :: 0 <= k < |options| && k != i ==> options[k].id != options[i].id
    ensures CategoryCost(options, sels[options[i].id := value])
      == CategoryCost(options, sels) - LineCost(options[i], sels) + LineCost(options[i], sels[options[i].id := value])
    decreases |options|
  {
    var key := options[i].id;
    var init := options[..|options| - 1];
    assert forall k :: 0 <= k < |init| ==> init[k] == options[k];
    if i == |options| - 1 {
      CategoryCostIgnoresForeignKey(init, sels, key, value);
    } else {
      CategoryCostAfterSet(init, sels, i, value);
    }
  }

  /** The line cost of an option moves by the quantity difference times the
      option's price. */
  lemma LineCostAfterSet(o: ResourceOption, sels: Selections, value: real)
    ensures LineCost(o, sels[o.id := value]) - LineCost(o, sels) == (value - Quantity(sels, o.id)) * o.price
  {
  }

  /** The breakdown of one request before the over-limit flag is attached. */
  datatype RawCost = RawCost(
    centerId: string, infra: InfrastructureType,
    cpuCost: real, gpuCost: real, storageCost: real, total: real)

  /** `centers.find(c => c.id === id)`: the first center with that id. */
  function FindCenter(centers: seq<CenterSpec>, id: string): (r: Option<CenterSpec>)
    ensures r.None? <==> forall i :: 0 <= i < |centers| ==> centers[i].id != id
    ensures r.Some? ==> exists i :: 0 <= i < |centers| && centers[i] == r.value &&
                          r.value.id == id && forall j :: 0 <= j < i ==> centers[j].id != id
  {
    if |centers| == 0 then None
    else if centers[0].id == id then Some(centers[0])
    else
      var r := FindCenter(centers[1..], id);
      assert forall i :: 1 <= i < |centers| ==> centers[i] == centers[1..][i - 1];
      r
  }

  /** With unique ids, the center found for the id at position `i` is the
      center at position `i`. */
  lemma FindCenterAt(centers: seq<CenterSpec>, i: nat)
    requires i < |centers|
    requires CenterIdsUnique(centers)
    ensures FindCenter(centers, centers[i].id) == Some(centers[i])
  {
  }

  function RawCostOf(centers: seq<CenterSpec>, req: ResourceRequest): (r: RawCost)
    ensures r.total == r.cpuCost + r.gpuCost + r.storageCost
    ensures r.centerId == req.centerId
    ensures FindCenter(centers, req.centerId).None? ==>
      r == RawCost(req.centerId, Hpci, 0.0, 0.0, 0.0, 0.0)
    ensures FindCenter(centers, req.centerId).Some? ==>
      var c := FindCenter(centers, req.centerId).value;
      && r.infra == c.infra
      && r.cpuCost == CategoryCost(c.cpuOptions, req.cpuSelections)
      && r.gpuCost == CategoryCost(c.gpuOptions, req.gpuSelections)
      && r.storageCost == CategoryCost(c.storageOptions, req.storageSelections)
  {
    match FindCenter(centers, req.centerId)
    case None => RawCost(req.centerId, Hpci, 0.0, 0.0, 0.0, 0.0)
    case Some(c) =>
      var cpu := CategoryCost(c.cpuOptions, req.cpuSelections);
      var gpu := CategoryCost(c.gpuOptions, req.gpuSelections);
      var storage := CategoryCost(c.storageOptions, req.storageSelections);
      RawCost(c.id, c.infra, cpu, gpu, storage, cpu + gpu + storage)
  }

  /** `rawCosts`: one raw cost per request, in request order. */
  function RawCosts(centers: seq<CenterSpec>, requests: seq<ResourceRequest>): (r: seq<RawCost>)
    ensures |r| == |requests|
    ensures forall i :: 0 <= i < |requests| ==> r[i] == RawCostOf(centers, requests[i])
  {
    seq(|requests|, i requires 0 <= i < |requests| => RawCostOf(centers, requests[i]))
  }

  method ComputeRawCost(centers: seq<CenterSpec>, req: ResourceRequest) returns (r: RawCost)
    ensures r == RawCostOf(centers, req)
  {
    var found := FindCenter(centers, req.centerId);
    if found.None? {
      return RawCost(req.centerId, Hpci, 0.0, 0.0, 0.0, 0.0);
    }
    var c := found.value;
    var cpu := SumCategory(c.cpuOptions, req.cpuSelections);
    var gpu := SumCategory(c.gpuOptions, req.gpuSelections);
    var storage := SumCategory(c.storageOptions, req.storageSelections);
    r := RawCost(c.id, c.infra, cpu, gpu, storage, cpu + gpu + storage);
  }

  method ComputeRawCosts(centers: seq<CenterSpec>, requests: seq<ResourceRequest>) returns (raws: seq<RawCost>)
    ensures raws == RawCosts(centers, requests)
  {
    raws := [];
    var i := 0;
    while i < |requests|
      invariant 0 <= i <= |requests|
      invariant |raws| == i
      invariant forall k :: 0 <= k < i ==> raws[k] == RawCostOf(centers, requests[k])
    {
      var r := ComputeRawCost(centers, requests[i]);
      raws := raws + [r];
      i := i + 1;
    }
  }

  /** `hpciTotal`: the sum of `total` over the HPCI entries only. */
  function HpciTotal(raws: seq<RawCost>): real
    decreases |raws|
  {
    if |raws| == 0 then 0.0
    else
      var last := raws[|raws| - 1];
      HpciTotal(raws[..|raws| - 1]) + (if last.infra == Hpci then last.total else 0.0)
  }

  /** The HPCI total sees only the HPCI entries' totals: two lists that agree
      on which entries are HPCI and on those entries' totals have the same
      HPCI total, whatever their mdx entries hold. */
  lemma {:induction false} HpciTotalOnlyHpci(r1: seq<RawCost>, r2: seq<RawCost>)
    requires |r1| == |r2|
    requires forall i :: 0 <= i < |r1| ==> (r1[i].infra == Hpci <==> r2[i].infra == Hpci)
    requires forall i :: 0 <= i < |r1| && r1[i].infra == Hpci ==> r1[i].total == r2[i].total
    ensures HpciTotal(r1) == HpciTotal(r2)
    decreases |r1|
  {
    if |r1| > 0 {
      var n := |r1| - 1;
      assert forall i :: 0 <= i < n ==> r1[..n][i] == r1[i] && r2[..n][i] == r2[i];
      HpciTotalOnlyHpci(r1[..n], r2[..n]);
    }
  }

  lemma {:induction false} HpciTotalAppend(r1: seq<RawCost>, r2: seq<RawCost>)
    ensures HpciTotal(r1 + r2) == HpciTotal(r1) + HpciTotal(r2)
    decreases |r2|
  {
    if |r2| == 0 {
      assert r1 + r2 == r1;
    } else {
      var n := |r2| - 1;
      assert (r1 + r2)[..|r1 + r2| - 1] == r1 + r2[..n];
      HpciTotalAppend(r1, r2[..n]);
    }
  }

  lemma {:induction false} HpciTotalOfZeros(raws: seq<RawCost>)
    requires forall i :: 0 <= i < |raws| ==> raws[i].total == 0.0
    ensures HpciTotal(raws) == 0.0
    decreases |raws|
  {
    if |raws| > 0 {
      var n := |raws| - 1;
      assert forall i :: 0 <= i < n ==> raws[..n][i] == raws[i];
      HpciTotalOfZeros(raws[..n]);
    }
  }

  /** Some request is active and its center is an mdx center. */
  predicate AnyMdxSelected(centers: seq<CenterSpec>, requests: seq<ResourceRequest>) {
    exists i :: 0 <= i < |requests| && MdxSelectedAt(centers, requests, i)
  }

  predicate MdxSelectedAt(centers: seq<CenterSpec>, requests: seq<ResourceRequest>, i: int)
    requires 0 <= i < |requests|
  {
    var c := FindCenter(centers, requests[i].centerId);
    c.Some? && c.value.infra == Mdx && IsSelected(requests[i])
  }

  /** `mdxTotal`: the whole shared mdx budget as soon as one mdx center is
      active, 0 otherwise; it is never a sum over the active centers. */
  function MdxTotal(centers: seq<CenterSpec>, requests: seq<ResourceRequest>): (r: real)
    ensures r == MdxTotalLimit || r == 0.0
    ensures r == MdxTotalLimit <==> AnyMdxSelected(centers, requests)
    ensures r <= MdxTotalLimit
  {
    if AnyMdxSelected(centers, requests) then MdxTotalLimit else 0.0
  }

  /** The per-entry flag: an HPCI entry is over when its total exceeds
      3,000,000; an mdx entry shows the pool-level mdx flag. */
  function IsOverLimit(raw: RawCost, mdxOverTotalLimit: bool): bool {
    match raw.infra
    case Hpci => raw.total > 3000000.0
    case Mdx => mdxOverTotalLimit
  }

  /** `costs`: the raw costs with their flags attached, in the same order. */
  function CostsOf(raws: seq<RawCost>, mdxOverTotalLimit: bool): (r: seq<CostBreakdown>)
    ensures |r| == |raws|
    ensures forall i :: 0 <= i < |raws| ==>
      && r[i].centerId == raws[i].centerId && r[i].infra == raws[i].infra
      && r[i].cpuCost == raws[i].cpuCost && r[i].gpuCost == raws[i].gpuCost
      && r[i].storageCost == raws[i].storageCost && r[i].total == raws[i].total
      && (r[i].infra == Hpci ==> (r[i].isOverLimit <==> r[i].total > HpciSingleCenterLimit))
      && (r[i].infra == Mdx ==> r[i].isOverLimit == mdxOverTotalLimit)
  {
    seq(|raws|, i requires 0 <= i < |raws| =>
      var c := raws[i];
      CostBreakdown(c.centerId, c.infra, c.cpuCost, c.gpuCost, c.storageCost, c.total,
                    IsOverLimit(c, mdxOverTotalLimit)))
  }

  /** Everything the main view derives from the session state. */
  datatype Summary = Summary(
    costs: seq<CostBreakdown>,
    hpciTotal: real, mdxTotal: real,
    hpciOverTotalLimit: bool, mdxOverTotalLimit: bool)

  /** The class totals and flags derived from given raw costs. */
  function SummaryOf(centers: seq<CenterSpec>, requests: seq<ResourceRequest>, raws: seq<RawCost>): Summary {
    var hpci := HpciTotal(raws);
    var mdx := MdxTotal(centers, requests);
    var mdxOver := mdx > MdxTotalLimit;
    Summary(CostsOf(raws, mdxOver), hpci, mdx, hpci > HpciTotalLimit, mdxOver)
  }

  function Summarize(centers: seq<CenterSpec>, requests: seq<ResourceRequest>): Summary {
    SummaryOf(centers, requests, RawCosts(centers, requests))
  }

  /** Properties of the summary for every catalog and every set of requests:
      one breakdown per request in request order, each total the sum of its
      three category costs, the HPCI flag at 3,000,000, and mdx flags that
      can never be raised. */
  lemma SummaryProperties(centers: seq<CenterSpec>, requests: seq<ResourceRequest>)
    ensures var s := Summarize(centers, requests);
      && |s.costs| == |requests|
      && (forall i :: 0 <= i < |requests| ==>
            && s.costs[i].centerId == requests[i].centerId
            && s.costs[i].total == s.costs[i].cpuCost + s.costs[i].gpuCost + s.costs[i].storageCost
            && (s.costs[i].infra == Hpci ==> (s.costs[i].isOverLimit <==> s.costs[i].total > 3000000.0))
            && (s.costs[i].infra == Mdx ==> !s.costs[i].isOverLimit))
      && !s.mdxOverTotalLimit
      && (s.hpciOverTotalLimit <==> s.hpciTotal > 3600000.0)
      && (s.mdxTotal == 1000000.0 <==> AnyMdxSelected(centers, requests))
  {
  }

  /** A request whose center is not in the catalog costs nothing, is typed
      HPCI and is not over the limit. */
  lemma MissingCenterCostsNothing(centers: seq<CenterSpec>, requests: seq<ResourceRequest>, i: nat)
    requires i < |requests|
    requires forall k :: 0 <= k < |centers| ==> centers[k].id != requests[i].centerId
    ensures var b := Summarize(centers, requests).costs[i];
      b.infra == Hpci && b.total == 0.0 && b.cpuCost == 0.0 && b.gpuCost == 0.0 && b.storageCost == 0.0
      && !b.isOverLimit
  {
  }

  /** The single-center example: one CPU option priced 10 per node-hour. At
      350 node-hours the center costs 3,500 and is within its limit; at
      350,000 it costs 3,500,000 and is over. */
  lemma SingleCenterExample()
    ensures var c := CenterSpec("c", "", Hpci, "", None, [ResourceOption("cpu", "", 1000.0, 10.0)], [], []);
      && Summarize([c], [ResourceRequest("c", None, map["cpu" := 350.0], map[], map[])]).costs
         == [CostBreakdown("c", Hpci, 3500.0, 0.0, 0.0, 3500.0, false)]
      && Summarize([c], [ResourceRequest("c", None, map["cpu" := 350000.0], map[], map[])]).costs
         == [CostBreakdown("c", Hpci, 3500000.0, 0.0, 0.0, 3500000.0, true)]
  {
    var c := CenterSpec("c", "", Hpci, "", None, [ResourceOption("cpu", "", 1000.0, 10.0)], [], []);
    assert [c][0] == c;
    assert c.cpuOptions[..0] == [];
  }

  /** Two HPCI centers whose requests cost 2,000,000 each: neither is over
      its own limit, but together they exceed the 3,600,000 class limit. */
  lemma ClassLimitExample()
    ensures var centers := [CenterSpec("a", "", Hpci, "", None, [ResourceOption("a-cpu", "", 1000000.0, 10.0)], [], []),
                            CenterSpec("b", "", Hpci, "", None, [ResourceOption("b-cpu", "", 1000000.0, 10.0)], [], [])];
      var requests := [ResourceRequest("a", None, map["a-cpu" := 200000.0], map[], map[]),
                       ResourceRequest("b", None, map["b-cpu" := 200000.0], map[], map[])];
      var s := Summarize(centers, requests);
      && s.hpciTotal == 4000000.0 && s.hpciOverTotalLimit
      && !s.costs[0].isOverLimit && !s.costs[1].isOverLimit
  {
    var centers := [CenterSpec("a", "", Hpci, "", None, [ResourceOption("a-cpu", "", 1000000.0, 10.0)], [], []),
                    CenterSpec("b", "", Hpci, "", None, [ResourceOption("b-cpu", "", 1000000.0, 10.0)], [], [])];
    var requests := [ResourceRequest("a", None, map["a-cpu" := 200000.0], map[], map[]),
                     ResourceRequest("b", None, map["b-cpu" := 200000.0], map[], map[])];
    assert FindCenter(centers, "a") == Some(centers[0]);
    assert FindCenter(centers, "b") == Some(centers[1]) by {
      assert centers[0].id != "b";
    }
    assert centers[0].cpuOptions[..0] == [] && centers[1].cpuOptions[..0] == [];
    var raws := RawCosts(centers, requests);
    assert raws[0].total == 2000000.0 && raws[1].total == 2000000.0;
    assert HpciTotal(raws[..0]) == 0.0;
    assert HpciTotal(raws[..1]) == 2000000.0;
    assert raws[..2] == raws;
  }
}
