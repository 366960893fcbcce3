/** The copy-with-one-change updates behind the planner's event handlers,
    and what each of them does to the computed costs. */
module Handlers {
  import opened Types
  import opened Catalog
  import opened CostEngine

  /** One empty, inactive request per center, in catalog order: the
      initial state and the state after a reset. */
  function EmptyRequests(centers: seq<CenterSpec>): (r: seq<ResourceRequest>)
    ensures |r| == |centers|
    ensures forall i :: 0 <= i < |centers| ==>
      r[i] == ResourceRequest(centers[i].id, Some(false), map[], map[], map[])
  {
    seq(|centers|, i requires 0 <= i < |centers| =>
      ResourceRequest(centers[i].id, Some(false), map[], map[], map[]))
  }

  /** One request with the quantity of `optionId` in category `cat` set to
      `value`: that key is added or overwritten, nothing else changes. */
  function SetRequestQuantity(req: ResourceRequest, cat: Category, optionId: string, value: real): (r: ResourceRequest)
    ensures r.centerId == req.centerId && r.isSelected == req.isSelected
    ensures forall other :: other != cat ==> SelectionsOf(r, other) == SelectionsOf(req, other)
    ensures SelectionsOf(r, cat).Keys == SelectionsOf(req, cat).Keys + {optionId}
    ensures Quantity(SelectionsOf(r, cat), optionId) == value
    ensures forall key :: key != optionId ==>
      Quantity(SelectionsOf(r, cat), key) == Quantity(SelectionsOf(req, cat), key)
  {
    WithSelections(req, cat, SelectionsOf(req, cat)[optionId := value])
  }

  /** `handleRequestUpdate`: every request for `centerId` gets the new
      quantity; the others are kept as they are. */
  function SetQuantity(requests: seq<ResourceRequest>, centerId: string, cat: Category,
                       optionId: string, value: real): (r: seq<ResourceRequest>)
    ensures |r| == |requests|
    ensures forall i :: 0 <= i < |r| && requests[i].centerId != centerId ==> r[i] == requests[i]
    ensures forall i :: 0 <= i < |r| && requests[i].centerId == centerId ==>
      r[i] == SetRequestQuantity(requests[i], cat, optionId, value)
  {
    seq(|requests|, i requires 0 <= i < |requests| =>
      var req := requests[i];
      if req.centerId != centerId then req else SetRequestQuantity(req, cat, optionId, value))
  }

  /** `handleToggleSelection`: negates `isSelected` (an absent flag counts as
      false) of every request for `centerId`. */
  function ToggleSelection(requests: seq<ResourceRequest>, centerId: string): (r: seq<ResourceRequest>)
    ensures |r| == |requests|
    ensures forall i :: 0 <= i < |r| ==>
      if requests[i].centerId == centerId
      then r[i] == requests[i].(isSelected := Some(!IsSelected(requests[i])))
      else r[i] == requests[i]
    ensures forall i :: 0 <= i < |r| && requests[i].centerId == centerId ==>
      IsSelected(r[i]) == !IsSelected(requests[i])
  {
    seq(|requests|, i requires 0 <= i < |requests| =>
      var req := requests[i];
      if req.centerId == centerId then req.(isSelected := Some(!IsSelected(req))) else req)
  }

  /** The options of one category with the limit of `optionId` replaced. */
  function SetOptionLimit(options: seq<ResourceOption>, optionId: string, newLimit: real): (r: seq<ResourceOption>)
    ensures |r| == |options|
    ensures forall k :: 0 <= k < |r| ==>
      && r[k].id == options[k].id && r[k].name == options[k].name && r[k].price == options[k].price
      && r[k].limit == (if options[k].id == optionId then newLimit else options[k].limit)
  {
    seq(|options|, k requires 0 <= k < |options| =>
      var o := options[k];
      if o.id == optionId then o.(limit := newLimit) else o)
  }

  /** One center after a limit edit aimed at `centerId`. */
  function EditCenter(c: CenterSpec, centerId: string, cat: Category, optionId: string, newLimit: real): (r: CenterSpec)
    ensures c.id != centerId ==> r == c
    ensures c.id == centerId ==> r == WithOptions(c, cat, SetOptionLimit(Options(c, cat), optionId, newLimit))
  {
    if c.id != centerId then c
    else WithOptions(c, cat, SetOptionLimit(Options(c, cat), optionId, newLimit))
  }

  /** `handleCenterUpdate`: the limit of `optionId` in category `cat` of
      every center with id `centerId` becomes `newLimit`, stored as given. */
  function SetCenterLimit(centers: seq<CenterSpec>, centerId: string, cat: Category,
                          optionId: string, newLimit: real): (r: seq<CenterSpec>)
    ensures |r| == |centers|
    ensures forall i :: 0 <= i < |r| ==> r[i] == EditCenter(centers[i], centerId, cat, optionId, newLimit)
    ensures forall i :: 0 <= i < |r| ==> r[i].id == centers[i].id && r[i].infra == centers[i].infra
  {
    seq(|centers|, i requires 0 <= i < |centers| => EditCenter(centers[i], centerId, cat, optionId, newLimit))
  }

  /** `optId ? {...sels, [optId]: hours} : sels` for the first option of a
      list: a missing first option, or one whose id is the empty string (which
      JavaScript treats as false), leaves the selections untouched. */
  function SetFirst(options: seq<ResourceOption>, sels: Selections, hours: real): (r: Selections)
    ensures |options| > 0 && options[0].id != "" ==> r == sels[options[0].id := hours]
    ensures |options| == 0 || options[0].id == "" ==> r == sels
  {
    if |options| > 0 && options[0].id != "" then sels[options[0].id := hours] else sels
  }

  /** `handleApplyAiEstimate` for a consultant opened on `center`. */
  function ApplyEstimate(requests: seq<ResourceRequest>, center: CenterSpec,
                         nodeHours: real, gpuHours: real): (r: seq<ResourceRequest>)
    ensures |r| == |requests|
    ensures forall i :: 0 <= i < |r| && requests[i].centerId != center.id ==> r[i] == requests[i]
    ensures forall i :: 0 <= i < |r| && requests[i].centerId == center.id ==>
      && r[i].centerId == requests[i].centerId
      && r[i].isSelected == requests[i].isSelected
      && r[i].storageSelections == requests[i].storageSelections
      && r[i].cpuSelections == SetFirst(center.cpuOptions, requests[i].cpuSelections, nodeHours)
      && r[i].gpuSelections == SetFirst(center.gpuOptions, requests[i].gpuSelections, gpuHours)
  {
    seq(|requests|, i requires 0 <= i < |requests| =>
      var req := requests[i];
      if req.centerId != center.id then req
      else req.(cpuSelections := SetFirst(center.cpuOptions, req.cpuSelections, nodeHours),
                gpuSelections := SetFirst(center.gpuOptions, req.gpuSelections, gpuHours)))
  }

  /** An estimate is ordinary input: applying it is the same as typing the
      node-hours into the first CPU option and then the GPU-hours into the
      first GPU option. */
  lemma ApplyEstimateIsTwoUpdates(requests: seq<ResourceRequest>, center: CenterSpec,
                                  nodeHours: real, gpuHours: real)
    requires |center.cpuOptions| > 0 && center.cpuOptions[0].id != ""
    requires |center.gpuOptions| > 0 && center.gpuOptions[0].id != ""
    ensures ApplyEstimate(requests, center, nodeHours, gpuHours) ==
      SetQuantity(SetQuantity(requests, center.id, Cpu, center.cpuOptions[0].id, nodeHours),
                  center.id, Gpu, center.gpuOptions[0].id, gpuHours)
  {
    var lhs := ApplyEstimate(requests, center, nodeHours, gpuHours);
    var rhs := SetQuantity(SetQuantity(requests, center.id, Cpu, center.cpuOptions[0].id, nodeHours),
                           center.id, Gpu, center.gpuOptions[0].id, gpuHours);
    forall i | 0 <= i < |requests| ensures lhs[i] == rhs[i] {
      if requests[i].centerId == center.id {
        assert lhs[i].cpuSelections == rhs[i].cpuSelections;
        assert lhs[i].gpuSelections == rhs[i].gpuSelections;
      }
    }
  }

  /** After a reset every breakdown is zero and unflagged, and both class
      totals are zero, whatever the catalog holds. */
  lemma ResetClearsEverything(centers: seq<CenterSpec>)
    ensures var s := Summarize(centers, EmptyRequests(centers));
      && |s.costs| == |centers|
      && (forall i :: 0 <= i < |centers| ==>
            && s.costs[i].centerId == centers[i].id
            && s.costs[i].cpuCost == 0.0 && s.costs[i].gpuCost == 0.0
            && s.costs[i].storageCost == 0.0 && s.costs[i].total == 0.0
            && !s.costs[i].isOverLimit)
      && s.hpciTotal == 0.0 && s.mdxTotal == 0.0
      && !s.hpciOverTotalLimit && !s.mdxOverTotalLimit
  {
    var requests := EmptyRequests(centers);
    var raws := RawCosts(centers, requests);
    forall i | 0 <= i < |centers|
      ensures raws[i].cpuCost == 0.0 && raws[i].gpuCost == 0.0 && raws[i].storageCost == 0.0
    {
      var found := FindCenter(centers, requests[i].centerId);
      if found.Some? {
        CategoryCostOfEmptySelections(found.value.cpuOptions);
        CategoryCostOfEmptySelections(found.value.gpuOptions);
        CategoryCostOfEmptySelections(found.value.storageOptions);
      }
    }
    HpciTotalOfZeros(raws);
  }

  /** Once some mdx center is active, activating another mdx center leaves
      the mdx total at the single flat charge. */
  lemma SecondMdxSelectionIsFree(centers: seq<CenterSpec>, requests: seq<ResourceRequest>,
                                 j: nat, centerId: string)
    requires j < |requests| && MdxSelectedAt(centers, requests, j)
    requires requests[j].centerId != centerId
    ensures MdxTotal(centers, ToggleSelection(requests, centerId)) == MdxTotalLimit
    ensures MdxTotal(centers, requests) == MdxTotalLimit
  {
    var after := ToggleSelection(requests, centerId);
    assert after[j] == requests[j];
    assert MdxSelectedAt(centers, after, j);
  }

  /** Selecting both seed mdx centers is billed the same as selecting one. */
  lemma BothMdxCostTheSameAsOne()
    ensures var one := ToggleSelection(EmptyRequests(Centers), "mdx-tokyo");
      && MdxTotal(Centers, one) == MdxTotalLimit
      && MdxTotal(Centers, ToggleSelection(one, "mdx-osaka")) == MdxTotalLimit
  {
    var empty := EmptyRequests(Centers);
    var one := ToggleSelection(empty, "mdx-tokyo");
    SeedCenterIdsUnique();
    FindCenterAt(Centers, 8);
    assert one[8].centerId == "mdx-tokyo" && IsSelected(one[8]);
    assert MdxSelectedAt(Centers, one, 8);
    SecondMdxSelectionIsFree(Centers, one, 8, "mdx-osaka");
  }

  /** The cost of one category of a raw cost. */
  function CatCost(r: RawCost, cat: Category): real {
    match cat
    case Cpu => r.cpuCost
    case Gpu => r.gpuCost
    case Storage => r.storageCost
  }

  /** `id` names option `p` of `options` and no other. */
  predicate UniqueAt(options: seq<ResourceOption>, p: int, id: string) {
    0 <= p < |options| && options[p].id == id &&
    forall k :: 0 <= k < |options| && k != p ==> options[k].id != id
  }

  /** Setting a quantity for one center leaves the cost of every request
      for another center as it was. */
  lemma SetQuantityKeepsOtherCenters(centers: seq<CenterSpec>, requests: seq<ResourceRequest>,
                                     centerId: string, cat: Category, optionId: string, value: real, i: nat)
    requires i < |requests| && requests[i].centerId != centerId
    ensures RawCostOf(centers, SetQuantity(requests, centerId, cat, optionId, value)[i])
         == RawCostOf(centers, requests[i])
  {
  }

  /** Setting a quantity in one category leaves the other two category costs
      of the targeted center as they were. */
  lemma SetQuantityKeepsOtherCategories(centers: seq<CenterSpec>, requests: seq<ResourceRequest>,
                                        centerId: string, cat: Category, optionId: string, value: real,
                                        i: nat, other: Category)
    requires i < |requests| && other != cat
    ensures var after := RawCostOf(centers, SetQuantity(requests, centerId, cat, optionId, value)[i]);
      var before := RawCostOf(centers, requests[i]);
      after.infra == before.infra && CatCost(after, other) == CatCost(before, other)
  {
    var req' := SetQuantity(requests, centerId, cat, optionId, value)[i];
    assert req'.centerId == requests[i].centerId;
    assert SelectionsOf(req', other) == SelectionsOf(requests[i], other);
  }

  /** Setting the quantity of an option id that appears once in the targeted
      category replaces that option's line cost in the category's cost and
      changes nothing else in it. */
  lemma SetQuantityCostDelta(centers: seq<CenterSpec>, requests: seq<ResourceRequest>,
                             centerId: string, cat: Category, optionId: string, value: real,
                             i: nat, p: nat)
    requires i < |requests| && requests[i].centerId == centerId
    requires FindCenter(centers, centerId).Some?
    requires UniqueAt(Options(FindCenter(centers, centerId).value, cat), p, optionId)
    ensures var o := Options(FindCenter(centers, centerId).value, cat)[p];
      var sels := SelectionsOf(requests[i], cat);
      CatCost(RawCostOf(centers, SetQuantity(requests, centerId, cat, optionId, value)[i]), cat)
      == CatCost(RawCostOf(centers, requests[i]), cat) - LineCost(o, sels) + LineCost(o, sels[optionId := value])
  {
    var c := FindCenter(centers, centerId).value;
    var req := requests[i];
    var req' := SetQuantity(requests, centerId, cat, optionId, value)[i];
    assert req' == SetRequestQuantity(req, cat, optionId, value);
    assert SelectionsOf(req', cat) == SelectionsOf(req, cat)[optionId := value];
    CatCostOfFound(centers, req', cat);
    CatCostOfFound(centers, req, cat);
    CategoryCostAfterSet(Options(c, cat), SelectionsOf(req, cat), p, value);
  }

  /** The cost of one category of a request whose center is found. */
  lemma CatCostOfFound(centers: seq<CenterSpec>, req: ResourceRequest, cat: Category)
    requires FindCenter(centers, req.centerId).Some?
    ensures CatCost(RawCostOf(centers, req), cat)
         == CategoryCost(Options(FindCenter(centers, req.centerId).value, cat), SelectionsOf(req, cat))
  {
  }

  /** Drift tolerance: a quantity set under an id the targeted category does
      not list leaves every cost as it was. */
  lemma SetQuantityForeignIdIsFree(centers: seq<CenterSpec>, requests: seq<ResourceRequest>,
                                   centerId: string, cat: Category, optionId: string, value: real, i: nat)
    requires i < |requests| && requests[i].centerId == centerId
    requires FindCenter(centers, centerId).Some?
    requires forall k :: 0 <= k < |Options(FindCenter(centers, centerId).value, cat)| ==>
      Options(FindCenter(centers, centerId).value, cat)[k].id != optionId
    ensures RawCostOf(centers, SetQuantity(requests, centerId, cat, optionId, value)[i])
         == RawCostOf(centers, requests[i])
  {
    var c := FindCenter(centers, centerId).value;
    var req' := SetQuantity(requests, centerId, cat, optionId, value)[i];
    assert SelectionsOf(req', cat) == SelectionsOf(requests[i], cat)[optionId := value];
    CategoryCostIgnoresForeignKey(Options(c, cat), SelectionsOf(requests[i], cat), optionId, value);
    forall other | other != cat ensures SelectionsOf(req', other) == SelectionsOf(requests[i], other) {
    }
    assert CategoryCost(Options(c, cat), SelectionsOf(req', cat))
        == CategoryCost(Options(c, cat), SelectionsOf(requests[i], cat));
  }

  /** Editing a limit never changes a cost: costs read only prices. */
  lemma LimitEditKeepsCosts(centers: seq<CenterSpec>, requests: seq<ResourceRequest>,
                            centerId: string, cat: Category, optionId: string, newLimit: real)
    ensures RawCosts(SetCenterLimit(centers, centerId, cat, optionId, newLimit), requests)
         == RawCosts(centers, requests)
  {
    forall i | 0 <= i < |requests|
      ensures RawCostOf(SetCenterLimit(centers, centerId, cat, optionId, newLimit), requests[i])
           == RawCostOf(centers, requests[i])
    {
      LimitEditKeepsRawCost(centers, centerId, cat, optionId, newLimit, requests[i]);
    }
  }

  lemma LimitEditKeepsRawCost(centers: seq<CenterSpec>, centerId: string, cat: Category,
                              optionId: string, newLimit: real, req: ResourceRequest)
    ensures RawCostOf(SetCenterLimit(centers, centerId, cat, optionId, newLimit), req)
         == RawCostOf(centers, req)
  {
    FindCenterAfterLimitEdit(centers, centerId, cat, optionId, newLimit, req.centerId);
    var found := FindCenter(centers, req.centerId);
    if found.Some? {
      EditCenterKeepsCosts(found.value, centerId, cat, optionId, newLimit, req);
    }
  }

  lemma EditCenterKeepsCosts(c: CenterSpec, centerId: string, cat: Category,
                             optionId: string, newLimit: real, req: ResourceRequest)
    ensures var c' := EditCenter(c, centerId, cat, optionId, newLimit);
      && c'.id == c.id && c'.infra == c.infra
      && CategoryCost(c'.cpuOptions, req.cpuSelections) == CategoryCost(c.cpuOptions, req.cpuSelections)
      && CategoryCost(c'.gpuOptions, req.gpuSelections) == CategoryCost(c.gpuOptions, req.gpuSelections)
      && CategoryCost(c'.storageOptions, req.storageSelections) == CategoryCost(c.storageOptions, req.storageSelections)
  {
    if c.id == centerId {
      LimitEditKeepsCategoryCost(Options(c, cat), optionId, newLimit, SelectionsOf(req, cat));
    }
  }

  /** A limit edit keeps every center id, so every lookup finds the edited
      copy of the center it found before. */
  lemma {:induction false} FindCenterAfterLimitEdit(centers: seq<CenterSpec>, centerId: string, cat: Category,
                                                    optionId: string, newLimit: real, id: string)
    ensures var before := FindCenter(centers, id);
      var after := FindCenter(SetCenterLimit(centers, centerId, cat, optionId, newLimit), id);
      && before.None? == after.None?
      && (before.Some? ==> after.value == EditCenter(before.value, centerId, cat, optionId, newLimit))
    decreases |centers|
  {
    if |centers| > 0 && centers[0].id != id {
      var edited := SetCenterLimit(centers, centerId, cat, optionId, newLimit);
      assert edited[1..] == SetCenterLimit(centers[1..], centerId, cat, optionId, newLimit);
      FindCenterAfterLimitEdit(centers[1..], centerId, cat, optionId, newLimit, id);
    }
  }

  /** A category's cost does not depend on its options' limits. */
  lemma {:induction false} LimitEditKeepsCategoryCost(options: seq<ResourceOption>, optionId: string,
                                                      newLimit: real, sels: Selections)
    ensures CategoryCost(SetOptionLimit(options, optionId, newLimit), sels) == CategoryCost(options, sels)
    decreases |options|
  {
    if |options| > 0 {
      var n := |options| - 1;
      assert SetOptionLimit(options, optionId, newLimit)[..n] == SetOptionLimit(options[..n], optionId, newLimit);
      LimitEditKeepsCategoryCost(options[..n], optionId, newLimit, sels);
    }
  }

  /** A limit edit keeps every option id in place, so ids that were unique
      across the catalog stay unique. */
  lemma LimitEditKeepsOptionIdsUnique(centers: seq<CenterSpec>, centerId: string, cat: Category,
                                      optionId: string, newLimit: real)
    requires OptionIdsUnique(centers)
    ensures OptionIdsUnique(SetCenterLimit(centers, centerId, cat, optionId, newLimit))
  {
    var r := SetCenterLimit(centers, centerId, cat, optionId, newLimit);
    forall a, ca | 0 <= a < |r|
      ensures |Options(r[a], ca)| == |Options(centers[a], ca)|
      ensures forall i :: 0 <= i < |Options(r[a], ca)| ==> Options(r[a], ca)[i].id == Options(centers[a], ca)[i].id
    {
      assert r[a] == EditCenter(centers[a], centerId, cat, optionId, newLimit);
    }
  }

  /** With option ids unique across the catalog, every option is the only
      one with its id in its own list. */
  lemma UniqueAcrossIsUniqueAt(centers: seq<CenterSpec>, a: nat, cat: Category, p: nat)
    requires OptionIdsUnique(centers)
    requires a < |centers| && p < |Options(centers[a], cat)|
    ensures UniqueAt(Options(centers[a], cat), p, Options(centers[a], cat)[p].id)
  {
  }
}
