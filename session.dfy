/** The planner's state: the editable catalog, one request per center and
    the center the estimate consultant is open for. Each handler replaces
    one of these with an updated copy. */
module AppSession {
  import opened Types
  import opened Catalog
  import opened CostEngine
  import opened Handlers

  /** Requests and centers line up one to one, and center ids are unique. */
  ghost predicate Aligned(centers: seq<CenterSpec>, requests: seq<ResourceRequest>) {
    && |requests| == |centers|
    && (forall i :: 0 <= i < |requests| ==> requests[i].centerId == centers[i].id)
    && CenterIdsUnique(centers)
  }

  /** In an aligned state every request finds its own center, so no request
      falls into the missing-center case. */
  lemma AlignedFindsOwnCenter(centers: seq<CenterSpec>, requests: seq<ResourceRequest>, i: nat)
    requires Aligned(centers, requests) && i < |requests|
    ensures FindCenter(centers, requests[i].centerId) == Some(centers[i])
    ensures RawCostOf(centers, requests[i]).infra == centers[i].infra
  {
    FindCenterAt(centers, i);
  }

  /** Unique ids stay unique under any update that keeps every id. */
  lemma SameIdsStayUnique(a: seq<CenterSpec>, b: seq<CenterSpec>)
    requires |a| == |b| && forall i :: 0 <= i < |a| ==> a[i].id == b[i].id
    requires CenterIdsUnique(a)
    ensures CenterIdsUnique(b)
  {
    forall i, j | 0 <= i < j < |b| ensures b[i].id != b[j].id {
      assert a[i].id != a[j].id;
    }
  }

  class Session {
    var centers: seq<CenterSpec>
    var requests: seq<ResourceRequest>
    var consultantCenter: Option<CenterSpec>

    ghost predicate Valid()
      reads this
    {
      Aligned(centers, requests) && OptionIdsUnique(centers)
    }

    /** The start state: the seed catalog, one empty inactive request per
        center, no consultant. */
    constructor ()
      ensures Valid()
      ensures centers == Centers && requests == EmptyRequests(Centers) && consultantCenter == None
    {
      centers := Centers;
      requests := EmptyRequests(Centers);
      consultantCenter := None;
      SeedCenterIdsUnique();
      SeedOptionIdsUnique();
    }

    method UpdateRequest(centerId: string, cat: Category, optionId: string, value: real)
      requires Valid()
      modifies this
      ensures Valid()
      ensures requests == SetQuantity(old(requests), centerId, cat, optionId, value)
      ensures centers == old(centers) && consultantCenter == old(consultantCenter)
    {
      requests := SetQuantity(requests, centerId, cat, optionId, value);
    }

    method Toggle(centerId: string)
      requires Valid()
      modifies this
      ensures Valid()
      ensures requests == ToggleSelection(old(requests), centerId)
      ensures centers == old(centers) && consultantCenter == old(consultantCenter)
    {
      requests := ToggleSelection(requests, centerId);
    }

    /** `handleReset`; `confirmed` stands for the answer to the confirmation
        dialog. The new requests follow the current, possibly edited, catalog. */
    method Reset(confirmed: bool)
      requires Valid()
      modifies this
      ensures Valid()
      ensures confirmed ==> requests == EmptyRequests(centers)
      ensures !confirmed ==> requests == old(requests)
      ensures centers == old(centers) && consultantCenter == old(consultantCenter)
    {
      if confirmed {
        requests := EmptyRequests(centers);
      }
    }

    method UpdateCenter(centerId: string, cat: Category, optionId: string, newLimit: real)
      requires Valid()
      modifies this
      ensures Valid()
      ensures centers == SetCenterLimit(old(centers), centerId, cat, optionId, newLimit)
      ensures requests == old(requests) && consultantCenter == old(consultantCenter)
    {
      var edited := SetCenterLimit(centers, centerId, cat, optionId, newLimit);
      SameIdsStayUnique(centers, edited);
      LimitEditKeepsOptionIdsUnique(centers, centerId, cat, optionId, newLimit);
      centers := edited;
    }

    /** The consultant keeps the center value it was opened with; later
        limit edits do not reach it. */
    method OpenConsultant(center: CenterSpec)
      requires Valid()
      modifies this
      ensures Valid()
      ensures consultantCenter == Some(center)
      ensures centers == old(centers) && requests == old(requests)
    {
      consultantCenter := Some(center);
    }

    method CloseConsultant()
      requires Valid()
      modifies this
      ensures Valid()
      ensures consultantCenter == None
      ensures centers == old(centers) && requests == old(requests)
    {
      consultantCenter := None;
    }

    /** `handleApplyAiEstimate`: nothing happens while no consultant is open. */
    method ApplyAiEstimate(nodeHours: real, gpuHours: real)
      requires Valid()
      modifies this
      ensures Valid()
      ensures old(consultantCenter).None? ==> requests == old(requests)
      ensures old(consultantCenter).Some? ==>
        requests == ApplyEstimate(old(requests), old(consultantCenter).value, nodeHours, gpuHours)
      ensures centers == old(centers) && consultantCenter == old(consultantCenter)
    {
      if consultantCenter.Some? {
        requests := ApplyEstimate(requests, consultantCenter.value, nodeHours, gpuHours);
      }
    }

    /** The derived view: cost breakdowns, class totals and flags. */
    method Recompute() returns (s: Summary)
      ensures s == Summarize(centers, requests)
    {
      var raws := ComputeRawCosts(centers, requests);
      s := SummaryOf(centers, requests, raws);
    }
  }
}
