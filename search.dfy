/** The capability search: which centers can serve a minimum number of CPU
    and GPU hours in a single option. */
module Search {
  import opened Types

  /** A single threshold field: only a positive number constrains anything;
      then some option of the category must have a limit that reaches it. */
  predicate MeetsThreshold(options: seq<ResourceOption>, threshold: NumericInput) {
    threshold.Number? && threshold.value > 0.0 ==>
      exists k :: 0 <= k < |options| && options[k].limit >= threshold.value
  }

  predicate Matches(c: CenterSpec, cpu: NumericInput, gpu: NumericInput) {
    MeetsThreshold(c.cpuOptions, cpu) && MeetsThreshold(c.gpuOptions, gpu)
  }

  /** Both fields blank, or neither parses as a number: search is off. */
  predicate SearchOff(cpu: NumericInput, gpu: NumericInput) {
    (cpu.Empty? && gpu.Empty?) || (!cpu.Number? && !gpu.Number?)
  }

  /** `highlightedCenterIds`. */
  function HighlightedCenterIds(centers: seq<CenterSpec>, cpu: NumericInput, gpu: NumericInput): (r: set<string>)
    ensures SearchOff(cpu, gpu) ==> r == {}
    ensures !SearchOff(cpu, gpu) ==>
      forall id :: id in r <==> exists i :: 0 <= i < |centers| && centers[i].id == id && Matches(centers[i], cpu, gpu)
  {
    if SearchOff(cpu, gpu) then {}
    else set i | 0 <= i < |centers| && Matches(centers[i], cpu, gpu) :: centers[i].id
  }

  /** The search is off exactly when no field holds a number; the blank test
      is subsumed by the not-a-number test. */
  lemma SearchOffIffNoNumber(cpu: NumericInput, gpu: NumericInput)
    ensures SearchOff(cpu, gpu) <==> !cpu.Number? && !gpu.Number?
  {
  }

  /** A CPU threshold that is zero, negative, blank or unparsable imposes
      nothing. */
  lemma NonPositiveThresholdIsNoConstraint(c: CenterSpec, cpu: NumericInput, gpu: NumericInput)
    requires !(cpu.Number? && cpu.value > 0.0)
    ensures Matches(c, cpu, gpu) <==> MeetsThreshold(c.gpuOptions, gpu)
  {
  }

  /** The same for the GPU field: a GPU threshold that is not a positive
      number imposes nothing. */
  lemma NonPositiveGpuThresholdIsNoConstraint(c: CenterSpec, cpu: NumericInput, gpu: NumericInput)
    requires !(gpu.Number? && gpu.value > 0.0)
    ensures Matches(c, cpu, gpu) <==> MeetsThreshold(c.cpuOptions, cpu)
  {
  }

  /** With a positive CPU number and a GPU field that constrains nothing
      (blank, unparsable, zero or negative), the centers found are exactly
      those with some CPU option reaching the number. */
  lemma PositiveCpuThreshold(centers: seq<CenterSpec>, v: real, gpu: NumericInput, id: string)
    requires v > 0.0 && !(gpu.Number? && gpu.value > 0.0)
    ensures id in HighlightedCenterIds(centers, Number(v), gpu) <==>
      exists i, k :: 0 <= i < |centers| && centers[i].id == id &&
        0 <= k < |centers[i].cpuOptions| && centers[i].cpuOptions[k].limit >= v
  {
  }

  /** The mirror case: a positive GPU number and a CPU field that constrains
      nothing find exactly the centers with some GPU option reaching it. */
  lemma PositiveGpuThreshold(centers: seq<CenterSpec>, cpu: NumericInput, w: real, id: string)
    requires w > 0.0 && !(cpu.Number? && cpu.value > 0.0)
    ensures id in HighlightedCenterIds(centers, cpu, Number(w)) <==>
      exists i, k :: 0 <= i < |centers| && centers[i].id == id &&
        0 <= k < |centers[i].gpuOptions| && centers[i].gpuOptions[k].limit >= w
  {
  }

  /** A center with no GPU options never meets a positive GPU threshold. */
  lemma NoGpuNeverMatchesPositiveGpu(c: CenterSpec, cpu: NumericInput, v: real)
    requires c.gpuOptions == [] && v > 0.0
    ensures !Matches(c, cpu, Number(v))
  {
  }

  /** Typing "0" in both fields highlights every center: 0 is a number, so the
      search is on, and a 0 threshold constrains nothing. */
  lemma ZeroThresholdsMatchAll(centers: seq<CenterSpec>)
    ensures HighlightedCenterIds(centers, Number(0.0), Number(0.0)) ==
      set i | 0 <= i < |centers| :: centers[i].id
  {
  }

  /** The conjunction example: a center whose only CPU option reaches 100
      and which has no GPU is not found for 50 CPU and 1 GPU, but is found for
      50 CPU and an empty GPU field. */
  lemma ConjunctionExample()
    ensures var c := CenterSpec("x", "", Hpci, "", None, [ResourceOption("x-cpu", "", 100.0, 1.0)], [], []);
      && HighlightedCenterIds([c], Number(50.0), Number(1.0)) == {}
      && HighlightedCenterIds([c], Number(50.0), Empty) == {"x"}
  {
    var c := CenterSpec("x", "", Hpci, "", None, [ResourceOption("x-cpu", "", 100.0, 1.0)], [], []);
    assert Matches([c][0], Number(50.0), Empty) by {
      assert c.cpuOptions[0].limit >= 50.0;
    }
  }
}
