/** The data model of the resource planner: centers, their resource options,
    per-center requests and the cost breakdown computed from them. */
module Types {

  datatype Option<+T> = None | Some(value: T)

  /** The two classes of computing facility: batch-scheduled, metered HPCI
      centers and VM-based, flat-fee mdx centers. */
  datatype InfrastructureType = Hpci | Mdx

  /** The three resource categories every center lists options for. */
  datatype Category = Cpu | Gpu | Storage

  /** One billable, capacity-limited resource queue. */
  datatype ResourceOption = ResourceOption(id: string, name: string, limit: real, price: real)

  /** Hardware figures of an mdx system, used only for informational display. */
  datatype MdxSystemSpec = MdxSystemSpec(
    totalCpuNodes: real, cpuNodeSpec: string, cpuPacksPerNode: real,
    cpuCoresPerNode: real, cpuMemoryPerNode: real,
    totalGpuNodes: real, gpuNodeSpec: string, gpuPacksPerNode: real,
    gpuCoresPerNode: real, gpuMemoryPerNode: real, gpuModelName: string,
    storageInfo: string)

  datatype CenterSpec = CenterSpec(
    id: string, name: string, infra: InfrastructureType, description: string,
    mdxSpecs: Option<MdxSystemSpec>,
    cpuOptions: seq<ResourceOption>,
    gpuOptions: seq<ResourceOption>,
    storageOptions: seq<ResourceOption>)

  /** A selections record: option id to requested quantity. */
  type Selections = map<string, real>

  /** One center's current selections; `isSelected` is optional and is only
      toggled for mdx centers. */
  datatype ResourceRequest = ResourceRequest(
    centerId: string,
    isSelected: Option<bool>,
    cpuSelections: Selections,
    gpuSelections: Selections,
    storageSelections: Selections)

  /** The cost of one request. Besides the declared fields, the value built
      by spreading a raw cost also carries the center's type, kept here as
      `infra`. */
  datatype CostBreakdown = CostBreakdown(
    centerId: string, infra: InfrastructureType,
    cpuCost: real, gpuCost: real, storageCost: real, total: real,
    isOverLimit: bool)

  /** A text field after `parseFloat`: the empty string, text that does not
      parse (NaN), or a number. */
  datatype NumericInput = Empty | NotANumber | Number(value: real)

  /** `parseFloat(s) || 0` and `isNaN(v) ? 0 : v`: unparsable input is 0. */
  function NumberOrZero(f: NumericInput): (r: real)
    ensures f.Number? ==> r == f.value
    ensures !f.Number? ==> r == 0.0
  {
    if f.Number? then f.value else 0.0
  }

  /** `selections[id] || 0`: an absent key is quantity 0. */
  function Quantity(sels: Selections, id: string): (q: real)
    ensures id in sels ==> q == sels[id]
    ensures id !in sels ==> q == 0.0
  {
    if id in sels then sels[id] else 0.0
  }

  /** A missing `isSelected` behaves as not selected. */
  predicate IsSelected(r: ResourceRequest) {
    r.isSelected == Some(true)
  }

  function Options(c: CenterSpec, cat: Category): seq<ResourceOption> {
    match cat
    case Cpu => c.cpuOptions
    case Gpu => c.gpuOptions
    case Storage => c.storageOptions
  }

  function WithOptions(c: CenterSpec, cat: Category, opts: seq<ResourceOption>): (r: CenterSpec)
    ensures Options(r, cat) == opts
    ensures forall other :: other != cat ==> Options(r, other) == Options(c, other)
    ensures r.id == c.id && r.infra == c.infra && r.mdxSpecs == c.mdxSpecs
    ensures r.name == c.name && r.description == c.description
  {
    match cat
    case Cpu => c.(cpuOptions := opts)
    case Gpu => c.(gpuOptions := opts)
    case Storage => c.(storageOptions := opts)
  }

  function SelectionsOf(r: ResourceRequest, cat: Category): Selections {
    match cat
    case Cpu => r.cpuSelections
    case Gpu => r.gpuSelections
    case Storage => r.storageSelections
  }

  function WithSelections(r: ResourceRequest, cat: Category, sels: Selections): (r': ResourceRequest)
    ensures SelectionsOf(r', cat) == sels
    ensures forall other :: other != cat ==> SelectionsOf(r', other) == SelectionsOf(r, other)
    ensures r'.centerId == r.centerId && r'.isSelected == r.isSelected
  {
    match cat
    case Cpu => r.(cpuSelections := sels)
    case Gpu => r.(gpuSelections := sels)
    case Storage => r.(storageSelections := sels)
  }
}
