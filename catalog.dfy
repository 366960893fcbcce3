/** The seed catalog of eight HPCI and two mdx centers, and the three budget
    constants. */
module Catalog {
  import opened Types

  /** Budget of one HPCI center, in JPY. */
  const HpciSingleCenterLimit: real := 3000000.0
  /** Budget of all HPCI centers together, in JPY. */
  const HpciTotalLimit: real := 3600000.0
  /** The flat charge shared by mdx-I and mdx-II, in JPY. */
  const MdxTotalLimit: real := 1000000.0

  const Hokkaido := CenterSpec("hpci-hokkaido", "Hokkaido University", Hpci, "Grand Chariot", None,
    [ResourceOption("hok-cpu-1", "General", 42000.0, 18.0)],
    [ResourceOption("hok-gpu-1", "GPU Queue", 13000.0, 56.0)],
    [ResourceOption("hok-str-1", "Storage", 40.0, 7500.0)])

  const Tohoku := CenterSpec("hpci-tohoku", "Tohoku University", Hpci, "AOBA", None,
    [ResourceOption("toh-cpu-1", "Type A", 40000.0, 75.0),
     ResourceOption("toh-cpu-2", "Type B", 136000.0, 22.0),
     ResourceOption("toh-cpu-3", "Type C", 30000.0, 100.0)],
    [],
    [ResourceOption("toh-str-1", "Storage A", 150.0, 3000.0),
     ResourceOption("toh-str-2", "Storage B", 300.0, 3000.0)])

  const Tokyo := CenterSpec("hpci-tokyo", "University of Tokyo", Hpci, "Wisteria/BDEC-01", None,
    [ResourceOption("tok-cpu-1", "Odyssey", 276480.0, 10.0),
     ResourceOption("tok-cpu-2", "Miyabi-C (Xeon Max 9480)", 103680.0, 28.0)],
    [ResourceOption("tok-gpu-1", "Aquarius: Shared Use", 95040.0, 31.0),
     ResourceOption("tok-gpu-2", "Aquarius: Occupied Use", 69120.0, 42.0),
     ResourceOption("tok-gpu-3", "Miyabi-G (GH200)", 86400.0, 35.0)],
    [ResourceOption("tok-str-1", "Storage A", 100.0, 6480.0),
     ResourceOption("tok-str-2", "Storage B", 50.0, 6480.0)])

  const ScienceTokyo := CenterSpec("hpci-science-tokyo", "Science Tokyo (Tokyo Tech)", Hpci, "TSUBAME4.0", None,
    [],
    [ResourceOption("st-gpu-1", "GPU Node", 34000.0, 275.0)],
    [ResourceOption("st-str-1", "Storage", 103.0, 1650.0)])

  const Nagoya := CenterSpec("hpci-nagoya", "Nagoya University", Hpci, "Flow", None,
    [ResourceOption("nag-cpu-1", "Type I", 24590.0, 122.0)],
    [ResourceOption("nag-gpu-1", "Type II (GPU)", 9490.0, 316.0)],
    [ResourceOption("nag-str-1", "Storage", 600.0, 3500.0)])

  const Osaka := CenterSpec("hpci-osaka", "Osaka University", Hpci, "SQUID", None,
    [ResourceOption("osa-cpu-1", "SQUID General Purpose", 114000.0, 70.0),
     ResourceOption("osa-cpu-2", "OCTOPUS General Purpose", 65000.0, 70.0),
     ResourceOption("osa-cpu-3", "SQUID Vector", 30000.0, 70.0)],
    [ResourceOption("osa-gpu-1", "SQUID GPU", 18000.0, 220.0)],
    [ResourceOption("osa-str-1", "Storage A", 500.0, 12000.0),
     ResourceOption("osa-str-2", "Storage B", 100.0, 12000.0),
     ResourceOption("osa-str-3", "Storage C", 80.0, 12000.0)])

  const Kyoto := CenterSpec("hpci-kyoto", "Kyoto University", Hpci, "Camphor 3", None,
    [ResourceOption("kyo-cpu-1", "Type A", 144230.0, 21.0),
     ResourceOption("kyo-cpu-2", "Type B", 56074.0, 54.0)],
    [],
    [ResourceOption("kyo-str-1", "Storage A", 1000.0, 1000.0),
     ResourceOption("kyo-str-2", "Storage B", 100.0, 5000.0)])

  const Kyushu := CenterSpec("hpci-kyushu", "Kyushu University", Hpci, "ITO", None,
    [ResourceOption("kyu-cpu-1", "Subsystem A", 16000.0, 30.0),
     ResourceOption("kyu-cpu-2", "Subsystem B", 4000.0, 120.0)],
    [],
    [ResourceOption("kyu-str-1", "Storage A", 100.0, 9000.0),
     ResourceOption("kyu-str-2", "Storage B", 10.0, 9000.0)])

  const MdxTokyo := CenterSpec("mdx-tokyo", "mdx-I (Tokyo)", Mdx, "Kashiwa II (Xeon Gold/V100)", None,
    [ResourceOption("mdx-t-cpu-1", "CPU Pack (16 vCPU, 32GB)", 50000.0, 40.0)],
    [ResourceOption("mdx-t-gpu-1", "GPU Pack (1x V100)", 10000.0, 200.0)],
    [ResourceOption("mdx-t-str-1", "Storage", 500.0, 5000.0)])

  const MdxOsaka := CenterSpec("mdx-osaka", "mdx-II (Osaka)", Mdx, "Grand Front Osaka (Xeon Platinum/H100)", None,
    [ResourceOption("mdx-o-cpu-1", "CPU Pack (High Perf.)", 50000.0, 50.0)],
    [ResourceOption("mdx-o-gpu-1", "GPU Pack (1x H100)", 10000.0, 300.0)],
    [ResourceOption("mdx-o-str-1", "Storage", 500.0, 5000.0)])

  /** The seed catalog, in display order. */
  const Centers: seq<CenterSpec> :=
    [Hokkaido, Tohoku, Tokyo, ScienceTokyo, Nagoya, Osaka, Kyoto, Kyushu, MdxTokyo, MdxOsaka]

  ghost predicate CenterIdsUnique(centers: seq<CenterSpec>) {
    forall i, j :: 0 <= i < j < |centers| ==> centers[i].id != centers[j].id
  }

  /** No option id occurs twice anywhere in the catalog, across centers and
      categories. */
  ghost predicate OptionIdsUnique(centers: seq<CenterSpec>) {
    forall a, ca, i, b, cb, j ::
      0 <= a < |centers| && 0 <= b < |centers| &&
      0 <= i < |Options(centers[a], ca)| && 0 <= j < |Options(centers[b], cb)| &&
      (a != b || ca != cb || i != j)
      ==> Options(centers[a], ca)[i].id != Options(centers[b], cb)[j].id
  }

  lemma SeedCenterIdsUnique()
    ensures CenterIdsUnique(Centers)
  {
    SeedCenterRanks();
  }

  /** An injective code for the seed's center ids, read off the characters
      after the `hpci-` or `mdx-` prefix. */
  function CenterRank(s: string): int {
    if |s| < 8 then -1
    else if s[0] == 'm' then (if s[4] == 't' then 8 else 9)
    else if s[5] == 'h' then 0
    else if s[5] == 't' then (if s[7] == 'h' then 1 else 2)
    else if s[5] == 's' then 3
    else if s[5] == 'n' then 4
    else if s[5] == 'o' then 5
    else if s[7] == 'o' then 6
    else 7
  }

  lemma SeedCenterRanks()
    ensures forall a :: 0 <= a < |Centers| ==> CenterRank(Centers[a].id) == a
  {
    assert CenterRank(Hokkaido.id) == 0;
    assert CenterRank(Tohoku.id) == 1;
    assert CenterRank(Tokyo.id) == 2;
    assert CenterRank(ScienceTokyo.id) == 3;
    assert CenterRank(Nagoya.id) == 4;
    assert CenterRank(Osaka.id) == 5;
    assert CenterRank(Kyoto.id) == 6;
    assert CenterRank(Kyushu.id) == 7;
    assert CenterRank(MdxTokyo.id) == 8;
    assert CenterRank(MdxOsaka.id) == 9;
  }

  /** An injective code for the seed's option ids, read off the characters:
      the center from the prefix, the category from the letter after it and
      the position from the trailing digit. */
  function IdCode(s: string): int {
    var rank :=
      if |s| < 5 then -1
      else if s[0] == 'h' then 0
      else if s[0] == 't' then (if s[2] == 'h' then 1 else 2)
      else if s[0] == 's' then 3
      else if s[0] == 'n' then 4
      else if s[0] == 'o' then 5
      else if s[0] == 'k' then (if s[2] == 'o' then 6 else 7)
      else if s[4] == 't' then 8
      else 9;
    var off := if rank == 3 then 3 else if rank >= 8 then 6 else 4;
    if |s| < off + 5 then -1
    else
      var category := if s[off] == 'c' then 0 else if s[off] == 'g' then 100 else 200;
      rank * 1000 + category + (s[off + 4] as int - '1' as int)
  }

  function CategoryNumber(cat: Category): int {
    match cat
    case Cpu => 0
    case Gpu => 1
    case Storage => 2
  }

  /** Option `k` of `opts` has code `base + k`. */
  ghost predicate ListCoded(opts: seq<ResourceOption>, base: int) {
    forall k :: 0 <= k < |opts| ==> k < 100 && IdCode(opts[k].id) == base + k
  }

  /** Option `k` of category `cat` of center `c` has the code of position
      (`rank`, `cat`, `k`). */
  ghost predicate IdsCoded(c: CenterSpec, rank: int) {
    && ListCoded(c.cpuOptions, rank * 1000)
    && ListCoded(c.gpuOptions, rank * 1000 + 100)
    && ListCoded(c.storageOptions, rank * 1000 + 200)
  }

  lemma CodedOption(c: CenterSpec, rank: int, cat: Category, k: nat)
    requires IdsCoded(c, rank)
    requires k < |Options(c, cat)|
    ensures k < 100 && IdCode(Options(c, cat)[k].id) == rank * 1000 + CategoryNumber(cat) * 100 + k
  {
    match cat
    case Cpu =>
      assert ListCoded(c.cpuOptions, rank * 1000);
    case Gpu =>
      assert ListCoded(c.gpuOptions, rank * 1000 + 100);
      assert IdCode(c.gpuOptions[k].id) == rank * 1000 + 100 + k;
    case Storage =>
      assert ListCoded(c.storageOptions, rank * 1000 + 200);
  }

  lemma HokkaidoWellFormed()
    ensures IdsCoded(Hokkaido, 0) && CenterPositive(Hokkaido)
  {
    assert IdCode(Hokkaido.cpuOptions[0].id) == 0;
    assert IdCode(Hokkaido.gpuOptions[0].id) == 100;
    assert IdCode(Hokkaido.storageOptions[0].id) == 200;
  }

  lemma TohokuWellFormed()
    ensures IdsCoded(Tohoku, 1) && CenterPositive(Tohoku)
  {
    assert IdCode(Tohoku.cpuOptions[0].id) == 1000;
    assert IdCode(Tohoku.cpuOptions[1].id) == 1001;
    assert IdCode(Tohoku.cpuOptions[2].id) == 1002;
    assert IdCode(Tohoku.storageOptions[0].id) == 1200;
    assert IdCode(Tohoku.storageOptions[1].id) == 1201;
  }

  lemma TokyoWellFormed()
    ensures IdsCoded(Tokyo, 2) && CenterPositive(Tokyo)
  {
    assert IdCode(Tokyo.cpuOptions[0].id) == 2000;
    assert IdCode(Tokyo.cpuOptions[1].id) == 2001;
    assert IdCode(Tokyo.gpuOptions[0].id) == 2100;
    assert IdCode(Tokyo.gpuOptions[1].id) == 2101;
    assert IdCode(Tokyo.gpuOptions[2].id) == 2102;
    assert IdCode(Tokyo.storageOptions[0].id) == 2200;
    assert IdCode(Tokyo.storageOptions[1].id) == 2201;
  }

  lemma ScienceTokyoWellFormed()
    ensures IdsCoded(ScienceTokyo, 3) && CenterPositive(ScienceTokyo)
  {
    assert IdCode(ScienceTokyo.gpuOptions[0].id) == 3100;
    assert IdCode(ScienceTokyo.storageOptions[0].id) == 3200;
  }

  lemma NagoyaWellFormed()
    ensures IdsCoded(Nagoya, 4) && CenterPositive(Nagoya)
  {
    assert IdCode(Nagoya.cpuOptions[0].id) == 4000;
    assert IdCode(Nagoya.gpuOptions[0].id) == 4100;
    assert IdCode(Nagoya.storageOptions[0].id) == 4200;
  }

  lemma OsakaWellFormed()
    ensures IdsCoded(Osaka, 5) && CenterPositive(Osaka)
  {
    assert IdCode(Osaka.cpuOptions[0].id) == 5000;
    assert IdCode(Osaka.cpuOptions[1].id) == 5001;
    assert IdCode(Osaka.cpuOptions[2].id) == 5002;
    assert IdCode(Osaka.gpuOptions[0].id) == 5100;
    assert IdCode(Osaka.storageOptions[0].id) == 5200;
    assert IdCode(Osaka.storageOptions[1].id) == 5201;
    assert IdCode(Osaka.storageOptions[2].id) == 5202;
  }

  lemma KyotoWellFormed()
    ensures IdsCoded(Kyoto, 6) && CenterPositive(Kyoto)
  {
    assert IdCode(Kyoto.cpuOptions[0].id) == 6000;
    assert IdCode(Kyoto.cpuOptions[1].id) == 6001;
    assert IdCode(Kyoto.storageOptions[0].id) == 6200;
    assert IdCode(Kyoto.storageOptions[1].id) == 6201;
  }

  lemma KyushuWellFormed()
    ensures IdsCoded(Kyushu, 7) && CenterPositive(Kyushu)
  {
    assert IdCode(Kyushu.cpuOptions[0].id) == 7000;
    assert IdCode(Kyushu.cpuOptions[1].id) == 7001;
    assert IdCode(Kyushu.storageOptions[0].id) == 7200;
    assert IdCode(Kyushu.storageOptions[1].id) == 7201;
  }

  lemma MdxTokyoWellFormed()
    ensures IdsCoded(MdxTokyo, 8) && CenterPositive(MdxTokyo)
  {
    assert IdCode(MdxTokyo.cpuOptions[0].id) == 8000;
    assert IdCode(MdxTokyo.gpuOptions[0].id) == 8100;
    assert IdCode(MdxTokyo.storageOptions[0].id) == 8200;
  }

  lemma MdxOsakaWellFormed()
    ensures IdsCoded(MdxOsaka, 9) && CenterPositive(MdxOsaka)
  {
    assert IdCode(MdxOsaka.cpuOptions[0].id) == 9000;
    assert IdCode(MdxOsaka.gpuOptions[0].id) == 9100;
    assert IdCode(MdxOsaka.storageOptions[0].id) == 9200;
  }

  lemma SeedCenterWellFormed(a: nat)
    requires a < |Centers|
    ensures IdsCoded(Centers[a], a) && CenterPositive(Centers[a])
  {
    if a == 0 { HokkaidoWellFormed(); }
    else if a == 1 { TohokuWellFormed(); }
    else if a == 2 { TokyoWellFormed(); }
    else if a == 3 { ScienceTokyoWellFormed(); }
    else if a == 4 { NagoyaWellFormed(); }
    else if a == 5 { OsakaWellFormed(); }
    else if a == 6 { KyotoWellFormed(); }
    else if a == 7 { KyushuWellFormed(); }
    else if a == 8 { MdxTokyoWellFormed(); }
    else { MdxOsakaWellFormed(); }
  }

  lemma SeedOptionIdsUnique()
    ensures OptionIdsUnique(Centers)
  {
    forall a, ca, i, b, cb, j |
      0 <= a < |Centers| && 0 <= b < |Centers| &&
      0 <= i < |Options(Centers[a], ca)| && 0 <= j < |Options(Centers[b], cb)| &&
      (a != b || ca != cb || i != j)
      ensures Options(Centers[a], ca)[i].id != Options(Centers[b], cb)[j].id
    {
      SeedCenterWellFormed(a);
      SeedCenterWellFormed(b);
      CodedOption(Centers[a], a, ca, i);
      CodedOption(Centers[b], b, cb, j);
    }
  }

  /** Every seed option has a positive limit and a positive price. */
  lemma SeedOptionsPositive()
    ensures forall a, cat, k :: 0 <= a < |Centers| && 0 <= k < |Options(Centers[a], cat)| ==>
      Options(Centers[a], cat)[k].limit > 0.0 && Options(Centers[a], cat)[k].price > 0.0
  {
    forall a, cat, k | 0 <= a < |Centers| && 0 <= k < |Options(Centers[a], cat)|
      ensures Options(Centers[a], cat)[k].limit > 0.0 && Options(Centers[a], cat)[k].price > 0.0
    {
      SeedCenterWellFormed(a);
    }
  }

  ghost predicate ListPositive(opts: seq<ResourceOption>) {
    forall k :: 0 <= k < |opts| ==> opts[k].limit > 0.0 && opts[k].price > 0.0
  }

  ghost predicate CenterPositive(c: CenterSpec) {
    ListPositive(c.cpuOptions) && ListPositive(c.gpuOptions) && ListPositive(c.storageOptions)
  }

  /** Eight HPCI centers come first, then the two mdx centers. */
  lemma SeedLayout()
    ensures |Centers| == 10
    ensures forall a :: 0 <= a < 8 ==> Centers[a].infra == Hpci
    ensures forall a :: 8 <= a < 10 ==> Centers[a].infra == Mdx
  {
  }

  /** Exactly four categories are empty: the GPU lists of Tohoku, Kyoto and
      Kyushu and the CPU list of Science Tokyo. */
  lemma SeedEmptyCategories()
    ensures forall a, cat :: 0 <= a < |Centers| ==>
      (Options(Centers[a], cat) == [] <==>
        (cat == Gpu && (a == 1 || a == 6 || a == 7)) || (cat == Cpu && a == 3))
  {
  }

  lemma SeedHasNoMdxSpecs()
    ensures forall a :: 0 <= a < |Centers| ==> Centers[a].mdxSpecs == None
  {
  }

  lemma BudgetConstants()
    ensures HpciSingleCenterLimit == 3000000.0 && HpciTotalLimit == 3600000.0 && MdxTotalLimit == 1000000.0
    ensures 0.0 < HpciSingleCenterLimit < HpciTotalLimit
  {
  }
}
