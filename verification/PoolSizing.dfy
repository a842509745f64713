/**
 * What the sizing computation achieves: for which workloads it succeeds, and that the pools it returns let the
 * runtime put every slice of every workload into the pool of its key.
 */
module PoolSizing {
  import opened Numbers
  import opened Sequences
  import opened ModelConfig
  import opened Layout
  import opened KvStorage
  import opened PlacementRefinement
  import opened Sizing

  /** Slices exist, leave room for rounding up to a GiB, and none starts where the sizing base address wraps to 0. */
  ghost predicate Sizable(s: seq<KvCacheSlice>) {
    && s != [] && SumSizes(s) <= U64 - GIB
    && forall i | 0 <= i < |s| :: StartsClear(s, i)
  }

  predicate StartsClear(s: seq<KvCacheSlice>, i: nat)
    requires i < |s|
  {
    BytesBefore(s, i) != U64 - FAKE_BASE
  }

  /** What the slices of every workload of a model with distinct active names are like. */
  ghost predicate WellFormed(s: seq<KvCacheSlice>) {
    && DistinctIds(s) && KeysInOrder(ItemsOf(s))
    && forall i | 0 <= i < |s| :: s[i].sizeBytes > 0
  }

  lemma {:induction false} WorkloadWellFormed(model: ModelSpec, w: Workload)
    requires DistinctActiveNames(Channels(model))
    ensures WellFormed(SlicesOf(model, w))
  {
    var ch := Channels(model);
    SlicesDistinct(ch, w.keyCount);
    WorkloadKeysInOrder(ch, w.keyCount);
    SlicesConsecutive(ch, w.keyCount);
  }

  lemma {:induction false} AddressZero(b: nat)
    requires b < U64
    ensures Wrap64(FAKE_BASE + b) == 0 <==> b == U64 - FAKE_BASE
  {
    if FAKE_BASE + b >= U64 {
      assert Wrap64(FAKE_BASE + b) == Rem(FAKE_BASE + b - U64, U64);
    }
  }

  lemma {:induction false} AddressOkIff(s: seq<KvCacheSlice>, i: nat)
    requires i < |s| && SumSizes(s) < U64 && s[i].sizeBytes > 0
    ensures AddressOk(s, i) <==> StartsClear(s, i)
  {
    BytesBeforeMonotone(s, i, |s|);
    AddressZero(BytesBefore(s, i));
  }

  lemma {:induction false} AddressesOkIff(s: seq<KvCacheSlice>)
    requires SumSizes(s) < U64 && forall i | 0 <= i < |s| :: s[i].sizeBytes > 0
    ensures AddressesOk(s) <==> s != [] && forall i | 0 <= i < |s| :: StartsClear(s, i)
  {
    hide AddressOk, StartsClear, SumSizes;
    forall i | 0 <= i < |s|
      ensures AddressOk(s, i) <==> StartsClear(s, i)
    {
      AddressOkIff(s, i);
    }
  }

  /** A sizable workload that fits is laid out. */
  lemma {:induction false} PlaceableIfFits(sizes: seq<u64>, x: Context, s: seq<KvCacheSlice>)
    requires 0 < |sizes| < U32 && WellFormed(s) && Sizable(s) && Fits(ItemsOf(s), sizes)
    ensures Placeable(sizes, x, s)
  {
    AddressesOkIff(s);
    FittingStoreIsIdeal(sizes, x, s);
  }

  /** Segments of size 0 hold nothing. */
  lemma {:induction false} EmptySegmentsRefuse(sizes: seq<u64>, x: Context, s: seq<KvCacheSlice>)
    requires 0 < |sizes| < U32 && WellFormed(s) && s != [] && forall g | 0 <= g < |sizes| :: sizes[g] == 0
    ensures !StoreAccepts(sizes, x, s)
  {
    DistinctAgree(sizes, x, s);
    assert ItemsOf(s)[0].size == s[0].sizeBytes;
    if PassRun(sizes, s).Some? {
      PassPlacesWell(sizes, ItemsOf(s), |s|);
    }
  }

  // ---------------------------------------------------------------- the capacity of the trial segments

  ghost predicate AllSizable(model: ModelSpec, workloads: seq<Workload>) {
    forall i | 0 <= i < |workloads| :: Sizable(SlicesOf(model, workloads[i]))
  }

  ghost predicate AllPlaceable(cfg: Config, model: ModelSpec, workloads: seq<Workload>, sizes: seq<u64>)
    requires |sizes| < U32
  {
    forall i | 0 <= i < |workloads| :: WorkloadPlaceable(cfg, model, workloads[i], sizes)
  }

  /** m is the largest of the total sizes, or 0. */
  predicate IsMaxTotal(m: u64, workloads: seq<Workload>) {
    && (forall i | 0 <= i < |workloads| :: workloads[i].totalBytes <= m)
    && (m == 0 || exists i :: 0 <= i < |workloads| && workloads[i].totalBytes == m)
  }

  /** MaxLocalBytes. */
  method MaxLocalBytes(workloads: seq<Workload>) returns (m: u64)
    ensures IsMaxTotal(m, workloads)
  {
    m := 0;
    for i := 0 to |workloads|
      invariant forall j | 0 <= j < i :: workloads[j].totalBytes <= m
      invariant m == 0 || exists j :: 0 <= j < i && workloads[j].totalBytes == m
    {
      m := Max(m, workloads[i].totalBytes);
    }
  }

  /** The recorded totals are those of the model, as BuildWorkloads records them. */
  ghost predicate Recorded(model: ModelSpec, workloads: seq<Workload>) {
    forall i | 0 <= i < |workloads| :: workloads[i].totalBytes == Wrap64(SumSizes(SlicesOf(model, workloads[i])))
  }

  lemma {:induction false} FitsInCapacity(n: u32, cap: u64, s: seq<KvCacheSlice>)
    requires n > 0 && SumSizes(s) <= cap
    ensures Fits(ItemsOf(s), Uniform(n, cap))
  {
    forall g | 0 <= g < n
      ensures UsedIn(ItemsOf(s), |s|, n, g) <= cap
    {
      UsedAtMostTotal(s, |s|, n, g);
    }
  }

  function Capacity(m: u64): u64 {
    AlignUp(Max(m, 1), GIB)
  }

  lemma {:induction false} TrialFits(cfg: Config, model: ModelSpec, workloads: seq<Workload>, m: u64, i: nat)
    requires cfg.Valid() && Recorded(model, workloads) && IsMaxTotal(m, workloads)
    requires AllSizable(model, workloads) && i < |workloads|
    ensures Fits(ItemsOf(SlicesOf(model, workloads[i])), Uniform(cfg.processes, Capacity(m)))
  {
    hide SlicesOf, SumSizes, Fits, AlignUp;
    var s := SlicesOf(model, workloads[i]);
    assert Sizable(s);
    WrapSmall(SumSizes(s));
    if m > 0 {
      var j :| 0 <= j < |workloads| && workloads[j].totalBytes == m;
      assert Sizable(SlicesOf(model, workloads[j]));
      WrapSmall(SumSizes(SlicesOf(model, workloads[j])));
    }
    GibRounding(Max(m, 1));
    FitsInCapacity(cfg.processes, Capacity(m), s);
  }

  lemma {:induction false} TrialSucceeds(cfg: Config, model: ModelSpec, workloads: seq<Workload>, m: u64)
    requires cfg.Valid() && DistinctActiveNames(Channels(model)) && Recorded(model, workloads)
             && IsMaxTotal(m, workloads)
    requires AllSizable(model, workloads)
    ensures AllPlaceable(cfg, model, workloads, Uniform(cfg.processes, Capacity(m)))
  {
    hide SlicesOf, Placeable, ContextOf, Sizable, Capacity, WellFormed, Fits, Channels, DistinctActiveNames, Recorded,
         IsMaxTotal;
    var sizes := Uniform(cfg.processes, Capacity(m));
    forall i | 0 <= i < |workloads|
      ensures WorkloadPlaceable(cfg, model, workloads[i], sizes)
    {
      WorkloadWellFormed(model, workloads[i]);
      TrialFits(cfg, model, workloads, m, i);
      PlaceableIfFits(sizes, ContextOf(cfg, model, workloads[i]), SlicesOf(model, workloads[i]));
    }
  }

  lemma {:induction false} PlaceableMeans(sizes: seq<u64>, x: Context, s: seq<KvCacheSlice>)
    requires |sizes| < U32 && WellFormed(s) && Placeable(sizes, x, s)
    ensures s != [] && SumSizes(s) < U64 && StoreAccepts(sizes, x, s)
    ensures forall i | 0 <= i < |s| :: StartsClear(s, i)
  {
    AddressesOkIff(s);
  }

  /** A trial layout with the rounded capacity only succeeds on sizable workloads. */
  lemma {:induction false} TrialOnlyIf(cfg: Config, model: ModelSpec, workloads: seq<Workload>, m: u64, i: nat)
    requires cfg.Valid() && DistinctActiveNames(Channels(model)) && Recorded(model, workloads)
             && IsMaxTotal(m, workloads)
    requires AllPlaceable(cfg, model, workloads, Uniform(cfg.processes, Capacity(m))) && i < |workloads|
    ensures Sizable(SlicesOf(model, workloads[i]))
  {
    hide SlicesOf, Placeable, ContextOf, AlignUp, WellFormed, SumSizes, Channels, DistinctActiveNames, StoreAccepts,
         StartsClear;
    var sizes := Uniform(cfg.processes, Capacity(m));
    var x, s := ContextOf(cfg, model, workloads[i]), SlicesOf(model, workloads[i]);
    assert WorkloadPlaceable(cfg, model, workloads[i], sizes);
    WorkloadWellFormed(model, workloads[i]);
    PlaceableMeans(sizes, x, s);
    WrapSmall(SumSizes(s));
    assert workloads[i].totalBytes == SumSizes(s);
    GibRounding(Max(m, 1));
    if Max(m, 1) > U64 - GIB {
      EmptySegmentsRefuse(sizes, x, s);
    }
  }

  // ---------------------------------------------------------------- the pools

  /** The pool of each rank, a function of the process count, the model and the workloads alone. */
  ghost function PoolSizes(processes: u32, model: ModelSpec, workloads: seq<Workload>): (r: seq<u64>)
    requires processes > 0
    requires forall g | 0 <= g < processes :: PeakUsed(ItemLists(model, workloads), |workloads|, processes, g) < U64
    ensures |r| == processes
    ensures forall g {:trigger r[g]} | 0 <= g < processes ::
              r[g] == Capacity(PeakUsed(ItemLists(model, workloads), |workloads|, processes, g))
  {
    seq(processes, g requires 0 <= g < processes =>
      Capacity(PeakUsed(ItemLists(model, workloads), |workloads|, processes, g)))
  }

  lemma {:induction false} PeaksSmall(model: ModelSpec, workloads: seq<Workload>, n: nat, g: nat)
    requires n > 0 && AllSizable(model, workloads)
    ensures PeakUsed(ItemLists(model, workloads), |workloads|, n, g) <= U64 - GIB
  {
    hide SlicesOf, SumSizes, StartsClear, PeakUsed, UsedIn, ItemsOf;
    var lists := ItemLists(model, workloads);
    if PeakUsed(lists, |workloads|, n, g) > 0 {
      PeakUsedAttained(lists, |workloads|, n, g);
      var i :| 0 <= i < |workloads| && UsedIn(lists[i], |lists[i]|, n, g) == PeakUsed(lists, |workloads|, n, g);
      assert Sizable(SlicesOf(model, workloads[i]));
      WorkloadUsed(SlicesOf(model, workloads[i]), n, g);
    }
  }

  lemma {:induction false} WorkloadUsed(s: seq<KvCacheSlice>, n: nat, g: nat)
    requires n > 0
    ensures UsedIn(ItemsOf(s), |ItemsOf(s)|, n, g) <= SumSizes(s)
  {
    UsedAtMostTotal(s, |s|, n, g);
  }

  /** The pools hold the reference layout of every workload. */
  lemma {:induction false} PoolsFit(processes: u32, model: ModelSpec, workloads: seq<Workload>, i: nat)
    requires processes > 0 && AllSizable(model, workloads) && i < |workloads|
    ensures forall g | 0 <= g < processes :: PeakUsed(ItemLists(model, workloads), |workloads|, processes, g) < U64
    ensures Fits(ItemsOf(SlicesOf(model, workloads[i])), PoolSizes(processes, model, workloads))
  {
    hide SlicesOf, SumSizes, StartsClear, PeakUsed, UsedIn, ItemsOf, AlignUp, AllSizable;
    var lists := ItemLists(model, workloads);
    assert lists[i] == ItemsOf(SlicesOf(model, workloads[i]));
    forall g | 0 <= g < processes
      ensures PeakUsed(lists, |workloads|, processes, g) < U64
    {
      PeaksSmall(model, workloads, processes, g);
    }
    var pools := PoolSizes(processes, model, workloads);
    forall g | 0 <= g < processes
      ensures UsedIn(lists[i], |lists[i]|, processes, g) <= pools[g]
    {
      PeaksSmall(model, workloads, processes, g);
      PeakUsedBounds(lists, |workloads|, processes, g, i);
      GibRounding(Max(PeakUsed(lists, |workloads|, processes, g), 1));
    }
  }

  /** The peaks measured on the trial layouts are those of the reference layouts. */
  lemma {:induction false} MeasuredPeak(cfg: Config, model: ModelSpec, workloads: seq<Workload>, m: u64, peak: u64,
                                        g: nat)
    requires cfg.Valid() && DistinctActiveNames(Channels(model)) && Recorded(model, workloads)
             && IsMaxTotal(m, workloads)
    requires AllSizable(model, workloads) && g < cfg.processes
    requires PeakOf(peak, Runs(cfg, model, workloads, Uniform(cfg.processes, Capacity(m))), |workloads|, g)
    ensures peak == PeakUsed(ItemLists(model, workloads), |workloads|, cfg.processes, g)
  {
    hide PeakOf, EndsAt, PeakUsed, UsedIn, Capacity, SlicesOf, ContextOf, StoreRun, ItemsOf, AllSizable, Recorded,
         IsMaxTotal, DistinctActiveNames, Channels;
    var n := cfg.processes;
    var runs, lists := Runs(cfg, model, workloads, Uniform(n, Capacity(m))), ItemLists(model, workloads);
    forall i, e: nat | 0 <= i < |workloads| && EndsAt(runs[i], g, e)
      ensures e <= UsedIn(lists[i], |lists[i]|, n, g)
    {
      RunPeak(cfg, model, workloads, m, i, g, e);
    }
    forall i | 0 <= i < |workloads| && UsedIn(lists[i], |lists[i]|, n, g) > 0
      ensures EndsAt(runs[i], g, UsedIn(lists[i], |lists[i]|, n, g))
    {
      RunPeak(cfg, model, workloads, m, i, g, 0);
    }
    PeakIsUsed(peak, runs, lists, n, g);
  }

  lemma {:induction false} RunPeak(cfg: Config, model: ModelSpec, workloads: seq<Workload>, m: u64, i: nat, g: nat,
                                   e: nat)
    requires cfg.Valid() && DistinctActiveNames(Channels(model)) && Recorded(model, workloads)
             && IsMaxTotal(m, workloads)
    requires AllSizable(model, workloads) && g < cfg.processes && i < |workloads|
    ensures var run := Runs(cfg, model, workloads, Uniform(cfg.processes, Capacity(m)))[i];
            var items := ItemLists(model, workloads)[i];
            && (EndsAt(run, g, e) ==> e <= UsedIn(items, |items|, cfg.processes, g))
            && (UsedIn(items, |items|, cfg.processes, g) > 0 ==>
                  EndsAt(run, g, UsedIn(items, |items|, cfg.processes, g)))
  {
    hide Capacity, Recorded, IsMaxTotal, SlicesOf, ContextOf, KeysOf, ItemsOf, UsedIn, EndsAt, DistinctActiveNames,
         Channels, StoreRun, PlacedIdeally, StoreAccepts, SumSizes, DistinctIds, KeysInOrder, Fits;
    var n, w := cfg.processes, workloads[i];
    var x, s := ContextOf(cfg, model, w), SlicesOf(model, w);
    var sizes := Uniform(n, Capacity(m));
    WorkloadWellFormed(model, w);
    TrialFits(cfg, model, workloads, m, i);
    FittingStoreIsIdeal(sizes, x, s);
    assert Sizable(s);
    WorkloadUsed(s, n, g);
    IdealPeak(StoreRun(sizes, x, s).0.placements, KeysOf(x, s), ItemsOf(s), n, g, e);
  }

  /** BuildAlignedRankPoolSizes. */
  method BuildAlignedRankPoolSizes(cfg: Config, usage: seq<u64>) returns (pools: seq<u64>)
    requires |usage| == cfg.processes
    ensures |pools| == cfg.processes && forall g | 0 <= g < cfg.processes :: pools[g] == Capacity(usage[g])
    ensures forall g | 0 <= g < cfg.processes :: IsRoundedUp(pools[g], Max(usage[g], 1))
  {
    pools := [];
    hide AlignUp, IsRoundedUp;
    for g := 0 to cfg.processes
      invariant |pools| == g && forall j | 0 <= j < g :: pools[j] == Capacity(usage[j])
      invariant forall j | 0 <= j < g :: IsRoundedUp(pools[j], Max(usage[j], 1))
    {
      GibRounding(Max(usage[g], 1));
      pools := pools + [AlignUp(Max(usage[g], 1), GIB)];
    }
  }

  /** VerifyRankPoolLayouts. */
  method VerifyRankPoolLayouts(cfg: Config, model: ModelSpec, workloads: seq<Workload>, pools: seq<u64>)
    returns (r: Outcome<()>)
    requires |pools| < U32
    ensures r.Returned? <==> AllPlaceable(cfg, model, workloads, pools)
  {
    hide WorkloadPlaceable, Placeable, StoreRun;
    for i := 0 to |workloads|
      invariant forall j | 0 <= j < i :: WorkloadPlaceable(cfg, model, workloads[j], pools)
    {
      var run := LayOut(cfg, model, workloads[i], pools);
      if run.Threw? {
        assert !WorkloadPlaceable(cfg, model, workloads[i], pools) by {
          WorkloadPlaceableIs(cfg, model, workloads[i], pools);
        }
        return Threw(run.what);
      }
      WorkloadPlaceableIs(cfg, model, workloads[i], pools);
    }
    return Returned(());
  }

  lemma {:induction false} WorkloadPlaceableIs(cfg: Config, model: ModelSpec, w: Workload, sizes: seq<u64>)
    requires |sizes| < U32
    ensures WorkloadPlaceable(cfg, model, w, sizes) == Placeable(sizes, ContextOf(cfg, model, w), SlicesOf(model, w))
  {
  }

  /** Sizable workloads get the pools their reference layouts need, and the check of those pools passes. */
  lemma {:induction false} SizableGetPools(cfg: Config, model: ModelSpec, workloads: seq<Workload>, m: u64,
                                           usage: seq<u64>, pools: seq<u64>)
    requires cfg.Valid() && DistinctActiveNames(Channels(model)) && Recorded(model, workloads)
             && IsMaxTotal(m, workloads)
    requires AllSizable(model, workloads) && |usage| == |pools| == cfg.processes
    requires forall g | 0 <= g < cfg.processes ::
               PeakOf(usage[g], Runs(cfg, model, workloads, Uniform(cfg.processes, Capacity(m))), |workloads|, g)
    requires forall g | 0 <= g < cfg.processes :: pools[g] == Capacity(usage[g])
    ensures forall g | 0 <= g < cfg.processes ::
              PeakUsed(ItemLists(model, workloads), |workloads|, cfg.processes, g) < U64
    ensures pools == PoolSizes(cfg.processes, model, workloads)
    ensures AllPlaceable(cfg, model, workloads, pools)
  {
    hide PeakOf, Runs, PeakUsed, Capacity, SlicesOf, ContextOf, Sizable, Recorded, IsMaxTotal, Placeable,
         DistinctActiveNames, Channels, Fits, WellFormed, ItemLists, ItemsOf;
    var n := cfg.processes;
    forall g | 0 <= g < n
      ensures usage[g] == PeakUsed(ItemLists(model, workloads), |workloads|, n, g)
    {
      MeasuredPeak(cfg, model, workloads, m, usage[g], g);
    }
    assert pools == PoolSizes(n, model, workloads);
    forall i | 0 <= i < |workloads|
      ensures WorkloadPlaceable(cfg, model, workloads[i], pools)
    {
      WorkloadWellFormed(model, workloads[i]);
      PoolsFit(n, model, workloads, i);
      PlaceableIfFits(pools, ContextOf(cfg, model, workloads[i]), SlicesOf(model, workloads[i]));
    }
  }

  // ---------------------------------------------------------------- the whole computation

  /** What BuildWorkloads records of a key count: the numbers of its slice list, in 64 bits. */
  ghost predicate Describes(w: Workload, model: ModelSpec, keyCount: u64) {
    var s := SlicesUpTo(Channels(model), keyCount);
    && w.keyCount == keyCount && w.tokens == Wrap64(keyCount * model.tokensPerKey)
    && w.totalBytes == Wrap64(SumSizes(s)) && w.sliceCount == Wrap64(|s|) && IsMaxSlice(w.maxSliceBytes, s)
  }

  /** BuildWorkloads, on key counts already parsed: no list and no zero is accepted. */
  method BuildWorkloads(keyCounts: seq<u64>, model: ModelSpec) returns (r: Outcome<seq<Workload>>)
    ensures r.Returned? <==> keyCounts != [] && forall i | 0 <= i < |keyCounts| :: keyCounts[i] != 0
    ensures r.Returned? ==>
              && Recorded(model, r.value) && |r.value| == |keyCounts|
              && forall i | 0 <= i < |keyCounts| :: Describes(r.value[i], model, keyCounts[i])
  {
    if |keyCounts| == 0 {
      return Threw("key_counts must be non-empty");
    }
    var workloads: seq<Workload> := [];
    for i := 0 to |keyCounts|
      invariant |workloads| == i
                && forall j | 0 <= j < i :: keyCounts[j] != 0 && Describes(workloads[j], model, keyCounts[j])
    {
      if keyCounts[i] == 0 {
        return Threw("key_count must be greater than zero");
      }
      var k := keyCounts[i];
      var widest := MaxSliceBytesForKeys(model, k);
      var count := CountTransferSlicesForKeys(model, k);
      var total := TransferBytesForKeys(model, k);
      var w := Workload(Wrap64(k * model.tokensPerKey), k, widest, count, total);
      assert Describes(w, model, k);
      workloads := workloads + [w];
      hide Describes;
    }
    DescribedIsRecorded(workloads, model, keyCounts);
    return Returned(workloads);
  }

  lemma {:induction false} DescribedIsRecorded(workloads: seq<Workload>, model: ModelSpec, keyCounts: seq<u64>)
    requires |workloads| == |keyCounts|
             && forall j | 0 <= j < |workloads| :: Describes(workloads[j], model, keyCounts[j])
    ensures Recorded(model, workloads)
  {
    hide Wrap64, Channels, SlicesUpTo, BytesBefore, IsMaxSlice;
  }

  /** The trial layouts succeed, and the pools are the measured peaks rounded up. */
  ghost predicate Measured(cfg: Config, model: ModelSpec, workloads: seq<Workload>, m: u64, usage: seq<u64>,
                           pools: seq<u64>) {
    && |usage| == |pools| == cfg.processes && IsMaxTotal(m, workloads)
    && AllPlaceable(cfg, model, workloads, Uniform(cfg.processes, Capacity(m)))
    && (forall g | 0 <= g < cfg.processes ::
          PeakOf(usage[g], Runs(cfg, model, workloads, Uniform(cfg.processes, Capacity(m))), |workloads|, g))
    && (forall g | 0 <= g < cfg.processes :: pools[g] == Capacity(usage[g]))
  }

  /** Pools measured on the trial layouts and found to hold every workload, for any model whatever. */
  ghost predicate Accepted(cfg: Config, model: ModelSpec, workloads: seq<Workload>, pools: seq<u64>) {
    && |pools| == cfg.processes && AllPlaceable(cfg, model, workloads, pools)
    && exists m: u64, usage: seq<u64> :: Measured(cfg, model, workloads, m, usage, pools)
  }

  lemma {:induction false} MeasuredOnce(cfg: Config, model: ModelSpec, workloads: seq<Workload>, m: u64,
                                        usage: seq<u64>, pools: seq<u64>, m': u64, usage': seq<u64>, pools': seq<u64>)
    requires Measured(cfg, model, workloads, m, usage, pools) && Measured(cfg, model, workloads, m', usage', pools')
    ensures m == m' && usage == usage' && pools == pools'
  {
    hide Runs, AllPlaceable, Capacity, Uniform;
    assert m == m';
    forall g | 0 <= g < cfg.processes
      ensures usage[g] == usage'[g]
    {
      PeakOnce(usage[g], usage'[g], Runs(cfg, model, workloads, Uniform(cfg.processes, Capacity(m))), g);
    }
  }

  lemma {:induction false} PeakOnce(a: nat, b: nat, runs: seq<map<string, KeyPlacement>>, g: nat)
    requires PeakOf(a, runs, |runs|, g) && PeakOf(b, runs, |runs|, g)
    ensures a == b
  {
    hide EndsAt;
  }

  /** What the computation returns for models with distinct active names: the same on every rank. */
  ghost predicate SizedPools(pools: seq<u64>, model: ModelSpec, workloads: seq<Workload>) {
    && 0 < |pools| < U32 && DistinctActiveNames(Channels(model)) && AllSizable(model, workloads)
    && (forall g | 0 <= g < |pools| :: PeakUsed(ItemLists(model, workloads), |workloads|, |pools|, g) < U64)
    && pools == PoolSizes(|pools|, model, workloads)
  }

  /** For such models, accepted pools are those of the reference layouts, and exist exactly for sizable workloads. */
  lemma {:induction false} AcceptedIsSized(cfg: Config, model: ModelSpec, workloads: seq<Workload>, pools: seq<u64>)
    requires cfg.Valid() && Recorded(model, workloads) && DistinctActiveNames(Channels(model))
    requires Accepted(cfg, model, workloads, pools)
    ensures SizedPools(pools, model, workloads)
  {
    hide PeakOf, Runs, PeakUsed, PoolSizes, AlignUp, SlicesOf, ItemLists, Recorded, IsMaxTotal, DistinctActiveNames,
         Channels, WorkloadPlaceable, Sizable, Capacity;
    var m: u64, usage: seq<u64> :| Measured(cfg, model, workloads, m, usage, pools);
    forall i | 0 <= i < |workloads|
      ensures Sizable(SlicesOf(model, workloads[i]))
    {
      TrialOnlyIf(cfg, model, workloads, m, i);
    }
    SizableGetPools(cfg, model, workloads, m, usage, pools);
  }

  /**
   * The sizing part of RunKvBenchParsed. Whatever the model, it returns the accepted pools if there are any and throws
   * otherwise; with distinct active names it succeeds exactly on sizable workloads.
   */
  method SizePools(cfg: Config, model: ModelSpec, workloads: seq<Workload>) returns (r: Outcome<seq<u64>>)
    requires cfg.Valid() && Recorded(model, workloads)
    ensures r.Returned? ==> forall pools :: Accepted(cfg, model, workloads, pools) <==> pools == r.value
    ensures r.Threw? ==> forall pools :: !Accepted(cfg, model, workloads, pools)
    ensures DistinctActiveNames(Channels(model)) ==> (r.Returned? <==> AllSizable(model, workloads))
    ensures DistinctActiveNames(Channels(model)) && r.Returned? ==> SizedPools(r.value, model, workloads)
  {
    var m := MaxLocalBytes(workloads);
    var capacity := AlignUp(Max(m, 1), GIB);
    ghost var distinct := DistinctActiveNames(Channels(model));
    hide Runs, PeakOf, PeakUsed, PoolSizes, SlicesOf, ItemLists, Recorded, IsMaxTotal, DistinctActiveNames,
         Channels, WorkloadPlaceable, Sizable, AlignUp;
    var usage := ComputeMaxSegmentUsage(cfg, model, workloads, capacity);
    if usage.Threw? {
      if distinct && AllSizable(model, workloads) {
        TrialSucceeds(cfg, model, workloads, m);
      }
      NotMeasured(cfg, model, workloads, m);
      return usage;
    }
    var pools := BuildAlignedRankPoolSizes(cfg, usage.value);
    assert Measured(cfg, model, workloads, m, usage.value, pools);
    var checked := VerifyRankPoolLayouts(cfg, model, workloads, pools);
    OnlyMeasured(cfg, model, workloads, m, usage.value, pools);
    if checked.Threw? {
      if distinct && AllSizable(model, workloads) {
        SizableGetPools(cfg, model, workloads, m, usage.value, pools);
      }
      return Threw(checked.what);
    }
    if distinct {
      AcceptedIsSized(cfg, model, workloads, pools);
    }
    hide Measured;
    return Returned(pools);
  }

  lemma {:induction false} NotMeasured(cfg: Config, model: ModelSpec, workloads: seq<Workload>, m: u64)
    requires IsMaxTotal(m, workloads) && !AllPlaceable(cfg, model, workloads, Uniform(cfg.processes, Capacity(m)))
    ensures forall pools :: !Accepted(cfg, model, workloads, pools)
  {
    hide AllPlaceable, Capacity, Uniform, PeakOf, Runs;
    forall pools | Accepted(cfg, model, workloads, pools)
      ensures false
    {
      var m': u64, usage: seq<u64> :| Measured(cfg, model, workloads, m', usage, pools);
      MaxTotalOnce(m, m', workloads);
    }
  }

  lemma {:induction false} MaxTotalOnce(m: u64, m': u64, workloads: seq<Workload>)
    requires IsMaxTotal(m, workloads) && IsMaxTotal(m', workloads)
    ensures m == m'
  {
  }

  lemma {:induction false} OnlyMeasured(cfg: Config, model: ModelSpec, workloads: seq<Workload>, m: u64,
                                        usage: seq<u64>, pools: seq<u64>)
    requires Measured(cfg, model, workloads, m, usage, pools)
    ensures forall other ::
              Accepted(cfg, model, workloads, other) <==> other == pools && AllPlaceable(cfg, model, workloads, pools)
  {
    assert |pools| == cfg.processes;
    hide Measured, AllPlaceable;
    forall other | Accepted(cfg, model, workloads, other)
      ensures other == pools && AllPlaceable(cfg, model, workloads, pools)
    {
      var m': u64, usage': seq<u64> :| Measured(cfg, model, workloads, m', usage', other);
      MeasuredOnce(cfg, model, workloads, m, usage, pools, m', usage', other);
    }
  }

  // ---------------------------------------------------------------- workloads that sizing refuses

  /** One layer with a cache of x bytes and a differently named one of y bytes. */
  function PairModel(x: u64, y: u64): ModelSpec {
    ModelSpec("pair", [LayerSpec([CacheSpec("a", x, 0), CacheSpec("b", y, 0)])], 1, "shared")
  }

  /** Its slices for one key: a cache without bytes has none. */
  function Pair(x: u64, y: u64): seq<KvCacheSlice> {
    [KvCacheSlice(0, 0, "a", x)] + if y > 0 then [KvCacheSlice(0, 0, "b", y)] else []
  }

  lemma {:induction false} PairSlices(x: u64, y: u64, w: Workload)
    requires x > 0 && w.keyCount == 1
    ensures SlicesOf(PairModel(x, y), w) == Pair(x, y) && DistinctActiveNames(Channels(PairModel(x, y)))
    ensures SumSizes(Pair(x, y)) == x + y && BytesBefore(Pair(x, y), 1) == x
  {
    var model := PairModel(x, y);
    var ch := [Channel(0, CacheSpec("a", x, 0)), Channel(0, CacheSpec("b", y, 0))];
    var blocks := LayerChannels(model.layers);
    assert blocks[0] == ch;
    assert Flatten(blocks, 1) == Cat(Flatten(blocks, 0), blocks[0]);
    assert Channels(model) == ch;
    assert "a" != "b" by {
      assert "a"[0] != "b"[0];
    }
    assert KeySlices(ch, 1, 0) == [ch[0].Slice(0)];
    assert KeySlices(ch, 2, 0) == Pair(x, y);
    assert SlicesUpTo(ch, 1) == Cat(SlicesUpTo(ch, 0), KeySlices(ch, 2, 0));
    assert BytesBefore(Pair(x, y), 1) == x;
  }

  /**
   * A workload that leaves a GiB is refused on every number of processes, because its second slice starts where the
   * sizing base address wraps to 0.
   */
  method WrappedAddressRefused(cfg: Config) returns (model: ModelSpec, workloads: seq<Workload>, r: Outcome<seq<u64>>)
    requires cfg.Valid()
    ensures |workloads| == 1 && Recorded(model, workloads) && DistinctActiveNames(Channels(model))
    ensures SlicesOf(model, workloads[0]) == Pair(0xFFFF_FFFF_0000_0000, 1)
    ensures SumSizes(Pair(0xFFFF_FFFF_0000_0000, 1)) <= 0xFFFF_FFFF_C000_0000
    ensures r.Threw?
  {
    var x: u64 := 0xFFFF_FFFF_0000_0000;
    model, workloads := PairModel(x, 1), [Workload(1, 1, x, 2, x + 1)];
    PairSlices(x, 1, workloads[0]);
    WrapSmall(x + 1);
    assert x == U64 - FAKE_BASE;
    assert !StartsClear(Pair(x, 1), 1);
    hide SlicesOf, PairModel, Channels, DistinctActiveNames, Accepted, SumSizes, BytesBefore, Wrap64;
    assert !Sizable(SlicesOf(model, workloads[0]));
    r := SizePools(cfg, model, workloads);
  }

  /** A single slice that leaves less than a GiB is refused on every number of processes. */
  method OversizedRefused(cfg: Config, x: u64)
    returns (model: ModelSpec, workloads: seq<Workload>, r: Outcome<seq<u64>>)
    requires cfg.Valid() && x > 0xFFFF_FFFF_C000_0000
    ensures |workloads| == 1 && Recorded(model, workloads) && DistinctActiveNames(Channels(model))
    ensures SlicesOf(model, workloads[0]) == Pair(x, 0) && StartsClear(Pair(x, 0), 0)
    ensures r.Threw?
  {
    model, workloads := PairModel(x, 0), [Workload(1, 1, x, 1, x)];
    PairSlices(x, 0, workloads[0]);
    WrapSmall(x);
    assert StartsClear(Pair(x, 0), 0);
    hide SlicesOf, PairModel, Channels, DistinctActiveNames, Accepted, SumSizes, BytesBefore, Wrap64;
    assert !Sizable(SlicesOf(model, workloads[0]));
    r := SizePools(cfg, model, workloads);
  }
}
