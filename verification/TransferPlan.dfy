/**
 * Planning a transfer at run time: place the prepared slices in the sized pools and build the tasks. With the pools
 * that the sizing computation returned this always succeeds, without spilling.
 */
module TransferPlan {
  import opened Numbers
  import opened Sequences
  import opened ModelConfig
  import opened PlacementKeys
  import opened SegmentManagement
  import opened Layout
  import opened KvStorage
  import opened PlacementRefinement
  import opened SlicePlans
  import opened Sizing
  import opened PoolSizing
  import opened Transfers
  import opened ByteMoves

  /** The pools are those the sizing computation returns for workloads that include w. */
  ghost predicate SizedFor(pools: seq<u64>, model: ModelSpec, workloads: seq<Workload>, w: Workload) {
    SizedPools(pools, model, workloads) && w in workloads
  }

  /** The ranks registered pools of these sizes, and every buffer lies inside the address space. */
  ghost predicate Registered(metas: seq<RankMeta>, pools: seq<u64>, s: seq<KvCacheSlice>, base: u64) {
    && |metas| == |pools| && base + SumSizes(s) <= U64
    && (forall g | 0 <= g < |pools| :: metas[g].poolSize == pools[g] && metas[g].poolAddr + pools[g] <= U64)
  }

  /** Pools sized for a workload hold it without spilling: the runtime pass is the reference layout. */
  lemma {:induction false} SizedNeverSpills(pools: seq<u64>, model: ModelSpec, workloads: seq<Workload>, w: Workload)
    requires SizedFor(pools, model, workloads, w)
    ensures Ordered(SlicesOf(model, w)) && Fits(ItemsOf(SlicesOf(model, w)), pools)
    ensures var s := SlicesOf(model, w);
            && PassRun(pools, s).Some? && |PassRun(pools, s).value.placed| == |s|
            && forall i | 0 <= i < |s| :: PassRun(pools, s).value.placed[i] == Ideal(ItemsOf(s), |pools|, i)
  {
    hide Fits, SlicesOf, PassRun, Channels, DistinctActiveNames, PoolSizes, PeakUsed, AllSizable, KeysInOrder,
         DistinctIds, ItemsOf;
    var i :| 0 <= i < |workloads| && workloads[i] == w;
    PoolsFit(|pools|, model, workloads, i);
    WorkloadWellFormed(model, w);
    FittingPass(pools, SlicesOf(model, w));
  }

  lemma {:induction false} PreparedAsItems(prep: seq<PreparedTransferSlice>, base: u64, s: seq<KvCacheSlice>)
    requires IsPrepared(prep, base, s, |s|)
    ensures PreparedItems(prep) == ItemsOf(s)
  {
    forall i | 0 <= i < |s|
      ensures PreparedItems(prep)[i] == ItemsOf(s)[i]
    {
      assert prep[i] == PreparedAt(base, s, i);
    }
  }

  lemma {:induction false} PlanIsPlaced(b: Batch, s: seq<KvCacheSlice>, base: u64, pools: seq<u64>)
    requires 0 < |pools| && Ordered(s) && Fits(ItemsOf(s), pools) && Registered(b.metas, pools, s, base)
    requires IsPrepared(b.slices, base, s, |s|)
    requires |b.placements| == |s| && forall i | 0 <= i < |s| :: b.placements[i] == Ideal(ItemsOf(s), |pools|, i)
    ensures Placed(b, s, base, pools)
  {
  }

  /** What a batch holds once it is planned: the prepared slices and what the runtime pass made of them. */
  ghost predicate Planned(b: Batch, s: seq<KvCacheSlice>, base: u64, pools: seq<u64>)
    requires 0 < |pools| < U32
  {
    && PassRun(pools, s).Some? && IsPrepared(b.slices, base, s, |s|) && b.placements == PassRun(pools, s).value.placed
    && |b.placements| == |b.slices| == |s|
  }

  /** What planning needs: a total below 2^64, a pass that succeeds, and registered pools that hold what it placed. */
  ghost predicate Plannable(s: seq<KvCacheSlice>, pools: seq<u64>, metas: seq<RankMeta>)
    requires 0 < |pools| < U32
  {
    && SumSizes(s) < U64 && PassRun(pools, s).Some?
    && forall i | 0 <= i < |PassRun(pools, s).value.placed| :: InPool(PassRun(pools, s).value.placed[i], metas)
  }

  lemma {:induction false} SizedIsPlannable(b: Batch, base: u64, pools: seq<u64>, model: ModelSpec,
                                            workloads: seq<Workload>, w: Workload)
    requires SizedFor(pools, model, workloads, w) && Registered(b.metas, pools, SlicesOf(model, w), base)
    requires IsPrepared(b.slices, base, SlicesOf(model, w), |SlicesOf(model, w)|)
    requires PassRun(pools, SlicesOf(model, w)).Some? ==>
               b.placements == PassRun(pools, SlicesOf(model, w)).value.placed
    ensures Plannable(SlicesOf(model, w), pools, b.metas) && Placed(b, SlicesOf(model, w), base, pools)
  {
    SizedTotals(pools, model, workloads, w);
    SizedNeverSpills(pools, model, workloads, w);
    var s := SlicesOf(model, w);
    hide SlicesOf, SizedFor, PassRun, Fits, Ordered, Ideal, SumSizes, InPool;
    PlanIsPlaced(b, s, base, pools);
    PlacedKeys(b, s, base, pools);
  }

  /**
   * A rank's planning for one workload: BuildWorkloadTransferState, the put if the rank puts, EnsurePlacementMetadata,
   * the get. Both plan the same tasks.
   */
  method PlanTransfer(model: ModelSpec, w: Workload, base: u64, pools: seq<u64>, metas: seq<RankMeta>, selfRank: nat,
                      localCopy: bool, puts: bool)
    returns (put: Outcome<seq<KeyTransferTask>>, get: Outcome<seq<KeyTransferTask>>, ghost b: Batch,
             ghost starts: seq<nat>)
    requires 0 < |pools| < U32
    ensures get.Returned? <==> Plannable(SlicesOf(model, w), pools, metas)
    ensures get.Returned? ==>
              && b.metas == metas && b.selfRank == selfRank && b.localCopy == localCopy
              && Planned(b, SlicesOf(model, w), base, pools) && Groups(get.value, starts, b, |SlicesOf(model, w)|)
    ensures get.Returned? ==> put == if puts then get else Returned([])
    ensures puts && put.Returned? ==> get.Returned?
    ensures forall workloads
              | SizedFor(pools, model, workloads, w) && Registered(metas, pools, SlicesOf(model, w), base) ::
              get.Returned? && Placed(b, SlicesOf(model, w), base, pools)
  {
    ghost var s := SlicesOf(model, w);
    assert TotalBytes(Channels(model), w.keyCount) == SumSizes(s);
    b, starts := Batch([], [], metas, selfRank, localCopy), [0];
    var prep := BuildPreparedTransferSlices(base, w.keyCount, model);
    hide SlicesOf, SizedFor, Placed, Groups, IsPrepared, RunPass, SumSizes, Registered, InPool;
    forall workloads | SizedFor(pools, model, workloads, w)
      ensures prep.Returned?
    {
      SizedTotals(pools, model, workloads, w);
    }
    if prep.Threw? {
      return Threw(prep.what), Threw(prep.what), b, starts;
    }
    PreparedIs(prep.value, base, model, w);
    PreparedAsItems(prep.value, base, s);
    PreparedKeys(prep.value, base, model, w);
    PassRunIs(pools, s);
    ghost var placed := if PassRun(pools, s).Some? then PassRun(pools, s).value.placed else [];
    b := Batch(prep.value, placed, metas, selfRank, localCopy);
    forall workloads | SizedFor(pools, model, workloads, w) && Registered(metas, pools, s, base)
      ensures Plannable(s, pools, metas) && Placed(b, s, base, pools)
    {
      SizedIsPlannable(b, base, pools, model, workloads, w);
    }
    hide PassRun;
    var state := new WorkloadTransferState(prep.value);
    ghost var starts';
    put := Returned([]);
    if puts {
      put, starts' := PlanBatch(state, true, pools, metas, selfRank, localCopy);
      if put.Threw? {
        return put, put, b, starts;
      }
    }
    var ready := state.EnsurePlacementMetadata(pools);
    if ready.Threw? {
      return put, Threw(ready.what), b, starts;
    }
    get, starts := PlanBatch(state, false, pools, metas, selfRank, localCopy);
    if puts && get.Returned? {
      GroupsOnce(put.value, starts', get.value, starts, b, |s|);
    }
  }

  lemma {:induction false} SizedTotals(pools: seq<u64>, model: ModelSpec, workloads: seq<Workload>, w: Workload)
    requires SizedFor(pools, model, workloads, w)
    ensures TotalBytes(Channels(model), w.keyCount) < U64
  {
    hide PoolSizes, PeakUsed, BytesBefore;
    var i :| 0 <= i < |workloads| && workloads[i] == w;
    assert Sizable(SlicesOf(model, workloads[i]));
  }

  lemma {:induction false} PreparedIs(prep: seq<PreparedTransferSlice>, base: u64, model: ModelSpec, w: Workload)
    requires IsPrepared(prep, base, SlicesUpTo(Channels(model), w.keyCount), |SlicesUpTo(Channels(model), w.keyCount)|)
    ensures IsPrepared(prep, base, SlicesOf(model, w), |SlicesOf(model, w)|) && |prep| == |SlicesOf(model, w)|
  {
  }

  lemma {:induction false} PreparedKeys(prep: seq<PreparedTransferSlice>, base: u64, model: ModelSpec, w: Workload)
    requires IsPrepared(prep, base, SlicesOf(model, w), |SlicesOf(model, w)|)
    ensures forall i | 0 <= i < |prep| :: prep[i].keyIndex != NO_KEY
  {
    var s := SlicesOf(model, w);
    WorkloadKeysInOrder(Channels(model), w.keyCount);
    assert KeysInOrder(ItemsOf(s));
    hide SlicesOf;
    forall i | 0 <= i < |prep|
      ensures prep[i].keyIndex != NO_KEY
    {
      assert prep[i] == PreparedAt(base, s, i);
      assert ItemsOf(s)[i].key < NO_KEY;
    }
  }

  // ---------------------------------------------------------------- any model

  /**
   * For whatever model: in the pools that sizing returned, the runtime places a workload with every slice in the pool
   * of its key if and only if each pool holds the bytes of the keys at home in it.
   */
  lemma {:induction false} HomeIffFits(cfg: Config, model: ModelSpec, workloads: seq<Workload>, pools: seq<u64>,
                                       w: Workload)
    requires cfg.Valid() && Accepted(cfg, model, workloads, pools)
    ensures 0 < |pools| < U32
    ensures PassRun(pools, SlicesOf(model, w)).Some?
            && AllAtHome(ItemsOf(SlicesOf(model, w)), PassRun(pools, SlicesOf(model, w)).value.placed,
                         |SlicesOf(model, w)|, |pools|)
            <==> Fits(ItemsOf(SlicesOf(model, w)), pools)
  {
    var s := SlicesOf(model, w);
    WorkloadKeysInOrder(Channels(model), w.keyCount);
    assert KeysInOrder(ItemsOf(s));
    hide SlicesOf, Fits, AllAtHome, Measured, AllPlaceable, KeysInOrder;
    NoSpillIffFits(pools, ItemsOf(s));
    PassRunIs(pools, s);
  }

  // ---------------------------------------------------------------- why active names must differ

  /** One layer with two one-GiB caches of the same name. */
  function TwinModel(): ModelSpec {
    ModelSpec("twins", [LayerSpec([CacheSpec("a", GIB, 0), CacheSpec("a", GIB, 0)])], 1, "shared")
  }

  /** Its slices for one key. */
  function Twins(): seq<KvCacheSlice> {
    [KvCacheSlice(0, 0, "a", GIB), KvCacheSlice(0, 0, "a", GIB)]
  }

  function TwinWorkload(): Workload {
    Workload(1, 1, GIB, 2, 2 * GIB)
  }

  lemma {:induction false} TwinsAreSlices()
    ensures SlicesOf(TwinModel(), TwinWorkload()) == Twins() && SumSizes(Twins()) == 2 * GIB
  {
    var c := Channel(0, CacheSpec("a", GIB, 0));
    var ch := [c, c];
    var layers := TwinModel().layers;
    var blocks := LayerChannels(layers);
    assert blocks[0] == ch;
    assert Flatten(blocks, 1) == Cat(Flatten(blocks, 0), blocks[0]);
    assert Channels(TwinModel()) == ch;
    assert KeySlices(ch, 1, 0) == [c.Slice(0)];
    assert KeySlices(ch, 2, 0) == Twins();
    assert SlicesUpTo(ch, 1) == Cat(SlicesUpTo(ch, 0), KeySlices(ch, 2, 0));
    assert BytesBefore(Twins(), 1) == GIB && BytesBefore(Twins(), 2) == 2 * GIB;
  }

  /** The store files the first twin at the start of a pool with room for it. */
  lemma {:induction false} FirstTwin(x: Context, key: string, sizes: seq<u64>)
    requires key == KeyOf(x, Twins()[0]) && 0 < |sizes| < U32 && GIB <= sizes[0]
    ensures EnsureOne(Empty(FreshSegments(sizes)), key, GIB).1 == Returned(true)
    ensures EnsureOne(Empty(FreshSegments(sizes)), key, GIB).0.placements == map[key := KeyPlacement(key, 0, 0, GIB)]
  {
    SlicePairLabelled(x, Twins()[0], Twins()[0]);
    hide KeyOf, GroupOf, ExtractKeyPlacementGroupKey;
    var segs := FreshSegments(sizes);
    assert segs[0].HasRoom(GIB);
    HomeFirst(segs, 0, GIB);
  }

  lemma {:induction false} AgainIsKnown(st: StoreState, key: string)
    requires st.placements == map[key := KeyPlacement(key, 0, 0, GIB)]
    ensures EnsureOne(st, key, GIB) == (st, Returned(true))
  {
  }

  /** The store accepts both twins and places them as one. */
  lemma {:induction false} StoreTakesTwins(x: Context, sizes: seq<u64>)
    requires 0 < |sizes| < U32 && GIB <= sizes[0]
    ensures Placeable(sizes, x, Twins())
    ensures var key := KeyOf(x, Twins()[0]);
            StoreRun(sizes, x, Twins()).0.placements == map[key := KeyPlacement(key, 0, 0, GIB)]
  {
    TwinsAreSlices();
    TwinAddresses();
    var key := KeyOf(x, Twins()[0]);
    FirstTwin(x, key, sizes);
    hide KeyOf, EnsureOne, AddressesOk, SumSizes, SlicesOf;
    var st0 := Empty(FreshSegments(sizes));
    var keys, bytes := KeysOf(x, Twins()), ItemSizes(ItemsOf(Twins()));
    assert keys[0] == keys[1] == key && bytes[0] == bytes[1] == GIB;
    var st := EnsureOne(st0, key, GIB).0;
    assert EnsureAll(st0, keys, bytes, 0) == (st0, Returned(true));
    assert EnsureAll(st0, keys, bytes, 1) == EnsureOne(st0, key, GIB);
    AgainIsKnown(st, key);
    assert EnsureAll(st0, keys, bytes, 2) == EnsureOne(st, key, GIB);
  }

  lemma {:induction false} TwinAddresses()
    ensures AddressesOk(Twins())
  {
    var s := Twins();
    assert BytesBefore(s, 0) == 0 && BytesBefore(s, 1) == GIB;
    WrapSmall(FAKE_BASE);
    WrapSmall(FAKE_BASE + GIB);
    forall i | 0 <= i < |s|
      ensures AddressOk(s, i)
    {
      assert i == 0 || i == 1;
    }
  }

  /** After the first twin the first pool is full; the second twin goes to the second pool, if there is one. */
  lemma {:induction false} SecondTwin(segs: seq<Segment>)
    requires 0 < |segs| < U32 && forall g | 0 <= g < |segs| :: segs[g] == Segment(g, GIB, if g == 0 then GIB else 0)
    ensures |segs| == 1 ==> Allocate(segs, 0, GIB).0.None?
    ensures |segs| > 1 ==> Allocate(segs, 0, GIB).0 == Some(SegmentAllocation(1, 0, GIB))
  {
    assert Probe(0, 0, |segs|) == 0;
    assert !segs[0].HasRoom(GIB);
    assert FirstFit(segs, 0, GIB, 0) == FirstFit(segs, 0, GIB, 1);
    if |segs| > 1 {
      assert Wrap32(1) == 1;
      assert Probe(0, 1, |segs|) == 1;
      assert segs[1].HasRoom(GIB);
      assert FirstFit(segs, 0, GIB, 1) == Some(1);
    } else {
      assert FirstFit(segs, 0, GIB, 1) == None;
    }
  }

  /** In pools of one GiB the pass has no room for the second of two twins on one process, and spills it on more. */
  lemma {:induction false} PassSplitsTwins(n: u32)
    requires n > 0
    ensures n == 1 ==> PassRun(Uniform(n, GIB), Twins()).None?
    ensures n > 1 ==> PassRun(Uniform(n, GIB), Twins()).Some?
    ensures n > 1 ==> PassRun(Uniform(n, GIB), Twins()).value.placed == [Placement(0, 0, GIB), Placement(1, 0, GIB)]
  {
    var items := ItemsOf(Twins());
    assert items[0] == Item(0, GIB) && items[1] == Item(0, GIB);
    var segs := FreshSegments(Uniform(n, GIB));
    assert Count(segs) == n;
    assert segs[0].HasRoom(GIB);
    HomeFirst(segs, 0, GIB);
    assert RunPass(segs, items, 0) == Some(Start(segs));
    var c := RunPass(segs, items, 1).value;
    assert c.segs == Bump(segs, 0, GIB) && c.currentKey == 0 && c.selected == 0 && c.placed == [Placement(0, 0, GIB)];
    hide FirstFit, Allocate;
    SecondTwin(c.segs);
    assert SelectFor(c, 0) == c;
    assert RunPass(segs, items, 2) == PlaceSelected(c, GIB);
    if n > 1 {
      assert PlaceSelected(c, GIB).value.placed == [Placement(0, 0, GIB)] + [Placement(1, 0, GIB)];
    }
  }

  lemma {:induction false} CapacityOf(gibs: nat)
    requires gibs <= 2
    ensures Capacity(gibs * GIB) == if gibs == 0 then GIB else gibs * GIB
  {
    if gibs == 0 {
      assert Rem(1, GIB) == 1;
      WrapSmall(GIB);
    } else if gibs == 1 {
      assert Rem(GIB, GIB) == 0;
    } else {
      assert Rem(2 * GIB, GIB) == 0;
    }
  }

  /** The highest byte the store uses: one GiB in the first segment, nothing in the others. */
  function TwinPeak(g: nat): u64 {
    if g == 0 then GIB else 0
  }

  lemma {:induction false} TwinPeaks(cfg: Config, sizes: seq<u64>, g: nat)
    requires cfg.Valid() && |sizes| == cfg.processes && GIB <= sizes[0]
    ensures PeakOf(TwinPeak(g), Runs(cfg, TwinModel(), [TwinWorkload()], sizes), 1, g)
  {
    var x := ContextOf(cfg, TwinModel(), TwinWorkload());
    TwinsAreSlices();
    StoreTakesTwins(x, sizes);
    hide SlicesOf, ContextOf, StoreRun, KeyOf;
    var runs := Runs(cfg, TwinModel(), [TwinWorkload()], sizes);
    var key := KeyOf(x, Twins()[0]);
    assert runs[0] == map[key := KeyPlacement(key, 0, 0, GIB)];
    WrapSmall(GIB);
    assert key in runs[0] && runs[0][key].segmentId == 0 && End(runs[0][key]) == GIB;
    assert EndsAt(runs[0], 0, GIB);
  }

  /** Sizing accepts pools of one GiB each for the twins. */
  lemma {:induction false} TwinsAccepted(cfg: Config)
    requires cfg.Valid()
    ensures Recorded(TwinModel(), [TwinWorkload()])
    ensures Accepted(cfg, TwinModel(), [TwinWorkload()], Uniform(cfg.processes, GIB))
  {
    TwinsAreSlices();
    WrapSmall(2 * GIB);
    CapacityOf(0);
    CapacityOf(1);
    CapacityOf(2);
    var n := cfg.processes;
    var model, workloads := TwinModel(), [TwinWorkload()];
    var x := ContextOf(cfg, model, workloads[0]);
    var trial, pools := Uniform(n, 2 * GIB), Uniform(n, GIB);
    StoreTakesTwins(x, trial);
    StoreTakesTwins(x, pools);
    hide Placeable, Runs, PeakOf, SlicesOf, Capacity, SumSizes;
    assert WorkloadPlaceable(cfg, model, workloads[0], trial) && WorkloadPlaceable(cfg, model, workloads[0], pools);
    var usage := seq(n, g requires 0 <= g < n => TwinPeak(g));
    forall g | 0 <= g < n
      ensures PeakOf(usage[g], Runs(cfg, model, workloads, trial), 1, g) && pools[g] == Capacity(usage[g])
    {
      TwinPeaks(cfg, trial, g);
    }
    assert workloads[0].totalBytes == 2 * GIB;
    assert Measured(cfg, model, workloads, 2 * GIB, usage, pools);
  }

  /** Two twins of one key are one task, sent by the placement of the first. */
  lemma {:induction false} TwinTask(tasks: seq<KeyTransferTask>, starts: seq<nat>, b: Batch, base: u64)
    requires Groups(tasks, starts, b, 2) && IsPrepared(b.slices, base, Twins(), 2)
    requires b.placements == [Placement(0, 0, GIB), Placement(1, 0, GIB)] && |b.metas| > 1
    ensures |tasks| == 1 && tasks[0].segmentId == 0 && |tasks[0].descs| == 2
    ensures tasks[0].descs[0].remoteAddr == b.metas[0].poolAddr && tasks[0].descs[1].remoteAddr == b.metas[1].poolAddr
    ensures !SentWhereMeant(tasks, starts, b)
  {
    assert b.slices[0].keyIndex == 0 && b.slices[1].keyIndex == 0;
    assert GroupAt(tasks, starts, b, 0);
    KeyChanges(tasks, starts, b, 2, 0);
    assert tasks[0].descs[0] == DescAt(b, 0) && tasks[0].descs[1] == DescAt(b, 1);
    WrapSmall(b.metas[0].poolAddr);
    WrapSmall(b.metas[1].poolAddr);
    SentWhereMeantIff(tasks, starts, b);
  }

  lemma {:induction false} TwinsPlannable(n: u32, metas: seq<RankMeta>)
    requires n > 0 && |metas| == n && forall g | 0 <= g < n :: metas[g].poolSize == GIB
    ensures Plannable(Twins(), Uniform(n, GIB), metas) <==> n > 1
  {
    TwinsAreSlices();
    PassSplitsTwins(n);
    WrapSmall(GIB);
    hide PassRun, SumSizes, Wrap64;
  }

  /**
   * With a repeated active cache name sizing is not sufficient. For one key of the twin model it returns pools of one
   * GiB each. On one process planning then throws. On more it returns a single task, sent to rank 0, whose second
   * descriptor is an address in the pool of rank 1.
   */
  method RepeatedNameUndersized(cfg: Config, base: u64, metas: seq<RankMeta>, localCopy: bool)
    returns (pools: Outcome<seq<u64>>, plan: Outcome<seq<KeyTransferTask>>)
    requires cfg.Valid() && |metas| == cfg.processes && forall g | 0 <= g < |metas| :: metas[g].poolSize == GIB
    ensures pools == Returned(Uniform(cfg.processes, GIB))
    ensures plan.Returned? <==> cfg.processes > 1
    ensures plan.Returned? ==>
              && |plan.value| == 1 && plan.value[0].segmentId == 0 && |plan.value[0].descs| == 2
              && plan.value[0].descs[0].remoteAddr == metas[0].poolAddr
              && plan.value[0].descs[1].remoteAddr == metas[1].poolAddr
  {
    var model, workloads := TwinModel(), [TwinWorkload()];
    TwinsAccepted(cfg);
    TwinsAreSlices();
    PassSplitsTwins(cfg.processes);
    TwinsPlannable(cfg.processes, metas);
    hide Accepted, SlicesOf, PassRun, Recorded, TwinModel, Channels, Plannable, Groups, IsPrepared;
    pools := SizePools(cfg, model, workloads);
    ghost var b, starts;
    var put;
    put, plan, b, starts :=
      PlanTransfer(model, workloads[0], base, pools.value, metas, cfg.rank, localCopy, cfg.rank == 0);
    if plan.Returned? {
      TwinTask(plan.value, starts, b, base);
    }
  }
}
