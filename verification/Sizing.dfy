/**
 * How the benchmark sizes the rank pools: lay every workload out in equal oversized segments, take the highest
 * byte used in each, round up to whole GiB and lay everything out once more in the resulting pools.
 */
module Sizing {
  import opened Numbers
  import opened ModelConfig
  import opened SegmentManagement
  import opened Layout
  import opened PlacementKeys
  import opened KvStorage
  import opened PlacementRefinement
  import opened SlicePlans

  const GIB: u64 := 0x4000_0000

  /** The made-up local address that plans start at while pools are being sized. */
  const FAKE_BASE: u64 := 0x1_0000_0000

  datatype Workload = Workload(tokens: u64, keyCount: u64, maxSliceBytes: u64, sliceCount: u64, totalBytes: u64)

  datatype Config = Config(processes: u32, rank: u32) {
    predicate Valid() {
      rank < processes
    }
  }

  // ---------------------------------------------------------------- rounding up

  /** AlignAllocSizeUp. */
  function AlignUp(n: u64, align: u64): u64 {
    if align == 0 then n
    else if Rem(n, align) == 0 then n
    else Wrap64(n + (align - Rem(n, align)))
  }

  /** The least multiple of the alignment that is no smaller than n, truncated to 64 bits. */
  lemma {:induction false} AlignUpMeans(n: u64, align: u64) returns (q: nat)
    ensures align > 0 ==> (q - 1) * align < n <= q * align && AlignUp(n, align) == Wrap64(q * align)
    ensures align == 0 ==> AlignUp(n, align) == n
  {
    if align == 0 {
      return 0;
    }
    hide Quotient, Rem;
    QuotientAndRem(n, align);
    var p := Quotient(n, align);
    Distribute(p, align);
    WrapSmall(n);
    q := if Rem(n, align) == 0 then p else p + 1;
    assert (q - 1) * align == q * align - align;
  }

  /** Rounded up to a multiple of 2^30, or 0 where that does not fit into 64 bits. */
  predicate IsRoundedUp(size: u64, need: u64) {
    if need <= 0xFFFF_FFFF_C000_0000 then size % 0x4000_0000 == 0 && need <= size < need + 0x4000_0000 else size == 0
  }

  /** Up to 2^64 - 2^30 bytes round up to the next multiple of 2^30; anything above rounds to 0. */
  lemma {:induction false} GibRounding(n: u64)
    ensures IsRoundedUp(AlignUp(n, GIB), n)
    ensures n <= U64 - GIB ==> n <= AlignUp(n, GIB) <= U64 - GIB
    ensures n > U64 - GIB ==> AlignUp(n, GIB) == 0
    ensures n > 0 && n <= U64 - GIB ==> AlignUp(n, GIB) > 0
  {
    var q := AlignUpMeans(n, GIB);
    if n <= U64 - GIB {
      assert Wrap64(q * GIB) == q * GIB;
      assert (q - 1) * GIB == q * GIB - GIB;
      ModUnique(q * GIB, 0x4000_0000, q, 0);
    } else {
      assert q * GIB == U64;
      assert Wrap64(U64) == Wrap64(0);
    }
  }

  // ---------------------------------------------------------------- laying one workload out

  function PlanKeys(plan: seq<KvSliceEntry>): (r: seq<string>)
    ensures |r| == |plan|
    ensures forall i {:trigger r[i]} | 0 <= i < |r| :: r[i] == plan[i].placementKey
  {
    seq(|plan|, i requires 0 <= i < |plan| => plan[i].placementKey)
  }

  function PlanBuffers(plan: seq<KvSliceEntry>): (r: seq<BufferView>)
    ensures |r| == |plan|
    ensures forall i {:trigger r[i]} | 0 <= i < |r| :: r[i] == plan[i].buffer
  {
    seq(|plan|, i requires 0 <= i < |plan| => plan[i].buffer)
  }

  /** PlaceSlicePlan. */
  method PlaceSlicePlan(store: KvStore, plan: seq<KvSliceEntry>) returns (r: Outcome<()>)
    modifies store, store.manager
    ensures r.Returned? ==>
              && InputOk(PlanKeys(plan), PlanBuffers(plan))
              && (store.View(), Returned(true))
                 == EnsureAll(old(store.View()), PlanKeys(plan), SizesOf(PlanBuffers(plan)), |plan|)
    ensures r.Threw? ==>
              || !InputOk(PlanKeys(plan), PlanBuffers(plan))
              || EnsureAll(old(store.View()), PlanKeys(plan), SizesOf(PlanBuffers(plan)), |plan|).1 != Returned(true)
  {
    var keys: seq<string>, buffers: seq<BufferView> := [], [];
    for i := 0 to |plan|
      invariant |keys| == |buffers| == i
      invariant forall j | 0 <= j < i :: keys[j] == plan[j].placementKey && buffers[j] == plan[j].buffer
    {
      keys, buffers := keys + [plan[i].placementKey], buffers + [plan[i].buffer];
    }
    assert keys == PlanKeys(plan) && buffers == PlanBuffers(plan);
    var placed := store.EnsurePlacements(keys, buffers);
    if placed.Threw? {
      return Threw(placed.what);
    }
    if !placed.value {
      return Threw("failed to place KV cache slices");
    }
    return Returned(());
  }

  /** There are slices, and no slice of the sizing plan lands on address 0. */
  ghost predicate AddressesOk(s: seq<KvCacheSlice>) {
    s != [] && forall i | 0 <= i < |s| :: AddressOk(s, i)
  }

  predicate AddressOk(s: seq<KvCacheSlice>, i: nat)
    requires i < |s|
  {
    s[i].sizeBytes > 0 && Wrap64(FAKE_BASE + BytesBefore(s, i)) != 0
  }

  lemma {:induction false} PlanAsksForKeys(plan: seq<KvSliceEntry>, x: Context, s: seq<KvCacheSlice>)
    requires IsPlan(plan, x, FAKE_BASE, s, |s|)
    ensures PlanKeys(plan) == KeysOf(x, s)
  {
    forall i | 0 <= i < |s|
      ensures plan[i].placementKey == KeyOf(x, s[i])
    {
      assert plan[i] == PlanEntry(x, FAKE_BASE, s, i);
    }
  }

  lemma {:induction false} PlanBufferAt(plan: seq<KvSliceEntry>, x: Context, s: seq<KvCacheSlice>, i: nat)
    requires IsPlan(plan, x, FAKE_BASE, s, |s|) && i < |s|
    ensures plan[i].buffer.size == s[i].sizeBytes
    ensures plan[i].buffer.addr != 0 && plan[i].buffer.size != 0 <==> AddressOk(s, i)
  {
    assert plan[i] == PlanEntry(x, FAKE_BASE, s, i);
  }

  lemma {:induction false} PlanAsksForBuffers(plan: seq<KvSliceEntry>, x: Context, s: seq<KvCacheSlice>)
    requires IsPlan(plan, x, FAKE_BASE, s, |s|)
    ensures SizesOf(PlanBuffers(plan)) == ItemSizes(ItemsOf(s))
    ensures InputOk(PlanKeys(plan), PlanBuffers(plan)) <==> AddressesOk(s)
  {
    assert |plan| == |s|;
    hide IsPlan, AddressOk;
    forall i | 0 <= i < |s|
      ensures PlanBuffers(plan)[i].size == s[i].sizeBytes
      ensures PlanBuffers(plan)[i].addr != 0 && PlanBuffers(plan)[i].size != 0 <==> AddressOk(s, i)
    {
      PlanBufferAt(plan, x, s, i);
    }
  }

  /** What the store is asked to place is the slices themselves. */
  lemma {:induction false} PlanAsksForSlices(plan: seq<KvSliceEntry>, x: Context, s: seq<KvCacheSlice>)
    requires IsPlan(plan, x, FAKE_BASE, s, |s|)
    ensures PlanKeys(plan) == KeysOf(x, s) && SizesOf(PlanBuffers(plan)) == ItemSizes(ItemsOf(s))
    ensures InputOk(PlanKeys(plan), PlanBuffers(plan)) <==> AddressesOk(s)
  {
    hide *;
    PlanAsksForKeys(plan, x, s);
    PlanAsksForBuffers(plan, x, s);
  }

  /** The store can be asked to lay the slices out in segments of these sizes, and does. */
  ghost predicate Placeable(sizes: seq<u64>, x: Context, s: seq<KvCacheSlice>)
    requires |sizes| < U32
  {
    SumSizes(s) < U64 && AddressesOk(s) && StoreAccepts(sizes, x, s)
  }

  function ContextOf(cfg: Config, model: ModelSpec, w: Workload): Context {
    Context(cfg.rank, w.tokens, model.IsShared())
  }

  function SlicesOf(model: ModelSpec, w: Workload): seq<KvCacheSlice> {
    SlicesUpTo(Channels(model), w.keyCount)
  }

  /** Place a plan in a new store over segments of the given sizes. */
  method PlaceInNewStore(plan: seq<KvSliceEntry>, sizes: seq<u64>, ghost x: Context, ghost s: seq<KvCacheSlice>)
    returns (r: Outcome<map<string, KeyPlacement>>)
    requires |sizes| < U32 && IsPlan(plan, x, FAKE_BASE, s, |s|)
    ensures r.Returned? <==> AddressesOk(s) && StoreAccepts(sizes, x, s)
    ensures r.Returned? ==> r.value == StoreRun(sizes, x, s).0.placements
  {
    var manager := BuildFromPoolSizes(sizes);
    var store := new KvStore(manager);
    PlanAsksForSlices(plan, x, s);
    var placed := PlaceSlicePlan(store, plan);
    if placed.Threw? {
      return Threw(placed.what);
    }
    return Returned(store.placements);
  }

  /** Build the plan of a workload and place it in a new store over segments of the given sizes. */
  method LayOut(cfg: Config, model: ModelSpec, w: Workload, sizes: seq<u64>)
    returns (r: Outcome<map<string, KeyPlacement>>)
    requires |sizes| < U32
    ensures r.Returned? <==> Placeable(sizes, ContextOf(cfg, model, w), SlicesOf(model, w))
    ensures r.Returned? ==> r.value == StoreRun(sizes, ContextOf(cfg, model, w), SlicesOf(model, w)).0.placements
  {
    var x := ContextOf(cfg, model, w);
    var plan := BuildWorkloadSlicePlan(FAKE_BASE, x, w.keyCount, model);
    if plan.Threw? {
      return Threw(plan.what);
    }
    r := PlaceInNewStore(plan.value, sizes, x, SlicesOf(model, w));
  }

  // ---------------------------------------------------------------- the highest byte used

  /** Where a placement ends, in 64-bit arithmetic. */
  function End(p: KeyPlacement): u64 {
    Wrap64(p.offset + p.size)
  }

  /** A store whose segments have these sizes and whose placements lie in their filled parts. */
  ghost predicate Inside(st: StoreState, sizes: seq<u64>) {
    && SameShape(st.segs, sizes)
    && forall key | key in st.placements :: InsideSegment(st.placements[key], st.segs)
  }

  predicate InsideSegment(p: KeyPlacement, segs: seq<Segment>) {
    p.segmentId < |segs| && p.offset + p.size <= segs[p.segmentId].used
  }

  lemma {:induction false} AllocateStaysInside(rs: StoreState, sizes: seq<u64>, key: string, seg: u32, size: u64)
    requires Inside(rs, sizes)
    ensures Inside(AllocateInto(rs, key, seg, size).0, sizes)
  {
    AllocateShape(rs.segs, sizes, seg, size);
    var after := AllocateInto(rs, key, seg, size).0;
    forall k | k in after.placements
      ensures InsideSegment(after.placements[k], after.segs)
    {
      assert k in rs.placements ==> InsideSegment(rs.placements[k], rs.segs);
    }
  }

  /** Whatever is asked of it, a store keeps its placements inside its segments. */
  lemma {:induction false} StoreStaysInside(sizes: seq<u64>, keys: seq<string>, request: seq<u64>, n: nat)
    requires |sizes| < U32 && n <= |keys| == |request|
    ensures Inside(EnsureAll(Empty(FreshSegments(sizes)), keys, request, n).0, sizes)
  {
    if n > 0 {
      StoreStaysInside(sizes, keys, request, n - 1);
      var st := EnsureAll(Empty(FreshSegments(sizes)), keys, request, n - 1).0;
      OneStaysInside(st, sizes, keys[n - 1], request[n - 1]);
    }
  }

  lemma {:induction false} OneStaysInside(st: StoreState, sizes: seq<u64>, key: string, size: u64)
    requires Inside(st, sizes)
    ensures Inside(EnsureOne(st, key, size).0, sizes)
  {
    var g := ExtractKeyPlacementGroupKey(key);
    if key !in st.placements && Count(st.segs) != 0 && g.Returned? {
      var (rs, seg) := Resolve(st, g.value);
      AllocateStaysInside(rs, sizes, key, seg, size);
    }
  }

  /** Some placement in segment g ends at e. */
  ghost predicate EndsAt(run: map<string, KeyPlacement>, g: nat, e: nat) {
    exists key :: key in run && run[key].segmentId == g && End(run[key]) == e
  }

  /** m is the highest end in segment g over the first n layouts, or 0 when there is none. */
  ghost predicate PeakOf(m: nat, runs: seq<map<string, KeyPlacement>>, n: nat, g: nat)
    requires n <= |runs|
  {
    && (forall i, e: nat | 0 <= i < n && EndsAt(runs[i], g, e) :: e <= m)
    && (m == 0 || exists i :: 0 <= i < n && EndsAt(runs[i], g, m))
  }

  /** m' is m raised to the highest end in segment g of one more layout. */
  ghost predicate Raised(m: nat, m': nat, run: map<string, KeyPlacement>, g: nat) {
    && m <= m' && (forall e: nat | EndsAt(run, g, e) :: e <= m')
    && (m' == m || EndsAt(run, g, m'))
  }

  lemma {:induction false} PeakRaised(m: nat, m': nat, runs: seq<map<string, KeyPlacement>>, n: nat, g: nat)
    requires n < |runs| && PeakOf(m, runs, n, g) && Raised(m, m', runs[n], g)
    ensures PeakOf(m', runs, n + 1, g)
  {
  }

  lemma {:induction false} RaisedByOne(u0: seq<u64>, u: seq<u64>, u': seq<u64>, run: map<string, KeyPlacement>,
                                       done: map<string, KeyPlacement>, key: string)
    requires |u0| == |u| && key in run && key !in done && run[key].segmentId < |u|
    requires forall k | k in done :: k in run && run[k] == done[k]
    requires forall g | 0 <= g < |u| :: Raised(u0[g], u[g], done, g)
    requires u' == u[run[key].segmentId := Max(u[run[key].segmentId], End(run[key]))]
    ensures forall g | 0 <= g < |u| :: Raised(u0[g], u'[g], done[key := run[key]], g)
  {
    var done' := done[key := run[key]];
    forall g | 0 <= g < |u|
      ensures Raised(u0[g], u'[g], done', g)
    {
      forall e: nat | EndsAt(done', g, e)
        ensures e <= u'[g]
      {
        var k :| k in done' && done'[k].segmentId == g && End(done'[k]) == e;
        assert k != key ==> k in done && EndsAt(done, g, e);
      }
      if u'[g] != u0[g] {
        if g == run[key].segmentId && u'[g] == End(run[key]) {
          assert key in done';
        } else {
          assert EndsAt(done, g, u[g]);
          var k :| k in done && done[k].segmentId == g && End(done[k]) == u[g];
          assert k in done' && done'[k] == done[k];
        }
      }
    }
  }

  /** The inner loop of ComputeMaxSegmentUsage: raise the peaks by the placements of one store. */
  method RaisePeaks(usage: seq<u64>, run: map<string, KeyPlacement>) returns (r: Outcome<seq<u64>>)
    ensures r.Returned? <==> forall key | key in run :: run[key].segmentId < |usage|
    ensures r.Returned? ==> |r.value| == |usage| && forall g | 0 <= g < |usage| :: Raised(usage[g], r.value[g], run, g)
  {
    var out: seq<u64> := usage;
    var todo := run.Keys;
    ghost var done: map<string, KeyPlacement> := map[];
    while todo != {}
      invariant todo <= run.Keys
      invariant done.Keys == run.Keys - todo && forall k | k in done :: done[k] == run[k]
      invariant |out| == |usage| && forall g | 0 <= g < |usage| :: Raised(usage[g], out[g], done, g)
      invariant forall k | k in done :: run[k].segmentId < |usage|
    {
      var key :| key in todo;
      todo := todo - {key};
      var p := run[key];
      if p.segmentId >= |out| {
        return Threw("invalid placement segment id");
      }
      var raised := out[p.segmentId := Max(out[p.segmentId], End(p))];
      RaisedByOne(usage, out, raised, run, done, key);
      out := raised;
      done := done[key := p];
    }
    assert done == run;
    return Returned(out);
  }

  /** The layouts of all workloads over segments of the given sizes. */
  ghost function Runs(cfg: Config, model: ModelSpec, workloads: seq<Workload>, sizes: seq<u64>)
    : (r: seq<map<string, KeyPlacement>>)
    requires |sizes| < U32
    ensures |r| == |workloads|
    ensures forall i {:trigger r[i]} | 0 <= i < |r| ::
              r[i] == StoreRun(sizes, ContextOf(cfg, model, workloads[i]), SlicesOf(model, workloads[i])).0.placements
  {
    seq(|workloads|, i requires 0 <= i < |workloads| =>
      StoreRun(sizes, ContextOf(cfg, model, workloads[i]), SlicesOf(model, workloads[i])).0.placements)
  }

  ghost predicate WorkloadPlaceable(cfg: Config, model: ModelSpec, w: Workload, sizes: seq<u64>)
    requires |sizes| < U32
  {
    Placeable(sizes, ContextOf(cfg, model, w), SlicesOf(model, w))
  }

  function Uniform(n: u32, size: u64): (r: seq<u64>)
    ensures |r| == n
    ensures forall g {:trigger r[g]} | 0 <= g < n :: r[g] == size
  {
    seq(n, g => size)
  }

  lemma {:induction false} RunInside(cfg: Config, model: ModelSpec, w: Workload, sizes: seq<u64>)
    requires |sizes| < U32
    ensures Inside(StoreRun(sizes, ContextOf(cfg, model, w), SlicesOf(model, w)).0, sizes)
  {
    var x, s := ContextOf(cfg, model, w), SlicesOf(model, w);
    StoreStaysInside(sizes, KeysOf(x, s), ItemSizes(ItemsOf(s)), |s|);
  }

  /** The body of the outer loop of ComputeMaxSegmentUsage; no store hands out an invalid segment id. */
  method RaiseByWorkload(cfg: Config, model: ModelSpec, w: Workload, sizes: seq<u64>, usage: seq<u64>)
    returns (r: Outcome<seq<u64>>)
    requires |usage| == |sizes| < U32
    ensures r.Returned? <==> WorkloadPlaceable(cfg, model, w, sizes)
    ensures r.Returned? ==>
              && |r.value| == |usage|
              && var run := StoreRun(sizes, ContextOf(cfg, model, w), SlicesOf(model, w)).0.placements;
                 forall g | 0 <= g < |usage| :: Raised(usage[g], r.value[g], run, g)
  {
    var run := LayOut(cfg, model, w, sizes);
    if run.Threw? {
      return Threw(run.what);
    }
    RunInside(cfg, model, w, sizes);
    r := RaisePeaks(usage, run.value);
  }

  /** ComputeMaxSegmentUsage: per segment the highest end of any placement of any workload. */
  method ComputeMaxSegmentUsage(cfg: Config, model: ModelSpec, workloads: seq<Workload>, capacity: u64)
    returns (r: Outcome<seq<u64>>)
    ensures r.Returned? <==>
              forall i | 0 <= i < |workloads| ::
                WorkloadPlaceable(cfg, model, workloads[i], Uniform(cfg.processes, capacity))
    ensures r.Returned? ==>
              && |r.value| == cfg.processes
              && forall g | 0 <= g < cfg.processes ::
                   PeakOf(r.value[g], Runs(cfg, model, workloads, Uniform(cfg.processes, capacity)), |workloads|, g)
  {
    hide WorkloadPlaceable, StoreRun;
    var usage := Uniform(cfg.processes, 0);
    var sizes := Uniform(cfg.processes, capacity);
    ghost var runs := Runs(cfg, model, workloads, sizes);
    for i := 0 to |workloads|
      invariant forall j | 0 <= j < i :: WorkloadPlaceable(cfg, model, workloads[j], sizes)
      invariant |usage| == cfg.processes && forall g | 0 <= g < cfg.processes :: PeakOf(usage[g], runs, i, g)
    {
      var raised := RaiseByWorkload(cfg, model, workloads[i], sizes, usage);
      if raised.Threw? {
        return raised;
      }
      ghost var run := runs[i];
      forall g | 0 <= g < cfg.processes
        ensures PeakOf(raised.value[g], runs, i + 1, g)
      {
        PeakRaised(usage[g], raised.value[g], runs, i, g);
      }
      usage := raised.value;
    }
    return Returned(usage);
  }

  // ---------------------------------------------------------------- peaks of reference layouts

  ghost function ItemLists(model: ModelSpec, workloads: seq<Workload>): (r: seq<seq<Item>>)
    ensures |r| == |workloads|
    ensures forall i {:trigger r[i]} | 0 <= i < |r| :: r[i] == ItemsOf(SlicesOf(model, workloads[i]))
  {
    seq(|workloads|, i requires 0 <= i < |workloads| => ItemsOf(SlicesOf(model, workloads[i])))
  }

  /** The most bytes any of the first k item lists puts into segment g of n when every item goes home. */
  ghost function PeakUsed(lists: seq<seq<Item>>, k: nat, n: nat, g: nat): nat
    requires k <= |lists| && n > 0
  {
    if k == 0 then 0 else Max(PeakUsed(lists, k - 1, n, g), UsedIn(lists[k - 1], |lists[k - 1]|, n, g))
  }

  lemma {:induction false} PeakUsedBounds(lists: seq<seq<Item>>, k: nat, n: nat, g: nat, i: nat)
    requires i < k <= |lists| && n > 0
    ensures UsedIn(lists[i], |lists[i]|, n, g) <= PeakUsed(lists, k, n, g)
    decreases k
  {
    if i < k - 1 {
      PeakUsedBounds(lists, k - 1, n, g, i);
    }
  }

  lemma {:induction false} PeakUsedAttained(lists: seq<seq<Item>>, k: nat, n: nat, g: nat)
    requires k <= |lists| && n > 0 && PeakUsed(lists, k, n, g) > 0
    ensures exists i :: 0 <= i < k && UsedIn(lists[i], |lists[i]|, n, g) == PeakUsed(lists, k, n, g)
  {
    if PeakUsed(lists, k, n, g) != UsedIn(lists[k - 1], |lists[k - 1]|, n, g) {
      PeakUsedAttained(lists, k - 1, n, g);
    }
  }

  /** In the reference layout some item ends where the bytes of its segment end. */
  lemma {:induction false} LastEnds(items: seq<Item>, i: nat, n: nat, g: nat) returns (j: nat)
    requires n > 0 && i <= |items| && UsedIn(items, i, n, g) > 0
    ensures j < i && Ideal(items, n, j).segment == g
    ensures Ideal(items, n, j).offset + Ideal(items, n, j).size == UsedIn(items, i, n, g)
  {
    if Home(items[i - 1].key, n) == g {
      j := i - 1;
    } else {
      j := LastEnds(items, i - 1, n, g);
    }
  }

  /** Every placement of the store is the reference placement of one of the slices, and the other way round. */
  ghost predicate PlacedIdeally(run: map<string, KeyPlacement>, keys: seq<string>, items: seq<Item>, n: nat)
    requires n > 0 && |keys| == |items|
  {
    && (forall i | 0 <= i < |keys| :: keys[i] in run && PlaceOf(run[keys[i]]) == Ideal(items, n, i))
    && (forall key | key in run :: exists i :: 0 <= i < |keys| && keys[i] == key)
  }

  lemma {:induction false} IdealPeak(run: map<string, KeyPlacement>, keys: seq<string>, items: seq<Item>, n: nat,
                                     g: nat, e: nat)
    requires n > 0 && |keys| == |items| && PlacedIdeally(run, keys, items, n)
    requires UsedIn(items, |items|, n, g) < U64
    ensures EndsAt(run, g, e) ==> e <= UsedIn(items, |items|, n, g)
    ensures UsedIn(items, |items|, n, g) > 0 ==> EndsAt(run, g, UsedIn(items, |items|, n, g))
  {
    var top := UsedIn(items, |items|, n, g);
    if EndsAt(run, g, e) {
      var key :| key in run && run[key].segmentId == g && End(run[key]) == e;
      var i :| 0 <= i < |keys| && keys[i] == key;
      assert PlaceOf(run[keys[i]]) == Ideal(items, n, i);
      IdealEnd(items, n, i);
      WrapSmall(run[key].offset + run[key].size);
    }
    if top > 0 {
      var j := LastEnds(items, |items|, n, g);
      assert keys[j] in run && PlaceOf(run[keys[j]]) == Ideal(items, n, j);
      WrapSmall(top);
    }
  }

  /** The measured peak is the peak of the reference layouts. */
  lemma {:induction false} PeakIsUsed(m: nat, runs: seq<map<string, KeyPlacement>>, lists: seq<seq<Item>>, n: nat,
                                      g: nat)
    requires n > 0 && |runs| == |lists| && PeakOf(m, runs, |runs|, g)
    requires forall i, e: nat | 0 <= i < |runs| && EndsAt(runs[i], g, e) :: e <= UsedIn(lists[i], |lists[i]|, n, g)
    requires forall i | 0 <= i < |runs| && UsedIn(lists[i], |lists[i]|, n, g) > 0 ::
               EndsAt(runs[i], g, UsedIn(lists[i], |lists[i]|, n, g))
    ensures m == PeakUsed(lists, |lists|, n, g)
  {
    var p := PeakUsed(lists, |lists|, n, g);
    if m > 0 {
      var i :| 0 <= i < |runs| && EndsAt(runs[i], g, m);
      PeakUsedBounds(lists, |lists|, n, g, i);
    }
    if p > 0 {
      PeakUsedAttained(lists, |lists|, n, g);
      var i :| 0 <= i < |lists| && UsedIn(lists[i], |lists[i]|, n, g) == p;
      assert EndsAt(runs[i], g, p);
    }
  }

  // ---------------------------------------------------------------- when a workload can be laid out

  lemma {:induction false} UsedAtMostTotal(s: seq<KvCacheSlice>, i: nat, n: nat, g: nat)
    requires n > 0 && i <= |s|
    ensures UsedIn(ItemsOf(s), i, n, g) <= BytesBefore(s, i)
  {
    if i > 0 {
      UsedAtMostTotal(s, i - 1, n, g);
      assert ItemsOf(s)[i - 1] == Item(s[i - 1].keyIndex, s[i - 1].sizeBytes);
    }
  }

  /** Distinct slices that fit are placed by the store as in the reference layout. */
  lemma {:induction false} FittingStoreIsIdeal(sizes: seq<u64>, x: Context, s: seq<KvCacheSlice>)
    requires 0 < |sizes| < U32 && DistinctIds(s) && KeysInOrder(ItemsOf(s)) && Fits(ItemsOf(s), sizes)
    ensures StoreAccepts(sizes, x, s)
    ensures PlacedIdeally(StoreRun(sizes, x, s).0.placements, KeysOf(x, s), ItemsOf(s), |sizes|)
  {
    hide *;
    var p := PassRun(sizes, s);
    FittingPass(sizes, s);
    DistinctAgree(sizes, x, s);
    IdeallyPlaced(StoreRun(sizes, x, s).0.placements, p.value.placed, KeysOf(x, s), ItemsOf(s), |sizes|);
  }

  lemma {:induction false} FittingPass(sizes: seq<u64>, s: seq<KvCacheSlice>)
    requires 0 < |sizes| < U32 && KeysInOrder(ItemsOf(s)) && Fits(ItemsOf(s), sizes)
    ensures PassRun(sizes, s).Some? && |PassRun(sizes, s).value.placed| == |s|
    ensures forall i | 0 <= i < |s| :: PassRun(sizes, s).value.placed[i] == Ideal(ItemsOf(s), |sizes|, i)
  {
    hide *;
    assert PassRun(sizes, s) == RunPass(FreshSegments(sizes), ItemsOf(s), |s|) by {
      PassRunIs(sizes, s);
    }
    NoSpillIffFits(sizes, ItemsOf(s));
  }

  lemma {:induction false} PassRunIs(sizes: seq<u64>, s: seq<KvCacheSlice>)
    requires 0 < |sizes| < U32
    ensures Count(FreshSegments(sizes)) > 0
    ensures PassRun(sizes, s) == RunPass(FreshSegments(sizes), ItemsOf(s), |s|)
  {
  }

  lemma {:induction false} IdeallyPlaced(run: map<string, KeyPlacement>, placed: seq<Placement>, keys: seq<string>,
                                         items: seq<Item>, n: nat)
    requires n > 0 && |keys| == |items| && SamePlacements(run, placed, keys, |keys|)
    requires |placed| == |items| && forall i | 0 <= i < |items| :: placed[i] == Ideal(items, n, i)
    ensures PlacedIdeally(run, keys, items, n)
  {
    forall i | 0 <= i < |keys|
      ensures keys[i] in run && PlaceOf(run[keys[i]]) == Ideal(items, n, i)
    {
      assert SamePlace(run, placed, keys, i);
    }
  }
}
