/**
 * The pieces together: the pools, tasks and buffers computed for a shared model make a valid system, so every run of
 * the benchmark on it copies rank 0's bytes to every rank.
 */
module BenchmarkRun {
  import opened Numbers
  import opened ModelConfig
  import opened Layout
  import opened PlacementRefinement
  import opened Sizing
  import opened PoolSizing
  import opened Transfers
  import opened ByteMoves
  import opened TransferPlan
  import opened Stages
  import opened KvSystem
  import opened KvProgress
  import opened KvHistory

  /** Where the bytes of a workload go in the reference layout over n pools. */
  ghost function ByteMap(s: seq<KvCacheSlice>, n: nat): (r: seq<ByteRef>)
    requires n > 0
    ensures |r| == SumSizes(s)
    ensures forall a {:trigger r[a]} | 0 <= a < |r| :: r[a] == ByteAt(s, n, a)
  {
    seq(SumSizes(s), a requires 0 <= a < SumSizes(s) => ByteAt(s, n, a))
  }

  /** How many tasks a workload has: its keys with slices are 0, 1, ... without a gap. */
  function TaskCount(s: seq<KvCacheSlice>): nat {
    if s == [] then 0 else s[|s| - 1].keyIndex + 1
  }

  /** The batch built for a workload has that many tasks. */
  lemma {:induction false} TaskCountIs(tasks: seq<KeyTransferTask>, starts: seq<nat>, b: Batch, s: seq<KvCacheSlice>,
                                       base: u64, pools: seq<u64>)
    requires Placed(b, s, base, pools) && Groups(tasks, starts, b, |s|)
    ensures |tasks| == TaskCount(s)
  {
    assert Ordered(s);
    PlacedKeys(b, s, base, pools);
    hide Placed, InPool, KeysInOrder, Home, DescAt;
    assert |tasks| > 0 ==> GroupAt(tasks, starts, b, 0);
    if s != [] {
      var i := |s| - 1;
      TaskOfSlice(tasks, starts, b, s, i, |tasks|);
      var t := |tasks| - 1;
      assert GroupAt(tasks, starts, b, t);
      TaskKey(tasks, starts, b, s, t);
      assert b.slices[i].keyIndex == tasks[t].keyIndex;
    }
  }

  ghost function Layouts(model: ModelSpec, workloads: seq<Workload>, n: nat): (r: seq<seq<ByteRef>>)
    requires n > 0
    ensures |r| == |workloads|
    ensures forall w {:trigger r[w]} | 0 <= w < |r| :: r[w] == ByteMap(SlicesOf(model, workloads[w]), n)
  {
    seq(|workloads|, w requires 0 <= w < |workloads| => ByteMap(SlicesOf(model, workloads[w]), n))
  }

  ghost function TaskCounts(model: ModelSpec, workloads: seq<Workload>): (r: seq<nat>)
    ensures |r| == |workloads|
    ensures forall w {:trigger r[w]} | 0 <= w < |r| :: r[w] == TaskCount(SlicesOf(model, workloads[w]))
  {
    seq(|workloads|, w requires 0 <= w < |workloads| => TaskCount(SlicesOf(model, workloads[w])))
  }

  /** The system that a benchmark of the given workloads is. */
  ghost function ParamsOf(model: ModelSpec, workloads: seq<Workload>, pools: seq<u64>, rounds: nat, script: seq<Stage>,
                          data: seq<byte>): Params
    requires |pools| > 0
  {
    Params(|pools|, Schedule(|workloads|, rounds), script, model.IsShared(), Layouts(model, workloads, |pools|),
           TaskCounts(model, workloads), pools, data)
  }

  lemma {:induction false} LayoutIsValid(s: seq<KvCacheSlice>, pools: seq<u64>, localSize: nat)
    requires |pools| > 0 && Ordered(s) && s != [] && Fits(ItemsOf(s), pools) && SumSizes(s) <= localSize
    ensures ValidLayout(ByteMap(s, |pools|), TaskCount(s), pools, localSize)
  {
    hide Fits, ByteAt, SumSizes, KeysInOrder, ItemsOf;
    var layout := ByteMap(s, |pools|);
    forall a | 0 <= a < |layout|
      ensures layout[a].task < TaskCount(s) && layout[a].segment < |pools|
              && layout[a].offset < pools[layout[a].segment]
    {
      ByteInPool(s, pools, a);
      ByteTask(s, |pools|, a);
    }
    forall a, b | 0 <= a < b < |layout|
      ensures !SamePoolByte(layout[a], layout[b])
    {
      BytesApart(s, |pools|, a, b);
    }
  }

  lemma {:induction false} ByteTask(s: seq<KvCacheSlice>, n: nat, a: nat)
    requires n > 0 && Ordered(s) && a < SumSizes(s)
    ensures ByteAt(s, n, a).task < TaskCount(s)
  {
    var i := SliceAt(s, |s|, a);
    KeysRise(ItemsOf(s), i, |s| - 1);
    assert ItemsOf(s)[i].key == s[i].keyIndex && ItemsOf(s)[|s| - 1].key == s[|s| - 1].keyIndex;
  }

  /** The pools are what sizing returned, the barriers those of the run, and the local buffers hold every workload. */
  ghost predicate Prepared(model: ModelSpec, workloads: seq<Workload>, pools: seq<u64>, rounds: nat, script: seq<Stage>,
                           data: seq<byte>) {
    && |pools| > 0 && SizedPools(pools, model, workloads) && IsScript(Schedule(|workloads|, rounds), script)
    && forall w | 0 <= w < |workloads| :: SumSizes(SlicesOf(model, workloads[w])) <= |data|
  }

  /** All ranks get a valid system from the sizing computation. */
  lemma {:induction false} SizedIsValid(model: ModelSpec, workloads: seq<Workload>, pools: seq<u64>, rounds: nat,
                                        script: seq<Stage>, data: seq<byte>)
    requires Prepared(model, workloads, pools, rounds, script, data)
    ensures Valid(ParamsOf(model, workloads, pools, rounds, script, data))
  {
    hide IsScript, SlicesOf, ValidLayout, SumSizes, SizedPools, Ordered, Fits, TaskCount;
    forall w | 0 <= w < |workloads|
      ensures ValidLayout(Layouts(model, workloads, |pools|)[w], TaskCounts(model, workloads)[w], pools, |data|)
    {
      assert SizedFor(pools, model, workloads, workloads[w]);
      SizedNeverSpills(pools, model, workloads, workloads[w]);
      SizedHasSlices(pools, model, workloads, workloads[w]);
      LayoutIsValid(SlicesOf(model, workloads[w]), pools, |data|);
    }
  }

  lemma {:induction false} SizedHasSlices(pools: seq<u64>, model: ModelSpec, workloads: seq<Workload>, w: Workload)
    requires SizedFor(pools, model, workloads, w)
    ensures SlicesOf(model, w) != []
  {
    hide PoolSizes, PeakUsed, SlicesOf;
    var i :| 0 <= i < |workloads| && workloads[i] == w;
    assert Sizable(SlicesOf(model, workloads[i]));
  }

  /** The local buffer holds every workload exactly when the configured minimum leaves room for rounding up. */
  lemma {:induction false} LocalBufferHolds(model: ModelSpec, workloads: seq<Workload>, m: u64, localMin: u64)
    requires AllSizable(model, workloads) && Recorded(model, workloads) && IsMaxTotal(m, workloads) && workloads != []
    ensures (forall w | 0 <= w < |workloads| ::
              SumSizes(SlicesOf(model, workloads[w])) <= AlignUp(Max(m, localMin), GIB))
            <==> localMin <= U64 - GIB
  {
    hide SlicesOf, SumSizes, AlignUp, StartsClear;
    forall w | 0 <= w < |workloads|
      ensures 0 < SumSizes(SlicesOf(model, workloads[w])) == workloads[w].totalBytes <= m && m <= U64 - GIB
    {
      assert Sizable(SlicesOf(model, workloads[w]));
      WrapSmall(SumSizes(SlicesOf(model, workloads[w])));
      SomeBytes(model, workloads[w]);
      if m > 0 {
        var i :| 0 <= i < |workloads| && workloads[i].totalBytes == m;
        assert Sizable(SlicesOf(model, workloads[i]));
        WrapSmall(SumSizes(SlicesOf(model, workloads[i])));
      }
    }
    GibRounding(Max(m, localMin));
    assert SumSizes(SlicesOf(model, workloads[0])) > 0;
  }

  lemma {:induction false} SomeBytes(model: ModelSpec, w: Workload)
    requires SlicesOf(model, w) != []
    ensures SumSizes(SlicesOf(model, w)) > 0
  {
    var s := SlicesOf(model, w);
    SlicesConsecutive(Channels(model), w.keyCount);
    assert s[|s| - 1].sizeBytes > 0;
  }

  /** The system of a prepared benchmark. */
  ghost function SystemOf(model: ModelSpec, workloads: seq<Workload>, pools: seq<u64>, rounds: nat, script: seq<Stage>,
                          data: seq<byte>): (p: Params)
    requires Prepared(model, workloads, pools, rounds, script, data)
    ensures Valid(p)
  {
    SizedIsValid(model, workloads, pools, rounds, script, data);
    ParamsOf(model, workloads, pools, rounds, script, data)
  }

  /** What RunKvBenchParsed settles before the ranks start: workloads, pools, barriers and the local buffer size. */
  datatype Setup = Setup(workloads: seq<Workload>, pools: seq<u64>, script: seq<Stage>, localSize: u64)

  /** The local buffer: the next multiple of a GiB that holds every workload and the configured minimum. */
  ghost predicate IsLocalSize(size: u64, workloads: seq<Workload>, localMin: u64) {
    exists m: u64 :: IsMaxTotal(m, workloads) && IsRoundedUp(size, Max(m, localMin))
  }

  /**
   * With distinct active names it succeeds exactly when there are key counts, none is zero, and all workloads are
   * sizable; and then, unless the configured minimum wraps the buffer size, the benchmark is prepared.
   */
  method PrepareBenchmark(cfg: Config, model: ModelSpec, keyCounts: seq<u64>, rounds: nat, localMin: u64)
    returns (r: Outcome<Setup>)
    requires cfg.Valid()
    ensures r.Returned? ==>
              && |r.value.workloads| == |keyCounts|
              && (forall i | 0 <= i < |keyCounts| :: Describes(r.value.workloads[i], model, keyCounts[i]))
              && Accepted(cfg, model, r.value.workloads, r.value.pools)
              && Listed(Schedule(|keyCounts|, rounds), r.value.script)
              && IsLocalSize(r.value.localSize, r.value.workloads, localMin)
    ensures r.Returned? && DistinctActiveNames(Channels(model)) && localMin <= U64 - GIB ==>
              forall data: seq<byte> | |data| == r.value.localSize ::
                Prepared(model, r.value.workloads, r.value.pools, rounds, r.value.script, data)
    ensures DistinctActiveNames(Channels(model)) ==>
              (r.Returned? <==>
                 && keyCounts != [] && (forall i | 0 <= i < |keyCounts| :: keyCounts[i] != 0)
                 && forall i | 0 <= i < |keyCounts| :: Sizable(SlicesUpTo(Channels(model), keyCounts[i])))
  {
    hide DistinctActiveNames, Sizable, SizedPools, Recorded, Accepted, IsScript, IsMaxTotal, AlignUp, Channels,
         SlicesUpTo, Listed;
    var workloads := BuildWorkloads(keyCounts, model);
    if workloads.Threw? {
      return Threw(workloads.what);
    }
    SizableByKeys(model, workloads.value, keyCounts);
    var pools := SizePools(cfg, model, workloads.value);
    if pools.Threw? {
      return Threw(pools.what);
    }
    var m := MaxLocalBytes(workloads.value);
    var localSize := AlignUp(Max(m, localMin), GIB);
    GibRounding(Max(m, localMin));
    assert IsRoundedUp(localSize, Max(m, localMin));
    var script := RunBenchmark(Schedule(|workloads.value|, rounds));
    r := Returned(Setup(workloads.value, pools.value, script, localSize));
    if DistinctActiveNames(Channels(model)) && localMin <= U64 - GIB {
      LocalBufferHolds(model, workloads.value, m, localMin);
      assert |pools.value| > 0 by {
        SizedNotEmpty(pools.value, model, workloads.value);
      }
    }
  }

  lemma {:induction false} SizableByKeys(model: ModelSpec, workloads: seq<Workload>, keyCounts: seq<u64>)
    requires |workloads| == |keyCounts| && forall i | 0 <= i < |keyCounts| :: workloads[i].keyCount == keyCounts[i]
    ensures AllSizable(model, workloads)
            <==> forall i | 0 <= i < |keyCounts| :: Sizable(SlicesUpTo(Channels(model), keyCounts[i]))
  {
    hide Sizable, Channels, SlicesUpTo;
    forall i | 0 <= i < |keyCounts|
      ensures SlicesOf(model, workloads[i]) == SlicesUpTo(Channels(model), keyCounts[i])
    {
    }
  }

  lemma {:induction false} SizedNotEmpty(pools: seq<u64>, model: ModelSpec, workloads: seq<Workload>)
    requires SizedPools(pools, model, workloads)
    ensures |pools| > 0
  {
  }

  // ---------------------------------------------------------------- the tasks are what the system moves

  /** What a rank plans for a workload: its tasks, the batch they come from, and where its local buffer starts. */
  datatype RankPlan = RankPlan(tasks: seq<KeyTransferTask>, batch: Batch, base: u64)

  ghost predicate IsPlanOf(plan: RankPlan, s: seq<KvCacheSlice>, pools: seq<u64>) {
    Placed(plan.batch, s, plan.base, pools) && exists starts :: Groups(plan.tasks, starts, plan.batch, |s|)
  }

  /** Planning in sized pools returns such a plan, on every rank. */
  method PlanRank(model: ModelSpec, workloads: seq<Workload>, w: nat, base: u64, pools: seq<u64>, metas: seq<RankMeta>,
                  selfRank: nat, localCopy: bool, puts: bool)
    returns (put: Outcome<seq<KeyTransferTask>>, get: Outcome<seq<KeyTransferTask>>, ghost b: Batch)
    requires w < |workloads| && SizedPools(pools, model, workloads)
    requires Registered(metas, pools, SlicesOf(model, workloads[w]), base)
    ensures get.Returned? && b.metas == metas
            && IsPlanOf(RankPlan(get.value, b, base), SlicesOf(model, workloads[w]), pools)
    ensures put == if puts then get else Returned([])
  {
    assert SizedFor(pools, model, workloads, workloads[w]);
    hide SizedFor, Registered, SlicesOf, Placed, Groups;
    ghost var starts;
    put, get, b, starts := PlanTransfer(model, workloads[w], base, pools, metas, selfRank, localCopy, puts);
    assert Groups(get.value, starts, b, |SlicesOf(model, workloads[w])|);
  }

  /** The tasks of a plan are as many as the system has, and exchange exactly the address pairs that it moves. */
  lemma {:induction false} PlanMatchesLayout(plan: RankPlan, s: seq<KvCacheSlice>, pools: seq<u64>, t: nat, x: nat,
                                             y: nat)
    requires IsPlanOf(plan, s, pools) && t < TaskCount(s)
    ensures |pools| > 0 && |plan.tasks| == TaskCount(s)
    ensures Exchanges(plan.tasks[t], x, y) <==>
              && plan.base <= x < plan.base + |ByteMap(s, |pools|)|
              && var b := ByteMap(s, |pools|)[x - plan.base];
                 b.task == t && b.segment == plan.tasks[t].segmentId < |plan.batch.metas|
                 && y == plan.batch.metas[b.segment].poolAddr + b.offset
  {
    assert |pools| > 0;
    hide Placed, Groups, ByteAt, Exchanges, SumSizes;
    var starts :| Groups(plan.tasks, starts, plan.batch, |s|);
    TaskCountIs(plan.tasks, starts, plan.batch, s, plan.base, pools);
    BatchMeaning(plan.tasks, starts, plan.batch, s, plan.base, pools, t, x, y);
  }

  /** The plans of all ranks for all workloads. */
  ghost predicate ArePlans(plans: seq<seq<RankPlan>>, model: ModelSpec, workloads: seq<Workload>, pools: seq<u64>) {
    && |plans| == |pools|
    && forall r | 0 <= r < |plans| ::
         |plans[r]| == |workloads|
         && forall w | 0 <= w < |workloads| :: IsPlanOf(plans[r][w], SlicesOf(model, workloads[w]), pools)
  }

  /**
   * In every run, a byte is moved only by a worker whose task exchanges exactly that local address with exactly that
   * address of the pool of the rank the task is sent to.
   */
  lemma {:induction false} MovesFollowTasks(model: ModelSpec, workloads: seq<Workload>, pools: seq<u64>, rounds: nat,
                                            script: seq<Stage>, data: seq<byte>, plans: seq<seq<RankPlan>>,
                                            states: seq<State>, events: seq<Event>, i: nat)
    requires Prepared(model, workloads, pools, rounds, script, data) && ArePlans(plans, model, workloads, pools)
    requires IsRun(SystemOf(model, workloads, pools, rounds, script, data), states, events) && i < |events|
    requires events[i].step.Copy? || events[i].step.Scribble?
    ensures var p, s, r, v, a := SystemOf(model, workloads, pools, rounds, script, data), states[i], events[i].rank,
                                 events[i].step.worker, events[i].step.at;
            && Shape(p, s) && r < |pools| && ActionOf(p, s, r) != NoTransfer && ActionOf(p, s, r).workload < |workloads|
            && a < |p.layouts[ActionOf(p, s, r).workload]| && v < |s.ranks[r].exec.workers|
            && s.ranks[r].exec.workers[v].Running?
            && var plan, b, t := plans[r][ActionOf(p, s, r).workload], p.layouts[ActionOf(p, s, r).workload][a],
                                 s.ranks[r].exec.workers[v].task;
               && t < |plan.tasks| && b.segment == plan.tasks[t].segmentId < |plan.batch.metas|
               && Exchanges(plan.tasks[t], plan.base + a, plan.batch.metas[b.segment].poolAddr + b.offset)
  {
    var p := SystemOf(model, workloads, pools, rounds, script, data);
    MoveIsCarried(p, states, events, i);
    var s, r, v, a := states[i], events[i].rank, events[i].step.worker, events[i].step.at;
    var w := ActionOf(p, s, r).workload;
    assert p.layouts[w] == ByteMap(SlicesOf(model, workloads[w]), |pools|);
    assert IsPlanOf(plans[r][w], SlicesOf(model, workloads[w]), pools);
    hide IsRun, Valid, Prepared, SystemOf, IsPlanOf, SlicesOf, ByteAt, Exchanges, TaskCount;
    MoveIsExchange(plans[r][w], SlicesOf(model, workloads[w]), pools, a);
  }

  /** A byte is only moved by a worker that carries it. */
  lemma {:induction false} MoveIsCarried(p: Params, states: seq<State>, events: seq<Event>, i: nat)
    requires Valid(p) && IsRun(p, states, events) && i < |events| && (events[i].step.Copy? || events[i].step.Scribble?)
    ensures var s, r, v, a := states[i], events[i].rank, events[i].step.worker, events[i].step.at;
            && Shape(p, s) && r < p.ranks && ActionOf(p, s, r) != NoTransfer && ActionOf(p, s, r).workload < |p.layouts|
            && v < |s.ranks[r].exec.workers| && s.ranks[r].exec.workers[v].Running?
            && a < |p.layouts[ActionOf(p, s, r).workload]|
            && p.layouts[ActionOf(p, s, r).workload][a].task == s.ranks[r].exec.workers[v].task
  {
    hide KvSystem.Next, Init, MayWork, ValidLayout;
    assert Follows(p, states[i], events[i], states[i + 1]);
    ActionWorkload(p, states[i], events[i].rank);
  }

  lemma {:induction false} MoveIsExchange(plan: RankPlan, s: seq<KvCacheSlice>, pools: seq<u64>, a: nat)
    requires IsPlanOf(plan, s, pools) && |pools| > 0 && a < |ByteMap(s, |pools|)|
    ensures var b := ByteMap(s, |pools|)[a];
            && b.task < |plan.tasks| && b.segment == plan.tasks[b.task].segmentId < |plan.batch.metas|
            && Exchanges(plan.tasks[b.task], plan.base + a, plan.batch.metas[b.segment].poolAddr + b.offset)
  {
    hide Placed, Groups, ByteAt, Exchanges, SumSizes;
    var starts :| Groups(plan.tasks, starts, plan.batch, |s|);
    assert ByteMap(s, |pools|)[a] == ByteAt(s, |pools|, a);
    ByteIsExchanged(plan.tasks, starts, plan.batch, s, plan.base, pools, a);
  }

  /**
   * Every run of the benchmark on a shared model, with the pools that sizing returned, under any interleaving and any
   * failures: a rank that finished a get of a workload without an error has rank 0's bytes in its buffer, all of them.
   */
  lemma {:induction false} BenchmarkRoundTrip(model: ModelSpec, workloads: seq<Workload>, pools: seq<u64>, rounds: nat,
                                              script: seq<Stage>, data: seq<byte>, states: seq<State>,
                                              events: seq<Event>, i: nat, r: nat, w: nat, round: nat)
    requires Prepared(model, workloads, pools, rounds, script, data) && model.kvStrategy == "shared"
    requires IsRun(SystemOf(model, workloads, pools, rounds, script, data), states, events) && i < |states|
             && r < |pools|
    requires Shape(SystemOf(model, workloads, pools, rounds, script, data), states[i])
    requires StageOf(SystemOf(model, workloads, pools, rounds, script, data), states[i], r) == At(w, GetReady(round))
    requires states[i].ranks[r].mode.Settled?
    ensures w < |workloads|
    ensures forall a | 0 <= a < SumSizes(SlicesOf(model, workloads[w])) :: states[i].locals[r][a] == data[a]
  {
    var p := SystemOf(model, workloads, pools, rounds, script, data);
    hide IsRun, Valid, SlicesOf, SumSizes, ByteAt, Prepared;
    RoundTrip(p, states, events, i, r, w, round);
    assert p.layouts[w] == ByteMap(SlicesOf(model, workloads[w]), |pools|);
  }

  /**
   * Every run of the benchmark on a shared model that ends, with the pools that sizing returned and at least one round,
   * whatever happened on the way: every rank holds all bytes of every workload as rank 0 had them.
   */
  lemma {:induction false} BenchmarkEnds(model: ModelSpec, workloads: seq<Workload>, pools: seq<u64>, rounds: nat,
                                         script: seq<Stage>, data: seq<byte>, states: seq<State>, events: seq<Event>,
                                         i: nat, r: nat, w: nat)
    requires Prepared(model, workloads, pools, rounds, script, data) && model.kvStrategy == "shared"
    requires IsRun(SystemOf(model, workloads, pools, rounds, script, data), states, events) && i < |states|
    requires Shape(SystemOf(model, workloads, pools, rounds, script, data), states[i])
    requires Ended(SystemOf(model, workloads, pools, rounds, script, data), states[i])
    requires r < |pools| && w < |workloads| && rounds > 0
    ensures forall a | 0 <= a < SumSizes(SlicesOf(model, workloads[w])) :: states[i].locals[r][a] == data[a]
  {
    var p := SystemOf(model, workloads, pools, rounds, script, data);
    hide IsRun, Valid, SlicesOf, SumSizes, ByteAt, Prepared, Ended;
    EndedHolds(p, states, events, i, r, w);
    assert p.layouts[w] == ByteMap(SlicesOf(model, workloads[w]), |pools|);
  }
}
