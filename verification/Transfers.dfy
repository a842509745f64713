/**
 * From placements to transfer tasks: the runtime places the prepared slices once more, without strings, and groups
 * them into one task per key whose descriptors all name the pool of one rank.
 */
module Transfers {
  import opened Numbers
  import opened SegmentManagement
  import opened Layout
  import opened SlicePlans

  datatype RankMeta = RankMeta(endpoint: string, poolAddr: u64, poolSize: u64)

  datatype TransferOpDesc = TransferOpDesc(localAddr: u64, remoteAddr: u64, len: nat)

  datatype KeyTransferTask = KeyTransferTask(keyIndex: nat, segmentId: nat, isSelf: bool, endpoint: string,
                                             descs: seq<TransferOpDesc>)

  function PreparedItems(slices: seq<PreparedTransferSlice>): (r: seq<Item>)
    ensures |r| == |slices|
    ensures forall i {:trigger r[i]} | 0 <= i < |r| :: r[i] == Item(slices[i].keyIndex, slices[i].size)
  {
    seq(|slices|, i requires 0 <= i < |slices| => Item(slices[i].keyIndex, slices[i].size))
  }

  // ---------------------------------------------------------------- placing

  class WorkloadTransferState {
    var slices: seq<PreparedTransferSlice>
    var placements: seq<Placement>
    var placementsReady: bool

    /** BuildWorkloadTransferState. */
    constructor (slices: seq<PreparedTransferSlice>)
      ensures this.slices == slices && placements == [] && !placementsReady
    {
      this.slices := slices;
      placements := [];
      placementsReady := false;
    }

    /** GeneratePlacements: the runtime pass over the prepared slices. */
    method GeneratePlacements(pools: seq<u64>) returns (r: Outcome<()>)
      requires 0 < |pools| < U32
      modifies this
      ensures slices == old(slices)
      ensures var pass := RunPass(FreshSegments(pools), PreparedItems(slices), |slices|);
              if pass.Some? then r == Returned(()) && placements == pass.value.placed && placementsReady
              else r.Threw? && placementsReady == old(placementsReady)
    {
      hide RunPass, PlaceSelected, SelectFor, Allocate;
      var manager := BuildFromPoolSizes(pools);
      ghost var segs, items := FreshSegments(pools), PreparedItems(slices);
      placements := [];
      var currentKey := NO_KEY;
      var selected: u32, next: u32 := 0, 0;
      var count := Wrap32(|pools|);
      PassStarts(pools, items);
      for i := 0 to |slices|
        invariant slices == old(slices) && placementsReady == old(placementsReady)
        invariant fresh(manager)
        invariant RunPass(segs, items, i) == Some(Cursor(manager.segments, currentKey, selected, next, placements))
        invariant |manager.segments| == |pools|
      {
        ghost var c := Cursor(manager.segments, currentKey, selected, next, placements);
        var slice := slices[i];
        if slice.keyIndex != currentKey {
          currentKey := slice.keyIndex;
          selected := Rem(next, count);
          next := Wrap32(next + 1);
        }
        ghost var d := Cursor(manager.segments, currentKey, selected, next, placements);
        Selects(c, d, slice.keyIndex, |pools|);
        var allocation := manager.AllocateFrom(selected, slice.size);
        PassStep(segs, items, i, c, d, allocation, manager.segments);
        if allocation.None? {
          RunPassFails(segs, items, i + 1, |items|);
          return Threw("failed to place KV cache slice");
        }
        var a := allocation.value;
        placements := placements + [Placement(a.segmentId, a.offset, a.size)];
      }
      placementsReady := true;
      return Returned(());
    }

    /** EnsurePlacementMetadata: ranks that did not put place the slices before their first get. */
    method EnsurePlacementMetadata(pools: seq<u64>) returns (r: Outcome<()>)
      requires 0 < |pools| < U32
      modifies this
      ensures slices == old(slices)
      ensures old(placementsReady) ==> r == Returned(()) && placements == old(placements) && placementsReady
      ensures !old(placementsReady) ==>
                var pass := RunPass(FreshSegments(pools), PreparedItems(slices), |slices|);
                if pass.Some? then r == Returned(()) && placements == pass.value.placed && placementsReady
                else r.Threw? && !placementsReady
    {
      if placementsReady {
        return Returned(());
      }
      r := GeneratePlacements(pools);
    }
  }

  lemma {:induction false} PassStarts(pools: seq<u64>, items: seq<Item>)
    requires 0 < |pools| < U32
    ensures Wrap32(|pools|) == |pools| == Count(FreshSegments(pools))
    ensures RunPass(FreshSegments(pools), items, 0) == Some(Cursor(FreshSegments(pools), NO_KEY, 0, 0, []))
  {
  }

  lemma {:induction false} Selects(c: Cursor, d: Cursor, key: nat, n: nat)
    requires 0 < n == |c.segs| < U32
    requires d == if key == c.currentKey then c
                  else c.(currentKey := key, selected := Rem(c.next, n), next := Wrap32(c.next + 1))
    ensures Count(c.segs) > 0 && d == SelectFor(c, key)
  {
  }

  /** One iteration of the runtime loop is one step of the pass. */
  lemma {:induction false} PassStep(segs: seq<Segment>, items: seq<Item>, i: nat, c: Cursor, d: Cursor,
                                    a: Option<SegmentAllocation>, after: seq<Segment>)
    requires Count(segs) > 0 && i < |items| && RunPass(segs, items, i) == Some(c)
    requires Count(c.segs) > 0 && d == SelectFor(c, items[i].key)
             && (a, after) == Allocate(d.segs, d.selected, items[i].size)
    ensures a.None? ==> RunPass(segs, items, i + 1).None?
    ensures a.Some? ==>
              && |after| == |d.segs|
              && RunPass(segs, items, i + 1)
                 == Some(d.(segs := after,
                            placed := d.placed + [Placement(a.value.segmentId, a.value.offset, a.value.size)]))
  {
    hide FirstFit;
  }

  // ---------------------------------------------------------------- grouping into tasks

  /** MakeKeyTransferTask. */
  function MakeTask(key: nat, segment: nat, meta: RankMeta, selfRank: nat, localCopy: bool): KeyTransferTask {
    if segment == selfRank && localCopy then KeyTransferTask(key, segment, true, "", [])
    else KeyTransferTask(key, segment, false, meta.endpoint, [])
  }

  function DescOf(slice: PreparedTransferSlice, p: Placement, meta: RankMeta): TransferOpDesc {
    TransferOpDesc(slice.localAddr, Wrap64(meta.poolAddr + p.offset), p.size)
  }

  /** The placement names a known rank and ends inside the pool that rank registered. */
  predicate InPool(p: Placement, metas: seq<RankMeta>) {
    p.segment < |metas| && Wrap64(p.offset + p.size) <= metas[p.segment].poolSize
  }

  /** MakeTransferOpDesc. */
  method MakeTransferOpDesc(slice: PreparedTransferSlice, p: Placement, meta: RankMeta)
    returns (r: Outcome<TransferOpDesc>)
    ensures r.Returned? <==> Wrap64(p.offset + p.size) <= meta.poolSize
    ensures r.Returned? ==> r.value == DescOf(slice, p, meta)
  {
    if Wrap64(p.offset + p.size) > meta.poolSize {
      return Threw("KV slice placement exceeds registered remote pool");
    }
    return Returned(TransferOpDesc(slice.localAddr, Wrap64(meta.poolAddr + p.offset), p.size));
  }

  /** What a batch is built from. */
  datatype Batch = Batch(slices: seq<PreparedTransferSlice>, placements: seq<Placement>, metas: seq<RankMeta>,
                         selfRank: nat, localCopy: bool)

  ghost predicate KnownRanks(b: Batch, n: nat)
    requires n <= |b.placements|
  {
    forall i | 0 <= i < n :: b.placements[i].segment < |b.metas|
  }

  /** The descriptor of slice i. */
  function DescAt(b: Batch, i: nat): TransferOpDesc
    requires i < |b.slices| == |b.placements| && b.placements[i].segment < |b.metas|
  {
    DescOf(b.slices[i], b.placements[i], b.metas[b.placements[i].segment])
  }

  /** The task opened at slice i. */
  function TaskAt(b: Batch, i: nat): KeyTransferTask
    requires i < |b.slices| == |b.placements| && b.placements[i].segment < |b.metas|
  {
    MakeTask(b.slices[i].keyIndex, b.placements[i].segment, b.metas[b.placements[i].segment], b.selfRank, b.localCopy)
  }

  /** Slices from..to all have the task's key, and the task holds one descriptor for each of them, in order. */
  ghost predicate TaskCovers(task: KeyTransferTask, b: Batch, from: nat, to: nat) {
    && from < to <= |b.slices| == |b.placements| && KnownRanks(b, to)
    && task.(descs := []) == TaskAt(b, from) && |task.descs| == to - from
    && (forall j {:trigger task.descs[j]} | 0 <= j < to - from :: task.descs[j] == DescAt(b, from + j))
    && (forall i | from <= i < to :: b.slices[i].keyIndex == task.keyIndex)
  }

  ghost predicate GroupAt(tasks: seq<KeyTransferTask>, starts: seq<nat>, b: Batch, t: nat)
    requires t < |tasks| && |starts| == |tasks| + 1
  {
    && TaskCovers(tasks[t], b, starts[t], starts[t + 1])
    && (t > 0 ==> tasks[t - 1].keyIndex != tasks[t].keyIndex)
  }

  /** The tasks cut the first n slices into the maximal runs of equal keys; task t starts at slice starts[t]. */
  ghost predicate Groups(tasks: seq<KeyTransferTask>, starts: seq<nat>, b: Batch, n: nat) {
    && |starts| == |tasks| + 1 && starts[0] == 0 && starts[|tasks|] == n
    && forall t | 0 <= t < |tasks| :: GroupAt(tasks, starts, b, t)
  }

  lemma {:induction false} OpensGroup(tasks: seq<KeyTransferTask>, starts: seq<nat>, b: Batch, n: nat,
                                      task: KeyTransferTask)
    requires Groups(tasks, starts, b, n) && n < |b.slices| == |b.placements| && KnownRanks(b, n + 1)
    requires tasks != [] ==> tasks[|tasks| - 1].keyIndex != b.slices[n].keyIndex
    requires task == TaskAt(b, n).(descs := [DescAt(b, n)])
    ensures Groups(tasks + [task], starts + [n + 1], b, n + 1)
  {
    var tasks', starts' := tasks + [task], starts + [n + 1];
    forall t | 0 <= t < |tasks'|
      ensures GroupAt(tasks', starts', b, t)
    {
      if t < |tasks| {
        assert GroupAt(tasks, starts, b, t);
      }
    }
  }

  lemma {:induction false} ExtendsTask(task: KeyTransferTask, b: Batch, from: nat, n: nat)
    requires TaskCovers(task, b, from, n) && n < |b.slices| && KnownRanks(b, n + 1)
             && b.slices[n].keyIndex == task.keyIndex
    ensures TaskCovers(task.(descs := task.descs + [DescAt(b, n)]), b, from, n + 1)
  {
  }

  lemma {:induction false} ExtendsGroup(tasks: seq<KeyTransferTask>, starts: seq<nat>, b: Batch, n: nat,
                                        task: KeyTransferTask)
    requires Groups(tasks, starts, b, n) && tasks != [] && n < |b.slices| == |b.placements| && KnownRanks(b, n + 1)
    requires tasks[|tasks| - 1].keyIndex == b.slices[n].keyIndex
    requires task == tasks[|tasks| - 1].(descs := tasks[|tasks| - 1].descs + [DescAt(b, n)])
    ensures Groups(tasks[|tasks| - 1 := task], starts[|tasks| := n + 1], b, n + 1)
  {
    hide TaskCovers, DescAt, KnownRanks;
    var last := |tasks| - 1;
    var tasks', starts' := tasks[last := task], starts[|tasks| := n + 1];
    forall t | 0 <= t < |tasks'|
      ensures GroupAt(tasks', starts', b, t)
    {
      assert GroupAt(tasks, starts, b, t);
      if t == last {
        ExtendsTask(tasks[last], b, starts[last], n);
      }
    }
  }

  /** BuildKeyTransferTasks; no slice has the key index that marks the start of the loop. */
  method BuildKeyTransferTasks(b: Batch, ready: bool) returns (r: Outcome<seq<KeyTransferTask>>, ghost starts: seq<nat>)
    requires forall i | 0 <= i < |b.slices| :: b.slices[i].keyIndex != NO_KEY
    ensures r.Returned? <==>
              ready && |b.slices| == |b.placements|
              && forall i | 0 <= i < |b.slices| :: InPool(b.placements[i], b.metas)
    ensures r.Returned? ==> Groups(r.value, starts, b, |b.slices|)
    ensures r.Returned? ==> forall t | 0 <= t < |r.value| :: Addressed(r.value[t], b)
  {
    hide Groups, Wrap64;
    starts := [0];
    if !ready {
      return Threw("missing KV placement metadata before building key transfer tasks"), starts;
    }
    if |b.slices| != |b.placements| {
      return Threw("KV placement metadata size mismatch"), starts;
    }
    var tasks: seq<KeyTransferTask>, currentKey: nat := [], NO_KEY;
    GroupsEmpty(b);
    for i := 0 to |b.slices|
      invariant forall j | 0 <= j < i :: InPool(b.placements[j], b.metas)
      invariant Groups(tasks, starts, b, i)
      invariant currentKey == if tasks == [] then NO_KEY else tasks[|tasks| - 1].keyIndex
      invariant |starts| == |tasks| + 1
    {
      var slice, p := b.slices[i], b.placements[i];
      if p.segment >= |b.metas| {
        return Threw("out of range"), starts;
      }
      var meta := b.metas[p.segment];
      var desc := MakeTransferOpDesc(slice, p, meta);
      if desc.Threw? {
        return Threw(desc.what), starts;
      }
      if slice.keyIndex != currentKey {
        currentKey := slice.keyIndex;
        var task := MakeTask(currentKey, p.segment, meta, b.selfRank, b.localCopy).(descs := [desc.value]);
        OpensGroup(tasks, starts, b, i, task);
        tasks, starts := tasks + [task], starts + [i + 1];
      } else {
        var last := |tasks| - 1;
        var extended := tasks[last].(descs := tasks[last].descs + [desc.value]);
        ExtendsGroup(tasks, starts, b, i, extended);
        starts := starts[|tasks| := i + 1];
        tasks := tasks[last := extended];
      }
    }
    GroupsAddressed(tasks, starts, b);
    return Returned(tasks), starts;
  }

  /** A task for the own pool is copied locally if that is wanted; any other is sent to the endpoint of its rank. */
  predicate Addressed(task: KeyTransferTask, b: Batch) {
    && task.segmentId < |b.metas|
    && (task.isSelf <==> task.segmentId == b.selfRank && b.localCopy)
    && task.endpoint == if task.isSelf then "" else b.metas[task.segmentId].endpoint
  }

  lemma {:induction false} GroupsAddressed(tasks: seq<KeyTransferTask>, starts: seq<nat>, b: Batch)
    requires Groups(tasks, starts, b, |b.slices|)
    ensures forall t | 0 <= t < |tasks| :: Addressed(tasks[t], b)
  {
    forall t | 0 <= t < |tasks|
      ensures Addressed(tasks[t], b)
    {
      assert GroupAt(tasks, starts, b, t);
      assert tasks[t].(descs := []) == TaskAt(b, starts[t]);
    }
  }

  lemma {:induction false} GroupsEmpty(b: Batch)
    ensures Groups([], [0], b, 0)
  {
  }

  /**
   * The planning half of ExecuteKvTransfer: a put places the slices anew, a get needs placements. No slice has the key
   * index that marks the start of the grouping loop.
   */
  method PlanBatch(state: WorkloadTransferState, write: bool, pools: seq<u64>, metas: seq<RankMeta>, selfRank: nat,
                   localCopy: bool)
    returns (r: Outcome<seq<KeyTransferTask>>, ghost starts: seq<nat>)
    requires 0 < |pools| < U32 && forall i | 0 <= i < |state.slices| :: state.slices[i].keyIndex != NO_KEY
    modifies state
    ensures state.slices == old(state.slices)
    ensures var pass := RunPass(FreshSegments(pools), PreparedItems(state.slices), |state.slices|);
            && (r.Returned? <==>
                  && (if write then pass.Some? else old(state.placementsReady)) && |state.slices| == |state.placements|
                  && forall i | 0 <= i < |state.placements| :: InPool(state.placements[i], metas))
            && (write && pass.Some? ==> state.placements == pass.value.placed && state.placementsReady)
    ensures !write ==> state.placements == old(state.placements) && state.placementsReady == old(state.placementsReady)
    ensures r.Returned? ==>
              && state.placementsReady
              && Groups(r.value, starts, Batch(state.slices, state.placements, metas, selfRank, localCopy),
                        |state.slices|)
  {
    hide RunPass, Groups;
    starts := [0];
    if write {
      var placed := state.GeneratePlacements(pools);
      if placed.Threw? {
        return Threw(placed.what), starts;
      }
    } else if !state.placementsReady {
      return Threw("missing KV placement metadata before get"), starts;
    }
    var batch := Batch(state.slices, state.placements, metas, selfRank, localCopy);
    r, starts := BuildKeyTransferTasks(batch, state.placementsReady);
  }

  // ---------------------------------------------------------------- one way to group

  /** Where the next task starts, the key changes. */
  lemma {:induction false} KeyChanges(tasks: seq<KeyTransferTask>, starts: seq<nat>, b: Batch, n: nat, t: nat)
    requires Groups(tasks, starts, b, n) && t < |tasks|
    ensures starts[t + 1] <= n && (t + 1 == |tasks| <==> starts[t + 1] == n)
    ensures t + 1 < |tasks| ==> starts[t + 1] < |b.slices| && b.slices[starts[t + 1]].keyIndex != tasks[t].keyIndex
  {
    LaterStarts(tasks, starts, b, n, t + 1);
    if t + 1 < |tasks| {
      assert GroupAt(tasks, starts, b, t + 1);
    }
  }

  /** If one grouping opens its task t + 1 where the other still covers task t, the keys clash. */
  lemma {:induction false} NotLater(tasks: seq<KeyTransferTask>, starts: seq<nat>, tasks': seq<KeyTransferTask>,
                                    starts': seq<nat>, b: Batch, n: nat, t: nat)
    requires Groups(tasks, starts, b, n) && Groups(tasks', starts', b, n) && t < |tasks| && t < |tasks'|
    requires starts[t] == starts'[t]
    ensures starts[t + 1] >= starts'[t + 1]
  {
    assert GroupAt(tasks, starts, b, t) && GroupAt(tasks', starts', b, t);
    KeyChanges(tasks, starts, b, n, t);
    LaterStarts(tasks', starts', b, n, t + 1);
  }

  lemma {:induction false} LaterStarts(tasks: seq<KeyTransferTask>, starts: seq<nat>, b: Batch, n: nat, t: nat)
    requires Groups(tasks, starts, b, n) && t <= |tasks|
    ensures t < |tasks| ==> starts[t] < n
    ensures starts[t] <= n
    decreases |tasks| - t
  {
    if t < |tasks| {
      assert GroupAt(tasks, starts, b, t);
      LaterStarts(tasks, starts, b, n, t + 1);
    }
  }

  lemma {:induction false} SameStarts(tasks: seq<KeyTransferTask>, starts: seq<nat>, tasks': seq<KeyTransferTask>,
                                      starts': seq<nat>, b: Batch, n: nat, t: nat)
    requires Groups(tasks, starts, b, n) && Groups(tasks', starts', b, n) && t <= |tasks|
    ensures t <= |tasks'| && starts[t] == starts'[t]
    ensures forall k | 0 <= k < t :: tasks[k] == tasks'[k]
  {
    if t > 0 {
      SameStarts(tasks, starts, tasks', starts', b, n, t - 1);
      LaterStarts(tasks, starts, b, n, t - 1);
      assert t - 1 < |tasks'|;
      NotLater(tasks, starts, tasks', starts', b, n, t - 1);
      NotLater(tasks', starts', tasks, starts, b, n, t - 1);
      assert GroupAt(tasks, starts, b, t - 1) && GroupAt(tasks', starts', b, t - 1);
      assert tasks[t - 1].descs == tasks'[t - 1].descs;
    }
  }

  /** A batch has one grouping: planning it again gives the same tasks. */
  lemma {:induction false} GroupsOnce(tasks: seq<KeyTransferTask>, starts: seq<nat>, tasks': seq<KeyTransferTask>,
                                      starts': seq<nat>, b: Batch, n: nat)
    requires Groups(tasks, starts, b, n) && Groups(tasks', starts', b, n)
    ensures tasks == tasks' && starts == starts'
  {
    SameStarts(tasks, starts, tasks', starts', b, n, |tasks|);
    SameStarts(tasks', starts', tasks, starts, b, n, |tasks'|);
    forall t | 0 <= t <= |tasks|
      ensures starts[t] == starts'[t]
    {
      SameStarts(tasks, starts, tasks', starts', b, n, t);
    }
  }

  // ---------------------------------------------------------------- where tasks go

  /** Every slice of task t was placed in the pool of the rank that the task is sent to. */
  ghost predicate TaskMeant(tasks: seq<KeyTransferTask>, starts: seq<nat>, b: Batch, t: nat)
    requires t < |tasks| && |starts| == |tasks| + 1
  {
    && starts[t + 1] <= |b.placements|
    && forall i | starts[t] <= i < starts[t + 1] :: b.placements[i].segment == tasks[t].segmentId
  }

  ghost predicate SentWhereMeant(tasks: seq<KeyTransferTask>, starts: seq<nat>, b: Batch) {
    |starts| == |tasks| + 1 && forall t | 0 <= t < |tasks| :: TaskMeant(tasks, starts, b, t)
  }

  /** Neighbouring slices of one key lie in one segment. */
  ghost predicate KeysTogether(b: Batch) {
    && |b.placements| == |b.slices|
    && forall i | 0 < i < |b.slices| && b.slices[i - 1].keyIndex == b.slices[i].keyIndex ::
         b.placements[i - 1].segment == b.placements[i].segment
  }

  lemma {:induction false} FindTask(tasks: seq<KeyTransferTask>, starts: seq<nat>, b: Batch, n: nat, i: nat)
    returns (t: nat)
    requires Groups(tasks, starts, b, n) && i < n
    ensures t < |tasks| && starts[t] <= i < starts[t + 1]
  {
    t := 0;
    while starts[t + 1] <= i
      invariant t < |tasks| && starts[t] <= i
      decreases |tasks| - t
    {
      t := t + 1;
    }
  }

  lemma {:induction false} OneSegment(tasks: seq<KeyTransferTask>, starts: seq<nat>, b: Batch, t: nat, i: nat)
    requires KeysTogether(b) && t < |tasks| && |starts| == |tasks| + 1 && GroupAt(tasks, starts, b, t)
    requires starts[t] <= i < starts[t + 1]
    ensures b.placements[i].segment == tasks[t].segmentId
    decreases i
  {
    if i > starts[t] {
      OneSegment(tasks, starts, b, t, i - 1);
    }
  }

  /**
   * Tasks are sent by the placement of their first slice. Every slice goes to the rank it was placed with if and only
   * if no key was split between segments; otherwise some task carries addresses of another rank's pool.
   */
  lemma {:induction false} SentWhereMeantIff(tasks: seq<KeyTransferTask>, starts: seq<nat>, b: Batch)
    requires Groups(tasks, starts, b, |b.slices|) && |b.placements| == |b.slices|
    ensures SentWhereMeant(tasks, starts, b) <==> KeysTogether(b)
  {
    if KeysTogether(b) {
      forall t | 0 <= t < |tasks|
        ensures TaskMeant(tasks, starts, b, t)
      {
        assert GroupAt(tasks, starts, b, t);
        forall i | starts[t] <= i < starts[t + 1]
          ensures b.placements[i].segment == tasks[t].segmentId
        {
          OneSegment(tasks, starts, b, t, i);
        }
      }
    }
    if SentWhereMeant(tasks, starts, b) {
      forall i | 0 < i < |b.slices| && b.slices[i - 1].keyIndex == b.slices[i].keyIndex
        ensures b.placements[i - 1].segment == b.placements[i].segment
      {
        var t := FindTask(tasks, starts, b, |b.slices|, i - 1);
        NextInTask(tasks, starts, b, t, i);
        assert TaskMeant(tasks, starts, b, t);
      }
    }
  }

  /** The next slice of the same key belongs to the same task. */
  lemma {:induction false} NextInTask(tasks: seq<KeyTransferTask>, starts: seq<nat>, b: Batch, t: nat, i: nat)
    requires Groups(tasks, starts, b, |b.slices|) && t < |tasks| && 0 < i < |b.slices|
    requires starts[t] <= i - 1 < starts[t + 1] && b.slices[i - 1].keyIndex == b.slices[i].keyIndex
    ensures i < starts[t + 1]
  {
    assert GroupAt(tasks, starts, b, t);
    KeyChanges(tasks, starts, b, |b.slices|, t);
  }

  /** Two base addresses and one offset: the sums agree in 64 bits only if the bases do. */
  lemma {:induction false} SameBase(x: u64, y: u64, offset: nat)
    requires Wrap64(x + offset) == Wrap64(y + offset)
    ensures x == y
  {
    QuotientAndRem(x + offset, 0x1_0000_0000_0000_0000);
    QuotientAndRem(y + offset, 0x1_0000_0000_0000_0000);
    hide Quotient, Rem;
  }

  /** Descriptor j of task t is the one for the pool of the rank that the task is sent to. */
  ghost predicate DescMeant(tasks: seq<KeyTransferTask>, starts: seq<nat>, b: Batch, t: nat, j: nat)
    requires t < |tasks| && |starts| == |tasks| + 1 && j < |tasks[t].descs|
    requires starts[t] + j < |b.slices| == |b.placements| && tasks[t].segmentId < |b.metas|
  {
    tasks[t].descs[j] == DescOf(b.slices[starts[t] + j], b.placements[starts[t] + j], b.metas[tasks[t].segmentId])
  }

  /** Where pools start at different addresses, a descriptor is right exactly if its slice was meant for the rank. */
  lemma {:induction false} DescMeantIff(tasks: seq<KeyTransferTask>, starts: seq<nat>, b: Batch, t: nat, j: nat)
    requires t < |tasks| && |starts| == |tasks| + 1 && GroupAt(tasks, starts, b, t) && j < |tasks[t].descs|
    requires forall g, h | 0 <= g < h < |b.metas| :: b.metas[g].poolAddr != b.metas[h].poolAddr
    ensures starts[t] + j < |b.slices| == |b.placements| && tasks[t].segmentId < |b.metas|
    ensures DescMeant(tasks, starts, b, t, j) <==> b.placements[starts[t] + j].segment == tasks[t].segmentId
  {
    var p := b.placements[starts[t] + j];
    assert tasks[t].descs[j] == DescAt(b, starts[t] + j);
    if DescMeant(tasks, starts, b, t, j) {
      SameBase(b.metas[p.segment].poolAddr, b.metas[tasks[t].segmentId].poolAddr, p.offset);
    }
    hide Wrap64;
  }
}
