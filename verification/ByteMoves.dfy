/**
 * The byte-level meaning of a batch: which byte of the local buffer each task exchanges with which byte of which
 * rank's pool.
 */
module ByteMoves {
  import opened Numbers
  import opened ModelConfig
  import opened Layout
  import opened PlacementRefinement
  import opened SlicePlans
  import opened Transfers

  /** Where a local byte travels: with which task, and to which byte of which pool. */
  datatype ByteRef = ByteRef(task: nat, segment: nat, offset: nat)

  /** The slice, among the first k, that local byte a belongs to. */
  function SliceAt(s: seq<KvCacheSlice>, k: nat, a: nat): (i: nat)
    requires k <= |s| && a < BytesBefore(s, k)
    ensures i < k && BytesBefore(s, i) <= a < BytesBefore(s, i) + s[i].sizeBytes
  {
    if BytesBefore(s, k - 1) <= a then k - 1 else SliceAt(s, k - 1, a)
  }

  lemma {:induction false} SliceAtUnique(s: seq<KvCacheSlice>, i: nat, a: nat)
    requires i < |s| && BytesBefore(s, i) <= a < BytesBefore(s, i) + s[i].sizeBytes
    ensures a < SumSizes(s) && SliceAt(s, |s|, a) == i
  {
    BytesBeforeMonotone(s, i + 1, |s|);
    var k := SliceAt(s, |s|, a);
    if k < i {
      BytesBeforeMonotone(s, k + 1, i);
    } else if i < k {
      BytesBeforeMonotone(s, i + 1, k);
    }
  }

  /** Byte a of the local buffer of a workload in the reference layout over n pools. */
  function ByteAt(s: seq<KvCacheSlice>, n: nat, a: nat): ByteRef
    requires n > 0 && a < SumSizes(s)
  {
    var i := SliceAt(s, |s|, a);
    var p := Ideal(ItemsOf(s), n, i);
    ByteRef(s[i].keyIndex, p.segment, p.offset + (a - BytesBefore(s, i)))
  }

  /** No two local bytes share a pool byte. */
  lemma {:induction false} BytesApart(s: seq<KvCacheSlice>, n: nat, a: nat, b: nat)
    requires n > 0 && a < b < SumSizes(s)
    ensures ByteAt(s, n, a).segment != ByteAt(s, n, b).segment || ByteAt(s, n, a).offset < ByteAt(s, n, b).offset
  {
    var i, j := SliceAt(s, |s|, a), SliceAt(s, |s|, b);
    var items := ItemsOf(s);
    assert items[i].size == s[i].sizeBytes;
    if j < i {
      BytesBeforeMonotone(s, j + 1, i);
    }
    if i < j && Ideal(items, n, i).segment == Ideal(items, n, j).segment {
      IdealDisjoint(items, n, i, j);
    }
  }

  /** Every byte stays inside the bytes its pool needs. */
  lemma {:induction false} ByteInPool(s: seq<KvCacheSlice>, pools: seq<u64>, a: nat)
    requires |pools| > 0 && a < SumSizes(s) && Fits(ItemsOf(s), pools)
    ensures ByteAt(s, |pools|, a).segment < |pools|
            && ByteAt(s, |pools|, a).offset < pools[ByteAt(s, |pools|, a).segment]
  {
    var i := SliceAt(s, |s|, a);
    assert ItemsOf(s)[i].size == s[i].sizeBytes;
    IdealEnd(ItemsOf(s), |pools|, i);
  }

  // ---------------------------------------------------------------- what the tasks do

  /** The descriptor pairs local address x with remote address y. */
  predicate Pairs(d: TransferOpDesc, x: nat, y: nat) {
    d.localAddr <= x < d.localAddr + d.len && y == d.remoteAddr + (x - d.localAddr)
  }

  /** Executing the task exchanges local address x with address y of the rank it is sent to. */
  ghost predicate Exchanges(task: KeyTransferTask, x: nat, y: nat) {
    exists j :: 0 <= j < |task.descs| && Pairs(task.descs[j], x, y)
  }

  /** Workload slices present keys in order and are never empty. */
  ghost predicate Ordered(s: seq<KvCacheSlice>) {
    KeysInOrder(ItemsOf(s)) && forall i | 0 <= i < |s| :: s[i].sizeBytes > 0
  }

  /** A batch of a workload placed as in the reference layout, with buffers that lie inside the address space. */
  ghost predicate Placed(b: Batch, s: seq<KvCacheSlice>, base: u64, pools: seq<u64>) {
    && |pools| > 0 && Fits(ItemsOf(s), pools) && Ordered(s)
    && base + SumSizes(s) <= U64 && IsPrepared(b.slices, base, s, |s|)
    && |b.placements| == |s| && (forall i | 0 <= i < |s| :: b.placements[i] == Ideal(ItemsOf(s), |pools|, i))
    && |b.metas| == |pools|
    && (forall g | 0 <= g < |pools| :: b.metas[g].poolSize == pools[g] && b.metas[g].poolAddr + pools[g] <= U64)
  }

  lemma {:induction false} NoWrap(base: u64, start: nat, size: nat, total: nat, meta: RankMeta, p: Placement)
    requires base + total <= U64 && start + size <= total && size > 0 && p.size == size
    requires p.offset + p.size <= meta.poolSize && meta.poolAddr + meta.poolSize <= U64
    ensures Wrap64(base + start) == base + start
    ensures Wrap64(p.offset + p.size) == p.offset + p.size
    ensures Wrap64(meta.poolAddr + p.offset) == meta.poolAddr + p.offset
  {
  }

  /** Slice i of a placed batch: its descriptor, without any wrap-around. */
  lemma {:induction false} SliceOfBatch(b: Batch, s: seq<KvCacheSlice>, base: u64, pools: seq<u64>, i: nat)
    requires Placed(b, s, base, pools) && i < |s|
    ensures |b.slices| == |s| && b.slices[i].keyIndex == s[i].keyIndex < NO_KEY && InPool(b.placements[i], b.metas)
    ensures var p := Ideal(ItemsOf(s), |pools|, i);
            && p == b.placements[i] && p.segment < |b.metas|
            && DescAt(b, i).localAddr == base + BytesBefore(s, i)
            && DescAt(b, i).remoteAddr == b.metas[p.segment].poolAddr + p.offset
            && DescAt(b, i).len == s[i].sizeBytes
  {
    var items := ItemsOf(s);
    assert items[i] == Item(s[i].keyIndex, s[i].sizeBytes);
    var p := Ideal(items, |pools|, i);
    assert b.slices[i] == PreparedAt(base, s, i);
    IdealEnd(items, |pools|, i);
    BytesBeforeMonotone(s, i + 1, |s|);
    NoWrap(base, BytesBefore(s, i), s[i].sizeBytes, SumSizes(s), b.metas[p.segment], p);
  }

  /** Task t carries key t. */
  lemma {:induction false} TaskKey(tasks: seq<KeyTransferTask>, starts: seq<nat>, b: Batch, s: seq<KvCacheSlice>,
                                   t: nat)
    requires Groups(tasks, starts, b, |s|) && t < |tasks| && Ordered(s)
    requires |b.slices| == |s| && forall i | 0 <= i < |s| :: b.slices[i].keyIndex == s[i].keyIndex
    ensures tasks[t].keyIndex == t
  {
    hide IsPrepared;
    var items := ItemsOf(s);
    var i := starts[t];
    assert GroupAt(tasks, starts, b, t);
    assert items[i].key == s[i].keyIndex == tasks[t].keyIndex;
    if t > 0 {
      TaskKey(tasks, starts, b, s, t - 1);
      assert GroupAt(tasks, starts, b, t - 1);
      assert items[i - 1].key == s[i - 1].keyIndex == t - 1;
    }
  }

  /** The task that covers slice i is the one numbered by the key of the slice. */
  lemma {:induction false} TaskOfSlice(tasks: seq<KeyTransferTask>, starts: seq<nat>, b: Batch, s: seq<KvCacheSlice>,
                                       i: nat, k: nat)
    requires Groups(tasks, starts, b, |s|) && k <= |tasks| && i < starts[k] && Ordered(s)
    requires |b.slices| == |s| && forall i | 0 <= i < |s| :: b.slices[i].keyIndex == s[i].keyIndex
    ensures i < |s| && s[i].keyIndex < k && starts[s[i].keyIndex] <= i < starts[s[i].keyIndex + 1]
  {
    var t := k - 1;
    assert GroupAt(tasks, starts, b, t);
    if i < starts[t] {
      TaskOfSlice(tasks, starts, b, s, i, t);
    } else {
      TaskKey(tasks, starts, b, s, t);
      assert b.slices[i].keyIndex == tasks[t].keyIndex;
    }
  }

  lemma {:induction false} PlacedKeys(b: Batch, s: seq<KvCacheSlice>, base: u64, pools: seq<u64>)
    requires Placed(b, s, base, pools)
    ensures |b.slices| == |b.placements| == |s|
    ensures forall i | 0 <= i < |s| :: b.slices[i].keyIndex == s[i].keyIndex && b.slices[i].keyIndex != NO_KEY
    ensures forall i | 0 <= i < |s| :: InPool(b.placements[i], b.metas)
  {
    assert |b.slices| == |b.placements| == |s|;
    hide Placed, InPool;
    forall i | 0 <= i < |s|
      ensures b.slices[i].keyIndex == s[i].keyIndex && b.slices[i].keyIndex != NO_KEY
              && InPool(b.placements[i], b.metas)
    {
      SliceOfBatch(b, s, base, pools, i);
    }
  }

  /** The task of key k addresses the pool k is at home in, and so do all its descriptors. */
  lemma {:induction false} TaskAtHome(tasks: seq<KeyTransferTask>, starts: seq<nat>, b: Batch, s: seq<KvCacheSlice>,
                                      base: u64, pools: seq<u64>, t: nat)
    requires Placed(b, s, base, pools) && Groups(tasks, starts, b, |s|) && t < |tasks|
    ensures tasks[t].keyIndex == t && tasks[t].segmentId == Home(t, |pools|)
    ensures tasks[t].isSelf <==> tasks[t].segmentId == b.selfRank && b.localCopy
    ensures !tasks[t].isSelf ==> tasks[t].endpoint == b.metas[Home(t, |pools|)].endpoint
  {
    hide IsPrepared, Fits, InPool, Home;
    PlacedKeys(b, s, base, pools);
    TaskKey(tasks, starts, b, s, t);
    assert GroupAt(tasks, starts, b, t);
    var i := starts[t];
    SliceOfBatch(b, s, base, pools, i);
    assert ItemsOf(s)[i].key == s[i].keyIndex == t;
  }

  /** The task of the byte's slice exchanges the byte with its reference place. */
  lemma {:induction false} ByteIsExchanged(tasks: seq<KeyTransferTask>, starts: seq<nat>, b: Batch,
                                           s: seq<KvCacheSlice>, base: u64, pools: seq<u64>, a: nat)
    requires Placed(b, s, base, pools) && Groups(tasks, starts, b, |s|) && a < SumSizes(s)
    ensures var r := ByteAt(s, |pools|, a);
            && r.task < |tasks| && r.segment == tasks[r.task].segmentId < |b.metas|
            && Exchanges(tasks[r.task], base + a, b.metas[r.segment].poolAddr + r.offset)
  {
    hide IsPrepared, Fits, InPool, Home, UsedIn;
    PlacedKeys(b, s, base, pools);
    var i := SliceAt(s, |s|, a);
    TaskOfSlice(tasks, starts, b, s, i, |tasks|);
    var t := s[i].keyIndex;
    assert GroupAt(tasks, starts, b, t);
    TaskAtHome(tasks, starts, b, s, base, pools, t);
    SliceOfBatch(b, s, base, pools, i);
    assert ItemsOf(s)[i].key == t;
    assert tasks[t].descs[i - starts[t]] == DescAt(b, i);
    var r := ByteAt(s, |pools|, a);
    assert Pairs(DescAt(b, i), base + a, b.metas[r.segment].poolAddr + r.offset);
  }

  /** Nothing else is exchanged. */
  lemma {:induction false} ExchangedIsByte(tasks: seq<KeyTransferTask>, starts: seq<nat>, b: Batch,
                                           s: seq<KvCacheSlice>, base: u64, pools: seq<u64>, t: nat, x: nat, y: nat)
    requires Placed(b, s, base, pools) && Groups(tasks, starts, b, |s|) && t < |tasks| && Exchanges(tasks[t], x, y)
    ensures base <= x < base + SumSizes(s)
    ensures var r := ByteAt(s, |pools|, x - base);
            r.task == t && r.segment < |b.metas| && y == b.metas[r.segment].poolAddr + r.offset
  {
    hide IsPrepared, Fits, InPool, Home, UsedIn;
    var j :| 0 <= j < |tasks[t].descs| && Pairs(tasks[t].descs[j], x, y);
    PlacedKeys(b, s, base, pools);
    assert GroupAt(tasks, starts, b, t);
    var i := starts[t] + j;
    assert tasks[t].descs[j] == DescAt(b, i);
    SliceOfBatch(b, s, base, pools, i);
    TaskKey(tasks, starts, b, s, t);
    SliceAtUnique(s, i, x - base);
  }

  /**
   * A batch placed as in the reference layout is built without error, has one task per key, and its task t exchanges
   * exactly the local bytes of key t, each with its own byte of the pool of the one rank the task is sent to.
   */
  lemma {:induction false} BatchMeaning(tasks: seq<KeyTransferTask>, starts: seq<nat>, b: Batch, s: seq<KvCacheSlice>,
                                        base: u64, pools: seq<u64>, t: nat, x: nat, y: nat)
    requires Placed(b, s, base, pools) && Groups(tasks, starts, b, |s|) && t < |tasks|
    ensures tasks[t].keyIndex == t && tasks[t].segmentId == Home(t, |pools|)
    ensures Exchanges(tasks[t], x, y) <==>
              && base <= x < base + SumSizes(s)
              && ByteAt(s, |pools|, x - base).task == t
              && ByteAt(s, |pools|, x - base).segment == tasks[t].segmentId < |b.metas|
              && y == b.metas[tasks[t].segmentId].poolAddr + ByteAt(s, |pools|, x - base).offset
  {
    hide Placed, Groups, ByteAt, Exchanges, Home, SumSizes;
    TaskAtHome(tasks, starts, b, s, base, pools, t);
    if Exchanges(tasks[t], x, y) {
      ExchangedIsByte(tasks, starts, b, s, base, pools, t, x, y);
    }
    if base <= x < base + SumSizes(s) {
      ByteIsExchanged(tasks, starts, b, s, base, pools, x - base);
    }
  }
}
