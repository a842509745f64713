/**
 * The two slice lists built from a model: the plan with string keys that the store places, and the
 * prepared list with bare key indices that the runtime places.
 */
module SlicePlans {
  import opened Numbers
  import opened Sequences
  import opened ModelConfig
  import opened KvStorage
  import opened PlacementKeys
  import opened PlacementRefinement

  datatype KvSliceEntry = KvSliceEntry(placementKey: string, buffer: BufferView)

  datatype PreparedTransferSlice = PreparedTransferSlice(keyIndex: nat, localAddr: u64, size: u64)

  // ---------------------------------------------------------------- growing the slice list key by key

  /** Where the elements of a concatenation come from. */
  lemma {:induction false} CatParts(s: seq<KvCacheSlice>, b: seq<KvCacheSlice>, t: seq<KvCacheSlice>)
    requires t == Cat(s, b)
    ensures |t| == |s| + |b|
    ensures forall i | 0 <= i < |s| :: t[i] == s[i]
    ensures forall j {:trigger b[j]} | 0 <= j < |b| :: t[|s| + j] == b[j]
  {
  }

  lemma {:induction false} SlicesGrow(ch: seq<Channel>, i: nat, k: nat)
    requires i <= k
    ensures |SlicesUpTo(ch, i)| <= |SlicesUpTo(ch, k)|
    ensures forall j | 0 <= j < |SlicesUpTo(ch, i)| :: SlicesUpTo(ch, k)[j] == SlicesUpTo(ch, i)[j]
    decreases k
  {
    if i < k {
      SlicesGrow(ch, i, k - 1);
      CatParts(SlicesUpTo(ch, k - 1), KeySlices(ch, |ch|, k - 1), SlicesUpTo(ch, k));
    }
  }

  /** An offset that overflows while slices are laid out makes the whole workload overflow. */
  lemma {:induction false} OverflowIsTotal(ch: seq<Channel>, i: nat, k: nat, n: nat)
    requires i <= k && n <= |SlicesUpTo(ch, i)|
    ensures BytesBefore(SlicesUpTo(ch, i), n) <= TotalBytes(ch, k)
  {
    SlicesGrow(ch, i, k);
    BytesBeforeSame(SlicesUpTo(ch, i), SlicesUpTo(ch, k), n);
    BytesBeforeMonotone(SlicesUpTo(ch, k), n, |SlicesUpTo(ch, k)|);
  }

  // ---------------------------------------------------------------- the plan for the store

  function PlanEntry(x: Context, base: u64, s: seq<KvCacheSlice>, i: nat): KvSliceEntry
    requires i < |s|
  {
    KvSliceEntry(KeyOf(x, s[i]), BufferView(Wrap64(base + BytesBefore(s, i)), s[i].sizeBytes))
  }

  ghost predicate IsPlan(entries: seq<KvSliceEntry>, x: Context, base: u64, s: seq<KvCacheSlice>, n: nat)
    requires n <= |s|
  {
    |entries| == n && forall i {:trigger entries[i]} | 0 <= i < n :: entries[i] == PlanEntry(x, base, s, i)
  }

  /** The same first n slices make the same plan. */
  lemma {:induction false} PlanOfPrefix(entries: seq<KvSliceEntry>, x: Context, base: u64, s: seq<KvCacheSlice>,
                                        t: seq<KvCacheSlice>, n: nat)
    requires n <= |s| && n <= |t| && forall i | 0 <= i < n :: s[i] == t[i]
    requires IsPlan(entries, x, base, s, n)
    ensures IsPlan(entries, x, base, t, n)
    ensures BytesBefore(s, n) == BytesBefore(t, n)
  {
    BytesBeforeSame(s, t, n);
    forall i | 0 <= i < n
      ensures entries[i] == PlanEntry(x, base, t, i)
    {
      BytesBeforeSame(s, t, i);
    }
  }

  /** The key of a plan entry, read back, names the slice it was made for. */
  lemma {:induction false} PlanKeysRead(entries: seq<KvSliceEntry>, x: Context, base: u64, s: seq<KvCacheSlice>, i: nat)
    requires IsPlan(entries, x, base, s, |s|) && i < |s|
    ensures ReadKey(entries[i].placementKey)
            == Some(KeyParts(if x.shared then None else Some(x.rank), x.tokens, s[i].keyIndex, s[i].layerIndex,
                             s[i].cacheName))
  {
    assert entries[i] == PlanEntry(x, base, s, i);
    KeyReads(x.rank, x.tokens, s[i].keyIndex, s[i].layerIndex, s[i].cacheName, x.shared);
    hide ReadKey, BuildSlicePlacementKey;
  }

  lemma {:induction false} PlanExtends(entries: seq<KvSliceEntry>, x: Context, base: u64, t: seq<KvCacheSlice>,
                                       e: KvSliceEntry)
    requires |entries| < |t| && IsPlan(entries, x, base, t, |entries|) && e == PlanEntry(x, base, t, |entries|)
    ensures IsPlan(entries + [e], x, base, t, |entries| + 1)
  {
  }

  /** The slices of one key, appended to a plan; None when the running offset overflows 64 bits. */
  method AppendKeyToPlan(x: Context, base: u64, keySlices: seq<KvCacheSlice>, entries: seq<KvSliceEntry>, offset: u64,
      ghost t: seq<KvCacheSlice>)
    returns (r: Option<(seq<KvSliceEntry>, u64)>)
    requires |entries| + |keySlices| == |t|
    requires forall j {:trigger keySlices[j]} | 0 <= j < |keySlices| :: t[|entries| + j] == keySlices[j]
    requires IsPlan(entries, x, base, t, |entries|) && offset == BytesBefore(t, |entries|)
    ensures r.None? <==> SumSizes(t) >= U64
    ensures r.Some? ==> IsPlan(r.value.0, x, base, t, |t|) && r.value.1 == SumSizes(t)
  {
    var out, end: u64 := entries, offset;
    for j := 0 to |keySlices|
      invariant |out| == |entries| + j && IsPlan(out, x, base, t, |out|) && end == BytesBefore(t, |out|)
    {
      var slice := keySlices[j];
      if end > U64 - 1 - slice.sizeBytes {
        BytesBeforeMonotone(t, |out| + 1, |t|);
        return None;
      }
      var entry := KvSliceEntry(KeyOf(x, slice), BufferView(Wrap64(base + end), slice.sizeBytes));
      PlanExtends(out, x, base, t, entry);
      out := out + [entry];
      end := end + slice.sizeBytes;
    }
    return Some((out, end));
  }

  /** The plan of the keys so far, continued by one key. */
  method ContinuePlan(x: Context, base: u64, keySlices: seq<KvCacheSlice>, entries: seq<KvSliceEntry>, offset: u64,
                      ghost s: seq<KvCacheSlice>)
    returns (r: Option<(seq<KvSliceEntry>, u64)>)
    requires IsPlan(entries, x, base, s, |s|) && offset == SumSizes(s)
    ensures r.None? <==> SumSizes(Cat(s, keySlices)) >= U64
    ensures r.Some? ==>
              && IsPlan(r.value.0, x, base, Cat(s, keySlices), |Cat(s, keySlices)|)
              && r.value.1 == SumSizes(Cat(s, keySlices))
  {
    ghost var t := Cat(s, keySlices);
    CatParts(s, keySlices, t);
    PlanOfPrefix(entries, x, base, s, t, |s|);
    r := AppendKeyToPlan(x, base, keySlices, entries, offset, t);
  }

  /** BuildWorkloadSlicePlan: throws exactly when the workload does not fit into 64-bit offsets. */
  method BuildWorkloadSlicePlan(base: u64, x: Context, keyCount: u64, model: ModelSpec)
    returns (r: Outcome<seq<KvSliceEntry>>)
    ensures r.Threw? <==> TotalBytes(Channels(model), keyCount) >= U64
    ensures r.Returned? ==>
              IsPlan(r.value, x, base, SlicesUpTo(Channels(model), keyCount), |SlicesUpTo(Channels(model), keyCount)|)
  {
    ghost var ch := Channels(model);
    ghost var s: seq<KvCacheSlice> := [];
    var entries: seq<KvSliceEntry>, offset: u64 := [], 0;
    for k := 0 to keyCount
      invariant s == SlicesUpTo(ch, k)
      invariant IsPlan(entries, x, base, s, |s|) && offset == SumSizes(s)
    {
      var slices := CollectCacheSlicesForKey(model, k);
      var next := ContinuePlan(x, base, slices, entries, offset, s);
      s := Cat(s, slices);
      if next.None? {
        OverflowIsTotal(ch, k + 1, keyCount, |s|);
        return Threw("KV slice layout offset overflow");
      }
      entries, offset := next.value.0, next.value.1;
    }
    return Returned(entries);
  }

  // ---------------------------------------------------------------- the prepared list for the runtime

  function PreparedAt(base: u64, s: seq<KvCacheSlice>, i: nat): PreparedTransferSlice
    requires i < |s|
  {
    PreparedTransferSlice(s[i].keyIndex, Wrap64(base + BytesBefore(s, i)), s[i].sizeBytes)
  }

  ghost predicate IsPrepared(out: seq<PreparedTransferSlice>, base: u64, s: seq<KvCacheSlice>, n: nat)
    requires n <= |s|
  {
    |out| == n && forall i {:trigger out[i]} | 0 <= i < n :: out[i] == PreparedAt(base, s, i)
  }

  lemma {:induction false} PreparedOfPrefix(out: seq<PreparedTransferSlice>, base: u64, s: seq<KvCacheSlice>,
                                            t: seq<KvCacheSlice>, n: nat)
    requires n <= |s| && n <= |t| && forall i | 0 <= i < n :: s[i] == t[i]
    requires IsPrepared(out, base, s, n)
    ensures IsPrepared(out, base, t, n)
    ensures BytesBefore(s, n) == BytesBefore(t, n)
  {
    BytesBeforeSame(s, t, n);
    forall i | 0 <= i < n
      ensures out[i] == PreparedAt(base, t, i)
    {
      BytesBeforeSame(s, t, i);
    }
  }

  method AppendKeyToPrepared(key: nat, base: u64, keySlices: seq<KvCacheSlice>, slices: seq<PreparedTransferSlice>,
                             offset: u64,
      ghost t: seq<KvCacheSlice>)
    returns (r: Option<(seq<PreparedTransferSlice>, u64)>)
    requires |slices| + |keySlices| == |t|
    requires forall j {:trigger keySlices[j]} | 0 <= j < |keySlices| :: t[|slices| + j] == keySlices[j]
    requires forall j | 0 <= j < |keySlices| :: keySlices[j].keyIndex == key
    requires IsPrepared(slices, base, t, |slices|) && offset == BytesBefore(t, |slices|)
    ensures r.None? <==> SumSizes(t) >= U64
    ensures r.Some? ==> IsPrepared(r.value.0, base, t, |t|) && r.value.1 == SumSizes(t)
  {
    var out, end: u64 := slices, offset;
    for j := 0 to |keySlices|
      invariant |out| == |slices| + j && IsPrepared(out, base, t, |out|) && end == BytesBefore(t, |out|)
    {
      var slice := keySlices[j];
      if end > U64 - 1 - slice.sizeBytes {
        BytesBeforeMonotone(t, |out| + 1, |t|);
        return None;
      }
      out := out + [PreparedTransferSlice(key, Wrap64(base + end), slice.sizeBytes)];
      end := end + slice.sizeBytes;
    }
    return Some((out, end));
  }

  /** The plan of the keys so far, continued by one key. */
  method ContinuePrepared(key: nat, base: u64, keySlices: seq<KvCacheSlice>, slices: seq<PreparedTransferSlice>,
                          offset: u64, ghost s: seq<KvCacheSlice>)
    returns (r: Option<(seq<PreparedTransferSlice>, u64)>)
    requires forall j | 0 <= j < |keySlices| :: keySlices[j].keyIndex == key
    requires IsPrepared(slices, base, s, |s|) && offset == SumSizes(s)
    ensures r.None? <==> SumSizes(Cat(s, keySlices)) >= U64
    ensures r.Some? ==>
              && IsPrepared(r.value.0, base, Cat(s, keySlices), |Cat(s, keySlices)|)
              && r.value.1 == SumSizes(Cat(s, keySlices))
  {
    ghost var t := Cat(s, keySlices);
    CatParts(s, keySlices, t);
    PreparedOfPrefix(slices, base, s, t, |s|);
    r := AppendKeyToPrepared(key, base, keySlices, slices, offset, t);
  }

  /** BuildPreparedTransferSlices: the same slices as the plan, with key indices instead of strings. */
  method BuildPreparedTransferSlices(base: u64, keyCount: u64, model: ModelSpec)
    returns (r: Outcome<seq<PreparedTransferSlice>>)
    ensures r.Threw? <==> TotalBytes(Channels(model), keyCount) >= U64
    ensures r.Returned? ==>
              IsPrepared(r.value, base, SlicesUpTo(Channels(model), keyCount), |SlicesUpTo(Channels(model), keyCount)|)
  {
    ghost var ch := Channels(model);
    ghost var s: seq<KvCacheSlice> := [];
    var out: seq<PreparedTransferSlice>, offset: u64 := [], 0;
    for k := 0 to keyCount
      invariant s == SlicesUpTo(ch, k)
      invariant IsPrepared(out, base, s, |s|) && offset == SumSizes(s)
    {
      var slices := CollectCacheSlicesForKey(model, k);
      KeySlicesOfKey(ch, k);
      var next := ContinuePrepared(k, base, slices, out, offset, s);
      s := Cat(s, slices);
      if next.None? {
        OverflowIsTotal(ch, k + 1, keyCount, |s|);
        return Threw("KV prepared slice offset overflow");
      }
      out, offset := next.value.0, next.value.1;
    }
    return Returned(out);
  }
}
