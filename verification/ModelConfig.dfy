/**
 * Byte accounting of a KV-cache model: layers of caches, the slices that one key
 * contributes, and the totals the benchmark derives from them.
 */
module ModelConfig {
  import opened Numbers
  import opened Sequences

  datatype CacheSpec = CacheSpec(name: string, bytesPerKey: u64, maxKeyCount: u64) {

    /** A cache with a key limit contributes nothing from that key on. */
    function BytesForKey(keyIndex: nat): u64 {
      if maxKeyCount != 0 && keyIndex >= maxKeyCount then 0 else bytesPerKey
    }

    function ActiveKeys(keyCount: nat): nat {
      if maxKeyCount == 0 then keyCount else Min(keyCount, maxKeyCount)
    }

    function BytesForKeys(keyCount: nat): u64 {
      Wrap64(ActiveKeys(keyCount) * bytesPerKey)
    }
  }

  datatype LayerSpec = LayerSpec(caches: seq<CacheSpec>)

  /** One transferable tensor slice: the payload of one cache of one layer for one key. */
  datatype KvCacheSlice = KvCacheSlice(keyIndex: nat, layerIndex: nat, cacheName: string, sizeBytes: u64) {
    function Id(): (nat, nat, string) {
      (keyIndex, layerIndex, cacheName)
    }
  }

  datatype ModelSpec = ModelSpec(name: string, layers: seq<LayerSpec>, tokensPerKey: u32, kvStrategy: string) {
    predicate IsShared() {
      kvStrategy == "shared"
    }
  }

  // ---------------------------------------------------------------- slices

  /** A cache together with the index of its layer. */
  datatype Channel = Channel(layer: nat, cache: CacheSpec) {
    predicate Active(key: nat) {
      cache.BytesForKey(key) > 0
    }

    function Slice(key: nat): KvCacheSlice {
      KvCacheSlice(key, layer, cache.name, cache.BytesForKey(key))
    }
  }

  function LayerChannels(layers: seq<LayerSpec>): (b: seq<seq<Channel>>)
    ensures |b| == |layers|
    ensures forall l | 0 <= l < |b| :: |b[l]| == |layers[l].caches|
    ensures forall l, c | 0 <= l < |b| && 0 <= c < |b[l]| :: b[l][c] == Channel(l, layers[l].caches[c])
  {
    seq(|layers|, l requires 0 <= l < |layers| =>
      seq(|layers[l].caches|, c requires 0 <= c < |layers[l].caches| => Channel(l, layers[l].caches[c])))
  }

  /** The caches of all layers in order. */
  function Channels(model: ModelSpec): seq<Channel> {
    Flatten(LayerChannels(model.layers), |model.layers|)
  }

  /** The slices of one key over the first n channels: a channel without bytes for the key has none. */
  function KeySlices(ch: seq<Channel>, n: nat, key: nat): (s: seq<KvCacheSlice>)
    requires n <= |ch|
    ensures |s| <= n
  {
    if n == 0 then []
    else if ch[n - 1].Active(key) then KeySlices(ch, n - 1, key) + [ch[n - 1].Slice(key)]
    else KeySlices(ch, n - 1, key)
  }

  /** The slices of the keys 0, 1, ..., keyCount - 1, in transfer order. */
  function SlicesUpTo(ch: seq<Channel>, keyCount: nat): seq<KvCacheSlice> {
    if keyCount == 0 then [] else Cat(SlicesUpTo(ch, keyCount - 1), KeySlices(ch, |ch|, keyCount - 1))
  }

  /** Bytes of the first n slices: where slice n starts. */
  function BytesBefore(s: seq<KvCacheSlice>, n: nat): nat
    requires n <= |s|
  {
    if n == 0 then 0 else BytesBefore(s, n - 1) + s[n - 1].sizeBytes
  }

  function SumSizes(s: seq<KvCacheSlice>): nat {
    BytesBefore(s, |s|)
  }

  /** Bytes of all slices of a workload, without truncation. */
  function TotalBytes(ch: seq<Channel>, keyCount: nat): nat {
    SumSizes(SlicesUpTo(ch, keyCount))
  }

  lemma {:induction false} BytesBeforeSame(a: seq<KvCacheSlice>, b: seq<KvCacheSlice>, n: nat)
    requires n <= |a| && n <= |b| && forall i | 0 <= i < n :: a[i] == b[i]
    ensures BytesBefore(a, n) == BytesBefore(b, n)
  {
    if n > 0 {
      BytesBeforeSame(a, b, n - 1);
    }
  }

  lemma {:induction false} BytesBeforeCat(a: seq<KvCacheSlice>, b: seq<KvCacheSlice>, n: nat)
    requires n <= |b|
    ensures |Cat(a, b)| == |a| + |b|
    ensures BytesBefore(Cat(a, b), |a| + n) == SumSizes(a) + BytesBefore(b, n)
  {
    if n > 0 {
      BytesBeforeCat(a, b, n - 1);
    } else {
      BytesBeforeSame(Cat(a, b), a, |a|);
    }
  }

  lemma {:induction false} BytesBeforeMonotone(s: seq<KvCacheSlice>, i: nat, j: nat)
    requires i <= j <= |s|
    ensures BytesBefore(s, i) <= BytesBefore(s, j)
    decreases j
  {
    if i < j {
      BytesBeforeMonotone(s, i, j - 1);
    }
  }

  lemma {:induction false} TotalBytesStep(ch: seq<Channel>, k: nat)
    ensures TotalBytes(ch, k + 1) == TotalBytes(ch, k) + SumSizes(KeySlices(ch, |ch|, k))
  {
    BytesBeforeCat(SlicesUpTo(ch, k), KeySlices(ch, |ch|, k), |KeySlices(ch, |ch|, k)|);
  }

  /** The channels of the first l layers. */
  function LayerStart(model: ModelSpec, l: nat): nat
    requires l <= |model.layers|
  {
    |Flatten(LayerChannels(model.layers), l)|
  }

  /** The caches of layer l are the channels from LayerStart(model, l) on. */
  lemma {:induction false} LayerAt(model: ModelSpec, l: nat)
    requires l < |model.layers|
    ensures LayerStart(model, l + 1) == LayerStart(model, l) + |model.layers[l].caches| <= |Channels(model)|
    ensures forall c | 0 <= c < |model.layers[l].caches| ::
              Channels(model)[LayerStart(model, l) + c] == Channel(l, model.layers[l].caches[c])
  {
    var blocks := LayerChannels(model.layers);
    FlattenGrows(blocks, l + 1, |model.layers|);
    forall c | 0 <= c < |model.layers[l].caches|
      ensures Channels(model)[LayerStart(model, l) + c] == Channel(l, model.layers[l].caches[c])
    {
      FlattenPut(blocks, |model.layers|, l, c);
    }
  }

  /** CollectCacheSlicesForKey: the slices appended for one key. */
  method CollectCacheSlicesForKey(model: ModelSpec, keyIndex: nat) returns (out: seq<KvCacheSlice>)
    ensures out == KeySlices(Channels(model), |Channels(model)|, keyIndex)
  {
    out := [];
    ghost var ch := Channels(model);
    ghost var n := 0;
    for l := 0 to |model.layers|
      invariant n == LayerStart(model, l) <= |ch|
      invariant out == KeySlices(ch, n, keyIndex)
    {
      var caches := model.layers[l].caches;
      ghost var start := n;
      LayerAt(model, l);
      for c := 0 to |caches|
        invariant n == start + c <= |ch|
        invariant out == KeySlices(ch, n, keyIndex)
      {
        assert ch[start + c] == Channel(l, caches[c]);
        var nbytes := caches[c].BytesForKey(keyIndex);
        n := n + 1;
        if nbytes == 0 {
          continue;
        }
        out := out + [KvCacheSlice(keyIndex, l, caches[c].name, nbytes)];
      }
    }
  }

  /** The inner loop of TransferBytesForKeys: add the slices of one key to a running 64-bit total. */
  method AddSliceBytes(slices: seq<KvCacheSlice>, start: u64) returns (total: u64)
    ensures total == Wrap64(start + SumSizes(slices))
  {
    total := start;
    ghost var exact: nat := start;
    for i := 0 to |slices|
      invariant exact == start + BytesBefore(slices, i)
      invariant total == Wrap64(exact)
    {
      WrapAdd(exact, slices[i].sizeBytes);
      total := Wrap64(total + slices[i].sizeBytes);
      exact := exact + slices[i].sizeBytes;
    }
  }

  /** ModelSpec::TransferBytesForKeys: the slice loop, with 64-bit truncation at each addition. */
  method TransferBytesForKeys(model: ModelSpec, keyCount: u64) returns (total: u64)
    ensures total == Wrap64(TotalBytes(Channels(model), keyCount))
  {
    total := 0;
    ghost var ch := Channels(model);
    ghost var exact: nat := 0;
    for k := 0 to keyCount
      invariant exact == TotalBytes(ch, k)
      invariant total == Wrap64(exact)
    {
      var slices := CollectCacheSlicesForKey(model, k);
      TotalBytesStep(ch, k);
      WrapAdd(exact, SumSizes(slices));
      total := AddSliceBytes(slices, total);
      exact := exact + SumSizes(slices);
    }
  }

  /** m is the size of the largest slice, or 0. */
  predicate IsMaxSlice(m: u64, s: seq<KvCacheSlice>) {
    && (forall i | 0 <= i < |s| :: s[i].sizeBytes <= m)
    && (m == 0 || exists i :: 0 <= i < |s| && s[i].sizeBytes == m)
  }

  lemma {:induction false} MaxSliceMore(m: u64, m': u64, a: seq<KvCacheSlice>, b: seq<KvCacheSlice>)
    requires IsMaxSlice(m, a) && m <= m' && forall i | 0 <= i < |b| :: b[i].sizeBytes <= m'
    requires m' == m || exists i :: 0 <= i < |b| && b[i].sizeBytes == m'
    ensures IsMaxSlice(m', Cat(a, b))
  {
    var c := Cat(a, b);
    if m' == m && m > 0 {
      var i :| 0 <= i < |a| && a[i].sizeBytes == m;
      assert c[i].sizeBytes == m';
    } else if m' != m {
      var i :| 0 <= i < |b| && b[i].sizeBytes == m';
      assert c[|a| + i].sizeBytes == m';
    }
  }

  /** The inner loop: the largest of the sizes seen before and those of the slices. */
  method RaiseToSlices(slices: seq<KvCacheSlice>, before: u64) returns (m: u64)
    ensures before <= m && forall j | 0 <= j < |slices| :: slices[j].sizeBytes <= m
    ensures m == before || exists j :: 0 <= j < |slices| && slices[j].sizeBytes == m
  {
    m := before;
    for i := 0 to |slices|
      invariant before <= m && forall j | 0 <= j < i :: slices[j].sizeBytes <= m
      invariant m == before || exists j :: 0 <= j < i && slices[j].sizeBytes == m
    {
      m := Max(m, slices[i].sizeBytes);
    }
  }

  /** ModelSpec::MaxSliceBytesForKeys. */
  method MaxSliceBytesForKeys(model: ModelSpec, keyCount: u64) returns (m: u64)
    ensures IsMaxSlice(m, SlicesUpTo(Channels(model), keyCount))
  {
    m := 0;
    ghost var ch := Channels(model);
    assert IsMaxSlice(0, SlicesUpTo(ch, 0));
    hide IsMaxSlice;
    for k := 0 to keyCount
      invariant IsMaxSlice(m, SlicesUpTo(ch, k))
    {
      var slices := CollectCacheSlicesForKey(model, k);
      var raised := RaiseToSlices(slices, m);
      MaxSliceMore(m, raised, SlicesUpTo(ch, k), slices);
      m := raised;
    }
  }

  /** ModelSpec::CountTransferSlicesForKeys. */
  method CountTransferSlicesForKeys(model: ModelSpec, keyCount: u64) returns (count: u64)
    ensures count == Wrap64(|SlicesUpTo(Channels(model), keyCount)|)
  {
    count := 0;
    ghost var ch := Channels(model);
    ghost var exact: nat := 0;
    for k := 0 to keyCount
      invariant exact == |SlicesUpTo(ch, k)|
      invariant count == Wrap64(exact)
    {
      var slices := CollectCacheSlicesForKey(model, k);
      WrapAdd(exact, |slices|);
      count := Wrap64(count + |slices|);
      exact := exact + |slices|;
    }
  }

  // ---------------------------------------------------------------- closed form

  /** Keys with bytes times bytes per key, over the first n channels. */
  function ClosedForm(ch: seq<Channel>, n: nat, keyCount: nat): nat
    requires n <= |ch|
  {
    if n == 0 then 0
    else ClosedForm(ch, n - 1, keyCount) + ch[n - 1].cache.ActiveKeys(keyCount) * ch[n - 1].cache.bytesPerKey
  }

  lemma {:induction false} ActiveKeysStep(c: CacheSpec, k: nat)
    ensures c.ActiveKeys(0) * c.bytesPerKey == 0
    ensures c.ActiveKeys(k + 1) * c.bytesPerKey == c.ActiveKeys(k) * c.bytesPerKey + c.BytesForKey(k)
  {
    if c.maxKeyCount != 0 && k >= c.maxKeyCount {
      assert c.ActiveKeys(k + 1) == c.ActiveKeys(k);
    } else {
      assert c.ActiveKeys(k + 1) == k + 1 && c.ActiveKeys(k) == k;
      assert (k + 1) * c.bytesPerKey == k * c.bytesPerKey + c.bytesPerKey;
    }
  }

  lemma {:induction false} KeyBytesStep(ch: seq<Channel>, n: nat, key: nat)
    requires n < |ch|
    ensures SumSizes(KeySlices(ch, n + 1, key)) == SumSizes(KeySlices(ch, n, key)) + ch[n].cache.BytesForKey(key)
  {
    var a := KeySlices(ch, n, key);
    if ch[n].Active(key) {
      BytesBeforeSame(a + [ch[n].Slice(key)], a, |a|);
    }
  }

  lemma {:induction false} ClosedFormStep(ch: seq<Channel>, n: nat, k: nat)
    requires n <= |ch|
    ensures ClosedForm(ch, n, 0) == 0
    ensures ClosedForm(ch, n, k + 1) == ClosedForm(ch, n, k) + SumSizes(KeySlices(ch, n, k))
  {
    if n > 0 {
      ClosedFormStep(ch, n - 1, k);
      ActiveKeysStep(ch[n - 1].cache, k);
      KeyBytesStep(ch, n - 1, k);
    }
  }

  /** The closed form (keys capped per cache) counts the same bytes as walking every slice of every key. */
  lemma {:induction false} ClosedFormCountsSlices(ch: seq<Channel>, keyCount: nat)
    ensures ClosedForm(ch, |ch|, keyCount) == TotalBytes(ch, keyCount)
  {
    if keyCount == 0 {
      ClosedFormStep(ch, |ch|, 0);
    } else {
      var k := keyCount - 1;
      ClosedFormCountsSlices(ch, k);
      ClosedFormStep(ch, |ch|, k);
      TotalBytesStep(ch, k);
    }
  }

  lemma {:induction false} AddCacheBytes(c: CacheSpec, keyCount: nat, exact: nat, total: u64, next: u64)
    requires total == Wrap64(exact) && next == Wrap64(total + c.BytesForKeys(keyCount))
    ensures next == Wrap64(exact + c.ActiveKeys(keyCount) * c.bytesPerKey)
  {
    WrapAddBoth(exact, c.ActiveKeys(keyCount) * c.bytesPerKey);
  }

  /** The inner loop of BytesForKeys: the caches of one layer, which are the channels from n on. */
  method AddLayerBytes(caches: seq<CacheSpec>, keyCount: u64, start: u64, ghost ch: seq<Channel>, ghost n: nat,
                       ghost before: nat)
    returns (total: u64, ghost exact: nat)
    requires n + |caches| <= |ch| && forall c | 0 <= c < |caches| :: ch[n + c].cache == caches[c]
    requires before == ClosedForm(ch, n, keyCount) && start == Wrap64(before)
    ensures exact == ClosedForm(ch, n + |caches|, keyCount) && total == Wrap64(exact)
  {
    total, exact := start, before;
    for c := 0 to |caches|
      invariant exact == ClosedForm(ch, n + c, keyCount)
      invariant total == Wrap64(exact)
    {
      assert ch[n + c].cache == caches[c];
      var next := Wrap64(total + caches[c].BytesForKeys(keyCount));
      AddCacheBytes(caches[c], keyCount, exact, total, next);
      total, exact := next, exact + caches[c].ActiveKeys(keyCount) * caches[c].bytesPerKey;
    }
  }

  lemma {:induction false} LayerEnds(model: ModelSpec, keyCount: nat)
    ensures LayerStart(model, 0) == 0 && LayerStart(model, |model.layers|) == |Channels(model)|
    ensures ClosedForm(Channels(model), 0, keyCount) == 0
  {
  }

  /** The outer loop of BytesForKeys. */
  method AddAllLayers(model: ModelSpec, keyCount: u64) returns (total: u64, ghost exact: nat)
    ensures exact == ClosedForm(Channels(model), |Channels(model)|, keyCount) && total == Wrap64(exact)
  {
    hide *;
    ghost var ch := Channels(model);
    ghost var n := 0;
    total, exact := 0, 0;
    LayerEnds(model, keyCount);
    WrapSmall(0);
    for l := 0 to |model.layers|
      invariant n == LayerStart(model, l) <= |ch|
      invariant exact == ClosedForm(ch, n, keyCount)
      invariant total == Wrap64(exact)
    {
      LayerAt(model, l);
      total, exact := AddLayerBytes(model.layers[l].caches, keyCount, total, ch, n, exact);
      n := n + |model.layers[l].caches|;
    }
  }

  /** ModelSpec::BytesForKeys: the closed form agrees with the slice loop, truncation included. */
  method BytesForKeys(model: ModelSpec, keyCount: u64) returns (total: u64)
    ensures total == Wrap64(TotalBytes(Channels(model), keyCount))
  {
    ghost var exact;
    total, exact := AddAllLayers(model, keyCount);
    ClosedFormCountsSlices(Channels(model), keyCount);
  }

  // ---------------------------------------------------------------- shape of the slice list

  /** The channel a slice of a key comes from; earlier slices come from earlier channels. */
  lemma {:induction false} KeySliceOrigin(ch: seq<Channel>, n: nat, key: nat, i: nat) returns (c: nat)
    requires n <= |ch| && i < |KeySlices(ch, n, key)|
    ensures c < n && ch[c].Active(key) && KeySlices(ch, n, key)[i] == ch[c].Slice(key)
    ensures i == |KeySlices(ch, c, key)|
    decreases n
  {
    if i < |KeySlices(ch, n - 1, key)| {
      c := KeySliceOrigin(ch, n - 1, key, i);
    } else {
      c := n - 1;
    }
  }

  /** The position of the slice of an active channel. */
  lemma {:induction false} KeySlicePosition(ch: seq<Channel>, n: nat, key: nat, c: nat)
    requires c < n <= |ch| && ch[c].Active(key)
    ensures |KeySlices(ch, c, key)| < |KeySlices(ch, n, key)|
    ensures KeySlices(ch, n, key)[|KeySlices(ch, c, key)|] == ch[c].Slice(key)
    decreases n
  {
    if c < n - 1 {
      KeySlicePosition(ch, n - 1, key, c);
    }
  }

  predicate OfKey(s: seq<KvCacheSlice>, key: nat) {
    forall i | 0 <= i < |s| :: s[i].keyIndex == key && s[i].sizeBytes > 0
  }

  lemma {:induction false} KeySlicesOfKey(ch: seq<Channel>, key: nat)
    ensures OfKey(KeySlices(ch, |ch|, key), key)
  {
    forall i | 0 <= i < |KeySlices(ch, |ch|, key)|
      ensures KeySlices(ch, |ch|, key)[i].keyIndex == key && KeySlices(ch, |ch|, key)[i].sizeBytes > 0
    {
      var c := KeySliceOrigin(ch, |ch|, key, i);
    }
  }

  /** A key that has slices is preceded by a key that has slices: the keys with slices form an initial range. */
  lemma {:induction false} ActiveEarlier(ch: seq<Channel>, k: nat)
    requires KeySlices(ch, |ch|, k + 1) != []
    ensures KeySlices(ch, |ch|, k) != []
  {
    var c := KeySliceOrigin(ch, |ch|, k + 1, 0);
    KeySlicePosition(ch, |ch|, k, c);
  }

  /** Slices carry bytes; key indices start at 0, stay below the bound and never skip or go back. */
  ghost predicate Consecutive(s: seq<KvCacheSlice>, bound: nat) {
    && (s != [] ==> s[0].keyIndex == 0)
    && (forall i | 0 < i < |s| :: s[i - 1].keyIndex <= s[i].keyIndex <= s[i - 1].keyIndex + 1)
    && (forall i | 0 <= i < |s| :: s[i].keyIndex < bound && s[i].sizeBytes > 0)
  }

  lemma {:induction false} ConsecutiveCat(a: seq<KvCacheSlice>, b: seq<KvCacheSlice>, k: nat)
    requires Consecutive(a, k) && OfKey(b, k)
    requires b != [] ==> (if k == 0 then a == [] else a != [] && a[|a| - 1].keyIndex == k - 1)
    ensures Consecutive(Cat(a, b), k + 1)
  {
    var s := Cat(a, b);
    forall i | 0 < i < |s|
      ensures s[i - 1].keyIndex <= s[i].keyIndex <= s[i - 1].keyIndex + 1
    {
      if i < |a| {
        assert s[i - 1] == a[i - 1] && s[i] == a[i];
      } else {
        assert s[i] == b[i - |a|];
      }
    }
  }

  /** A key with slices directly follows the slices of the key before it. */
  lemma {:induction false} PrefixEnds(ch: seq<Channel>, k: nat)
    requires KeySlices(ch, |ch|, k) != []
    ensures var s := SlicesUpTo(ch, k);
            if k == 0 then s == [] else s != [] && s[|s| - 1].keyIndex == k - 1
  {
    if k > 0 {
      var j := k - 1;
      ActiveEarlier(ch, j);
      KeySlicesOfKey(ch, j);
      var a, b := SlicesUpTo(ch, j), KeySlices(ch, |ch|, j);
      assert Cat(a, b)[|Cat(a, b)| - 1] == b[|b| - 1];
    }
  }

  lemma {:induction false} SlicesConsecutive(ch: seq<Channel>, keyCount: nat)
    ensures Consecutive(SlicesUpTo(ch, keyCount), keyCount)
  {
    if keyCount > 0 {
      var k := keyCount - 1;
      SlicesConsecutive(ch, k);
      KeySlicesOfKey(ch, k);
      if KeySlices(ch, |ch|, k) != [] {
        PrefixEnds(ch, k);
      }
      ConsecutiveCat(SlicesUpTo(ch, k), KeySlices(ch, |ch|, k), k);
    }
  }

  // ---------------------------------------------------------------- distinct identities

  /** No layer has two caches of the same name that both carry bytes. */
  predicate DistinctActiveNames(ch: seq<Channel>) {
    forall i, j | 0 <= i < j < |ch| :: ActiveNamesDiffer(ch[i], ch[j])
  }

  predicate ActiveNamesDiffer(a: Channel, b: Channel) {
    a.Active(0) && b.Active(0) && a.layer == b.layer ==> a.cache.name != b.cache.name
  }

  predicate DistinctIds(s: seq<KvCacheSlice>) {
    forall i, j | 0 <= i < j < |s| :: s[i].Id() != s[j].Id()
  }

  lemma {:induction false} KeySlicesDistinct(ch: seq<Channel>, key: nat)
    requires DistinctActiveNames(ch)
    ensures DistinctIds(KeySlices(ch, |ch|, key))
  {
    var s := KeySlices(ch, |ch|, key);
    forall i, j | 0 <= i < j < |s|
      ensures s[i].Id() != s[j].Id()
    {
      var a := KeySliceOrigin(ch, |ch|, key, i);
      var b := KeySliceOrigin(ch, |ch|, key, j);
      if a < b {
        assert ActiveNamesDiffer(ch[a], ch[b]);
      } else if b < a {
        KeySlicePosition(ch, a, key, b);
      }
    }
  }

  lemma {:induction false} DistinctCat(a: seq<KvCacheSlice>, b: seq<KvCacheSlice>)
    requires DistinctIds(a) && DistinctIds(b)
    requires forall i, j | 0 <= i < |a| && 0 <= j < |b| :: a[i].keyIndex != b[j].keyIndex
    ensures DistinctIds(Cat(a, b))
  {
    var s := Cat(a, b);
    forall i, j | 0 <= i < j < |s|
      ensures s[i].Id() != s[j].Id()
    {
      if j < |a| {
        assert a[i].Id() != a[j].Id();
      } else if i >= |a| {
        assert b[i - |a|].Id() != b[j - |a|].Id();
      } else {
        assert a[i].keyIndex != b[j - |a|].keyIndex;
      }
    }
  }

  /** With distinct active names, no two slices of a workload share (key, layer, cache name). */
  lemma {:induction false} SlicesDistinct(ch: seq<Channel>, keyCount: nat)
    requires DistinctActiveNames(ch)
    ensures DistinctIds(SlicesUpTo(ch, keyCount))
  {
    if keyCount > 0 {
      var k := keyCount - 1;
      SlicesDistinct(ch, k);
      SlicesConsecutive(ch, k);
      KeySlicesDistinct(ch, k);
      KeySlicesOfKey(ch, k);
      DistinctCat(SlicesUpTo(ch, k), KeySlices(ch, |ch|, k));
    }
  }

  lemma {:induction false} FirstKeyIsPrefix(ch: seq<Channel>, keyCount: nat)
    requires keyCount >= 1
    ensures |KeySlices(ch, |ch|, 0)| <= |SlicesUpTo(ch, keyCount)|
    ensures forall i | 0 <= i < |KeySlices(ch, |ch|, 0)| :: SlicesUpTo(ch, keyCount)[i] == KeySlices(ch, |ch|, 0)[i]
  {
    if keyCount > 1 {
      FirstKeyIsPrefix(ch, keyCount - 1);
    } else {
      assert SlicesUpTo(ch, 1) == Cat(SlicesUpTo(ch, 0), KeySlices(ch, |ch|, 0));
    }
  }

  /** A repeated active name shows up as two slices of key 0 with the same identity. */
  lemma {:induction false} RepeatedNameRepeatsId(ch: seq<Channel>, keyCount: nat)
    requires keyCount >= 1 && !DistinctActiveNames(ch)
    ensures !DistinctIds(SlicesUpTo(ch, keyCount))
  {
    var i, j :| 0 <= i < j < |ch| && !ActiveNamesDiffer(ch[i], ch[j]);
    KeySlicePosition(ch, j, 0, i);
    KeySlicePosition(ch, |ch|, 0, i);
    KeySlicePosition(ch, |ch|, 0, j);
    FirstKeyIsPrefix(ch, keyCount);
    var a, b := |KeySlices(ch, i, 0)|, |KeySlices(ch, j, 0)|;
    assert SlicesUpTo(ch, keyCount)[a].Id() == SlicesUpTo(ch, keyCount)[b].Id();
  }

  // ---------------------------------------------------------------- which slices

  /** The cache carries bytes for the key: it has some, and no limit or a limit above the key. */
  predicate Carries(cache: CacheSpec, key: nat) {
    cache.bytesPerKey > 0 && (cache.maxKeyCount == 0 || key < cache.maxKeyCount)
  }

  /** The slice that a cache contributes to a key it carries bytes for. */
  ghost predicate IsSliceOf(s: KvCacheSlice, c: Channel, key: nat) {
    s == KvCacheSlice(key, c.layer, c.cache.name, c.cache.bytesPerKey)
  }

  /** The slices come, in order, from exactly those of the first n caches that carry bytes for the key. */
  ghost predicate Picked(s: seq<KvCacheSlice>, idx: seq<nat>, ch: seq<Channel>, n: nat, key: nat)
    requires n <= |ch|
  {
    && |idx| == |s| && (forall i | 0 <= i < |idx| :: idx[i] < n)
    && (forall i, j | 0 <= i < j < |idx| :: idx[i] < idx[j])
    && (forall i | 0 <= i < |idx| :: IsSliceOf(s[i], ch[idx[i]], key))
    && (forall c | 0 <= c < n :: c in idx <==> Carries(ch[c].cache, key))
  }

  lemma {:induction false} PickedMore(s: seq<KvCacheSlice>, idx: seq<nat>, ch: seq<Channel>, n: nat, key: nat)
    requires n < |ch| && Picked(s, idx, ch, n, key)
    ensures Carries(ch[n].cache, key) ==> Picked(s + [ch[n].Slice(key)], idx + [n], ch, n + 1, key)
    ensures !Carries(ch[n].cache, key) ==> Picked(s, idx, ch, n + 1, key)
  {
    assert n !in idx;
    if Carries(ch[n].cache, key) {
      assert IsSliceOf(ch[n].Slice(key), ch[n], key);
      hide IsSliceOf, Carries;
      forall c | 0 <= c < n + 1
        ensures c in idx + [n] <==> c in idx || c == n
      {
      }
    }
  }

  /**
   * The slices of a key, over the first n caches: in the order of the caches, one for each that carries bytes for the
   * key, with its layer, its name and its bytes per key.
   */
  lemma {:induction false} KeySlicesExact(ch: seq<Channel>, n: nat, key: nat) returns (idx: seq<nat>)
    requires n <= |ch|
    ensures Picked(KeySlices(ch, n, key), idx, ch, n, key)
  {
    hide Picked, Carries, KeySlices;
    if n == 0 {
      idx := [];
      NonePicked(ch, key);
    } else {
      KeySlicesStep(ch, n, key);
      var rest := KeySlicesExact(ch, n - 1, key);
      PickedMore(KeySlices(ch, n - 1, key), rest, ch, n - 1, key);
      idx := if Carries(ch[n - 1].cache, key) then rest + [n - 1] else rest;
    }
  }

  lemma {:induction false} NonePicked(ch: seq<Channel>, key: nat)
    ensures Picked(KeySlices(ch, 0, key), [], ch, 0, key)
  {
  }

  lemma {:induction false} KeySlicesStep(ch: seq<Channel>, n: nat, key: nat)
    requires 0 < n <= |ch|
    ensures KeySlices(ch, n, key)
            == if Carries(ch[n - 1].cache, key) then KeySlices(ch, n - 1, key) + [ch[n - 1].Slice(key)]
               else KeySlices(ch, n - 1, key)
  {
  }

  lemma {:induction false} LayersGrow(model: ModelSpec, l: nat, m: nat)
    requires l <= m <= |model.layers|
    ensures LayerStart(model, l) <= LayerStart(model, m)
  {
    FlattenGrows(LayerChannels(model.layers), l, m);
  }

  /** The cache of a layer, counted over all layers, comes after all caches of earlier layers. */
  lemma {:induction false} CacheOrder(model: ModelSpec, l: nat, c: nat, m: nat, d: nat)
    requires l < |model.layers| && c < |model.layers[l].caches| && m < |model.layers| && d < |model.layers[m].caches|
    requires l < m || (l == m && c < d)
    ensures LayerStart(model, l) + c < LayerStart(model, m) + d < |Channels(model)|
    ensures Channels(model)[LayerStart(model, l) + c] == Channel(l, model.layers[l].caches[c])
    ensures Channels(model)[LayerStart(model, m) + d] == Channel(m, model.layers[m].caches[d])
  {
    hide Channels, LayerStart;
    LayerAt(model, l);
    LayerAt(model, m);
    if l < m {
      LayersGrow(model, l + 1, m);
    }
  }
}
