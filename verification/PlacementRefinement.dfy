/**
 * The runtime's string-free pass against the string-keyed store: on a model whose active cache names are
 * distinct within each layer they place every slice identically, and only then.
 */
module PlacementRefinement {
  import opened Numbers
  import opened ModelConfig
  import opened PlacementKeys
  import opened SegmentManagement
  import opened Layout
  import opened KvStorage

  // ---------------------------------------------------------------- lock step

  ghost predicate DistinctKeys(keys: seq<string>) {
    forall i, j | 0 <= i < j < |keys| :: keys[i] != keys[j]
  }

  /** The groups tell the keys of the items apart. */
  ghost predicate GroupedByKey(groups: seq<string>, items: seq<Item>) {
    |groups| == |items|
    && forall i, j | 0 <= i < |groups| && 0 <= j < |groups| :: groups[i] == groups[j] <==> items[i].key == items[j].key
  }

  /** Slice keys are distinct, and the groups cut out of them are those of the items' keys. */
  ghost predicate Labelled(keys: seq<string>, groups: seq<string>, items: seq<Item>) {
    && |keys| == |groups| && DistinctKeys(keys) && GroupedByKey(groups, items)
    && (forall i | 0 <= i < |keys| :: ExtractKeyPlacementGroupKey(keys[i]) == Returned(groups[i]))
  }

  function PlaceOf(p: KeyPlacement): Placement {
    Placement(p.segmentId, p.offset, p.size)
  }

  /** The store placed slice j where the pass did. */
  ghost predicate SamePlace(placements: map<string, KeyPlacement>, placed: seq<Placement>, keys: seq<string>, j: nat)
    requires j < |keys| && j < |placed|
  {
    keys[j] in placements && PlaceOf(placements[keys[j]]) == placed[j]
  }

  /** The placements of the store are those of the pass, slice by slice. */
  ghost predicate SamePlacements(placements: map<string, KeyPlacement>, placed: seq<Placement>, keys: seq<string>,
                                 i: nat)
    requires i <= |keys|
  {
    && |placed| == i
    && (forall j | 0 <= j < i :: SamePlace(placements, placed, keys, j))
    && (forall key | key in placements :: exists j :: 0 <= j < i && keys[j] == key)
  }

  /** The groups the store knows are those of the first i slices, each with the home of its key. */
  ghost predicate HomesKnown(known: map<string, u32>, groups: seq<string>, items: seq<Item>, i: nat, n: nat)
    requires i <= |groups| == |items| && n > 0
  {
    && (forall j | 0 <= j < i :: groups[j] in known && known[groups[j]] == Home(items[j].key, n))
    && (forall g | g in known :: exists j :: 0 <= j < i && groups[j] == g)
  }

  /** The store after i slices holds exactly what the pass after i slices knows. */
  ghost predicate InStep(st: StoreState, c: Cursor, keys: seq<string>, groups: seq<string>, items: seq<Item>, i: nat,
                         n: nat)
    requires i <= |keys| == |groups| == |items| && n > 0
  {
    && st.segs == c.segs && st.next == c.next
    && SamePlacements(st.placements, c.placed, keys, i)
    && HomesKnown(st.groups, groups, items, i, n)
  }

  lemma {:induction false} KeysRise(items: seq<Item>, i: nat, j: nat)
    requires KeysInOrder(items) && i <= j < |items|
    ensures items[i].key <= items[j].key
    decreases j
  {
    if i < j {
      KeysRise(items, i, j - 1);
    }
  }

  /** A group is known exactly when its key is the one the previous slice had. */
  lemma {:induction false} KnownIffCurrent(known: map<string, u32>, groups: seq<string>, items: seq<Item>, i: nat,
                                           n: nat)
    requires i < |items| && n > 0 && GroupedByKey(groups, items) && KeysInOrder(items)
    requires HomesKnown(known, groups, items, i, n)
    ensures groups[i] in known <==> LastKey(items, i) == Some(items[i].key)
    ensures groups[i] in known ==> known[groups[i]] == Home(items[i].key, n)
  {
    if groups[i] in known {
      var j :| 0 <= j < i && groups[j] == groups[i];
      assert items[j].key == items[i].key;
      KeysRise(items, j, i - 1);
      assert items[i - 1].key <= items[i].key;
    }
    if LastKey(items, i) == Some(items[i].key) {
      assert groups[i - 1] == groups[i];
    }
  }

  /** Looking the group up in the map selects the segment that comparing with the current key selects. */
  lemma {:induction false} SameSegment(st: StoreState, c: Cursor, groups: seq<string>, items: seq<Item>, i: nat, n: nat)
    requires i < |items| && 0 < n == |c.segs| < U32 && GroupedByKey(groups, items) && KeysInOrder(items)
    requires st.segs == c.segs && st.next == c.next && HomesKnown(st.groups, groups, items, i, n)
    requires CursorAfter(c, n, LastKey(items, i))
    ensures var (rs, seg) := Resolve(st, groups[i]);
            var d := SelectFor(c, items[i].key);
            && seg == d.selected == Home(items[i].key, n)
            && d.segs == c.segs && d.placed == c.placed
            && rs == StoreState(d.segs, st.placements, st.groups[groups[i] := seg], d.next)
  {
    var k := items[i].key;
    NextKeyFollows(items, i);
    SelectsHome(c, n, LastKey(items, i), k);
    KnownIffCurrent(st.groups, groups, items, i, n);
    if groups[i] in st.groups {
      assert c.currentKey == k;
      assert st.groups == st.groups[groups[i] := st.groups[groups[i]]];
    } else {
      assert c.currentKey != k;
    }
  }

  lemma {:induction false} PlacementsExtend(placements: map<string, KeyPlacement>, placed: seq<Placement>,
                                            keys: seq<string>, i: nat, p: KeyPlacement)
    requires i < |keys| && SamePlacements(placements, placed, keys, i)
    requires DistinctKeys(keys)
    ensures keys[i] !in placements
    ensures SamePlacements(placements[keys[i] := p], placed + [PlaceOf(p)], keys, i + 1)
  {
    var placed', placements' := placed + [PlaceOf(p)], placements[keys[i] := p];
    forall j | 0 <= j < i + 1
      ensures SamePlace(placements', placed', keys, j)
    {
      if j < i {
        assert SamePlace(placements, placed, keys, j);
        assert placed'[j] == placed[j];
      }
    }
  }

  lemma {:induction false} HomesExtend(known: map<string, u32>, groups: seq<string>, items: seq<Item>,
                                       i: nat, n: nat, seg: u32)
    requires i < |items| && n > 0 && GroupedByKey(groups, items)
    requires HomesKnown(known, groups, items, i, n) && seg == Home(items[i].key, n)
    ensures HomesKnown(known[groups[i] := seg], groups, items, i + 1, n)
  {
    forall j | 0 <= j < i + 1
      ensures known[groups[i] := seg][groups[j]] == Home(items[j].key, n)
    {
      if groups[j] == groups[i] {
        assert items[j].key == items[i].key;
      }
    }
  }

  /** Both sides make the same allocation request and record the same answer. */
  lemma {:induction false} RecordTogether(rs: StoreState, d: Cursor, keys: seq<string>, groups: seq<string>,
                                          items: seq<Item>, i: nat, n: nat, known: map<string, u32>)
    requires i < |items| == |keys| && n > 0 && DistinctKeys(keys) && GroupedByKey(groups, items)
    requires rs.segs == d.segs && rs.next == d.next && SamePlacements(rs.placements, d.placed, keys, i)
    requires HomesKnown(known, groups, items, i, n) && d.selected == Home(items[i].key, n)
    requires rs.groups == known[groups[i] := d.selected]
    ensures var (after, ok) := AllocateInto(rs, keys[i], d.selected, items[i].size);
            var p := PlaceSelected(d, items[i].size);
            ok == p.Some? && (ok ==> InStep(after, p.value, keys, groups, items, i + 1, n))
  {
    var r := Allocate(rs.segs, d.selected, items[i].size).0;
    if r.Some? {
      var a := r.value;
      PlacementsExtend(rs.placements, d.placed, keys, i, KeyPlacement(keys[i], a.segmentId, a.offset, a.size));
      HomesExtend(known, groups, items, i, n, d.selected);
    }
  }

  /** One slice: both accept it in the same place, or both refuse it. */
  lemma {:induction false} StepTogether(st: StoreState, c: Cursor, keys: seq<string>, groups: seq<string>,
                                        items: seq<Item>, i: nat, n: nat)
    requires i < |items| && 0 < n == |c.segs| < U32 && Labelled(keys, groups, items) && KeysInOrder(items)
    requires InStep(st, c, keys, groups, items, i, n) && CursorAfter(c, n, LastKey(items, i))
    ensures var (after, r) := EnsureOne(st, keys[i], items[i].size);
            var p := PlaceSelected(SelectFor(c, items[i].key), items[i].size);
            && r == Returned(p.Some?)
            && (p.Some? ==> InStep(after, p.value, keys, groups, items, i + 1, n))
  {
    var d := SelectFor(c, items[i].key);
    var (rs, seg) := Resolve(st, groups[i]);
    SameSegment(st, c, groups, items, i, n);
    RecordTogether(rs, d, keys, groups, items, i, n, st.groups);
    PlacementsExtend(st.placements, c.placed, keys, i, KeyPlacement(keys[i], 0, 0, 0));
    var (after, ok) := AllocateInto(rs, keys[i], seg, items[i].size);
    assert EnsureOne(st, keys[i], items[i].size) == (after, Returned(ok));
  }

  function ItemSizes(items: seq<Item>): (r: seq<u64>)
    ensures |r| == |items|
    ensures forall i {:trigger r[i]} | 0 <= i < |r| :: r[i] == items[i].size
  {
    seq(|items|, i requires 0 <= i < |items| => items[i].size)
  }

  ghost predicate RunsInStep(sizes: seq<u64>, keys: seq<string>, groups: seq<string>, items: seq<Item>, i: nat)
    requires 0 < |sizes| < U32 && i <= |keys| == |groups| == |items|
  {
    var (st, r) := EnsureAll(Empty(FreshSegments(sizes)), keys, ItemSizes(items), i);
    var p := RunPass(FreshSegments(sizes), items, i);
    && r == Returned(p.Some?)
    && (p.Some? ==> InStep(st, p.value, keys, groups, items, i, |sizes|))
  }

  lemma {:induction false} RunTogether(sizes: seq<u64>, keys: seq<string>, groups: seq<string>, items: seq<Item>,
                                       i: nat)
    requires 0 < |sizes| < U32 && i <= |items| && Labelled(keys, groups, items) && KeysInOrder(items)
    ensures RunsInStep(sizes, keys, groups, items, i)
  {
    if i > 0 {
      RunTogether(sizes, keys, groups, items, i - 1);
      var p := RunPass(FreshSegments(sizes), items, i - 1);
      if p.Some? {
        PassSelectsHome(sizes, items, i - 1);
        var st := EnsureAll(Empty(FreshSegments(sizes)), keys, ItemSizes(items), i - 1).0;
        assert ItemSizes(items)[i - 1] == items[i - 1].size;
        StepTogether(st, p.value, keys, groups, items, i - 1, |sizes|);
      }
    }
  }

  // ---------------------------------------------------------------- on slices

  /** What a placement key says besides the slice itself. */
  datatype Context = Context(rank: u32, tokens: u64, shared: bool)

  function KeyOf(x: Context, s: KvCacheSlice): string {
    BuildSlicePlacementKey(x.rank, x.tokens, s.keyIndex, s.layerIndex, s.cacheName, x.shared)
  }

  function GroupOf(x: Context, s: KvCacheSlice): string {
    GroupKey(x.rank, x.tokens, s.keyIndex, x.shared)
  }

  function KeysOf(x: Context, slices: seq<KvCacheSlice>): (r: seq<string>)
    ensures |r| == |slices|
    ensures forall i {:trigger r[i]} | 0 <= i < |r| :: r[i] == KeyOf(x, slices[i])
  {
    seq(|slices|, i requires 0 <= i < |slices| => KeyOf(x, slices[i]))
  }

  function GroupsOf(x: Context, slices: seq<KvCacheSlice>): (r: seq<string>)
    ensures |r| == |slices|
    ensures forall i {:trigger r[i]} | 0 <= i < |r| :: r[i] == GroupOf(x, slices[i])
  {
    seq(|slices|, i requires 0 <= i < |slices| => GroupOf(x, slices[i]))
  }

  function ItemsOf(slices: seq<KvCacheSlice>): (r: seq<Item>)
    ensures |r| == |slices|
    ensures forall i {:trigger r[i]} | 0 <= i < |r| :: r[i] == Item(slices[i].keyIndex, slices[i].sizeBytes)
  {
    seq(|slices|, i requires 0 <= i < |slices| => Item(slices[i].keyIndex, slices[i].sizeBytes))
  }

  /** The slices of a workload present their keys in order. */
  lemma {:induction false} WorkloadKeysInOrder(ch: seq<Channel>, keyCount: u64)
    ensures KeysInOrder(ItemsOf(SlicesUpTo(ch, keyCount)))
  {
    SlicesConsecutive(ch, keyCount);
    ConsecutiveInOrder(SlicesUpTo(ch, keyCount), keyCount);
  }

  lemma {:induction false} ConsecutiveInOrder(slices: seq<KvCacheSlice>, keyCount: u64)
    requires Consecutive(slices, keyCount)
    ensures KeysInOrder(ItemsOf(slices))
  {
  }

  lemma {:induction false} SlicePairLabelled(x: Context, a: KvCacheSlice, b: KvCacheSlice)
    ensures KeyOf(x, a) == KeyOf(x, b) <==> a.Id() == b.Id()
    ensures GroupOf(x, a) == GroupOf(x, b) <==> a.keyIndex == b.keyIndex
    ensures ExtractKeyPlacementGroupKey(KeyOf(x, a)) == Returned(GroupOf(x, a))
  {
    SliceKeysEqualIff(x.rank, x.tokens, a.keyIndex, a.layerIndex, a.cacheName,
                      x.rank, x.tokens, b.keyIndex, b.layerIndex, b.cacheName, x.shared);
    GroupKeysEqualIff(x.rank, x.tokens, a.keyIndex, x.rank, x.tokens, b.keyIndex, x.shared);
    ExtractsGroupKey(x.rank, x.tokens, a.keyIndex, a.layerIndex, a.cacheName, x.shared);
  }

  /** Distinct slices get distinct keys, and groups that separate their key indices. */
  lemma {:induction false} SlicesLabelled(x: Context, slices: seq<KvCacheSlice>)
    requires DistinctIds(slices)
    ensures Labelled(KeysOf(x, slices), GroupsOf(x, slices), ItemsOf(slices))
  {
    forall i, j | 0 <= i < |slices| && 0 <= j < |slices|
      ensures i < j ==> KeyOf(x, slices[i]) != KeyOf(x, slices[j])
      ensures GroupOf(x, slices[i]) == GroupOf(x, slices[j]) <==> slices[i].keyIndex == slices[j].keyIndex
      ensures ExtractKeyPlacementGroupKey(KeyOf(x, slices[i])) == Returned(GroupOf(x, slices[i]))
    {
      assert i < j ==> slices[i].Id() != slices[j].Id();
      SlicePairLabelled(x, slices[i], slices[j]);
    }
  }

  function StoreRun(sizes: seq<u64>, x: Context, slices: seq<KvCacheSlice>): (StoreState, Outcome<bool>)
    requires |sizes| < U32
  {
    EnsureAll(Empty(FreshSegments(sizes)), KeysOf(x, slices), ItemSizes(ItemsOf(slices)), |slices|)
  }

  function PassRun(sizes: seq<u64>, slices: seq<KvCacheSlice>): Option<Cursor>
    requires 0 < |sizes| < U32
  {
    RunPass(FreshSegments(sizes), ItemsOf(slices), |slices|)
  }

  /** Both forms give every slice the same segment, offset and size. */
  ghost predicate Agree(sizes: seq<u64>, x: Context, slices: seq<KvCacheSlice>)
    requires 0 < |sizes| < U32
  {
    var p := PassRun(sizes, slices);
    p.Some? && forall j | 0 <= j < |slices| ::
      SamePlace(StoreRun(sizes, x, slices).0.placements, p.value.placed, KeysOf(x, slices), j)
  }

  ghost predicate StoreAccepts(sizes: seq<u64>, x: Context, slices: seq<KvCacheSlice>)
    requires |sizes| < U32
  {
    StoreRun(sizes, x, slices).1 == Returned(true)
  }

  /** With distinct slices the two forms succeed together and then agree, spilling or not. */
  lemma {:induction false} DistinctAgree(sizes: seq<u64>, x: Context, slices: seq<KvCacheSlice>)
    requires 0 < |sizes| < U32 && DistinctIds(slices) && KeysInOrder(ItemsOf(slices))
    ensures StoreAccepts(sizes, x, slices) <==> PassRun(sizes, slices).Some?
    ensures !StoreAccepts(sizes, x, slices) ==> StoreRun(sizes, x, slices).1 == Returned(false)
    ensures StoreAccepts(sizes, x, slices) ==> Agree(sizes, x, slices)
    ensures StoreAccepts(sizes, x, slices) ==>
              SamePlacements(StoreRun(sizes, x, slices).0.placements, PassRun(sizes, slices).value.placed,
                             KeysOf(x, slices), |slices|)
  {
    SlicesLabelled(x, slices);
    RunTogether(sizes, KeysOf(x, slices), GroupsOf(x, slices), ItemsOf(slices), |slices|);
  }

  /** The store files both copies of a repeated slice under one placement; the pass cannot. */
  lemma {:induction false} RepeatedKeyDisagrees(sizes: seq<u64>, keys: seq<string>, items: seq<Item>, i: nat, j: nat,
                                                placements: map<string, KeyPlacement>)
    requires 0 < |sizes| < U32 && i < j < |keys| == |items| && keys[i] == keys[j] && items[i].size > 0
    requires RunPass(FreshSegments(sizes), items, |items|).Some?
    ensures var placed := RunPass(FreshSegments(sizes), items, |items|).value.placed;
            !SamePlace(placements, placed, keys, i) || !SamePlace(placements, placed, keys, j)
  {
    PassPlacesWell(sizes, items, |items|);
  }

  lemma {:induction false} RepeatDisagrees(sizes: seq<u64>, x: Context, slices: seq<KvCacheSlice>)
    requires 0 < |sizes| < U32 && !DistinctIds(slices)
    requires forall i | 0 <= i < |slices| :: slices[i].sizeBytes > 0
    ensures !Agree(sizes, x, slices)
  {
    var i, j :| 0 <= i < j < |slices| && slices[i].Id() == slices[j].Id();
    SlicePairLabelled(x, slices[i], slices[j]);
    if PassRun(sizes, slices).Some? {
      RepeatedKeyDisagrees(sizes, KeysOf(x, slices), ItemsOf(slices), i, j, StoreRun(sizes, x, slices).0.placements);
    }
  }

  /**
   * For every pool-size vector the store accepts: the runtime pass places every slice as the store does
   * if and only if no layer repeats the name of an active cache.
   */
  lemma {:induction false} FastFormRefinesIff(sizes: seq<u64>, x: Context, ch: seq<Channel>, keyCount: u64)
    requires 0 < |sizes| < U32 && keyCount > 0
    requires StoreAccepts(sizes, x, SlicesUpTo(ch, keyCount))
    ensures Agree(sizes, x, SlicesUpTo(ch, keyCount)) <==> DistinctActiveNames(ch)
  {
    var slices := SlicesUpTo(ch, keyCount);
    if DistinctActiveNames(ch) {
      SlicesDistinct(ch, keyCount);
      WorkloadKeysInOrder(ch, keyCount);
      DistinctAgree(sizes, x, slices);
    } else {
      RepeatedNameRepeatsId(ch, keyCount);
      SlicesConsecutive(ch, keyCount);
      RepeatDisagrees(sizes, x, slices);
    }
  }
}
