/**
 * The string-keyed store: placements are memoised by slice key, and the first slice of a key group
 * fixes the segment in which the whole group is allocated.
 */
module KvStorage {
  import opened Numbers
  import opened PlacementKeys
  import opened SegmentManagement

  datatype BufferView = BufferView(addr: u64, size: u64)

  datatype KeyPlacement = KeyPlacement(key: string, segmentId: u32, offset: u64, size: u64)

  /** The value of a store: what its fields hold. */
  datatype StoreState = StoreState(segs: seq<Segment>, placements: map<string, KeyPlacement>,
                                   groups: map<string, u32>, next: u32)

  function Empty(segs: seq<Segment>): StoreState {
    StoreState(segs, map[], map[], 0)
  }

  function Resolve(st: StoreState, group: string): (StoreState, u32)
    requires Count(st.segs) > 0
  {
    if group in st.groups then (st, st.groups[group])
    else
      var seg := Rem(st.next, Count(st.segs));
      (st.(groups := st.groups[group := seg], next := Wrap32(st.next + 1)), seg)
  }

  /** Allocate a new slice, preferably from the given segment, and record where it went. */
  function AllocateInto(rs: StoreState, key: string, seg: u32, size: u64): (StoreState, bool) {
    var (r, after) := Allocate(rs.segs, seg, size);
    if r.None? then (rs, false)
    else
      var p := KeyPlacement(key, r.value.segmentId, r.value.offset, r.value.size);
      (rs.(segs := after, placements := rs.placements[key := p]), true)
  }

  function EnsureOne(st: StoreState, key: string, size: u64): (StoreState, Outcome<bool>) {
    if key in st.placements then (st, Returned(st.placements[key].size == size))
    else if Count(st.segs) == 0 then (st, Returned(false))
    else
      match ExtractKeyPlacementGroupKey(key)
      case Threw(e) => (st, Threw(e))
      case Returned(group) =>
        var (rs, seg) := Resolve(st, group);
        var (after, ok) := AllocateInto(rs, key, seg, size);
        (after, Returned(ok))
  }

  /** Place the first n slices in order and stop at the first one that is refused or throws. */
  function EnsureAll(st: StoreState, keys: seq<string>, sizes: seq<u64>, n: nat): (StoreState, Outcome<bool>)
    requires n <= |keys| == |sizes|
  {
    if n == 0 then (st, Returned(true))
    else
      var (mid, r) := EnsureAll(st, keys, sizes, n - 1);
      if r != Returned(true) then (mid, r) else EnsureOne(mid, keys[n - 1], sizes[n - 1])
  }

  lemma {:induction false} EnsureAllStops(st: StoreState, keys: seq<string>, sizes: seq<u64>, i: nat, n: nat)
    requires i <= n <= |keys| == |sizes| && EnsureAll(st, keys, sizes, i).1 != Returned(true)
    ensures EnsureAll(st, keys, sizes, n) == EnsureAll(st, keys, sizes, i)
    decreases n
  {
    if i < n {
      EnsureAllStops(st, keys, sizes, i, n - 1);
    }
  }

  function SizesOf(buffers: seq<BufferView>): (s: seq<u64>)
    ensures |s| == |buffers|
    ensures forall i {:trigger s[i]} | 0 <= i < |s| :: s[i] == buffers[i].size
  {
    seq(|buffers|, i requires 0 <= i < |buffers| => buffers[i].size)
  }

  predicate InputOk(keys: seq<string>, buffers: seq<BufferView>) {
    |keys| > 0 && |keys| == |buffers| && forall i | 0 <= i < |buffers| :: buffers[i].addr != 0 && buffers[i].size != 0
  }

  /** KvStore::CheckInput. */
  method CheckInput(keys: seq<string>, buffers: seq<BufferView>) returns (ok: bool)
    ensures ok == InputOk(keys, buffers)
    ensures ok <==> |keys| == |buffers| > 0
                    && forall i | 0 <= i < |buffers| :: buffers[i].addr > 0 && buffers[i].size > 0
  {
    if |keys| == 0 || |keys| != |buffers| {
      return false;
    }
    for i := 0 to |buffers|
      invariant forall j | 0 <= j < i :: buffers[j].addr != 0 && buffers[j].size != 0
    {
      if buffers[i].addr == 0 || buffers[i].size == 0 {
        return false;
      }
    }
    return true;
  }

  class KvStore {
    const manager: SegmentManager
    var placements: map<string, KeyPlacement>
    var keyGroupSegments: map<string, u32>
    var nextSegment: u32

    ghost function View(): StoreState
      reads this, manager
    {
      StoreState(manager.segments, placements, keyGroupSegments, nextSegment)
    }

    constructor (manager: SegmentManager)
      ensures this.manager == manager && View() == Empty(manager.segments)
    {
      this.manager := manager;
      placements := map[];
      keyGroupSegments := map[];
      nextSegment := 0;
    }

    /** KvStore::ResolveSegmentForKeyGroup: a known group keeps its segment, a new one needs a segment to go to. */
    method ResolveSegmentForKeyGroup(group: string) returns (r: Outcome<u32>)
      modifies this
      ensures r.Returned? <==> group in old(keyGroupSegments) || Count(manager.segments) > 0
      ensures r.Threw? ==> View() == old(View())
      ensures group in old(keyGroupSegments) ==> View() == old(View()) && r == Returned(keyGroupSegments[group])
      ensures Count(manager.segments) > 0 ==> r.Returned? && (View(), r.value) == Resolve(old(View()), group)
    {
      if group in keyGroupSegments {
        return Returned(keyGroupSegments[group]);
      }
      if Wrap32(|manager.segments|) == 0 {
        return Threw("no segments available for key placement");
      }
      var seg := Rem(nextSegment, Wrap32(|manager.segments|));
      nextSegment := Wrap32(nextSegment + 1);
      keyGroupSegments := keyGroupSegments[group := seg];
      return Returned(seg);
    }

    /** KvStore::EnsurePlacement. */
    method EnsurePlacement(key: string, size: u64) returns (r: Outcome<bool>)
      modifies this, manager
      ensures (View(), r) == EnsureOne(old(View()), key, size)
    {
      if key in placements {
        return Returned(placements[key].size == size);
      }
      if Wrap32(|manager.segments|) == 0 {
        return Returned(false);
      }
      var extracted := ExtractKeyPlacementGroupKey(key);
      if extracted.Threw? {
        return Threw(extracted.what);
      }
      var seg := ResolveSegmentForKeyGroup(extracted.value);
      if seg.Threw? {
        return Threw(seg.what);
      }
      var a := manager.AllocateFrom(seg.value, size);
      if a.None? {
        return Returned(false);
      }
      placements := placements[key := KeyPlacement(key, a.value.segmentId, a.value.offset, a.value.size)];
      return Returned(true);
    }

    /** KvStore::EnsurePlacements. */
    method EnsurePlacements(keys: seq<string>, buffers: seq<BufferView>) returns (r: Outcome<bool>)
      modifies this, manager
      ensures !InputOk(keys, buffers) ==> r == Returned(false) && View() == old(View())
      ensures InputOk(keys, buffers) ==> (View(), r) == EnsureAll(old(View()), keys, SizesOf(buffers), |keys|)
    {
      var ok := CheckInput(keys, buffers);
      if !ok {
        return Returned(false);
      }
      ghost var sizes := SizesOf(buffers);
      for i := 0 to |keys|
        invariant EnsureAll(old(View()), keys, sizes, i) == (View(), Returned(true))
      {
        var one := EnsurePlacement(keys[i], buffers[i].size);
        if one != Returned(true) {
          EnsureAllStops(old(View()), keys, sizes, i + 1, |keys|);
          return one;
        }
      }
      return Returned(true);
    }
  }

  // ---------------------------------------------------------------- a key that comes again

  /** What a store has placed it keeps, and a slice it accepts is placed with the size asked for. */
  lemma {:induction false} AcceptedIsPlaced(st: StoreState, key: string, size: u64)
    ensures forall k | k in st.placements :: k in EnsureOne(st, key, size).0.placements
    ensures forall k | k in st.placements :: EnsureOne(st, key, size).0.placements[k] == st.placements[k]
    ensures EnsureOne(st, key, size).1 == Returned(true) ==>
              key in EnsureOne(st, key, size).0.placements && EnsureOne(st, key, size).0.placements[key].size == size
    ensures ExtractKeyPlacementGroupKey(key).Returned? ==> EnsureOne(st, key, size).1.Returned?
  {
    hide ExtractKeyPlacementGroupKey, FirstFit, Wrap32;
  }

  /** A list of slices that is accepted is placed, each with its size. */
  lemma {:induction false} AcceptedArePlaced(st: StoreState, keys: seq<string>, sizes: seq<u64>, n: nat)
    requires n <= |keys| == |sizes| && EnsureAll(st, keys, sizes, n).1 == Returned(true)
    ensures forall i | 0 <= i < n ::
              && keys[i] in EnsureAll(st, keys, sizes, n).0.placements
              && EnsureAll(st, keys, sizes, n).0.placements[keys[i]].size == sizes[i]
  {
    if n > 0 {
      AcceptedArePlaced(st, keys, sizes, n - 1);
      AcceptedIsPlaced(EnsureAll(st, keys, sizes, n - 1).0, keys[n - 1], sizes[n - 1]);
      hide EnsureOne;
    }
  }

  lemma {:induction false} GroupedNeverThrow(st: StoreState, keys: seq<string>, sizes: seq<u64>, n: nat)
    requires n <= |keys| == |sizes| && forall i | 0 <= i < |keys| :: ExtractKeyPlacementGroupKey(keys[i]).Returned?
    ensures EnsureAll(st, keys, sizes, n).1.Returned?
  {
    if n > 0 {
      GroupedNeverThrow(st, keys, sizes, n - 1);
      AcceptedIsPlaced(EnsureAll(st, keys, sizes, n - 1).0, keys[n - 1], sizes[n - 1]);
      hide EnsureOne, ExtractKeyPlacementGroupKey;
    }
  }

  lemma {:induction false} TrueOrFalse(answer: Outcome<bool>)
    requires answer.Returned?
    ensures answer == Returned(true) || answer == Returned(false)
  {
    if answer.value {
    } else {
    }
  }

  /** A list that asks for one key with two sizes is not accepted; if all keys are well-formed the answer is false. */
  lemma {:induction false} SizesMustAgree(st: StoreState, keys: seq<string>, sizes: seq<u64>, i: nat, j: nat)
    requires i < j < |keys| == |sizes| && keys[i] == keys[j] && sizes[i] != sizes[j]
    ensures EnsureAll(st, keys, sizes, |keys|).1 != Returned(true)
    ensures (forall k | 0 <= k < |keys| :: ExtractKeyPlacementGroupKey(keys[k]).Returned?) ==>
              EnsureAll(st, keys, sizes, |keys|).1 == Returned(false)
  {
    hide EnsureOne, ExtractKeyPlacementGroupKey;
    if EnsureAll(st, keys, sizes, |keys|).1 == Returned(true) {
      AcceptedArePlaced(st, keys, sizes, |keys|);
    }
    if forall k | 0 <= k < |keys| :: ExtractKeyPlacementGroupKey(keys[k]).Returned? {
      GroupedNeverThrow(st, keys, sizes, |keys|);
      TrueOrFalse(EnsureAll(st, keys, sizes, |keys|).1);
    }
  }

  /** A key that is already placed changes nothing, and is accepted exactly if its size is the same. */
  lemma {:induction false} KnownKey(st: StoreState, key: string, size: u64)
    requires key in st.placements
    ensures EnsureOne(st, key, size).0 == st
    ensures EnsureOne(st, key, size).1 == Returned(true) <==> st.placements[key].size == size
    ensures EnsureOne(st, key, size).1.Returned?
  {
  }
}
