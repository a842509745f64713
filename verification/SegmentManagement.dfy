/**
 * The bump allocator under every placement: one segment per rank, allocation from a preferred segment
 * with a wrap-around search when it is full.
 */
module SegmentManagement {
  import opened Numbers

  datatype Segment = Segment(id: u32, size: u64, used: u64) {
    predicate HasRoom(n: u64) {
      used <= size && size - used >= n
    }
  }

  datatype SegmentAllocation = SegmentAllocation(segmentId: u32, offset: u64, size: u64)

  function Count(segs: seq<Segment>): (c: u32)
    ensures c <= |segs|
  {
    Wrap32(|segs|)
  }

  /** The i-th segment looked at when the search starts at start: 32-bit index arithmetic. */
  function Probe(start: u32, i: nat, count: nat): (p: nat)
    requires count > 0
    ensures p < count
  {
    Rem(Wrap32(start + i), count)
  }

  function FirstFit(segs: seq<Segment>, start: u32, size: u64, i: nat): (r: Option<nat>)
    requires i <= Count(segs)
    ensures r.Some? ==> r.value < |segs| && segs[r.value].HasRoom(size)
    decreases Count(segs) - i
  {
    if i == Count(segs) then None
    else
      var p := Probe(start, i, Count(segs));
      if segs[p].HasRoom(size) then Some(p) else FirstFit(segs, start, size, i + 1)
  }

  /** Bump one segment by size. */
  function Bump(segs: seq<Segment>, g: nat, size: u64): seq<Segment>
    requires g < |segs| && segs[g].HasRoom(size)
  {
    segs[g := segs[g].(used := segs[g].used + size)]
  }

  function Allocate(segs: seq<Segment>, start: u32, size: u64): (Option<SegmentAllocation>, seq<Segment>) {
    match FirstFit(segs, start, size, 0)
    case None => (None, segs)
    case Some(g) => (Some(SegmentAllocation(segs[g].id, segs[g].used, size)), Bump(segs, g, size))
  }

  class SegmentManager {
    var segments: seq<Segment>

    constructor ()
      ensures segments == []
    {
      segments := [];
    }

    method AddSegment(id: u32, size: u64)
      modifies this
      ensures segments == old(segments) + [Segment(id, size, 0)]
    {
      segments := segments + [Segment(id, size, 0)];
    }

    /** SegmentManager::AllocateFrom. */
    method AllocateFrom(start: u32, size: u64) returns (r: Option<SegmentAllocation>)
      modifies this
      ensures (r, segments) == Allocate(old(segments), start, size)
    {
      if |segments| == 0 {
        return None;
      }
      var count := Wrap32(|segments|);
      for i := 0 to count
        invariant segments == old(segments)
        invariant FirstFit(segments, start, size, 0) == FirstFit(segments, start, size, i)
      {
        var p := Rem(Wrap32(start + i), count);
        var segment := segments[p];
        if segment.used > segment.size || segment.size - segment.used < size {
          continue;
        }
        var offset := segment.used;
        segments := segments[p := segment.(used := segment.used + size)];
        return Some(SegmentAllocation(segment.id, offset, size));
      }
      return None;
    }
  }

  // ---------------------------------------------------------------- segment vectors

  /** Unused segments whose ids are their positions, as the benchmark builds them from pool sizes. */
  function FreshSegments(sizes: seq<u64>): (segs: seq<Segment>)
    requires |sizes| < U32
    ensures |segs| == |sizes|
    ensures forall g | 0 <= g < |sizes| :: segs[g] == Segment(g, sizes[g], 0)
  {
    seq(|sizes|, g requires 0 <= g < |sizes| => Segment(g, sizes[g], 0))
  }

  /** BuildSegmentManagerFromPoolSizes. */
  method BuildFromPoolSizes(sizes: seq<u64>) returns (m: SegmentManager)
    requires |sizes| < U32
    ensures fresh(m) && m.segments == FreshSegments(sizes)
  {
    m := new SegmentManager();
    for i := 0 to |sizes|
      invariant fresh(m) && |m.segments| == i
      invariant forall g | 0 <= g < i :: m.segments[g] == Segment(g, sizes[g], 0)
    {
      m.AddSegment(i, sizes[i]);
    }
  }

  // ---------------------------------------------------------------- any run of requests

  datatype Request = Request(start: u32, size: u64)

  /** Segments keep their ids and sizes and are never overfull. */
  ghost predicate SameShape(segs: seq<Segment>, sizes: seq<u64>) {
    && |segs| == |sizes|
    && forall g | 0 <= g < |sizes| :: segs[g].id == g && segs[g].size == sizes[g] && segs[g].used <= sizes[g]
  }

  /**
   * An allocation fills one segment, by exactly the requested size, at its old fill level; a refusal changes nothing.
   */
  lemma {:induction false} AllocateShape(segs: seq<Segment>, sizes: seq<u64>, start: u32, size: u64)
    requires SameShape(segs, sizes)
    ensures var (r, after) := Allocate(segs, start, size);
            && SameShape(after, sizes)
            && (r.None? ==> after == segs)
            && (r.Some? ==>
                  && r.value.segmentId < |sizes| && r.value.size == size
                  && r.value.offset == segs[r.value.segmentId].used
                  && segs[r.value.segmentId].HasRoom(size) && after == Bump(segs, r.value.segmentId, size))
  {
  }

  /** A run: the segment vectors around each request and the answers given. */
  ghost predicate IsRun(sizes: seq<u64>, reqs: seq<Request>, states: seq<seq<Segment>>,
                        answers: seq<Option<SegmentAllocation>>) {
    && |sizes| < U32 && |states| == |reqs| + 1 && |answers| == |reqs|
    && states[0] == FreshSegments(sizes)
    && forall i | 0 <= i < |reqs| :: Serves(states[i], reqs[i], answers[i], states[i + 1])
  }

  predicate Serves(before: seq<Segment>, q: Request, answer: Option<SegmentAllocation>, after: seq<Segment>) {
    (answer, after) == Allocate(before, q.start, q.size)
  }

  /** Bytes handed out from segment g by the first n answers. */
  function HandedOut(answers: seq<Option<SegmentAllocation>>, n: nat, g: nat): nat
    requires n <= |answers|
  {
    if n == 0 then 0
    else HandedOut(answers, n - 1, g)
         + (if answers[n - 1].Some? && answers[n - 1].value.segmentId == g then answers[n - 1].value.size else 0)
  }

  /** Segment by segment: the fill level is what the answers handed out so far. */
  ghost predicate Filled(sizes: seq<u64>, segs: seq<Segment>, answers: seq<Option<SegmentAllocation>>, n: nat)
    requires n <= |answers|
  {
    SameShape(segs, sizes) && forall g | 0 <= g < |sizes| :: segs[g].used == HandedOut(answers, n, g)
  }

  lemma {:induction false} RunFills(sizes: seq<u64>, reqs: seq<Request>, states: seq<seq<Segment>>,
                                    answers: seq<Option<SegmentAllocation>>, n: nat)
    requires IsRun(sizes, reqs, states, answers) && n <= |reqs|
    ensures Filled(sizes, states[n], answers, n)
  {
    if n > 0 {
      RunFills(sizes, reqs, states, answers, n - 1);
      assert Serves(states[n - 1], reqs[n - 1], answers[n - 1], states[n]);
      AllocateShape(states[n - 1], sizes, reqs[n - 1].start, reqs[n - 1].size);
    }
  }

  /**
   * Whatever is requested, spilling or not, the allocations of a segment lie end to end from 0: each one starts
   * where the bytes handed out before it end, inside the segment; a refusal changes no segment.
   */
  lemma {:induction false} AllocationsTile(sizes: seq<u64>, reqs: seq<Request>, states: seq<seq<Segment>>,
                                           answers: seq<Option<SegmentAllocation>>, i: nat)
    requires IsRun(sizes, reqs, states, answers) && i < |reqs|
    ensures Filled(sizes, states[|reqs|], answers, |reqs|)
    ensures answers[i].None? ==> states[i + 1] == states[i]
    ensures answers[i].Some? ==>
              var a := answers[i].value;
              && a.segmentId < |sizes| && a.size == reqs[i].size
              && a.offset == HandedOut(answers, i, a.segmentId) && a.offset + a.size <= sizes[a.segmentId]
  {
    RunFills(sizes, reqs, states, answers, |reqs|);
    RunFills(sizes, reqs, states, answers, i);
    assert Serves(states[i], reqs[i], answers[i], states[i + 1]);
    AllocateShape(states[i], sizes, reqs[i].start, reqs[i].size);
  }

  lemma {:induction false} HandedOutMonotone(answers: seq<Option<SegmentAllocation>>, i: nat, j: nat, g: nat)
    requires i <= j <= |answers|
    ensures HandedOut(answers, i, g) <= HandedOut(answers, j, g)
    decreases j
  {
    if i < j {
      HandedOutMonotone(answers, i, j - 1, g);
    }
  }

  /** Allocations of one run never overlap. */
  lemma {:induction false} AllocationsDisjoint(sizes: seq<u64>, reqs: seq<Request>, states: seq<seq<Segment>>,
                                               answers: seq<Option<SegmentAllocation>>, i: nat, j: nat)
    requires IsRun(sizes, reqs, states, answers) && i < j < |reqs| && answers[i].Some? && answers[j].Some?
    requires answers[i].value.segmentId == answers[j].value.segmentId
    ensures answers[i].value.offset + answers[i].value.size <= answers[j].value.offset
  {
    AllocationsTile(sizes, reqs, states, answers, i);
    AllocationsTile(sizes, reqs, states, answers, j);
    HandedOutMonotone(answers, i + 1, j, answers[i].value.segmentId);
  }

  // ---------------------------------------------------------------- completeness of the search

  /** Segment g is looked at by a search that starts at start. */
  ghost predicate Visited(start: u32, count: nat, g: nat)
    requires count > 0
  {
    exists i :: 0 <= i < count && Probe(start, i, count) == g
  }

  /** While the index sum cannot wrap, the search visits every segment. */
  lemma {:induction false} ProbeReaches(start: u32, g: nat, count: nat) returns (i: nat)
    requires g < count && start + count <= U32
    ensures i < count && Probe(start, i, count) == g
  {
    var r := Rem(start, count);
    i := if g >= r then g - r else g + count - r;
    assert Wrap32(start + i) == start + i;
    RemAdd(start, i, count);
    assert Rem(r + i, count) == g;
  }

  /** Once it can wrap, the segment before the first one is never looked at. */
  lemma {:induction false} ProbeMisses(start: u32, i: nat, count: nat)
    requires i < count && start < count < U32 < start + count
    ensures start > 0 && Probe(start, i, count) != start - 1
  {
    var x := start + i;
    assert x < count + count;
    if x < U32 {
      assert Rem(x, count) == if x < count then x else x - count;
    } else {
      assert Rem(x, 0x1_0000_0000) == Rem(x - 0x1_0000_0000, 0x1_0000_0000);
      assert Wrap32(x) == x - U32;
    }
  }

  /** The search visits every segment if and only if its last index does not wrap. */
  lemma {:induction false} VisitsAllIff(start: u32, count: nat)
    requires start < count < U32
    ensures (forall g | 0 <= g < count :: Visited(start, count, g)) <==> start + count <= U32
  {
    if start + count <= U32 {
      forall g | 0 <= g < count
        ensures Visited(start, count, g)
      {
        var i := ProbeReaches(start, g, count);
      }
    } else {
      forall i | 0 <= i < count
        ensures Probe(start, i, count) != start - 1
      {
        ProbeMisses(start, i, count);
      }
      assert !Visited(start, count, start - 1);
    }
  }

  lemma {:induction false} FirstFitMisses(segs: seq<Segment>, start: u32, size: u64, i: nat, k: nat)
    requires i <= k < Count(segs) && FirstFit(segs, start, size, i).None?
    ensures !segs[Probe(start, k, Count(segs))].HasRoom(size)
    decreases k - i
  {
    if i < k {
      FirstFitMisses(segs, start, size, i + 1, k);
    }
  }

  lemma {:induction false} AllMiss(segs: seq<Segment>, start: u32, size: u64, i: nat)
    requires i <= Count(segs) && forall k | 0 <= k < Count(segs) :: !segs[Probe(start, k, Count(segs))].HasRoom(size)
    ensures FirstFit(segs, start, size, i).None?
    decreases Count(segs) - i
  {
    if i < Count(segs) {
      AllMiss(segs, start, size, i + 1);
    }
  }

  /** While the last index looked at does not wrap, a request is refused exactly when no segment has room for it. */
  lemma {:induction false} RefusedIffFull(segs: seq<Segment>, start: u32, size: u64)
    requires |segs| < U32 && start + |segs| <= U32
    ensures Allocate(segs, start, size).0.None? <==> forall g | 0 <= g < |segs| :: !segs[g].HasRoom(size)
  {
    if FirstFit(segs, start, size, 0).None? {
      forall g | 0 <= g < |segs|
        ensures !segs[g].HasRoom(size)
      {
        var i := ProbeReaches(start, g, |segs|);
        FirstFitMisses(segs, start, size, 0, i);
      }
    }
  }

  /** When it does wrap, a request is refused although the segment before the first one has room. */
  lemma {:induction false} RefusedWithRoom(segs: seq<Segment>, start: u32, size: u64)
    requires start < |segs| < U32 < start + |segs|
    requires forall g | 0 <= g < |segs| && g != start - 1 :: !segs[g].HasRoom(size)
    ensures Allocate(segs, start, size).0.None?
  {
    forall i | 0 <= i < |segs|
      ensures !segs[Probe(start, i, |segs|)].HasRoom(size)
    {
      ProbeMisses(start, i, |segs|);
    }
    AllMiss(segs, start, size, 0);
  }

  // ---------------------------------------------------------------- which segment

  /** How many segments a search from start passes before it comes to g, going up and round. */
  function Steps(start: nat, g: nat, count: nat): int {
    if g >= start then g - start else g + count - start
  }

  lemma {:induction false} ProbeAtSteps(start: u32, g: nat, count: nat)
    requires g < count && start < count && start + count <= U32
    ensures 0 <= Steps(start, g, count) < count && Probe(start, Steps(start, g, count), count) == g
  {
    var x := start + Steps(start, g, count);
    assert Wrap32(x) == x;
    assert Rem(x, count) == if x < count then x else x - count;
  }

  lemma {:induction false} FirstFitIsFirst(segs: seq<Segment>, start: u32, size: u64, i: nat) returns (k: nat)
    requires i <= Count(segs) && FirstFit(segs, start, size, i).Some?
    ensures i <= k < Count(segs) && FirstFit(segs, start, size, i).value == Probe(start, k, Count(segs))
    ensures forall j | i <= j < k :: !segs[Probe(start, j, Count(segs))].HasRoom(size)
    decreases Count(segs) - i
  {
    if segs[Probe(start, i, Count(segs))].HasRoom(size) {
      k := i;
    } else {
      k := FirstFitIsFirst(segs, start, size, i + 1);
    }
  }

  /**
   * While the index sum cannot wrap: the bytes come from a segment that has them free, at its old fill, and every
   * segment that lies before it, going up from start and round, has too little free.
   */
  lemma {:induction false} AllocatesNearest(segs: seq<Segment>, start: u32, size: u64) returns (g: nat)
    requires start < |segs| < U32 && start + |segs| <= U32 && Allocate(segs, start, size).0.Some?
    ensures g < |segs| && segs[g].used + size <= segs[g].size
    ensures Allocate(segs, start, size)
            == (Some(SegmentAllocation(segs[g].id, segs[g].used, size)),
                segs[g := segs[g].(used := segs[g].used + size)])
    ensures forall h | 0 <= h < |segs| && Steps(start, h, |segs|) < Steps(start, g, |segs|) ::
              segs[h].used + size > segs[h].size
  {
    var n := |segs|;
    assert Count(segs) == n;
    g := FirstFit(segs, start, size, 0).value;
    var k := FirstFitIsFirst(segs, start, size, 0);
    ProbeAtSteps(start, g, n);
    hide FirstFit, Wrap32;
    forall h | 0 <= h < n && Steps(start, h, n) < Steps(start, g, n)
      ensures segs[h].used + size > segs[h].size
    {
      ProbeAtSteps(start, h, n);
      var i := Steps(start, h, n);
      if i >= k {
        ProbesApart(start, k, Steps(start, g, n), n);
      }
      assert !segs[Probe(start, i, n)].HasRoom(size);
    }
  }

  /** Different probes look at different segments. */
  lemma {:induction false} ProbesApart(start: u32, i: nat, j: nat, count: nat)
    requires i < count && j < count && start < count && start + count <= U32
    requires Probe(start, i, count) == Probe(start, j, count)
    ensures i == j
  {
    var x, y := start + i, start + j;
    assert Wrap32(x) == x && Wrap32(y) == y;
    assert Rem(x, count) == if x < count then x else x - count;
    assert Rem(y, count) == if y < count then y else y - count;
  }
}
