/**
 * Where slices go. The reference layout puts every slice of key k into segment k mod n, packed in transfer
 * order; the runtime computes its layout by a single pass over the slices that may spill into other segments.
 */
module Layout {
  import opened Numbers
  import opened SegmentManagement

  /** What a placement pass sees of a slice: the key it belongs to and its size. */
  datatype Item = Item(key: nat, size: u64)

  datatype Placement = Placement(segment: nat, offset: nat, size: nat)

  /** Key indices start at 0, never decrease and never skip. */
  ghost predicate KeysInOrder(items: seq<Item>) {
    && (items != [] ==> items[0].key == 0)
    && (forall i | 0 < i < |items| :: items[i - 1].key <= items[i].key <= items[i - 1].key + 1)
    && (forall i | 0 <= i < |items| :: items[i].key < NO_KEY)
  }

  // ---------------------------------------------------------------- reference layout

  /** The segment round-robin assignment gives to the key-th key: a 32-bit counter modulo the segment count. */
  function Home(key: nat, n: nat): (g: nat)
    requires n > 0
    ensures g < n
  {
    Rem(Wrap32(key), n)
  }

  /** Below 2^32 keys, and for every key if n divides 2^32, that is the key modulo n. */
  lemma {:induction false} HomeIsModulo(key: nat, n: nat)
    requires n > 0
    ensures key < U32 || U32 % n == 0 ==> Home(key, n) == key % n
  {
    RemIsModulo(Wrap32(key), n);
    RemIsModulo(key, n);
    if key < U32 {
      assert Wrap32(key) == key;
    } else if U32 % n == 0 {
      RemIsModulo(U32, n);
      RemOfWrapped(key, n);
    }
  }

  lemma {:induction false} RemOfWrapped(key: nat, n: nat)
    requires n > 0 && Rem(U32, n) == 0
    ensures Rem(Wrap32(key), n) == Rem(key, n)
  {
    if key >= U32 {
      RemOfWrapped(key - U32, n);
      RemAdd(U32, key - U32, n);
    }
  }

  /** Bytes that the first i items put into segment g when every item goes home. */
  function UsedIn(items: seq<Item>, i: nat, n: nat, g: nat): nat
    requires n > 0 && i <= |items|
  {
    if i == 0 then 0
    else UsedIn(items, i - 1, n, g) + (if Home(items[i - 1].key, n) == g then items[i - 1].size else 0)
  }

  /** The reference placement of item i: at home, after the earlier items with the same home. */
  function Ideal(items: seq<Item>, n: nat, i: nat): Placement
    requires n > 0 && i < |items|
  {
    var g := Home(items[i].key, n);
    Placement(g, UsedIn(items, i, n, g), items[i].size)
  }

  /** Every segment is large enough for the items at home in it. */
  ghost predicate Fits(items: seq<Item>, sizes: seq<u64>)
    requires |sizes| > 0
  {
    forall g | 0 <= g < |sizes| :: UsedIn(items, |items|, |sizes|, g) <= sizes[g]
  }

  lemma {:induction false} UsedInMonotone(items: seq<Item>, n: nat, g: nat, i: nat, j: nat)
    requires n > 0 && i <= j <= |items|
    ensures UsedIn(items, i, n, g) <= UsedIn(items, j, n, g)
    decreases j
  {
    if i < j {
      UsedInMonotone(items, n, g, i, j - 1);
    }
  }

  /** In the reference layout an item ends no later than the bytes its segment holds. */
  lemma {:induction false} IdealEnd(items: seq<Item>, n: nat, i: nat)
    requires n > 0 && i < |items|
    ensures Ideal(items, n, i).offset + Ideal(items, n, i).size <= UsedIn(items, |items|, n, Ideal(items, n, i).segment)
  {
    UsedInMonotone(items, n, Home(items[i].key, n), i + 1, |items|);
  }

  /** Reference placements of one segment do not overlap. */
  lemma {:induction false} IdealDisjoint(items: seq<Item>, n: nat, i: nat, j: nat)
    requires n > 0 && i < j < |items|
    requires Ideal(items, n, i).segment == Ideal(items, n, j).segment
    ensures Ideal(items, n, i).offset + items[i].size <= Ideal(items, n, j).offset
  {
    UsedInMonotone(items, n, Home(items[i].key, n), i + 1, j);
  }

  // ---------------------------------------------------------------- the runtime's single pass

  /** The loop state of the runtime pass. */
  datatype Cursor = Cursor(segs: seq<Segment>, currentKey: nat, selected: u32, next: u32, placed: seq<Placement>)

  /** The key index that no slice has. */
  const NO_KEY: nat := 0xFFFF_FFFF_FFFF_FFFF

  function Start(segs: seq<Segment>): Cursor {
    Cursor(segs, NO_KEY, 0, 0, [])
  }

  /** Taking the next segment in turn when the key changes. */
  function SelectFor(c: Cursor, key: nat): Cursor
    requires Count(c.segs) > 0
  {
    if key == c.currentKey then c
    else c.(currentKey := key, selected := Rem(c.next, Count(c.segs)), next := Wrap32(c.next + 1))
  }

  /** Allocate from the selected segment, or from the next one that has room. */
  function PlaceSelected(d: Cursor, size: u64): Option<Cursor> {
    var (r, after) := Allocate(d.segs, d.selected, size);
    if r.None? then None
    else Some(d.(segs := after, placed := d.placed + [Placement(r.value.segmentId, r.value.offset, r.value.size)]))
  }

  function RunPass(segs: seq<Segment>, items: seq<Item>, i: nat): (r: Option<Cursor>)
    requires Count(segs) > 0 && i <= |items|
    ensures r.Some? ==> |r.value.segs| == |segs| && |r.value.placed| == i
  {
    if i == 0 then Some(Start(segs))
    else
      match RunPass(segs, items, i - 1)
      case None => None
      case Some(c) => PlaceSelected(SelectFor(c, items[i - 1].key), items[i - 1].size)
  }

  /** A pass that fails on a prefix fails on the whole list. */
  lemma {:induction false} RunPassFails(segs: seq<Segment>, items: seq<Item>, i: nat, j: nat)
    requires Count(segs) > 0 && i <= j <= |items| && RunPass(segs, items, i).None?
    ensures RunPass(segs, items, j).None?
    decreases j
  {
    if i < j {
      RunPassFails(segs, items, i, j - 1);
    }
  }

  /** The cursor after a key: its home is selected and the counter has moved past it. */
  ghost predicate CursorAfter(c: Cursor, n: nat, last: Option<nat>)
    requires n > 0
  {
    match last
    case None => c.currentKey == NO_KEY && c.next == 0
    case Some(k) => c.currentKey == k && c.selected == Home(k, n) && c.next == Wrap32(k + 1)
  }

  lemma {:induction false} Wrap32Succ(k: nat)
    ensures Wrap32(Wrap32(k) + 1) == Wrap32(k + 1)
  {
    RemAdd(k, 1, 0x1_0000_0000);
  }

  lemma {:induction false} SelectsHome(c: Cursor, n: nat, last: Option<nat>, key: nat)
    requires 0 < n == |c.segs| < U32 && CursorAfter(c, n, last) && key < NO_KEY
    requires match last case None => key == 0 case Some(k) => k <= key <= k + 1
    ensures CursorAfter(SelectFor(c, key), n, Some(key))
    ensures SelectFor(c, key).segs == c.segs && SelectFor(c, key).placed == c.placed
  {
    assert Count(c.segs) == n;
    Wrap32Succ(key);
  }

  /** The key of the last of the first i items. */
  function LastKey(items: seq<Item>, i: nat): Option<nat>
    requires i <= |items|
  {
    if i == 0 then None else Some(items[i - 1].key)
  }

  lemma {:induction false} NextKeyFollows(items: seq<Item>, i: nat)
    requires KeysInOrder(items) && i < |items|
    ensures items[i].key < NO_KEY
    ensures match LastKey(items, i) case None => items[i].key == 0 case Some(k) => k <= items[i].key <= k + 1
  {
  }

  /** After any successful pass, spilling or not, the selected segment is the home of the last key. */
  lemma {:induction false} PassSelectsHome(sizes: seq<u64>, items: seq<Item>, i: nat)
    requires 0 < |sizes| < U32 && KeysInOrder(items) && i <= |items|
    requires RunPass(FreshSegments(sizes), items, i).Some?
    ensures var c := RunPass(FreshSegments(sizes), items, i).value;
            SameShape(c.segs, sizes) && CursorAfter(c, |sizes|, LastKey(items, i))
  {
    if i > 0 {
      PassSelectsHome(sizes, items, i - 1);
      NextKeyFollows(items, i - 1);
      var c := RunPass(FreshSegments(sizes), items, i - 1).value;
      SelectsHome(c, |sizes|, LastKey(items, i - 1), items[i - 1].key);
      AllocateShape(c.segs, sizes, SelectFor(c, items[i - 1].key).selected, items[i - 1].size);
    }
  }

  /** What a pass has placed so far: inside the filled part of its segment, and without overlap. */
  ghost predicate PlacedWell(placed: seq<Placement>, segs: seq<Segment>, items: seq<Item>, n: nat)
    requires n <= |items|
  {
    && |placed| == n
    && (forall i | 0 <= i < n ::
          && placed[i].size == items[i].size && placed[i].segment < |segs|
          && placed[i].offset + placed[i].size <= segs[placed[i].segment].used)
    && (forall i, j | 0 <= i < j < n && placed[i].segment == placed[j].segment ::
          placed[i].offset + placed[i].size <= placed[j].offset)
  }

  lemma {:induction false} PlaceWell(sizes: seq<u64>, d: Cursor, items: seq<Item>, n: nat)
    requires n < |items| && SameShape(d.segs, sizes) && PlacedWell(d.placed, d.segs, items, n)
    requires PlaceSelected(d, items[n].size).Some?
    ensures var e := PlaceSelected(d, items[n].size).value;
            SameShape(e.segs, sizes) && PlacedWell(e.placed, e.segs, items, n + 1)
  {
    var e := PlaceSelected(d, items[n].size).value;
    AllocateShape(d.segs, sizes, d.selected, items[n].size);
    forall i | 0 <= i < n
      ensures e.placed[i] == d.placed[i]
      ensures e.placed[i].offset + e.placed[i].size <= e.segs[e.placed[i].segment].used
      ensures e.placed[i].segment == e.placed[n].segment ==> e.placed[i].offset + e.placed[i].size <= e.placed[n].offset
    {
      assert e.placed[i] == d.placed[i];
    }
  }

  /** Spilling or not, a successful pass places every item with its size, inside a segment, without overlap. */
  lemma {:induction false} PassPlacesWell(sizes: seq<u64>, items: seq<Item>, i: nat)
    requires 0 < |sizes| < U32 && i <= |items| && RunPass(FreshSegments(sizes), items, i).Some?
    ensures var c := RunPass(FreshSegments(sizes), items, i).value;
            SameShape(c.segs, sizes) && PlacedWell(c.placed, c.segs, items, i)
  {
    if i > 0 {
      PassPlacesWell(sizes, items, i - 1);
      var c := RunPass(FreshSegments(sizes), items, i - 1).value;
      var d := SelectFor(c, items[i - 1].key);
      assert d.segs == c.segs && d.placed == c.placed;
      assert RunPass(FreshSegments(sizes), items, i) == PlaceSelected(d, items[i - 1].size);
      hide RunPass, SelectFor, PlaceSelected, PlacedWell, SameShape;
      PlaceWell(sizes, d, items, i - 1);
    }
  }

  // ---------------------------------------------------------------- no spill, exactly when it fits

  /** The pass over the first i items produced the reference layout. */
  ghost predicate IdealSoFar(sizes: seq<u64>, items: seq<Item>, i: nat)
    requires 0 < |sizes| < U32 && i <= |items|
  {
    var r := RunPass(FreshSegments(sizes), items, i);
    && r.Some?
    && (forall g | 0 <= g < |sizes| :: r.value.segs[g].used == UsedIn(items, i, |sizes|, g))
    && (forall j | 0 <= j < i :: r.value.placed[j] == Ideal(items, |sizes|, j))
  }

  /** An item whose home has room is placed there, without touching any other segment. */
  lemma {:induction false} HomeFirst(segs: seq<Segment>, home: u32, size: u64)
    requires home < |segs| < U32 && segs[home].HasRoom(size)
    ensures Allocate(segs, home, size)
            == (Some(SegmentAllocation(segs[home].id, segs[home].used, size)), Bump(segs, home, size))
  {
    assert Probe(home, 0, Count(segs)) == home;
    assert FirstFit(segs, home, size, 0) == Some(home as nat);
  }

  lemma {:induction false} RoomAtHome(sizes: seq<u64>, items: seq<Item>, i: nat, segs: seq<Segment>)
    requires 0 < |sizes| < U32 && Fits(items, sizes) && i < |items| && SameShape(segs, sizes)
    requires forall g | 0 <= g < |sizes| :: segs[g].used == UsedIn(items, i, |sizes|, g)
    ensures segs[Home(items[i].key, |sizes|)].HasRoom(items[i].size)
  {
    UsedInMonotone(items, |sizes|, Home(items[i].key, |sizes|), i + 1, |items|);
  }

  /** One more item placed at home continues the reference layout. */
  lemma {:induction false} PlacedAtHome(items: seq<Item>, n: nat, i: nat, c: Cursor, e: Cursor)
    requires 0 < n == |c.segs| && i < |items| && |c.placed| == i
    requires forall g | 0 <= g < n :: c.segs[g].used == UsedIn(items, i, n, g)
    requires forall j | 0 <= j < i :: c.placed[j] == Ideal(items, n, j)
    requires c.segs[Home(items[i].key, n)].HasRoom(items[i].size)
             && e.segs == Bump(c.segs, Home(items[i].key, n), items[i].size)
    requires e.placed
             == c.placed + [Placement(Home(items[i].key, n), c.segs[Home(items[i].key, n)].used, items[i].size)]
    ensures forall g | 0 <= g < n :: e.segs[g].used == UsedIn(items, i + 1, n, g)
    ensures forall j | 0 <= j < i + 1 :: e.placed[j] == Ideal(items, n, j)
  {
    hide Home;
  }

  lemma {:induction false} IdealStep(sizes: seq<u64>, items: seq<Item>, i: nat)
    requires 0 < |sizes| < U32 && KeysInOrder(items) && Fits(items, sizes)
    requires i < |items| && IdealSoFar(sizes, items, i)
    ensures IdealSoFar(sizes, items, i + 1)
  {
    var n := |sizes|;
    var c := RunPass(FreshSegments(sizes), items, i).value;
    PassSelectsHome(sizes, items, i);
    NextKeyFollows(items, i);
    SelectsHome(c, n, LastKey(items, i), items[i].key);
    RoomAtHome(sizes, items, i, c.segs);
    HomeFirst(c.segs, Home(items[i].key, n), items[i].size);
    var d := SelectFor(c, items[i].key);
    assert RunPass(FreshSegments(sizes), items, i + 1) == PlaceSelected(d, items[i].size);
    PlacedAtHome(items, n, i, c, PlaceSelected(d, items[i].size).value);
    hide RunPass, SelectFor, PlaceSelected, CursorAfter, Allocate, Fits, KeysInOrder, Home, Ideal, UsedIn;
  }

  lemma {:induction false} FittingPassIsIdeal(sizes: seq<u64>, items: seq<Item>, i: nat)
    requires 0 < |sizes| < U32 && KeysInOrder(items) && Fits(items, sizes) && i <= |items|
    ensures IdealSoFar(sizes, items, i)
  {
    if i > 0 {
      FittingPassIsIdeal(sizes, items, i - 1);
      IdealStep(sizes, items, i - 1);
    }
  }

  /** Every placed item sits in the segment of its key. */
  ghost predicate AllAtHome(items: seq<Item>, placed: seq<Placement>, i: nat, n: nat)
    requires n > 0 && i <= |items|
  {
    |placed| == i && forall j | 0 <= j < i :: placed[j].segment == Home(items[j].key, n)
  }

  lemma {:induction false} AtHomeFillsHomes(sizes: seq<u64>, items: seq<Item>, i: nat)
    requires 0 < |sizes| < U32 && KeysInOrder(items) && i <= |items|
    requires RunPass(FreshSegments(sizes), items, i).Some?
    requires AllAtHome(items, RunPass(FreshSegments(sizes), items, i).value.placed, i, |sizes|)
    ensures forall g | 0 <= g < |sizes| ::
              RunPass(FreshSegments(sizes), items, i).value.segs[g].used == UsedIn(items, i, |sizes|, g)
  {
    if i > 0 {
      var k := i - 1;
      var c, d := RunPass(FreshSegments(sizes), items, k).value, RunPass(FreshSegments(sizes), items, i).value;
      forall j | 0 <= j < k
        ensures c.placed[j].segment == Home(items[j].key, |sizes|)
      {
        assert c.placed[j] == d.placed[j];
      }
      AtHomeFillsHomes(sizes, items, k);
      PassSelectsHome(sizes, items, k);
      AllocateShape(c.segs, sizes, SelectFor(c, items[k].key).selected, items[k].size);
      assert d.placed[k].segment == Home(items[k].key, |sizes|);
      hide Home, KeysInOrder;
    }
  }

  /** The pass succeeds with every slice at home if and only if every segment holds the bytes at home in it. */
  lemma {:induction false} NoSpillIffFits(sizes: seq<u64>, items: seq<Item>)
    requires 0 < |sizes| < U32 && KeysInOrder(items)
    ensures var r := RunPass(FreshSegments(sizes), items, |items|);
            (r.Some? && AllAtHome(items, r.value.placed, |items|, |sizes|)) <==> Fits(items, sizes)
    ensures Fits(items, sizes) ==>
              forall i | 0 <= i < |items| ::
                RunPass(FreshSegments(sizes), items, |items|).value.placed[i] == Ideal(items, |sizes|, i)
  {
    var r := RunPass(FreshSegments(sizes), items, |items|);
    if Fits(items, sizes) {
      FittingPassIsIdeal(sizes, items, |items|);
    }
    if r.Some? && AllAtHome(items, r.value.placed, |items|, |sizes|) {
      AtHomeFillsHomes(sizes, items, |items|);
      PassSelectsHome(sizes, items, |items|);
    }
  }
}
