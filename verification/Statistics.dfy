/**
 * Cost statistics: a counter, a sum and two extremes. One form is updated under a mutex; the other by any number of
 * threads at once, with atomic additions and compare-and-swap loops, while dumps and resets go on.
 */
module Statistics {
  import opened Numbers

  const LARGEST: u64 := 0xFFFF_FFFF_FFFF_FFFF

  datatype Cells = Cells(times: u64, min: u64, max: u64, total: u64)

  const FRESH: Cells := Cells(0, LARGEST, 0, 0)

  /** One cost, recorded by itself. */
  function Record(c: Cells, cost: u64): Cells {
    Cells(Wrap64(c.times + 1), if c.min > cost then cost else c.min, if c.max < cost then cost else c.max,
          Wrap64(c.total + cost))
  }

  /** The plain counters, changed only under the manager's mutex. */
  class CostCounters {
    var times: u64
    var min: u64
    var max: u64
    var total: u64

    ghost function View(): Cells
      reads this
    {
      Cells(times, min, max, total)
    }

    constructor ()
      ensures View() == FRESH && times == 0 && total == 0
    {
      times, min, max, total := 0, LARGEST, 0, 0;
    }

    /** CommStatisticManager::UpdateCost on plain counters. */
    method UpdateCost(cost: u64)
      modifies this
      ensures View() == Record(old(View()), cost)
      ensures times == Wrap64(old(times) + 1) && total == Wrap64(old(total) + cost)
    {
      times := Wrap64(times + 1);
      total := Wrap64(total + cost);
      max := if max < cost then cost else max;
      min := if min > cost then cost else min;
    }

    /** The average a dump prints. */
    method Average() returns (average: u64)
      ensures times == 0 ==> average == 0
      ensures times > 0 ==> average == total / times && average * times <= total < (average + 1) * times
    {
      if times == 0 {
        return 0;
      }
      QuotientBounds(total, times);
      QuotientIsDivision(total, times);
      return Quotient(total, times);
    }

    method Reset()
      modifies this
      ensures View() == FRESH && times == 0 && total == 0
    {
      times := 0;
      max := 0;
      min := LARGEST;
      total := 0;
    }
  }

  /** The sum of the first n numbers. */
  function Sum(costs: seq<u64>, n: nat): nat
    requires n <= |costs|
  {
    if n == 0 then 0 else Sum(costs, n - 1) + costs[n - 1]
  }

  /** Updates after a reset: the counters are the number, the sum, the least and the greatest of the costs. */
  method UpdateCosts(counters: CostCounters, costs: seq<u64>)
    modifies counters
    ensures counters.times == |costs| % 0x1_0000_0000_0000_0000
    ensures counters.total == Sum(costs, |costs|) % 0x1_0000_0000_0000_0000
    ensures |costs| > 0 ==> counters.min in costs && counters.max in costs
    ensures forall i | 0 <= i < |costs| :: counters.min <= costs[i] <= counters.max
  {
    hide Wrap64;
    counters.Reset();
    WrapSmall(0);
    for k := 0 to |costs|
      invariant counters.times == Wrap64(k) && counters.total == Wrap64(Sum(costs, k))
      invariant if k == 0 then counters.View() == FRESH else counters.min in costs && counters.max in costs
      invariant forall i | 0 <= i < k :: counters.min <= costs[i] <= counters.max
    {
      WrapAdd(k, 1);
      WrapAdd(Sum(costs, k), costs[k]);
      counters.UpdateCost(costs[k]);
    }
    WrapIsModulo(|costs|);
    WrapIsModulo(Sum(costs, |costs|));
  }

  lemma {:induction false} WrapIsModulo(x: nat)
    ensures Wrap64(x) == x % 0x1_0000_0000_0000_0000
  {
    RemIsModulo(x, 0x1_0000_0000_0000_0000);
  }

  // ---------------------------------------------------------------- the lock-free form

  /** How far a call of UpdateCost has come; a try holds the value it last read. */
  datatype Phase = Idle | Counted | Summed | MaxTry(seen: u64) | MaxDone | MinTry(seen: u64) | Done

  /** A call: its cost, how far it is, and whether a reset has already wiped it out. */
  datatype Call = Call(cost: u64, phase: Phase, wiped: bool)

  /** What the holder of the mutex is doing; a dump remembers the count it tested and the calls counted since. */
  datatype Manager =
    | Free
    | Dumping(times: u64, added: nat)
    | Dividing(times: u64, added: nat, total: u64)
    | Resetting(stored: nat)

  /** torn records that a call overlapped the last reset; divisors are the numbers that dumps have divided by. */
  datatype State = State(cells: Cells, calls: seq<Call>, manager: Manager, torn: bool, divisors: seq<u64>)

  datatype Label =
    | AddTimes(i: nat) | AddTotal(i: nat)
    | LoadMax(i: nat) | SwapMax(i: nat) | RetryMax(i: nat) | SkipMax(i: nat)
    | LoadMin(i: nat) | SwapMin(i: nat) | RetryMin(i: nat) | SkipMin(i: nat)
    | DumpTimes | DumpTotal | Divide | StartReset | ResetStore

  predicate IsCallStep(l: Label) {
    !l.DumpTimes? && !l.DumpTotal? && !l.Divide? && !l.StartReset? && !l.ResetStore?
  }

  ghost predicate Init(s: State) {
    && s.cells == FRESH && s.manager == Free && !s.torn && s.divisors == []
    && forall i | 0 <= i < |s.calls| :: s.calls[i].phase == Idle && !s.calls[i].wiped
  }

  /** A swap needs the cell to hold what was read; it may fail even so. */
  predicate Enabled(s: State, l: Label) {
    if IsCallStep(l) then
      l.i < |s.calls| &&
      var c := s.calls[l.i];
      match l
      case AddTimes(_) => c.phase.Idle?
      case AddTotal(_) => c.phase.Counted?
      case LoadMax(_) => c.phase.Summed?
      case SwapMax(_) => c.phase.MaxTry? && c.phase.seen < c.cost && s.cells.max == c.phase.seen
      case RetryMax(_) => c.phase.MaxTry? && c.phase.seen < c.cost
      case SkipMax(_) => c.phase.MaxTry? && !(c.phase.seen < c.cost)
      case LoadMin(_) => c.phase.MaxDone?
      case SwapMin(_) => c.phase.MinTry? && c.phase.seen > c.cost && s.cells.min == c.phase.seen
      case RetryMin(_) => c.phase.MinTry? && c.phase.seen > c.cost
      case SkipMin(_) => c.phase.MinTry? && !(c.phase.seen > c.cost)
      case _ => false
    else
      match l
      case DumpTimes => s.manager.Free?
      case DumpTotal => s.manager.Dumping?
      case Divide => s.manager.Dividing?
      case StartReset => s.manager.Free?
      case _ => s.manager.Resetting?
  }

  function CallNext(cells: Cells, c: Call, l: Label): (Cells, Phase)
    requires IsCallStep(l)
  {
    match l
    case AddTimes(_) => (cells.(times := Wrap64(cells.times + 1)), Counted)
    case AddTotal(_) => (cells.(total := Wrap64(cells.total + c.cost)), Summed)
    case LoadMax(_) => (cells, MaxTry(cells.max))
    case SwapMax(_) => (cells.(max := c.cost), MaxDone)
    case RetryMax(_) => (cells, MaxTry(cells.max))
    case SkipMax(_) => (cells, MaxDone)
    case LoadMin(_) => (cells, MinTry(cells.min))
    case SwapMin(_) => (cells.(min := c.cost), Done)
    case RetryMin(_) => (cells, MinTry(cells.min))
    case _ => (cells, Done)
  }

  predicate InProgress(c: Call) {
    !c.phase.Idle? && !c.phase.Done?
  }

  ghost predicate Quiescent(s: State) {
    forall i | 0 <= i < |s.calls| :: !InProgress(s.calls[i])
  }

  /** Reset stores the four cells one after the other. */
  function Stored(cells: Cells, stored: nat): Cells {
    match stored
    case 0 => cells.(times := 0)
    case 1 => cells.(max := 0)
    case 2 => cells.(min := LARGEST)
    case _ => cells.(total := 0)
  }

  function Wipe(calls: seq<Call>): (r: seq<Call>)
    ensures |r| == |calls|
    ensures forall i {:trigger r[i]} | 0 <= i < |r| ::
              r[i] == calls[i].(wiped := calls[i].wiped || calls[i].phase.Done?)
  {
    seq(|calls|, i requires 0 <= i < |calls| => calls[i].(wiped := calls[i].wiped || calls[i].phase.Done?))
  }

  function Added(m: Manager): Manager {
    if m.Dumping? || m.Dividing? then m.(added := m.added + 1) else m
  }

  ghost function Next(s: State, l: Label): State
    requires Enabled(s, l)
  {
    if IsCallStep(l) then
      var (cells, phase) := CallNext(s.cells, s.calls[l.i], l);
      s.(cells := cells, calls := s.calls[l.i := s.calls[l.i].(phase := phase)], torn := s.torn || s.manager.Resetting?,
         manager := if l.AddTimes? then Added(s.manager) else s.manager)
    else
      match l
      case DumpTimes => if s.cells.times == 0 then s else s.(manager := Dumping(s.cells.times, 0))
      case DumpTotal => s.(manager := Dividing(s.manager.times, s.manager.added, s.cells.total))
      case Divide => s.(manager := Free, divisors := s.divisors + [s.cells.times])
      case StartReset => s.(manager := Resetting(0), torn := !Quiescent(s))
      case _ =>
        var stored := s.manager.stored;
        if stored < 3 then s.(cells := Stored(s.cells, stored), manager := Resetting(stored + 1))
        else s.(cells := Stored(s.cells, stored), manager := Free, calls := Wipe(s.calls))
  }

  // ---------------------------------------------------------------- the sequential reference

  /** The call counts for the cells: it came after the last reset. */
  predicate Counts(c: Call) {
    !c.wiped && !c.phase.Idle?
  }

  predicate Sums(c: Call) {
    Counts(c) && !c.phase.Counted?
  }

  predicate Maxed(c: Call) {
    !c.wiped && (c.phase.MaxDone? || c.phase.MinTry? || c.phase.Done?)
  }

  predicate Minned(c: Call) {
    !c.wiped && c.phase.Done?
  }

  function CountOf(calls: seq<Call>, n: nat): nat
    requires n <= |calls|
  {
    if n == 0 then 0 else CountOf(calls, n - 1) + (if Counts(calls[n - 1]) then 1 else 0)
  }

  function SumOf(calls: seq<Call>, n: nat): nat
    requires n <= |calls|
  {
    if n == 0 then 0 else SumOf(calls, n - 1) + (if Sums(calls[n - 1]) then calls[n - 1].cost else 0)
  }

  /** The completed calls since the last reset, recorded one after the other. */
  function Sequential(calls: seq<Call>, n: nat): Cells
    requires n <= |calls|
  {
    if n == 0 then FRESH
    else if Minned(calls[n - 1]) then Record(Sequential(calls, n - 1), calls[n - 1].cost)
    else Sequential(calls, n - 1)
  }

  /** max is the largest cost whose maximum update is complete, or 0. */
  ghost predicate IsMax(max: nat, calls: seq<Call>, n: nat)
    requires n <= |calls|
  {
    && (forall i | 0 <= i < n && Maxed(calls[i]) :: calls[i].cost <= max)
    && (max == 0 || exists i :: 0 <= i < n && Maxed(calls[i]) && calls[i].cost == max)
  }

  /** min is the smallest cost whose minimum update is complete, or the largest number. */
  ghost predicate IsMin(min: nat, calls: seq<Call>, n: nat)
    requires n <= |calls|
  {
    && (forall i | 0 <= i < n && Minned(calls[i]) :: calls[i].cost >= min)
    && (min == LARGEST || exists i :: 0 <= i < n && Minned(calls[i]) && calls[i].cost == min)
  }

  lemma {:induction false} SequentialIs(calls: seq<Call>, n: nat)
    requires n <= |calls| && forall i | 0 <= i < |calls| :: !InProgress(calls[i])
    ensures var c := Sequential(calls, n);
            && c.times == Wrap64(CountOf(calls, n)) && c.total == Wrap64(SumOf(calls, n))
            && IsMax(c.max, calls, n) && IsMin(c.min, calls, n)
  {
    if n > 0 {
      SequentialIs(calls, n - 1);
      var c, k := Sequential(calls, n - 1), calls[n - 1];
      WrapAdd(CountOf(calls, n - 1), 1);
      WrapAdd(SumOf(calls, n - 1), k.cost);
      hide Wrap64;
      assert !InProgress(k);
      if Minned(k) {
        MaxStep(c.max, calls, n - 1);
        MinStep(c.min, calls, n - 1);
      }
    }
  }

  lemma {:induction false} MaxStep(max: u64, calls: seq<Call>, n: nat)
    requires n < |calls| && IsMax(max, calls, n) && Maxed(calls[n])
    ensures IsMax(if max < calls[n].cost then calls[n].cost else max, calls, n + 1)
  {
  }

  lemma {:induction false} MinStep(min: u64, calls: seq<Call>, n: nat)
    requires n < |calls| && IsMin(min, calls, n) && Minned(calls[n])
    ensures IsMin(if min > calls[n].cost then calls[n].cost else min, calls, n + 1)
  {
  }

  // ---------------------------------------------------------------- the invariant

  lemma {:induction false} CountUpdate(calls: seq<Call>, n: nat, i: nat, c: Call)
    requires n <= |calls| && i < |calls|
    ensures CountOf(calls[i := c], n)
            == CountOf(calls, n)
               + (if i < n then (if Counts(c) then 1 else 0) - (if Counts(calls[i]) then 1 else 0) else 0)
    ensures SumOf(calls[i := c], n)
            == SumOf(calls, n)
               + (if i < n then (if Sums(c) then c.cost else 0) - (if Sums(calls[i]) then calls[i].cost else 0) else 0)
  {
    if n > 0 {
      CountUpdate(calls, n - 1, i, c);
    }
  }

  lemma {:induction false} AllWiped(calls: seq<Call>, n: nat)
    requires n <= |calls| && forall i | 0 <= i < n :: calls[i].wiped || calls[i].phase.Idle?
    ensures CountOf(calls, n) == 0 && SumOf(calls, n) == 0
  {
    if n > 0 {
      AllWiped(calls, n - 1);
    }
  }

  /** What a call in the middle of a loop has read is no newer than the cell. */
  ghost predicate Stale(c: Call, cells: Cells) {
    (c.phase.MaxTry? ==> c.phase.seen <= cells.max) && (c.phase.MinTry? ==> c.phase.seen >= cells.min)
  }

  /** The cells mid-update: counter and sum are those of the calls that came so far, the extremes those completed. */
  ghost predicate Exact(s: State) {
    && s.cells.times == Wrap64(CountOf(s.calls, |s.calls|)) && s.cells.total == Wrap64(SumOf(s.calls, |s.calls|))
    && IsMax(s.cells.max, s.calls, |s.calls|) && IsMin(s.cells.min, s.calls, |s.calls|)
  }

  ghost predicate Tracked(s: State) {
    forall i | 0 <= i < |s.calls| :: Stale(s.calls[i], s.cells)
  }

  /** A reset only wipes out calls that are complete. */
  ghost predicate WipedDone(s: State) {
    forall i | 0 <= i < |s.calls| && s.calls[i].wiped :: s.calls[i].phase.Done?
  }

  /** A reset that overlaps no call: nothing is in progress, and the first cells are already fresh. */
  ghost predicate CleanReset(s: State)
    requires s.manager.Resetting?
  {
    && Quiescent(s) && s.manager.stored <= 3
    && (s.manager.stored > 0 ==> s.cells.times == 0) && (s.manager.stored > 1 ==> s.cells.max == 0)
    && (s.manager.stored > 2 ==> s.cells.min == LARGEST)
  }

  /** The count a dump tested, the calls counted since, and the counter, wrap-around included. */
  ghost predicate DumpTracked(s: State) {
    (s.manager.Dumping? || s.manager.Dividing?) ==>
      s.manager.times > 0 && s.cells.times == Wrap64(s.manager.times + s.manager.added)
  }

  ghost predicate Inv(s: State) {
    && DumpTracked(s) && WipedDone(s)
    && (!s.torn ==> if s.manager.Resetting? then CleanReset(s) else Exact(s) && Tracked(s))
  }

  lemma {:induction false} InitInv(s: State)
    requires Init(s)
    ensures Inv(s)
  {
    AllWiped(s.calls, |s.calls|);
    WrapSmall(0);
  }

  /** A call step changes the counter and the sum as it changes what they count. */
  lemma {:induction false} SumsKept(s: State, l: Label)
    requires Enabled(s, l) && IsCallStep(l) && Exact(s) && Tracked(s) && WipedDone(s)
    ensures var s' := Next(s, l);
            s'.cells.times == Wrap64(CountOf(s'.calls, |s'.calls|))
            && s'.cells.total == Wrap64(SumOf(s'.calls, |s'.calls|))
  {
    var s', c := Next(s, l), s.calls[l.i];
    CountUpdate(s.calls, |s.calls|, l.i, s'.calls[l.i]);
    WrapAdd(CountOf(s.calls, |s.calls|), 1);
    WrapAdd(SumOf(s.calls, |s.calls|), c.cost);
    hide CountOf, SumOf, Wrap64, IsMax, IsMin;
  }

  lemma {:induction false} MaxKept(s: State, l: Label)
    requires Enabled(s, l) && IsCallStep(l) && Exact(s) && Tracked(s) && WipedDone(s)
    ensures IsMax(Next(s, l).cells.max, Next(s, l).calls, |s.calls|)
  {
    hide CountOf, SumOf, Wrap64, IsMin;
    var s', n := Next(s, l), |s.calls|;
    assert Stale(s.calls[l.i], s.cells);
    if s'.cells.max > 0 {
      if l.SwapMax? {
        assert Maxed(s'.calls[l.i]);
      } else {
        var i :| 0 <= i < n && Maxed(s.calls[i]) && s.calls[i].cost == s.cells.max;
        assert Maxed(s'.calls[i]) && s'.calls[i].cost == s.cells.max;
      }
    }
  }

  lemma {:induction false} MinKept(s: State, l: Label)
    requires Enabled(s, l) && IsCallStep(l) && Exact(s) && Tracked(s) && WipedDone(s)
    ensures IsMin(Next(s, l).cells.min, Next(s, l).calls, |s.calls|)
  {
    hide CountOf, SumOf, Wrap64, IsMax;
    var s', n := Next(s, l), |s.calls|;
    assert Stale(s.calls[l.i], s.cells);
    if s'.cells.min != LARGEST {
      if l.SwapMin? {
        assert Minned(s'.calls[l.i]);
      } else {
        var i :| 0 <= i < n && Minned(s.calls[i]) && s.calls[i].cost == s.cells.min;
        assert Minned(s'.calls[i]) && s'.calls[i].cost == s.cells.min;
      }
    }
  }

  /** Extremes only move outwards, resets aside. */
  lemma {:induction false} MovesOutwards(s: State, l: Label)
    requires Enabled(s, l) && !l.ResetStore?
    ensures s.cells.max <= Next(s, l).cells.max && Next(s, l).cells.min <= s.cells.min
  {
    hide Wrap64;
  }

  lemma {:induction false} CallKeepsDump(s: State, l: Label)
    requires Enabled(s, l) && IsCallStep(l) && DumpTracked(s) && WipedDone(s)
    ensures DumpTracked(Next(s, l)) && WipedDone(Next(s, l))
  {
    if s.manager.Dumping? || s.manager.Dividing? {
      WrapAdd(s.manager.times + s.manager.added, 1);
    }
    hide Wrap64;
  }

  lemma {:induction false} CallKeepsTracked(s: State, l: Label)
    requires Enabled(s, l) && IsCallStep(l) && Tracked(s)
    ensures Tracked(Next(s, l))
  {
    MovesOutwards(s, l);
    hide Wrap64;
    forall i | 0 <= i < |s.calls|
      ensures Stale(Next(s, l).calls[i], Next(s, l).cells)
    {
      assert Stale(s.calls[i], s.cells);
    }
  }

  lemma {:induction false} CallStepInv(s: State, l: Label)
    requires Enabled(s, l) && IsCallStep(l) && Inv(s)
    ensures Inv(Next(s, l))
  {
    CallKeepsDump(s, l);
    if !Next(s, l).torn {
      SumsKept(s, l);
      MaxKept(s, l);
      MinKept(s, l);
      CallKeepsTracked(s, l);
    }
    hide CountOf, SumOf, Wrap64, IsMax, IsMin, Tracked, WipedDone, DumpTracked, CallNext;
  }

  lemma {:induction false} ResetInv(s: State)
    requires Enabled(s, ResetStore) && Inv(s)
    ensures Inv(Next(s, ResetStore))
  {
    var s' := Next(s, ResetStore);
    WrapSmall(0);
    if !s.torn && s.manager.stored == 3 {
      AllWiped(s'.calls, |s'.calls|);
    }
    hide CountOf, SumOf, Wrap64;
  }

  lemma {:induction false} StepInv(s: State, l: Label)
    requires Enabled(s, l) && Inv(s)
    ensures Inv(Next(s, l))
  {
    if IsCallStep(l) {
      CallStepInv(s, l);
    } else if l.ResetStore? {
      ResetInv(s);
    } else {
      if l.DumpTimes? {
        WrapSmall(s.cells.times);
      }
      hide CountOf, SumOf, Wrap64, IsMax, IsMin;
    }
  }

  // ---------------------------------------------------------------- whole runs

  ghost predicate Follows(s: State, l: Label, s': State) {
    Enabled(s, l) && s' == Next(s, l)
  }

  /** A run: any number of calls at once, in any interleaving, with swaps that fail at will, dumps and resets. */
  ghost predicate IsRun(states: seq<State>, labels: seq<Label>) {
    && |states| == |labels| + 1 && Init(states[0])
    && forall i | 0 <= i < |labels| :: Follows(states[i], labels[i], states[i + 1])
  }

  lemma {:induction false} RunInv(states: seq<State>, labels: seq<Label>, i: nat)
    requires IsRun(states, labels) && i < |states|
    ensures Inv(states[i])
  {
    hide Inv, Next, Enabled, Init;
    if i == 0 {
      InitInv(states[0]);
    } else {
      RunInv(states, labels, i - 1);
      assert Follows(states[i - 1], labels[i - 1], states[i]);
      StepInv(states[i - 1], labels[i - 1]);
    }
  }

  /** In every run, between two resets the maximum never falls and the minimum never rises. */
  lemma {:induction false} ExtremesMonotone(states: seq<State>, labels: seq<Label>, i: nat, j: nat)
    requires IsRun(states, labels) && i <= j < |states| && forall k | i <= k < j :: !labels[k].ResetStore?
    ensures states[i].cells.max <= states[j].cells.max && states[j].cells.min <= states[i].cells.min
    decreases j
  {
    hide Next, Enabled, Init;
    if i < j {
      ExtremesMonotone(states, labels, i, j - 1);
      assert Follows(states[j - 1], labels[j - 1], states[j]);
      MovesOutwards(states[j - 1], labels[j - 1]);
    }
  }

  /** In every run, unless a call overlapped the last reset: the extremes bound every cost completed since. */
  lemma {:induction false} ExtremesBound(states: seq<State>, labels: seq<Label>, i: nat, k: nat)
    requires IsRun(states, labels) && i < |states| && k < |states[i].calls|
    requires !states[i].torn && !states[i].manager.Resetting? && Minned(states[i].calls[k])
    ensures states[i].cells.min <= states[i].calls[k].cost <= states[i].cells.max
  {
    RunInv(states, labels, i);
    hide CountOf, SumOf, Wrap64;
  }

  /** The call is complete, and no reset has wiped it out. */
  predicate Completed(c: Call) {
    c.phase.Done? && !c.wiped
  }

  /**
   * In every run, once a call is complete, unless a call overlapped the last reset: the minimum is the cost of a
   * completed call and the maximum that of a call whose maximum update is complete; at rest both are completed calls.
   */
  lemma {:induction false} ExtremesAttained(states: seq<State>, labels: seq<Label>, i: nat, k: nat)
    requires IsRun(states, labels) && i < |states| && k < |states[i].calls|
    requires !states[i].torn && !states[i].manager.Resetting? && Completed(states[i].calls[k])
    ensures exists j :: 0 <= j < |states[i].calls| && Completed(states[i].calls[j])
                        && states[i].calls[j].cost == states[i].cells.min
    ensures exists j :: 0 <= j < |states[i].calls| && Maxed(states[i].calls[j])
                        && states[i].calls[j].cost == states[i].cells.max
    ensures Quiescent(states[i]) ==>
              exists j :: 0 <= j < |states[i].calls| && Completed(states[i].calls[j])
                          && states[i].calls[j].cost == states[i].cells.max
  {
    RunInv(states, labels, i);
    var s := states[i];
    hide CountOf, SumOf, Wrap64, IsRun;
    assert Minned(s.calls[k]) && Maxed(s.calls[k]);
    assert forall j | 0 <= j < |s.calls| && Minned(s.calls[j]) :: Completed(s.calls[j]);
    if s.cells.min == LARGEST {
      assert s.calls[k].cost == s.cells.min;
    }
    if s.cells.max == 0 {
      assert s.calls[k].cost == s.cells.max;
    }
    var j :| 0 <= j < |s.calls| && Maxed(s.calls[j]) && s.calls[j].cost == s.cells.max;
    if Quiescent(s) {
      assert !InProgress(s.calls[j]);
    }
  }

  lemma {:induction false} MaxUnique(a: nat, b: nat, calls: seq<Call>, n: nat)
    requires n <= |calls| && IsMax(a, calls, n) && IsMax(b, calls, n)
    ensures a == b
  {
  }

  lemma {:induction false} MinUnique(a: nat, b: nat, calls: seq<Call>, n: nat)
    requires n <= |calls| && IsMin(a, calls, n) && IsMin(b, calls, n) && a <= LARGEST && b <= LARGEST
    ensures a == b
  {
  }

  /**
   * In every run, whenever no call is in progress and none overlapped the last reset: the cells hold what recording
   * the costs since that reset one after the other, under a lock, would have left.
   */
  lemma {:induction false} QuiescentIsSequential(states: seq<State>, labels: seq<Label>, i: nat)
    requires IsRun(states, labels) && i < |states|
    requires !states[i].torn && !states[i].manager.Resetting? && Quiescent(states[i])
    ensures states[i].cells == Sequential(states[i].calls, |states[i].calls|)
  {
    var s, n := states[i], |states[i].calls|;
    RunInv(states, labels, i);
    SequentialIs(s.calls, n);
    hide Sequential, CountOf, SumOf, Wrap64, IsMax, IsMin, IsRun;
    MaxUnique(s.cells.max, Sequential(s.calls, n).max, s.calls, n);
    MinUnique(s.cells.min, Sequential(s.calls, n).min, s.calls, n);
  }

  lemma {:induction false} OneMoreBetween(lo: nat, hi: nat, count: nat, sum: nat, cost: nat)
    requires lo * count <= sum <= hi * count && lo <= cost <= hi
    ensures lo * (count + 1) <= sum + cost <= hi * (count + 1)
  {
    Distribute(count, lo);
    Distribute(count, hi);
  }

  /** The sum of costs between two bounds lies between as many times the bounds. */
  lemma {:induction false} SumBetween(calls: seq<Call>, n: nat, lo: nat, hi: nat)
    requires n <= |calls| && forall i | 0 <= i < |calls| :: !InProgress(calls[i])
    requires forall i | 0 <= i < n && Minned(calls[i]) :: lo <= calls[i].cost <= hi
    ensures lo * CountOf(calls, n) <= SumOf(calls, n) <= hi * CountOf(calls, n)
  {
    if n > 0 {
      SumBetween(calls, n - 1, lo, hi);
      assert !InProgress(calls[n - 1]);
      var count, sum := CountOf(calls, n - 1), SumOf(calls, n - 1);
      if Minned(calls[n - 1]) {
        assert CountOf(calls, n) == count + 1 && SumOf(calls, n) == sum + calls[n - 1].cost;
        hide CountOf, SumOf;
        OneMoreBetween(lo, hi, count, sum, calls[n - 1].cost);
      } else {
        assert CountOf(calls, n) == count && SumOf(calls, n) == sum;
        hide CountOf, SumOf;
      }
    }
  }

  lemma {:induction false} QuotientBetween(a: nat, b: nat, lo: nat, hi: nat)
    requires b > 0 && lo * b <= a <= hi * b
    ensures lo <= Quotient(a, b) <= hi
  {
    var q := Quotient(a, b);
    QuotientBounds(a, b);
    hide Quotient;
    assert (hi + 1) * b == hi * b + b;
    if q < lo {
      TimesMonotone(q + 1, lo, b);
    } else if q > hi {
      TimesMonotone(hi + 1, q, b);
    }
  }

  /** In such a state, when counter and sum fit into 64 bits, the average lies between the extremes. */
  lemma {:induction false} AverageBetweenExtremes(states: seq<State>, labels: seq<Label>, i: nat)
    requires IsRun(states, labels) && i < |states|
    requires !states[i].torn && !states[i].manager.Resetting? && Quiescent(states[i])
    requires 0 < CountOf(states[i].calls, |states[i].calls|) < U64 && SumOf(states[i].calls, |states[i].calls|) < U64
    ensures states[i].cells.times > 0
    ensures states[i].cells.min <= Quotient(states[i].cells.total, states[i].cells.times) <= states[i].cells.max
  {
    var s, n := states[i], |states[i].calls|;
    RunInv(states, labels, i);
    WrapSmall(CountOf(s.calls, n));
    WrapSmall(SumOf(s.calls, n));
    hide IsRun, Wrap64, Quotient;
    SumBetween(s.calls, n, s.cells.min, s.cells.max);
    QuotientBetween(s.cells.total, s.cells.times, s.cells.min, s.cells.max);
  }

  // ---------------------------------------------------------------- division by zero

  /**
   * In every run: a dump divides by zero exactly when the calls counted between its test of the counter and its
   * division bring the counter round to 0; that takes at least 2^64 minus the tested count of them.
   */
  lemma {:induction false} DividesByZeroIff(states: seq<State>, labels: seq<Label>, i: nat)
    requires IsRun(states, labels) && i < |labels| && labels[i] == Divide
    ensures states[i].manager.Dividing? && |states[i + 1].divisors| > 0
    ensures var m, d := states[i].manager, states[i + 1].divisors[|states[i + 1].divisors| - 1];
            && (d == 0 <==> Wrap64(m.times + m.added) == 0)
            && (d == 0 ==> m.times + m.added >= U64)
  {
    RunInv(states, labels, i);
    assert Follows(states[i], labels[i], states[i + 1]);
    var m := states[i].manager;
    if m.times + m.added < U64 {
      WrapSmall(m.times + m.added);
    }
    hide Wrap64, IsRun;
  }

  function StartedOf(calls: seq<Call>, n: nat): nat
    requires n <= |calls|
  {
    if n == 0 then 0 else StartedOf(calls, n - 1) + (if calls[n - 1].phase.Idle? then 0 else 1)
  }

  lemma {:induction false} StartedUpdate(calls: seq<Call>, n: nat, i: nat, c: Call)
    requires n <= |calls| && i < |calls|
    ensures StartedOf(calls[i := c], n)
            == StartedOf(calls, n)
               + (if i < n then (if c.phase.Idle? then 0 else 1) - (if calls[i].phase.Idle? then 0 else 1) else 0)
  {
    if n > 0 {
      StartedUpdate(calls, n - 1, i, c);
    }
  }

  lemma {:induction false} StartedBound(calls: seq<Call>, n: nat)
    requires n <= |calls|
    ensures StartedOf(calls, n) <= n
  {
    if n > 0 {
      StartedBound(calls, n - 1);
    }
  }

  lemma {:induction false} StartedWiped(calls: seq<Call>, n: nat)
    requires n <= |calls|
    ensures StartedOf(Wipe(calls), n) == StartedOf(calls, n)
  {
    if n > 0 {
      StartedWiped(calls, n - 1);
      assert Wipe(calls)[n - 1].phase == calls[n - 1].phase;
    }
  }

  /** The counter, and the count of a dump, never exceed the calls that were started. */
  ghost predicate FewCalls(s: State) {
    && s.cells.times <= StartedOf(s.calls, |s.calls|)
    && ((s.manager.Dumping? || s.manager.Dividing?) ==>
          s.manager.times + s.manager.added <= StartedOf(s.calls, |s.calls|))
    && (forall k | 0 <= k < |s.divisors| :: s.divisors[k] > 0)
  }

  lemma {:induction false} FewCallsKept(s: State, l: Label)
    requires Enabled(s, l) && Inv(s) && FewCalls(s) && |s.calls| < U64
    ensures FewCalls(Next(s, l)) && |Next(s, l).calls| == |s.calls|
  {
    if IsCallStep(l) {
      StartedUpdate(s.calls, |s.calls|, l.i, Next(s, l).calls[l.i]);
      StartedBound(Next(s, l).calls, |s.calls|);
      WrapSmall(s.cells.times);
      if l.AddTimes? {
        WrapSmall(s.cells.times + 1);
      }
    } else if l.Divide? {
      StartedBound(s.calls, |s.calls|);
      WrapSmall(s.manager.times + s.manager.added);
    } else {
      StartedWiped(s.calls, |s.calls|);
    }
    hide Wrap64, StartedOf, Exact, CleanReset, Tracked;
  }

  /** In every run of fewer than 2^64 calls no dump ever divides by zero, whatever resets do. */
  lemma {:induction false} NeverDividesByZero(states: seq<State>, labels: seq<Label>, i: nat)
    requires IsRun(states, labels) && i < |states| && |states[0].calls| < U64
    ensures |states[i].calls| == |states[0].calls| && FewCalls(states[i])
  {
    hide Next, Enabled, Inv, StartedOf;
    if i > 0 {
      NeverDividesByZero(states, labels, i - 1);
      RunInv(states, labels, i - 1);
      assert Follows(states[i - 1], labels[i - 1], states[i]);
      FewCallsKept(states[i - 1], labels[i - 1]);
    }
  }

  // ---------------------------------------------------------------- every cell by itself

  /** The step is the store by which a reset clears the given cell: 0 counter, 1 maximum, 2 minimum, 3 sum. */
  predicate Clears(s: State, l: Label, cell: nat) {
    l.ResetStore? && s.manager.Resetting? && (if cell < 3 then s.manager.stored == cell else s.manager.stored >= 3)
  }

  /** How many calls were counted since the last store of the counter. */
  ghost function TimesSince(states: seq<State>, labels: seq<Label>, i: nat): nat
    requires i <= |labels| < |states|
  {
    if i == 0 || Clears(states[i - 1], labels[i - 1], 0) then 0
    else TimesSince(states, labels, i - 1) + (if labels[i - 1].AddTimes? then 1 else 0)
  }

  /** The costs added since the last store of the sum. */
  ghost function TotalSince(states: seq<State>, labels: seq<Label>, i: nat): nat
    requires i <= |labels| < |states| && forall k | 0 <= k < |labels| :: Enabled(states[k], labels[k])
  {
    if i == 0 || Clears(states[i - 1], labels[i - 1], 3) then 0
    else
      TotalSince(states, labels, i - 1)
      + (if labels[i - 1].AddTotal? then states[i - 1].calls[labels[i - 1].i].cost else 0)
  }

  /** The largest cost swapped in since the last store of the maximum. */
  ghost function MaxSince(states: seq<State>, labels: seq<Label>, i: nat): nat
    requires i <= |labels| < |states| && forall k | 0 <= k < |labels| :: Enabled(states[k], labels[k])
  {
    if i == 0 || Clears(states[i - 1], labels[i - 1], 1) then 0
    else if labels[i - 1].SwapMax? then Max(MaxSince(states, labels, i - 1), states[i - 1].calls[labels[i - 1].i].cost)
    else MaxSince(states, labels, i - 1)
  }

  /** The smallest cost swapped in since the last store of the minimum. */
  ghost function MinSince(states: seq<State>, labels: seq<Label>, i: nat): nat
    requires i <= |labels| < |states| && forall k | 0 <= k < |labels| :: Enabled(states[k], labels[k])
  {
    if i == 0 || Clears(states[i - 1], labels[i - 1], 2) then LARGEST
    else if labels[i - 1].SwapMin? then Min(MinSince(states, labels, i - 1), states[i - 1].calls[labels[i - 1].i].cost)
    else MinSince(states, labels, i - 1)
  }

  /** How one step changes each cell. */
  lemma {:induction false} CellStep(s: State, l: Label)
    requires Enabled(s, l)
    ensures var c, c' := s.cells, Next(s, l).cells;
            && c'.times == (if Clears(s, l, 0) then 0 else if l.AddTimes? then Wrap64(c.times + 1) else c.times)
            && c'.total == (if Clears(s, l, 3) then 0
                            else if l.AddTotal? then Wrap64(c.total + s.calls[l.i].cost)
                            else c.total)
            && c'.max == (if Clears(s, l, 1) then 0 else if l.SwapMax? then Max(c.max, s.calls[l.i].cost) else c.max)
            && c'.min == (if Clears(s, l, 2) then LARGEST
                          else if l.SwapMin? then Min(c.min, s.calls[l.i].cost)
                          else c.min)
  {
    hide Wrap64;
  }

  /**
   * In every run, torn resets included, each cell by itself is exact: the counter and the sum are those of the
   * additions since the reset's store of that cell, in 64 bits, and the extremes are those of the costs swapped in
   * since theirs.
   */
  lemma {:induction false} CellsExact(states: seq<State>, labels: seq<Label>, i: nat)
    requires IsRun(states, labels) && i < |states|
    ensures forall k | 0 <= k < |labels| :: Enabled(states[k], labels[k])
    ensures states[i].cells.times == Wrap64(TimesSince(states, labels, i))
    ensures states[i].cells.total == Wrap64(TotalSince(states, labels, i))
    ensures states[i].cells.max == MaxSince(states, labels, i) && states[i].cells.min == MinSince(states, labels, i)
  {
    forall k | 0 <= k < |labels|
      ensures Enabled(states[k], labels[k])
    {
      assert Follows(states[k], labels[k], states[k + 1]);
    }
    WrapSmall(0);
    hide Enabled, Next, Clears, Wrap64;
    if i > 0 {
      CellsExact(states, labels, i - 1);
      assert Follows(states[i - 1], labels[i - 1], states[i]);
      CellStep(states[i - 1], labels[i - 1]);
      WrapAdd(TimesSince(states, labels, i - 1), 1);
      if labels[i - 1].AddTotal? {
        WrapAdd(TotalSince(states, labels, i - 1), states[i - 1].calls[labels[i - 1].i].cost);
      }
    }
  }

  // ---------------------------------------------------------------- a reset that overlaps a call

  /** One call of cost 5; once the reset has begun, it overlaps the call. */
  function TornState(k: nat): State {
    var (cells, phase) :=
      if k == 0 then (FRESH, Idle)
      else if k <= 2 then (FRESH.(times := 1), Counted)
      else if k <= 6 then (FRESH, Counted)
      else if k == 7 then (FRESH.(total := 5), Summed)
      else if k == 8 then (FRESH.(total := 5), MaxTry(0))
      else if k == 9 then (FRESH.(total := 5, max := 5), MaxDone)
      else if k == 10 then (FRESH.(total := 5, max := 5), MinTry(LARGEST))
      else (Cells(0, 5, 5, 5), Done);
    State(cells, [Call(5, phase, false)], if 2 <= k <= 5 then Resetting(k - 2) else Free, k >= 2, [])
  }

  function TornLabel(k: nat): Label {
    if k == 0 then AddTimes(0)
    else if k == 1 then StartReset
    else if k <= 5 then ResetStore
    else if k == 6 then AddTotal(0)
    else if k == 7 then LoadMax(0)
    else if k == 8 then SwapMax(0)
    else if k == 9 then LoadMin(0)
    else SwapMin(0)
  }

  lemma {:induction false} TornStep(k: nat)
    requires k < 11
    ensures Follows(TornState(k), TornLabel(k), TornState(k + 1))
  {
    assert Wrap64(1) == 1 && Wrap64(5) == 5;
    if k == 1 {
      assert InProgress(TornState(1).calls[0]);
    }
    if k == 5 {
      assert Wipe(TornState(5).calls) == TornState(5).calls;
    }
  }

  /** A reset in the middle of a call loses its count but keeps its cost. */
  lemma {:induction false} TornReset() returns (states: seq<State>, labels: seq<Label>)
    ensures IsRun(states, labels) && Quiescent(states[|labels|]) && states[|labels|].torn
    ensures states[|labels|].cells == Cells(0, 5, 5, 5)
    ensures Sequential(states[|labels|].calls, |states[|labels|].calls|) == Cells(1, 5, 5, 5)
  {
    states, labels := seq(12, k requires 0 <= k < 12 => TornState(k)), seq(11, k requires 0 <= k < 11 => TornLabel(k));
    assert Init(states[0]) && Quiescent(states[11]);
    var calls := states[11].calls;
    assert Wrap64(1) == 1 && Wrap64(5) == 5;
    assert Sequential(calls, 0) == FRESH;
    assert Sequential(calls, 1) == Record(FRESH, 5);
    hide Follows, TornLabel, TornState, Init, Quiescent, Sequential;
    forall i | 0 <= i < |labels|
      ensures Follows(states[i], labels[i], states[i + 1])
    {
      TornStep(i);
    }
  }
}
