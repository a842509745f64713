/**
 * The timer service: timers are created, started, stopped and deleted by callers, and a thread passes over them again
 * and again, collecting those that are due.
 */
module Timers {
  import opened Numbers

  const MILLI_TO_MICRO: nat := 1000

  /** A timer; one that was created but never started is not started. */
  datatype Timer = Timer(period: u32, oneShot: bool, started: bool, next: u64)

  predicate Due(t: Timer, now: u64) {
    t.started && now >= t.next
  }

  /** When a timer fires next, in 64-bit microseconds. */
  function NextTime(now: u64, period: u32): u64 {
    Wrap64(now + period * MILLI_TO_MICRO)
  }

  /** A timer that is collected: a one-shot is spent, any other is due again a period after the pass. */
  function Collected(t: Timer, now: u64): Timer {
    if t.oneShot then t.(started := false) else t.(next := NextTime(now, t.period))
  }

  function AfterPass(timers: map<u32, Timer>, now: u64): map<u32, Timer> {
    map id | id in timers :: if Due(timers[id], now) then Collected(timers[id], now) else timers[id]
  }

  /** What callers and the timer thread do; every operation that looks at the clock carries the time it read. */
  datatype Operation =
    | Create
    | Start(id: u32, period: u32, oneShot: bool, at: u64)
    | Stop(id: u32)
    | Delete(id: u32)
    | Pass(at: u64)

  /** The timers by id, and the id the next one gets. */
  datatype State = State(timers: map<u32, Timer>, count: u32)

  function Next(s: State, o: Operation): State {
    match o
    case Create => State(s.timers[s.count := Timer(0, false, false, 0)], Wrap32(s.count + 1))
    case Start(id, period, oneShot, at) =>
      if id !in s.timers then s else s.(timers := s.timers[id := Timer(period, oneShot, true, NextTime(at, period))])
    case Stop(id) => if id !in s.timers then s else s.(timers := s.timers[id := s.timers[id].(started := false)])
    case Delete(id) => s.(timers := map k | k in s.timers && k != id :: s.timers[k])
    case Pass(at) => s.(timers := AfterPass(s.timers, at))
  }

  class LlmDatadistTimer {
    var timers: map<u32, Timer>
    var count: u32

    ghost function View(): State
      reads this
    {
      State(timers, count)
    }

    constructor ()
      ensures View() == State(map[], 0)
    {
      timers, count := map[], 0;
    }

    /** CreateTimer; reaching the last id is only logged. */
    method CreateTimer() returns (id: u32)
      modifies this
      ensures View() == Next(old(View()), Create) && id == old(count)
    {
      id := count;
      timers := timers[id := Timer(0, false, false, 0)];
      count := Wrap32(count + 1);
    }

    method DeleteTimer(id: u32) returns (ok: bool)
      modifies this
      ensures View() == Next(old(View()), Delete(id)) && ok == (id in old(timers))
    {
      ok := id in timers;
      timers := map k | k in timers && k != id :: timers[k];
    }

    method StartTimer(id: u32, period: u32, oneShot: bool, now: u64) returns (ok: bool)
      modifies this
      ensures View() == Next(old(View()), Start(id, period, oneShot, now)) && ok == (id in old(timers))
    {
      if id !in timers {
        return false;
      }
      timers := timers[id := Timer(period, oneShot, true, Wrap64(now + period * MILLI_TO_MICRO))];
      return true;
    }

    method StopTimer(id: u32) returns (ok: bool)
      modifies this
      ensures View() == Next(old(View()), Stop(id)) && ok == (id in old(timers))
    {
      if id !in timers {
        return false;
      }
      timers := timers[id := timers[id].(started := false)];
      return true;
    }

    /** ProcessTimerInContext up to the callbacks: exactly the due timers are collected, each once. */
    method ProcessTimers(now: u64) returns (collected: seq<u32>)
      modifies this
      ensures View() == Next(old(View()), Pass(now))
      ensures forall id :: id in collected <==> id in old(timers) && Due(old(timers)[id], now)
      ensures forall i, j | 0 <= i < j < |collected| :: collected[i] != collected[j]
    {
      collected := [];
      ghost var before := timers;
      var todo := timers.Keys;
      while todo != {}
        invariant timers.Keys == before.Keys && todo <= before.Keys && count == old(count)
        invariant forall id | id in todo :: timers[id] == before[id]
        invariant forall id | id in before && id !in todo ::
                    timers[id] == if Due(before[id], now) then Collected(before[id], now) else before[id]
        invariant forall id :: id in collected <==> id in before && id !in todo && Due(before[id], now)
        invariant forall i, j | 0 <= i < j < |collected| :: collected[i] != collected[j]
      {
        var id :| id in todo;
        todo := todo - {id};
        var t := timers[id];
        if !t.started || now < t.next {
          continue;
        }
        collected := collected + [id];
        if t.oneShot {
          timers := timers[id := t.(started := false)];
        } else {
          timers := timers[id := t.(next := Wrap64(now + t.period * MILLI_TO_MICRO))];
        }
      }
      assert timers == AfterPass(before, now);
    }
  }

  // ---------------------------------------------------------------- runs

  /** A run from an empty service; the id counter outlives a service, so it may start anywhere. */
  ghost predicate IsRun(states: seq<State>, ops: seq<Operation>) {
    && |states| == |ops| + 1 && states[0].timers == map[]
    && forall i | 0 <= i < |ops| :: Follows(states[i], ops[i], states[i + 1])
  }

  ghost predicate Follows(s: State, o: Operation, s': State) {
    s' == Next(s, o)
  }

  /** Operation i collects the timer. */
  predicate Fires(s: State, o: Operation, id: u32) {
    o.Pass? && id in s.timers && Due(s.timers[id], o.at)
  }

  /** How often the timer is collected by the operations i, ..., j - 1. */
  function Firings(states: seq<State>, ops: seq<Operation>, id: u32, i: nat, j: nat): nat
    requires i <= j <= |ops| < |states|
    decreases j
  {
    if i == j then 0 else Firings(states, ops, id, i, j - 1) + (if Fires(states[j - 1], ops[j - 1], id) then 1 else 0)
  }

  /** The operation is about this timer: it starts, stops, deletes or replaces it. */
  predicate Touches(s: State, o: Operation, id: u32) {
    match o
    case Create => s.count == id
    case Start(k, _, _, _) => k == id
    case Stop(k) => k == id
    case Delete(k) => k == id
    case Pass(_) => false
  }

  /** Nothing but passes concerns the timer in between. */
  ghost predicate Undisturbed(states: seq<State>, ops: seq<Operation>, id: u32, i: nat, j: nat)
    requires j <= |ops| < |states|
  {
    forall k | i <= k < j :: !Touches(states[k], ops[k], id)
  }

  /** No pass in between comes so late that the next due time does not fit into 64 bits. */
  ghost predicate ClockFits(ops: seq<Operation>, period: u32, i: nat, j: nat)
    requires j <= |ops|
  {
    forall k | i <= k < j && ops[k].Pass? :: ops[k].at + period * MILLI_TO_MICRO < U64
  }

  /** A start or a pass puts the next firing where it belongs exactly when that time fits into 64 bits. */
  lemma {:induction false} NextTimeRightIff(now: u64, period: u32)
    ensures NextTime(now, period) == now + period * 1000 <==> now + period * 1000 < U64
    ensures now + period * 1000 >= U64 ==> NextTime(now, period) < now
  {
    var x := now + period * MILLI_TO_MICRO;
    if x < U64 {
      WrapSmall(x);
    } else {
      assert Wrap64(x) == Wrap64(x - U64);
      WrapSmall(x - U64);
    }
  }

  /** An operation on another timer, or a pass, changes a timer only by collecting it. */
  lemma {:induction false} OthersKeep(s: State, o: Operation, id: u32)
    requires id in s.timers && !Touches(s, o, id)
    ensures id in Next(s, o).timers
    ensures Next(s, o).timers[id] == if Fires(s, o, id) then Collected(s.timers[id], o.at) else s.timers[id]
  {
  }

  /** Every due time set by the start or by a pass in between fits into 64 bits. */
  ghost predicate DueTimesFit(ops: seq<Operation>, i: nat, j: nat)
    requires i < j <= |ops| && ops[i].Start?
  {
    ops[i].at + ops[i].period * MILLI_TO_MICRO < U64 && ClockFits(ops, ops[i].period, i + 1, j)
  }

  /** Where a timer started at t0 stands after some firings. */
  ghost predicate OnSchedule(t: Timer, period: u32, oneShot: bool, t0: nat, firings: nat, fits: bool) {
    && t.period == period && t.oneShot == oneShot
    && (fits && t.started ==> t.next >= t0 + (firings + 1) * (period * MILLI_TO_MICRO))
    && (oneShot ==> firings <= 1 && (t.started <==> firings == 0))
    && (!oneShot ==> t.started)
  }

  lemma {:induction false} FiringKeepsSchedule(t: Timer, period: u32, oneShot: bool, t0: nat, firings: nat, fits: bool,
                                               now: u64)
    requires OnSchedule(t, period, oneShot, t0, firings, fits) && Due(t, now)
    requires fits ==> now + period * MILLI_TO_MICRO < U64
    ensures OnSchedule(Collected(t, now), period, oneShot, t0, firings + 1, fits)
  {
    var p := period * MILLI_TO_MICRO;
    if fits {
      WrapSmall(now + p);
    }
    assert (firings + 2) * p == (firings + 1) * p + p;
    hide Wrap64;
  }

  lemma {:induction false} StaysOnSchedule(states: seq<State>, ops: seq<Operation>, i: nat, j: nat)
    requires IsRun(states, ops) && i < j <= |ops| && ops[i].Start? && ops[i].id in states[i].timers
    requires Undisturbed(states, ops, ops[i].id, i + 1, j)
    ensures ops[i].id in states[j].timers
    ensures OnSchedule(states[j].timers[ops[i].id], ops[i].period, ops[i].oneShot, ops[i].at,
                       Firings(states, ops, ops[i].id, i + 1, j), DueTimesFit(ops, i, j))
    decreases j
  {
    var id, period, fits := ops[i].id, ops[i].period, DueTimesFit(ops, i, j);
    assert Follows(states[j - 1], ops[j - 1], states[j]);
    if j == i + 1 {
      if fits {
        WrapSmall(ops[i].at + period * MILLI_TO_MICRO);
      }
      hide Wrap64;
    } else {
      StaysOnSchedule(states, ops, i, j - 1);
      OthersKeep(states[j - 1], ops[j - 1], id);
      var t, firings := states[j - 1].timers[id], Firings(states, ops, id, i + 1, j - 1);
      assert OnSchedule(t, period, ops[i].oneShot, ops[i].at, firings, fits);
      if Fires(states[j - 1], ops[j - 1], id) {
        FiringKeepsSchedule(t, period, ops[i].oneShot, ops[i].at, firings, fits, ops[j - 1].at);
      }
      hide OnSchedule, IsRun, Wrap64, DueTimesFit;
    }
  }

  /**
   * In every run, until the timer is started again, stopped, deleted or replaced: a one-shot fires at most once, and
   * the k-th firing after a start at t0 comes no earlier than t0 + k periods while due times fit into 64 bits.
   */
  lemma {:induction false} FiringsSpaced(states: seq<State>, ops: seq<Operation>, i: nat, j: nat)
    requires IsRun(states, ops) && i < j < |ops| && ops[i].Start? && ops[i].id in states[i].timers
    requires Undisturbed(states, ops, ops[i].id, i + 1, j) && Fires(states[j], ops[j], ops[i].id)
    ensures ops[i].oneShot ==> Firings(states, ops, ops[i].id, i + 1, j) == 0
    ensures DueTimesFit(ops, i, j) ==>
              ops[j].at
              >= ops[i].at + (Firings(states, ops, ops[i].id, i + 1, j) + 1) * (ops[i].period * 1000)
  {
    StaysOnSchedule(states, ops, i, j);
    hide IsRun, Undisturbed, DueTimesFit;
  }

  /** From a firing on, or from the start on, a timer that does not fire again keeps the due time it was given then. */
  lemma {:induction false} UnfiredKeeps(states: seq<State>, ops: seq<Operation>, i: nat, m: nat, j: nat)
    requires IsRun(states, ops) && i <= m < j <= |ops| && ops[i].Start? && ops[i].id in states[i].timers
    requires Undisturbed(states, ops, ops[i].id, i + 1, j) && Firings(states, ops, ops[i].id, m + 1, j) == 0
    requires m == i || (!ops[i].oneShot && Fires(states[m], ops[m], ops[i].id))
    ensures ops[i].id in states[j].timers
    ensures states[j].timers[ops[i].id]
            == Timer(ops[i].period, ops[i].oneShot, true, NextTime(ops[m].at, ops[i].period))
    decreases j
  {
    var id := ops[i].id;
    assert Follows(states[j - 1], ops[j - 1], states[j]);
    if j > m + 1 {
      UnfiredKeeps(states, ops, i, m, j - 1);
      OthersKeep(states[j - 1], ops[j - 1], id);
    } else if m > i {
      StaysOnSchedule(states, ops, i, m);
      OthersKeep(states[m], ops[m], id);
      hide DueTimesFit, Firings;
    }
    hide IsRun, Wrap64;
  }

  /**
   * In every run, for a timer started at operation i and undisturbed since: after that start, or after a firing m of a
   * periodic timer, the passes that collect it next are exactly those a period of milliseconds later or more, in
   * microseconds. If that time does not fit into 64 bits, every later pass collects it, before the period is over.
   */
  lemma {:induction false} DueIsCollected(states: seq<State>, ops: seq<Operation>, i: nat, m: nat, j: nat)
    requires IsRun(states, ops) && i <= m < j < |ops| && ops[i].Start? && ops[i].id in states[i].timers && ops[j].Pass?
    requires Undisturbed(states, ops, ops[i].id, i + 1, j) && Firings(states, ops, ops[i].id, m + 1, j) == 0
    requires m == i || (!ops[i].oneShot && Fires(states[m], ops[m], ops[i].id))
    ensures var due := ops[m].at + ops[i].period * 1000;
            if due < U64 then Fires(states[j], ops[j], ops[i].id) <==> ops[j].at >= due
            else ops[j].at >= ops[m].at ==> Fires(states[j], ops[j], ops[i].id) && ops[j].at < due
  {
    UnfiredKeeps(states, ops, i, m, j);
    NextTimeRightIff(ops[m].at, ops[i].period);
    hide IsRun, Undisturbed, NextTime;
  }

  // ---------------------------------------------------------------- which timers there are

  /** Operation k creates a timer under this id. */
  ghost predicate CreatesId(states: seq<State>, ops: seq<Operation>, k: nat, id: u32)
    requires k < |ops| < |states|
  {
    ops[k].Create? && states[k].count == id
  }

  /** How many of the first i operations create a timer. */
  function Creates(ops: seq<Operation>, i: nat): nat
    requires i <= |ops|
  {
    if i == 0 then 0 else Creates(ops, i - 1) + (if ops[i - 1].Create? then 1 else 0)
  }

  lemma {:induction false} CreatesMonotone(ops: seq<Operation>, i: nat, j: nat)
    requires i < j <= |ops| && ops[i].Create?
    ensures Creates(ops, i) < Creates(ops, j)
    decreases j
  {
    if i + 1 < j {
      CreatesMonotone(ops, i, j - 1);
    }
  }

  /** Ids are given out in the order of creation, modulo 2^32. */
  lemma {:induction false} CountIs(states: seq<State>, ops: seq<Operation>, i: nat)
    requires IsRun(states, ops) && i < |states|
    ensures states[i].count == Wrap32(states[0].count + Creates(ops, i))
  {
    if i > 0 {
      CountIs(states, ops, i - 1);
      assert Follows(states[i - 1], ops[i - 1], states[i]);
      RemAdd(states[0].count + Creates(ops, i - 1), 1, 0x1_0000_0000);
      hide IsRun, Rem;
    }
  }

  /** In every run two creations give one id exactly when a multiple of 2^32 creations lies from one to the other. */
  lemma {:induction false} SameIdIff(states: seq<State>, ops: seq<Operation>, i: nat, j: nat)
    requires IsRun(states, ops) && i < j < |ops| && ops[i].Create? && ops[j].Create?
    ensures Creates(ops, j) > Creates(ops, i)
    ensures states[i].count == states[j].count <==> (Creates(ops, j) - Creates(ops, i)) % 0x1_0000_0000 == 0
  {
    CreatesMonotone(ops, i, j);
    CountIs(states, ops, i);
    CountIs(states, ops, j);
    SameRemIff(states[0].count + Creates(ops, i), Creates(ops, j) - Creates(ops, i), 0x1_0000_0000);
    hide IsRun, Rem;
  }

  /** The timer created by operation k was not deleted before operation i. */
  ghost predicate Survives(states: seq<State>, ops: seq<Operation>, k: nat, i: nat, id: u32)
    requires i <= |ops| < |states|
  {
    k < i && CreatesId(states, ops, k, id) && forall m | k < m < i :: ops[m] != Delete(id)
  }

  /** In every run the timers there are are exactly those that were created and not deleted since. */
  lemma {:induction false} PresentIff(states: seq<State>, ops: seq<Operation>, i: nat, id: u32)
    requires IsRun(states, ops) && i < |states|
    ensures id in states[i].timers <==> exists k: nat :: Survives(states, ops, k, i, id)
  {
    if i > 0 {
      PresentIff(states, ops, i - 1, id);
      var s, o := states[i - 1], ops[i - 1];
      assert Follows(s, o, states[i]);
      assert id in states[i].timers <==> (o.Create? && s.count == id) || (id in s.timers && o != Delete(id));
      hide IsRun, Next;
      forall k: nat
        ensures Survives(states, ops, k, i, id)
                <==> || (k == i - 1 && o.Create? && s.count == id)
                     || (Survives(states, ops, k, i - 1, id) && o != Delete(id))
      {
      }
      if o.Create? && s.count == id {
        assert Survives(states, ops, i - 1, i, id);
      } else if id in s.timers && o != Delete(id) {
        var k: nat :| Survives(states, ops, k, i - 1, id);
        assert Survives(states, ops, k, i, id);
      }
    }
  }

  /**
   * In every run a creation replaces a timer exactly when one created a multiple of 2^32 creations earlier is still
   * there; so among the first 2^32 creations none does.
   */
  lemma {:induction false} ReplacesIff(states: seq<State>, ops: seq<Operation>, i: nat)
    requires IsRun(states, ops) && i < |ops| && ops[i].Create?
    ensures states[i].count in states[i].timers <==>
              exists k: nat ::
                && k < i && ops[k].Create? && Creates(ops, k) < Creates(ops, i)
                && (Creates(ops, i) - Creates(ops, k)) % 0x1_0000_0000 == 0
                && Survives(states, ops, k, i, states[i].count)
    ensures Creates(ops, i) < 0x1_0000_0000 ==> states[i].count !in states[i].timers
  {
    var id := states[i].count;
    PresentIff(states, ops, i, id);
    forall k: nat | Survives(states, ops, k, i, id)
      ensures Creates(ops, k) < Creates(ops, i) && (Creates(ops, i) - Creates(ops, k)) % 0x1_0000_0000 == 0
      ensures Creates(ops, i) >= 0x1_0000_0000
    {
      SameIdIff(states, ops, k, i);
    }
    hide IsRun;
  }

  /** The timer is not there, or not started. */
  predicate Silent(s: State, id: u32) {
    id in s.timers ==> !s.timers[id].started
  }

  /** In every run, a timer that was stopped, deleted or newly created is not collected until it is started. */
  lemma {:induction false} StoppedStaysSilent(states: seq<State>, ops: seq<Operation>, i: nat, j: nat, id: u32)
    requires IsRun(states, ops) && i < j <= |ops|
    requires ops[i] == Stop(id) || ops[i] == Delete(id) || CreatesId(states, ops, i, id)
    requires forall k | i < k < j :: !(ops[k].Start? && ops[k].id == id)
    ensures Silent(states[j], id) && (j < |ops| ==> !Fires(states[j], ops[j], id))
    decreases j
  {
    assert Follows(states[j - 1], ops[j - 1], states[j]);
    if j > i + 1 {
      StoppedStaysSilent(states, ops, i, j - 1, id);
    }
    hide IsRun, Wrap64;
  }
}
