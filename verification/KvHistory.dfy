/**
 * What ranks have done when they get somewhere: which transfers they made on the way, and what their buffers hold.
 */
module KvHistory {
  import Stages
  import opened KvSystem
  import opened KvProgress
  import X = Executor

  // ---------------------------------------------------------------- transfers made

  /** Event m: rank r, at barrier k, starts a batch of the given operation and number of tasks. */
  ghost predicate StartsAt(states: seq<State>, events: seq<Event>, m: nat, r: nat, k: nat, op: X.Op, tasks: nat) {
    && m < |events| && |states| == |events| + 1 && r < |states[m].ranks| == |states[m + 1].ranks|
    && events[m] == Event(r, Start) && states[m].ranks[r].pos == k
    && states[m + 1].ranks[r].exec.shared.op == op && states[m + 1].ranks[r].exec.total == tasks
  }

  /** Event n: rank r, at barrier k, returns from its batch without an error. */
  ghost predicate ReturnsAt(states: seq<State>, events: seq<Event>, n: nat, r: nat, k: nat) {
    && n < |events| && |states| == |events| + 1 && r < |states[n].ranks|
    && events[n] == Event(r, Return) && states[n].ranks[r].pos == k && states[n].ranks[r].exec.shared.error.None?
  }

  ghost predicate Started(states: seq<State>, events: seq<Event>, i: nat, r: nat, k: nat, op: X.Op, tasks: nat) {
    exists m: nat :: m < i && StartsAt(states, events, m, r, k, op, tasks)
  }

  /** Before state i, rank r started such a batch at barrier k and returned from it without an error. */
  ghost predicate Made(states: seq<State>, events: seq<Event>, i: nat, r: nat, k: nat, op: X.Op, tasks: nat) {
    exists m: nat, n: nat ::
      m < n < i && StartsAt(states, events, m, r, k, op, tasks) && ReturnsAt(states, events, n, r, k)
  }

  /** The transfer that rank r is to make at barrier k, if any. */
  function TransferAt(p: Params, r: nat, k: nat): Action
    requires k < |p.script|
  {
    ActionAt(p, p.script[k], r)
  }

  ghost predicate MadeThere(p: Params, states: seq<State>, events: seq<Event>, i: nat, r: nat, k: nat)
    requires k < |p.script|
  {
    Made(states, events, i, r, k, OpOf(TransferAt(p, r, k)), TasksFor(p, TransferAt(p, r, k)))
  }

  /** What the position and mode of a rank say about its past. */
  ghost predicate History(p: Params, states: seq<State>, events: seq<Event>, i: nat, r: nat)
    requires i < |states| && r < |states[i].ranks| && states[i].ranks[r].pos < |p.script|
  {
    var k := states[i].ranks[r];
    && (k.mode.Moving? ==>
          Started(states, events, i, r, k.pos, OpOf(TransferAt(p, r, k.pos)), TasksFor(p, TransferAt(p, r, k.pos))))
    && (k.mode.Settled? ==> MadeThere(p, states, events, i, r, k.pos))
    && (forall j: nat | j < k.pos && TransferAt(p, r, j) != NoTransfer :: MadeThere(p, states, events, i, r, j))
  }

  lemma {:induction false} MadeLater(states: seq<State>, events: seq<Event>, i: nat, r: nat, k: nat, op: X.Op,
                                     tasks: nat)
    ensures Started(states, events, i, r, k, op, tasks) ==> Started(states, events, i + 1, r, k, op, tasks)
    ensures Made(states, events, i, r, k, op, tasks) ==> Made(states, events, i + 1, r, k, op, tasks)
  {
    hide StartsAt, ReturnsAt;
  }

  lemma {:induction false} EarlierLater(p: Params, states: seq<State>, events: seq<Event>, i: nat, r: nat, k: nat)
    requires k <= |p.script|
    ensures forall j: nat | j < k && MadeThere(p, states, events, i, r, j) :: MadeThere(p, states, events, i + 1, r, j)
  {
    hide Made, TransferAt, TasksFor;
    forall j: nat | j < k && MadeThere(p, states, events, i, r, j)
      ensures MadeThere(p, states, events, i + 1, r, j)
    {
      MadeLater(states, events, i, r, j, OpOf(TransferAt(p, r, j)), TasksFor(p, TransferAt(p, r, j)));
    }
  }

  /** How a step changes what is needed of its rank. */
  ghost predicate StepKind(p: Params, s: State, s': State, r: nat, l: Label)
    requires Shape(p, s) && Shape(p, s') && r < p.ranks
  {
    var k, k' := s.ranks[r], s'.ranks[r];
    && (l.Start? ==> k'.pos == k.pos && k'.mode.Moving? && TransferAt(p, r, k.pos) != NoTransfer
                     && k'.exec.shared.op == OpOf(TransferAt(p, r, k.pos))
                     && k'.exec.total == TasksFor(p, TransferAt(p, r, k.pos)))
    && (l.Return? ==> k'.pos == k.pos && k.mode.Moving? && !k'.mode.Moving?
                      && (k'.mode.Settled? <==> k.exec.shared.error.None?))
    && (l.Advance? ==> k'.pos == k.pos + 1 && k'.mode.Entering?
                       && (k.mode.Settled? || TransferAt(p, r, k.pos) == NoTransfer))
    && (!l.Start? && !l.Return? && !l.Advance? ==>
          k'.pos == k.pos && !k'.mode.Settled? && (k'.mode.Moving? ==> k.mode.Moving?))
  }

  lemma {:induction false} StepIsKind(p: Params, s: State, r: nat, l: Label)
    requires Valid(p) && Inv(p, s) && Enabled(p, s, r, l) && r < p.ranks
    ensures Shape(p, Next(p, s, r, l)) && StepKind(p, s, Next(p, s, r, l), r, l)
  {
    ShapeKept(p, s, r, l);
    assert TransferInv(p, s, r);
    var k := s.ranks[r];
    if l.Start? {
      TransferFacts(p, s, r);
      StartFacts(k.exec, TasksOf(p, s, r), OpOf(ActionOf(p, s, r)));
    }
    hide Valid, BarrierInv, DataInv, X.Inv, X.Next, X.Enabled, MayWork, Stages.Name, FinishedCopied, TasksFor, OpOf;
  }

  lemma {:induction false} OwnHistory(p: Params, states: seq<State>, events: seq<Event>, i: nat, r: nat, l: Label)
    requires i < |events| && |states| == |events| + 1 && events[i] == Event(r, l) && r < p.ranks
    requires Shape(p, states[i]) && Shape(p, states[i + 1]) && StepKind(p, states[i], states[i + 1], r, l)
    requires History(p, states, events, i, r)
    ensures History(p, states, events, i + 1, r)
  {
    var k, k' := states[i].ranks[r], states[i + 1].ranks[r];
    var op, tasks := OpOf(TransferAt(p, r, k.pos)), TasksFor(p, TransferAt(p, r, k.pos));
    hide TransferAt, TasksFor, OpOf;
    MadeLater(states, events, i, r, k.pos, op, tasks);
    EarlierLater(p, states, events, i, r, k.pos);
    if l.Start? {
      assert StartsAt(states, events, i, r, k.pos, op, tasks);
    } else if l.Return? && k'.mode.Settled? {
      assert ReturnsAt(states, events, i, r, k.pos);
    }
    hide StartsAt, ReturnsAt;
  }

  lemma {:induction false} OtherHistory(p: Params, states: seq<State>, events: seq<Event>, i: nat, r: nat)
    requires i < |events| && |states| == |events| + 1 && r < p.ranks && Shape(p, states[i]) && Shape(p, states[i + 1])
    requires states[i + 1].ranks[r] == states[i].ranks[r] && History(p, states, events, i, r)
    ensures History(p, states, events, i + 1, r)
  {
    var k := states[i].ranks[r];
    hide TransferAt, TasksFor, OpOf, Made, Started;
    MadeLater(states, events, i, r, k.pos, OpOf(TransferAt(p, r, k.pos)), TasksFor(p, TransferAt(p, r, k.pos)));
    EarlierLater(p, states, events, i, r, k.pos);
  }

  lemma {:induction false} InitHistory(p: Params, states: seq<State>, events: seq<Event>, r: nat)
    requires |states| > 0 && Init(p, states[0]) && r < p.ranks
    ensures Shape(p, states[0]) && History(p, states, events, 0, r)
  {
    assert InitRank(states[0].ranks[r]);
    hide X.Init;
  }

  lemma {:induction false} HistoryGrows(p: Params, states: seq<State>, events: seq<Event>, i: nat, r: nat)
    requires Valid(p) && i < |events| && |states| == |events| + 1 && r < p.ranks && Inv(p, states[i])
    requires Follows(p, states[i], events[i], states[i + 1]) && History(p, states, events, i, r)
    ensures Shape(p, states[i + 1]) && History(p, states, events, i + 1, r)
  {
    var s, e := states[i], events[i];
    hide Valid, BarrierInv, TransferInv, DataInv, Next, Enabled, History, StepKind;
    RankInRange(p, s, e.rank, e.step);
    ShapeKept(p, s, e.rank, e.step);
    if e.rank == r {
      StepIsKind(p, s, r, e.step);
      OwnHistory(p, states, events, i, r, e.step);
    } else {
      OtherHistory(p, states, events, i, r);
    }
  }

  lemma {:induction false} RunHistory(p: Params, states: seq<State>, events: seq<Event>, i: nat, r: nat)
    requires Valid(p) && IsRun(p, states, events) && i < |states| && r < p.ranks
    ensures Shape(p, states[i]) && History(p, states, events, i, r)
    decreases i
  {
    hide Valid, Inv, Init, Follows, History, Shape;
    if i == 0 {
      InitHistory(p, states, events, r);
    } else {
      RunHistory(p, states, events, i - 1, r);
      RunInv(p, states, events, i - 1);
      HistoryGrows(p, states, events, i - 1, r);
    }
  }

  lemma {:induction false} WorkloadInRange(p: Params, k: nat)
    requires Valid(p) && k < |p.script| && p.script[k].At?
    ensures p.script[k].workload < |p.layouts| == |p.taskCounts|
  {
    Stages.ScriptPositions(p.schedule, p.script, k);
  }

  /**
   * In every run, whatever fails: a rank that has gone on from the ready barrier of a get round started there a read of
   * all tasks of the workload, and returned from it without an error.
   */
  lemma {:induction false} GetsMade(p: Params, states: seq<State>, events: seq<Event>, i: nat, r: nat, k: nat)
    requires Valid(p) && IsRun(p, states, events) && i < |states| && r < p.ranks && Shape(p, states[i])
    requires k < states[i].ranks[r].pos && p.script[k].At? && p.script[k].point.GetReady?
    ensures p.script[k].workload < |p.taskCounts|
    ensures Made(states, events, i, r, k, X.Read, p.taskCounts[p.script[k].workload])
  {
    WorkloadInRange(p, k);
    RunHistory(p, states, events, i, r);
    assert MadeThere(p, states, events, i, r, k);
    hide Valid, IsRun, Made, Shape;
  }

  /**
   * In every run: a rank that has gone on from the ready barrier of a workload started there a write of all its tasks
   * and returned from it without an error, if it is rank 0 or the model is not shared; any other rank started nothing.
   */
  lemma {:induction false} PutsMade(p: Params, states: seq<State>, events: seq<Event>, i: nat, r: nat, k: nat)
    requires Valid(p) && IsRun(p, states, events) && i < |states| && r < p.ranks && Shape(p, states[i])
    requires k < states[i].ranks[r].pos && p.script[k].At? && p.script[k].point.Ready?
    ensures p.script[k].workload < |p.taskCounts|
    ensures r == 0 || !p.shared ==> Made(states, events, i, r, k, X.Write, p.taskCounts[p.script[k].workload])
    ensures r != 0 && p.shared ==> forall m: nat, op, tasks | m < i :: !StartsAt(states, events, m, r, k, op, tasks)
  {
    WorkloadInRange(p, k);
    RunHistory(p, states, events, i, r);
    if r == 0 || !p.shared {
      assert MadeThere(p, states, events, i, r, k);
    } else {
      forall m: nat, op, tasks | m < i && StartsAt(states, events, m, r, k, op, tasks)
        ensures false
      {
        StartsOnlyThere(p, states, events, m, r);
      }
    }
    hide Valid, IsRun, Made, Shape;
  }

  /** In every run a rank starts a transfer only behind the barriers that precede one. */
  lemma {:induction false} StartsOnlyThere(p: Params, states: seq<State>, events: seq<Event>, m: nat, r: nat)
    requires Valid(p) && IsRun(p, states, events) && m < |events| && events[m] == Event(r, Start)
    ensures r < |states[m].ranks| && states[m].ranks[r].pos < |p.script|
    ensures var at := p.script[states[m].ranks[r].pos];
            at.At? && (at.point.GetReady? || (at.point.Ready? && (r == 0 || !p.shared)))
  {
    assert Follows(p, states[m], events[m], states[m + 1]);
    hide Valid, IsRun, Next;
  }

  // ---------------------------------------------------------------- nothing spoiled

  /** A rank on which nothing is spoiled now had nothing spoiled before, and spoils nothing in its step. */
  lemma {:induction false} CleanBefore(p: Params, s: State, r: nat, l: Label, q: nat)
    requires Valid(p) && Inv(p, s) && Enabled(p, s, r, l) && q < p.ranks && r < p.ranks
    ensures Shape(p, Next(p, s, r, l))
    ensures Clean(Next(p, s, r, l).ranks[q].mode) ==> Clean(s.ranks[q].mode) && !(r == q && l.Scribble?)
  {
    ShapeKept(p, s, r, l);
    if q == r {
      assert TransferInv(p, s, r);
      if l.Return? && s.ranks[r].exec.shared.error.None? {
        AllCopied(p, s, r);
      }
      if l.Scribble? {
        ByteInBounds(p, s, r, l.at);
      }
      hide Valid, BarrierInv, DataInv, X.Inv, X.Next, MayWork, Stages.Name, FinishedCopied;
    } else {
      hide Valid, Inv, Next, Enabled;
    }
  }

  /** In every run, a rank on which nothing is spoiled at i never received a spoiled byte. */
  lemma {:induction false} NeverScribbled(p: Params, states: seq<State>, events: seq<Event>, j: nat, i: nat, q: nat)
    requires Valid(p) && IsRun(p, states, events) && j <= i < |states| && q < p.ranks && Shape(p, states[i])
    requires Clean(states[i].ranks[q].mode)
    ensures forall k | j <= k < i :: !(events[k].rank == q && events[k].step.Scribble?)
    decreases i
  {
    if j < i {
      RunInv(p, states, events, i - 1);
      var s, e := states[i - 1], events[i - 1];
      assert Follows(p, s, e, states[i]);
      hide Valid, Inv, Next, Enabled, IsRun, Clean;
      RankInRange(p, s, e.rank, e.step);
      CleanBefore(p, s, e.rank, e.step, q);
      NeverScribbled(p, states, events, j, i - 1, q);
    }
  }

  /** A byte that a rank holds rightly stays right, unless a spoiled one arrives at that rank. */
  lemma {:induction false} RightStays(p: Params, s: State, r: nat, l: Label, q: nat, a: nat)
    requires Valid(p) && p.shared && Inv(p, s) && Enabled(p, s, r, l) && q < p.ranks && r < p.ranks
    requires LocalByteRight(p, s, q, a) && !(r == q && l.Scribble?)
    ensures Shape(p, Next(p, s, r, l)) && LocalByteRight(p, Next(p, s, r, l), q, a)
  {
    ShapeKept(p, s, r, l);
    if r == q && l.Copy? {
      CopyIsRight(p, s, r, l.worker, l.at);
    } else {
      hide Valid, Inv, X.Next, X.Enabled, MayWork, Stages.Name;
    }
  }

  /** A copy that changes a buffer brings the byte that rank 0 started with. */
  lemma {:induction false} CopyIsRight(p: Params, s: State, r: nat, v: nat, a: nat)
    requires Valid(p) && p.shared && Inv(p, s) && Enabled(p, s, r, Copy(v, a)) && r < p.ranks
    ensures var s' := Next(p, s, r, Copy(v, a));
            && r < |s'.locals|
            && (s'.locals[r] == s.locals[r]
                || (a < |s.locals[r]| && a < |p.data| && s'.locals[r] == s.locals[r][a := p.data[a]]))
  {
    var b, w := LayoutOf(p, s, r)[a], ActionOf(p, s, r).workload;
    assert TransferInv(p, s, r);
    ByteInBounds(p, s, r, a);
    ActionWorkload(p, s, r);
    RunningTask(s.ranks[r].exec, v);
    if ActionOf(p, s, r).Get? {
      GetSeesImage(p, s, r, w, StageOf(p, s, r).point.round);
      assert PoolByteRight(p, s, w, a);
    }
    hide X.Inv, BarrierInv, FinishedCopied, ValidLayout, DataInv;
  }

  lemma {:induction false} BytesStay(p: Params, states: seq<State>, events: seq<Event>, j: nat, i: nat, q: nat, a: nat)
    requires Valid(p) && p.shared && IsRun(p, states, events) && j <= i < |states| && q < p.ranks
    requires Shape(p, states[j]) && LocalByteRight(p, states[j], q, a)
    requires forall k | j <= k < i :: !(events[k].rank == q && events[k].step.Scribble?)
    ensures Shape(p, states[i]) && LocalByteRight(p, states[i], q, a)
    decreases i
  {
    if j < i {
      BytesStay(p, states, events, j, i - 1, q, a);
      RunInv(p, states, events, i - 1);
      var s, e := states[i - 1], events[i - 1];
      assert Follows(p, s, e, states[i]);
      hide Valid, Inv, Next, Enabled, IsRun, LocalByteRight;
      RankInRange(p, s, e.rank, e.step);
      RightStays(p, s, e.rank, e.step, q, a);
    }
  }

  // ---------------------------------------------------------------- what ranks hold

  lemma {:induction false} ReturnSettles(p: Params, states: seq<State>, events: seq<Event>, n: nat, r: nat, k: nat)
    requires Valid(p) && IsRun(p, states, events) && ReturnsAt(states, events, n, r, k)
    ensures Shape(p, states[n + 1]) && r < p.ranks
    ensures states[n + 1].ranks[r].pos == k && states[n + 1].ranks[r].mode.Settled?
  {
    RunInv(p, states, events, n + 1);
    assert Follows(p, states[n], events[n], states[n + 1]);
    hide Valid, IsRun, Inv, X.Next, X.Enabled;
  }

  /**
   * In every run of a shared model, whatever fails elsewhere: a rank that has gone on from the ready barrier of a get
   * round, and on which nothing is spoiled now, holds over the whole workload what rank 0 started with.
   */
  lemma {:induction false} HoldsFromThen(p: Params, states: seq<State>, events: seq<Event>, i: nat, r: nat, k: nat)
    requires Valid(p) && p.shared && IsRun(p, states, events) && i < |states| && r < p.ranks && Shape(p, states[i])
    requires k < states[i].ranks[r].pos && p.script[k].At? && p.script[k].point.GetReady?
    requires Clean(states[i].ranks[r].mode)
    ensures p.script[k].workload < |p.layouts| && |p.layouts[p.script[k].workload]| <= |p.data|
    ensures forall a | 0 <= a < |p.layouts[p.script[k].workload]| :: states[i].locals[r][a] == p.data[a]
  {
    var w, round := p.script[k].workload, p.script[k].point.round;
    GetsMade(p, states, events, i, r, k);
    var m: nat, n: nat :| m < n < i && StartsAt(states, events, m, r, k, X.Read, p.taskCounts[w])
                          && ReturnsAt(states, events, n, r, k);
    ReturnSettles(p, states, events, n, r, k);
    RoundTrip(p, states, events, n + 1, r, w, round);
    NeverScribbled(p, states, events, n + 1, i, r);
    hide Valid, IsRun, StartsAt, ReturnsAt, Clean;
    forall a | 0 <= a < |p.layouts[w]|
      ensures states[i].locals[r][a] == p.data[a]
    {
      assert LocalByteRight(p, states[n + 1], r, a);
      BytesStay(p, states, events, n + 1, i, r, a);
      assert LocalByteRight(p, states[i], r, a);
    }
  }

  /** In every run of a shared model that ends, with at least one round, every rank holds every workload of rank 0. */
  lemma {:induction false} EndedHolds(p: Params, states: seq<State>, events: seq<Event>, i: nat, r: nat, w: nat)
    requires Valid(p) && p.shared && IsRun(p, states, events) && i < |states|
    requires Shape(p, states[i]) && Ended(p, states[i])
    requires r < p.ranks && w < p.schedule.workloads && p.schedule.rounds > 0
    ensures w < |p.layouts| && |p.layouts[w]| <= |p.data|
    ensures forall a | 0 <= a < |p.layouts[w]| :: states[i].locals[r][a] == p.data[a]
  {
    Stages.ScriptIsListed(p.schedule, p.script);
    assert Stages.WorkloadListed(p.schedule, p.script, w);
    var k := Stages.Base(p.schedule, w) + 2 + 2 * 0;
    assert p.script[k] == Stages.At(w, Stages.GetReady(0));
    hide Valid, IsRun, Stages.Base, Stages.Listed;
    HoldsFromThen(p, states, events, i, r, k);
  }
}
