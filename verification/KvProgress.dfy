/**
 * The benchmark does not get stuck: as long as nothing has failed, some rank can take a step that brings the run
 * closer to its last barrier, and such steps end there.
 */
module KvProgress {
  import opened ByteMoves
  import Stages
  import opened KvSystem
  import X = Executor

  // ---------------------------------------------------------------- runs without faults

  /** A rank gives up, a byte arrives spoiled, or a task throws. */
  predicate IsFault(l: Label) {
    l.Stop? || l.Scribble? || (l.Work? && l.step.FailStep?)
  }

  /** Nothing has failed on the rank. */
  ghost predicate Smooth(k: Rank) {
    !k.mode.Stopped? && (k.mode.Moving? ==> k.mode.bad == {}) && k.exec.bad == []
  }

  /** The rank has left its marker at every barrier it came to, and what it settled was a transfer. */
  ghost predicate Visible(p: Params, s: State, r: nat)
    requires Shape(p, s) && r < p.ranks
  {
    var k := s.ranks[r];
    && (forall j | 0 <= j < k.pos :: Marked(p, s, j, r))
    && (k.mode.Entering? || k.mode.Stopped? || Marked(p, s, k.pos, r))
    && (k.mode.Settled? ==> ActionOf(p, s, r) != NoTransfer)
  }

  ghost predicate OnCourse(p: Params, s: State)
    requires Shape(p, s)
  {
    forall r | 0 <= r < p.ranks :: Smooth(s.ranks[r]) && Visible(p, s, r)
  }

  lemma {:induction false} FilesGrow(p: Params, s: State, r: nat, l: Label)
    requires Valid(p) && Shape(p, s) && Enabled(p, s, r, l)
    ensures s.files <= Next(p, s, r, l).files
  {
    hide Valid, X.Next, X.Enabled, MayWork, Stages.Name;
    if l.Copy? {
      ByteInBounds(p, s, r, l.at);
    } else if l.Scribble? {
      ByteInBounds(p, s, r, l.at);
    }
  }

  lemma {:induction false} OthersVisible(p: Params, s: State, s': State, q: nat)
    requires Shape(p, s) && Shape(p, s') && q < p.ranks && Visible(p, s, q)
    requires s'.ranks[q] == s.ranks[q] && s.files <= s'.files
    ensures Visible(p, s', q)
  {
    hide Stages.Name;
    forall j | 0 <= j < s.ranks[q].pos
      ensures Marked(p, s', j, q)
    {
      assert Marked(p, s, j, q);
    }
  }

  /** What a step does to the position and mode of its rank, as far as others can tell. */
  lemma {:induction false} ModeAfter(p: Params, s: State, r: nat, l: Label)
    requires Valid(p) && Shape(p, s) && Enabled(p, s, r, l) && r < p.ranks
    ensures Shape(p, Next(p, s, r, l))
    ensures var k, k' := s.ranks[r], Next(p, s, r, l).ranks[r];
            && (if l.Advance? then k'.pos == k.pos + 1 && k'.mode.Entering? && Beyond(k.mode) else k'.pos == k.pos)
            && (l.WriteMarker? ==> Marked(p, Next(p, s, r, l), k.pos, r))
            && (k'.mode.Entering? || k'.mode.Stopped? || l.WriteMarker? || (!k.mode.Entering? && !k.mode.Stopped?))
            && (k'.mode.Settled? ==> k.mode.Moving? && !l.Advance?)
  {
    ShapeKept(p, s, r, l);
    hide Valid, X.Next, X.Enabled, X.Inv, MayWork, Carries, Stages.Name, TasksOf, LayoutOf;
  }

  /** A rank whose step did this to it can still be seen. */
  lemma {:induction false} VisibleAfter(p: Params, s: State, s': State, r: nat, advanced: bool, marked: bool)
    requires Shape(p, s) && Shape(p, s') && r < p.ranks && Visible(p, s, r) && s.files <= s'.files
    requires var k, k' := s.ranks[r], s'.ranks[r];
             && (if advanced then k'.pos == k.pos + 1 && k'.mode.Entering? && Beyond(k.mode) else k'.pos == k.pos)
             && (marked ==> Marked(p, s', k.pos, r))
             && (k'.mode.Entering? || k'.mode.Stopped? || marked || (!k.mode.Entering? && !k.mode.Stopped?))
             && (k'.mode.Settled? ==> !advanced && ActionOf(p, s, r) != NoTransfer)
    ensures Visible(p, s', r)
  {
    hide Stages.Name, ActionAt;
    var k := s.ranks[r].pos;
    assert Marked(p, s, k, r) ==> Marked(p, s', k, r);
    forall j | 0 <= j < k
      ensures Marked(p, s', j, r)
    {
      assert Marked(p, s, j, r);
    }
    hide Marked, Shape;
  }

  lemma {:induction false} OwnVisible(p: Params, s: State, r: nat, l: Label)
    requires Valid(p) && Inv(p, s) && Enabled(p, s, r, l) && Visible(p, s, r) && r < p.ranks
    ensures Shape(p, Next(p, s, r, l)) && Visible(p, Next(p, s, r, l), r)
  {
    FilesGrow(p, s, r, l);
    ModeAfter(p, s, r, l);
    assert s.ranks[r].mode.Moving? ==> ActionOf(p, s, r) != NoTransfer by {
      assert TransferInv(p, s, r);
    }
    hide Valid, Next, Enabled, Visible, Marked, BarrierInv, TransferInv, DataInv, ActionAt;
    VisibleAfter(p, s, Next(p, s, r, l), r, l.Advance?, l.WriteMarker?);
  }

  /** Only a throwing task adds to the record of failed ones. */
  lemma {:induction false} ExecSmooth(x: X.State, l: X.Label)
    requires X.Inv(x) && X.Enabled(x, l) && x.bad == [] && !l.FailStep?
    ensures X.Next(x, l).bad == []
  {
  }

  lemma {:induction false} OwnSmooth(p: Params, s: State, r: nat, l: Label)
    requires Valid(p) && Inv(p, s) && Enabled(p, s, r, l) && Smooth(s.ranks[r]) && !IsFault(l)
             && Shape(p, Next(p, s, r, l))
    ensures Smooth(Next(p, s, r, l).ranks[r])
  {
    var k := s.ranks[r];
    assert TransferInv(p, s, r);
    match l
    case Start => ExecSmooth(k.exec, X.StartBatch(TasksOf(p, s, r), OpOf(ActionOf(p, s, r))));
    case Work(x) =>
      ExecSmooth(k.exec, x);
      hide Valid, X.Next, X.Inv, Stages.Name, BarrierInv, DataInv;
    case Return =>
      ExecSmooth(k.exec, X.ReturnStep);
      ErrorIsRecorded(k.exec);
    case _ =>
      hide Valid, X.Next, X.Enabled, X.Inv, MayWork, Stages.Name, BarrierInv, DataInv;
  }

  lemma {:induction false} ErrorIsRecorded(x: X.State)
    requires X.Inv(x) && x.inside && x.bad == []
    ensures x.shared.error.None?
  {
  }

  lemma {:induction false} OnCourseKept(p: Params, s: State, r: nat, l: Label)
    requires Valid(p) && Inv(p, s) && OnCourse(p, s) && Enabled(p, s, r, l) && !IsFault(l)
    ensures Inv(p, Next(p, s, r, l)) && OnCourse(p, Next(p, s, r, l))
  {
    hide Valid, BarrierInv, TransferInv, DataInv, Next, Enabled, Smooth, Visible;
    RankInRange(p, s, r, l);
    StepInv(p, s, r, l);
    ShapeKept(p, s, r, l);
    FilesGrow(p, s, r, l);
    forall q | 0 <= q < p.ranks
      ensures Smooth(Next(p, s, r, l).ranks[q]) && Visible(p, Next(p, s, r, l), q)
    {
      if q == r {
        OwnSmooth(p, s, r, l);
        OwnVisible(p, s, r, l);
      } else {
        OthersVisible(p, s, Next(p, s, r, l), q);
      }
    }
  }

  lemma {:induction false} StartsOnCourse(p: Params, s: State)
    requires Valid(p) && Init(p, s)
    ensures OnCourse(p, s)
  {
    forall r | 0 <= r < p.ranks
      ensures Smooth(s.ranks[r]) && Visible(p, s, r)
    {
      assert InitRank(s.ranks[r]);
    }
  }

  /** In every run without faults so far, nothing has failed and every rank can be seen. */
  lemma {:induction false} RunOnCourse(p: Params, states: seq<State>, events: seq<Event>, i: nat)
    requires Valid(p) && IsRun(p, states, events) && i < |states| && forall k | 0 <= k < i :: !IsFault(events[k].step)
    ensures Inv(p, states[i]) && OnCourse(p, states[i])
  {
    hide Valid, Inv, OnCourse, Next, Enabled, Shape, Init;
    if i == 0 {
      InitInv(p, states[0]);
      StartsOnCourse(p, states[0]);
    } else {
      RunOnCourse(p, states, events, i - 1);
      assert Follows(p, states[i - 1], events[i - 1], states[i]);
      OnCourseKept(p, states[i - 1], events[i - 1].rank, events[i - 1].step);
    }
  }

  // ---------------------------------------------------------------- what is left to do

  /** Bytes below n that were not copied. */
  ghost function Uncopied(copied: set<nat>, n: nat): nat {
    if n == 0 then 0 else Uncopied(copied, n - 1) + (if n - 1 in copied then 0 else 1)
  }

  lemma {:induction false} CopyLeavesLess(copied: set<nat>, a: nat, n: nat)
    ensures Uncopied(copied + {a}, n) == Uncopied(copied, n) - (if a < n && a !in copied then 1 else 0)
  {
    if n > 0 {
      CopyLeavesLess(copied, a, n - 1);
    }
  }

  lemma {:induction false} NothingCopied(n: nat)
    ensures Uncopied({}, n) == n
  {
    if n > 0 {
      NothingCopied(n - 1);
    }
  }

  function LayoutFor(p: Params, a: Action): seq<ByteRef> {
    if a.NoTransfer? || a.workload >= |p.layouts| then [] else p.layouts[a.workload]
  }

  function TasksFor(p: Params, a: Action): nat {
    if a.NoTransfer? || a.workload >= |p.taskCounts| then 0 else p.taskCounts[a.workload]
  }

  /** A transfer: one step per byte, three per task. */
  function TransferCost(p: Params, a: Action): nat {
    |LayoutFor(p, a)| + 3 * TasksFor(p, a)
  }

  /** A stage: the marker, a poll of every rank, the transfer, and the way on. */
  function StageCost(p: Params, r: nat, k: nat): nat
    requires k < |p.script|
  {
    p.ranks + 4 + TransferCost(p, ActionAt(p, p.script[k], r))
  }

  /** The stages from the k-th on. */
  function Ahead(p: Params, r: nat, k: nat): nat
    requires k <= |p.script|
    decreases |p.script| - k
  {
    if k == |p.script| then 0 else StageCost(p, r, k) + Ahead(p, r, k + 1)
  }

  /** What is left in a batch: one step per byte, and the workers' steps. */
  ghost function BatchLeft(x: X.State, n: nat, copied: set<nat>): nat {
    if x.shared.next <= x.shared.count then Uncopied(copied, n) + X.Effort(x) else 0
  }

  /** What is left of the stage that a rank is in. */
  ghost function Here(p: Params, r: nat, k: Rank): nat
    requires k.pos < |p.script|
  {
    var a := ActionAt(p, p.script[k.pos], r);
    match k.mode
    case Entering => p.ranks + 4 + TransferCost(p, a)
    case Polling(seen) => (if seen < p.ranks then p.ranks - seen else 0) + 3 + TransferCost(p, a)
    case Passed => 3 + TransferCost(p, a)
    case Moving(copied, _) => 2 + BatchLeft(k.exec, |LayoutFor(p, a)|, copied)
    case Settled => 1
    case Stopped => 0
  }

  ghost function RankLeft(p: Params, r: nat, k: Rank): nat
    requires k.pos < |p.script|
  {
    Ahead(p, r, k.pos + 1) + Here(p, r, k)
  }

  /** The first n ranks together. */
  ghost function Left(p: Params, s: State, n: nat): nat
    requires Shape(p, s) && n <= p.ranks
  {
    if n == 0 then 0 else Left(p, s, n - 1) + RankLeft(p, n - 1, s.ranks[n - 1])
  }

  /** A step that does something: not a fault, not a poll that finds no marker, not a second copy of a byte. */
  ghost predicate IsProgress(p: Params, s: State, r: nat, l: Label)
    requires Valid(p) && Shape(p, s)
  {
    && Enabled(p, s, r, l) && !IsFault(l)
    && (l.Poll? ==> Marked(p, s, s.ranks[r].pos, s.ranks[r].mode.seen))
    && (l.Copy? ==> l.at !in s.ranks[r].mode.copied)
  }

  lemma {:induction false} TransferFacts(p: Params, s: State, r: nat)
    requires Valid(p) && Shape(p, s) && r < p.ranks && ActionOf(p, s, r) != NoTransfer
    ensures LayoutOf(p, s, r) == LayoutFor(p, ActionOf(p, s, r)) && TasksOf(p, s, r) == TasksFor(p, ActionOf(p, s, r))
    ensures TasksOf(p, s, r) > 0
  {
    ActionWorkload(p, s, r);
    var w := ActionOf(p, s, r).workload;
    assert ValidLayout(p.layouts[w], p.taskCounts[w], p.poolSizes, |p.data|);
  }

  lemma {:induction false} StartLeaves(x: X.State, n: nat, op: X.Op, bytes: nat)
    requires X.Inv(x) && X.Enabled(x, X.StartBatch(n, op))
    ensures BatchLeft(X.Next(x, X.StartBatch(n, op)), bytes, {}) == bytes + 3 * n
  {
    X.StartInv(x, n, op);
    NothingCopied(bytes);
    X.NoneBusy(x.workers, |x.workers|);
    AllWaiting(x.workers, |x.workers|);
  }

  lemma {:induction false} AllWaiting(workers: seq<X.Worker>, k: nat)
    requires k <= |workers| && forall w | 0 <= w < k :: workers[w].Waiting?
    ensures X.Tally(workers, k, 2, 1) == 0
  {
    if k > 0 {
      AllWaiting(workers, k - 1);
    }
  }

  lemma {:induction false} WorkLeavesLess(x: X.State, l: X.Label, bytes: nat, copied: set<nat>)
    requires X.Inv(x) && X.Enabled(x, l) && X.IsWorkerStep(l)
    ensures BatchLeft(X.Next(x, l), bytes, copied) < BatchLeft(x, bytes, copied)
  {
    hide X.Inv, X.Next, X.Enabled, X.Effort, X.IsWorkerStep, Uncopied;
    X.EffortDrops(x, l);
  }

  lemma {:induction false} CopyLeavesBatch(x: X.State, bytes: nat, copied: set<nat>, a: nat)
    requires X.Inv(x) && x.inside && a < bytes && a !in copied
    ensures BatchLeft(x, bytes, copied + {a}) < BatchLeft(x, bytes, copied)
  {
    X.CursorInBatch(x);
    CopyLeavesLess(copied, a, bytes);
  }

  /** The stage left behind, the one begun: going on to the next barrier. */
  lemma {:induction false} AdvanceLeavesLess(p: Params, r: nat, k: Rank)
    requires k.pos + 1 < |p.script| && (k.mode.Passed? || k.mode.Settled?)
    ensures RankLeft(p, r, k.(pos := k.pos + 1, mode := Entering)) < RankLeft(p, r, k)
  {
    hide ActionAt, TransferCost;
  }

  /** A change of mode within a stage. */
  lemma {:induction false} ModeLeavesLess(p: Params, r: nat, k: Rank, k': Rank)
    requires k.pos == k'.pos < |p.script| && Here(p, r, k') < Here(p, r, k)
    ensures RankLeft(p, r, k') < RankLeft(p, r, k)
  {
    hide Here;
  }

  lemma {:induction false} PollLeavesLess(p: Params, s: State, r: nat)
    requires Valid(p) && Shape(p, s) && r < p.ranks && Seen(p, s, r) && IsProgress(p, s, r, Poll)
    ensures RankLeft(p, r, Next(p, s, r, Poll).ranks[r]) < RankLeft(p, r, s.ranks[r])
  {
    var k, k' := s.ranks[r], Next(p, s, r, Poll).ranks[r];
    assert k'.pos == k.pos && (k'.mode.Passed? || (k'.mode.Polling? && k'.mode.seen == k.mode.seen + 1 < p.ranks));
    hide Next, Enabled, Seen, Valid, TransferCost, ActionAt;
    ModeLeavesLess(p, r, k, k');
  }

  lemma {:induction false} StartLeavesLess(p: Params, s: State, r: nat)
    requires Valid(p) && Shape(p, s) && r < p.ranks && TransferInv(p, s, r) && Enabled(p, s, r, Start)
    ensures RankLeft(p, r, Next(p, s, r, Start).ranks[r]) < RankLeft(p, r, s.ranks[r])
  {
    var k, k', a := s.ranks[r], Next(p, s, r, Start).ranks[r], ActionOf(p, s, r);
    TransferFacts(p, s, r);
    StartLeaves(k.exec, TasksOf(p, s, r), OpOf(a), |LayoutFor(p, a)|);
    hide Valid, X.Inv, X.Next, X.Enabled, BatchLeft, FinishedCopied;
    ModeLeavesLess(p, r, k, k');
  }

  lemma {:induction false} MoveLeavesLess(p: Params, s: State, r: nat, l: Label)
    requires Valid(p) && Shape(p, s) && r < p.ranks && TransferInv(p, s, r) && IsProgress(p, s, r, l)
             && (l.Work? || l.Copy?)
    ensures RankLeft(p, r, Next(p, s, r, l).ranks[r]) < RankLeft(p, r, s.ranks[r])
  {
    var k, k', a := s.ranks[r], Next(p, s, r, l).ranks[r], ActionOf(p, s, r);
    TransferFacts(p, s, r);
    if l.Work? {
      WorkLeavesLess(k.exec, l.step, |LayoutFor(p, a)|, k.mode.copied);
    } else {
      ByteInBounds(p, s, r, l.at);
      CopyLeavesBatch(k.exec, |LayoutFor(p, a)|, k.mode.copied, l.at);
    }
    hide Valid, X.Inv, X.Next, X.Enabled, BatchLeft, FinishedCopied, TaskCopied;
    assert k'.mode.Moving? && k'.pos == k.pos;
    assert BatchLeft(k'.exec, |LayoutFor(p, a)|, k'.mode.copied) < BatchLeft(k.exec, |LayoutFor(p, a)|, k.mode.copied);
    hide Next, Enabled, ActionAt, LayoutFor;
    ModeLeavesLess(p, r, k, k');
  }

  lemma {:induction false} ReturnLeavesLess(p: Params, s: State, r: nat)
    requires Valid(p) && Shape(p, s) && r < p.ranks && Enabled(p, s, r, Return)
    ensures RankLeft(p, r, Next(p, s, r, Return).ranks[r]) < RankLeft(p, r, s.ranks[r])
  {
    hide Valid, X.Next, X.Enabled, BatchLeft, Ahead;
  }

  lemma {:induction false} MarkLeavesLess(p: Params, s: State, r: nat)
    requires Valid(p) && Shape(p, s) && r < p.ranks && Enabled(p, s, r, WriteMarker)
    ensures RankLeft(p, r, Next(p, s, r, WriteMarker).ranks[r]) < RankLeft(p, r, s.ranks[r])
  {
    hide Valid, Stages.Name, Ahead;
  }

  /** A step that does something leaves less to do on its rank. */
  lemma {:induction false} OwnLeavesLess(p: Params, s: State, r: nat, l: Label)
    requires Valid(p) && Inv(p, s) && IsProgress(p, s, r, l) && Shape(p, Next(p, s, r, l)) && r < p.ranks
    ensures RankLeft(p, r, Next(p, s, r, l).ranks[r]) < RankLeft(p, r, s.ranks[r])
  {
    assert TransferInv(p, s, r) && Seen(p, s, r);
    hide Valid, Inv, TransferInv, Seen, RankLeft, X.Enabled, X.Next, MayWork;
    match l
    case WriteMarker => MarkLeavesLess(p, s, r);
    case Poll => PollLeavesLess(p, s, r);
    case Start => StartLeavesLess(p, s, r);
    case Work(_) => MoveLeavesLess(p, s, r, l);
    case Copy(_, _) => MoveLeavesLess(p, s, r, l);
    case Return => ReturnLeavesLess(p, s, r);
    case Advance => AdvanceLeavesLess(p, r, s.ranks[r]);
  }

  lemma {:induction false} LeftDrops(p: Params, s: State, s': State, r: nat, n: nat)
    requires Shape(p, s) && Shape(p, s') && r < p.ranks && n <= p.ranks
    requires forall q | 0 <= q < p.ranks && q != r :: s'.ranks[q] == s.ranks[q]
    requires RankLeft(p, r, s'.ranks[r]) < RankLeft(p, r, s.ranks[r])
    ensures if r < n then Left(p, s', n) < Left(p, s, n) else Left(p, s', n) == Left(p, s, n)
  {
    hide RankLeft;
    if n > 0 {
      LeftDrops(p, s, s', r, n - 1);
    }
  }

  lemma {:induction false} WorkDrops(p: Params, s: State, r: nat, l: Label)
    requires Valid(p) && Inv(p, s) && OnCourse(p, s) && IsProgress(p, s, r, l)
    ensures Shape(p, Next(p, s, r, l)) && Left(p, Next(p, s, r, l), p.ranks) < Left(p, s, p.ranks)
  {
    RankInRange(p, s, r, l);
    ShapeKept(p, s, r, l);
    OwnLeavesLess(p, s, r, l);
    hide Valid, Inv, OnCourse, Next, Enabled, RankLeft, Shape;
    LeftDrops(p, s, Next(p, s, r, l), r, p.ranks);
  }

  // ---------------------------------------------------------------- something can always be done

  /** Every rank is through the last barrier. */
  ghost predicate Ended(p: Params, s: State)
    requires Shape(p, s)
  {
    forall r | 0 <= r < p.ranks :: s.ranks[r].pos == |p.script| - 1 && s.ranks[r].mode.Passed?
  }

  /** A rank in the middle of a transfer. */
  lemma {:induction false} TransferGoesOn(p: Params, s: State, r: nat) returns (l: Label)
    requires Valid(p) && Shape(p, s) && r < p.ranks && TransferInv(p, s, r) && Smooth(s.ranks[r])
             && s.ranks[r].mode.Moving?
    ensures IsProgress(p, s, r, l)
  {
    var x, m, layout := s.ranks[r].exec, s.ranks[r].mode, LayoutOf(p, s, r);
    if !x.shared.active {
      return Return;
    }
    var step := WorkerGoesOn(x);
    if step.AcquireStep? {
      return Work(step);
    }
    var t := x.workers[step.w].task;
    if TaskCopied(layout, t, m.copied) {
      l := Work(step);
    } else {
      var a :| 0 <= a < |layout| && layout[a].task == t && a !in m.copied;
      l := Copy(step.w, a);
    }
    hide Valid, X.Inv, FinishedCopied;
  }

  /** Without exceptions a worker of an active batch runs a task, or one can be acquired. */
  lemma {:induction false} WorkerGoesOn(x: X.State) returns (l: X.Label)
    requires X.Inv(x) && x.inside && x.shared.active && x.bad == []
    ensures X.Enabled(x, l) && (l.AcquireStep? || (l.FinishStep? && x.workers[l.w].Running?))
  {
    X.NoneBusy(x.workers, |x.workers|);
    if X.Busy(x.workers) == 0 {
      l := X.AcquireStep(0);
    } else {
      var w :| 0 <= w < |x.workers| && !x.workers[w].Waiting?;
      assert X.Holds(x, w);
      l := X.FinishStep(w);
    }
  }

  /** The rank has more to do than wait for others. */
  ghost predicate CanGoOn(p: Params, s: State, r: nat)
    requires Shape(p, s) && r < p.ranks
  {
    var k := s.ranks[r];
    !k.mode.Polling? && !(k.mode.Passed? && k.pos == |p.script| - 1)
  }

  lemma {:induction false} RankGoesOn(p: Params, s: State, r: nat) returns (l: Label)
    requires Valid(p) && Inv(p, s) && OnCourse(p, s) && r < p.ranks && CanGoOn(p, s, r)
    ensures IsProgress(p, s, r, l)
  {
    var k := s.ranks[r];
    assert TransferInv(p, s, r) && Smooth(k) && Visible(p, s, r);
    assert ActionAt(p, p.script[|p.script| - 1], r) == NoTransfer;
    if k.mode.Moving? {
      l := TransferGoesOn(p, s, r);
    } else if k.mode.Entering? {
      l := WriteMarker;
    } else if k.mode.Passed? && ActionOf(p, s, r) != NoTransfer {
      l := Start;
      TransferFacts(p, s, r);
    } else {
      l := Advance;
    }
    hide Valid, BarrierInv, DataInv, OnCourse, X.Inv;
  }

  /** Of the ranks that wait, one at the earliest barrier. */
  lemma {:induction false} Earliest(p: Params, s: State, n: nat, r: nat) returns (e: nat)
    requires Shape(p, s) && n <= p.ranks && r < p.ranks && s.ranks[r].mode.Polling?
    ensures e < p.ranks && s.ranks[e].mode.Polling? && s.ranks[e].pos <= s.ranks[r].pos
    ensures forall q | 0 <= q < n && s.ranks[q].mode.Polling? :: s.ranks[e].pos <= s.ranks[q].pos
  {
    if n == 0 {
      e := r;
    } else {
      e := Earliest(p, s, n - 1, r);
      if s.ranks[n - 1].mode.Polling? && s.ranks[n - 1].pos < s.ranks[e].pos {
        e := n - 1;
      }
    }
  }

  /** When everybody waits, a rank at the earliest barrier finds all markers. */
  lemma {:induction false} EarliestFinds(p: Params, s: State, e: nat)
    requires Valid(p) && Inv(p, s) && OnCourse(p, s) && e < p.ranks && s.ranks[e].mode.Polling?
    requires forall q | 0 <= q < p.ranks :: !CanGoOn(p, s, q)
    requires forall q | 0 <= q < p.ranks && s.ranks[q].mode.Polling? :: s.ranks[e].pos <= s.ranks[q].pos
    ensures IsProgress(p, s, e, Poll)
  {
    assert Seen(p, s, e);
    var q := s.ranks[e].mode.seen;
    assert !CanGoOn(p, s, q) && Smooth(s.ranks[q]) && Visible(p, s, q);
    hide Valid, BarrierInv, DataInv, TransferInv;
  }

  /**
   * While nothing has failed, until every rank is through the last barrier, some rank has a step that does something.
   */
  lemma {:induction false} SomeProgress(p: Params, s: State) returns (r: nat, l: Label)
    requires Valid(p) && Inv(p, s) && OnCourse(p, s) && !Ended(p, s)
    ensures IsProgress(p, s, r, l)
  {
    if q: nat :| q < p.ranks && CanGoOn(p, s, q) {
      r := q;
      l := RankGoesOn(p, s, r);
    } else {
      r :| 0 <= r < p.ranks && !(s.ranks[r].pos == |p.script| - 1 && s.ranks[r].mode.Passed?);
      assert !CanGoOn(p, s, r);
      r := Earliest(p, s, p.ranks, r);
      l := Poll;
      EarliestFinds(p, s, r);
    }
  }

  // ---------------------------------------------------------------- to the end

  /** A path of steps that each do something. */
  ghost predicate IsPath(p: Params, path: seq<State>, events: seq<Event>)
    requires Valid(p)
  {
    && |path| == |events| + 1
    && forall i | 0 <= i < |events| :: Goes(p, path[i], events[i], path[i + 1])
  }

  ghost predicate Goes(p: Params, s: State, e: Event, s': State)
    requires Valid(p)
  {
    Follows(p, s, e, s') && IsProgress(p, s, e.rank, e.step)
  }

  /** Such paths are no longer than there is work at their start. */
  lemma {:induction false} PathBounded(p: Params, path: seq<State>, events: seq<Event>, i: nat)
    requires Valid(p) && IsPath(p, path, events) && Inv(p, path[0]) && OnCourse(p, path[0]) && i < |path|
    ensures Inv(p, path[i]) && OnCourse(p, path[i])
    ensures i + Left(p, path[i], p.ranks) <= Left(p, path[0], p.ranks)
  {
    hide Valid, OnCourse, BarrierInv, TransferInv, DataInv, Next, Enabled, Left, IsFault;
    if i > 0 {
      PathBounded(p, path, events, i - 1);
      assert Goes(p, path[i - 1], events[i - 1], path[i]);
      OnCourseKept(p, path[i - 1], events[i - 1].rank, events[i - 1].step);
      WorkDrops(p, path[i - 1], events[i - 1].rank, events[i - 1].step);
    }
  }

  lemma {:induction false} PathFrom(p: Params, s: State) returns (path: seq<State>, events: seq<Event>)
    requires Valid(p) && Inv(p, s) && OnCourse(p, s)
    ensures IsPath(p, path, events) && path[0] == s
    ensures Shape(p, path[|events|]) && Ended(p, path[|events|])
    decreases Left(p, s, p.ranks)
  {
    hide Valid, OnCourse, BarrierInv, TransferInv, DataInv, Next, Enabled, Left, IsFault, Ended;
    if Ended(p, s) {
      path, events := [s], [];
    } else {
      var r, l := SomeProgress(p, s);
      OnCourseKept(p, s, r, l);
      WorkDrops(p, s, r, l);
      var rest, later := PathFrom(p, Next(p, s, r, l));
      path, events := [s] + rest, [Event(r, l)] + later;
      PathGrows(p, s, Event(r, l), rest, later);
    }
  }

  lemma {:induction false} PathGrows(p: Params, s: State, e: Event, path: seq<State>, events: seq<Event>)
    requires Valid(p) && IsPath(p, path, events) && Goes(p, s, e, path[0])
    ensures IsPath(p, [s] + path, [e] + events)
    ensures ([s] + path)[|events| + 1] == path[|events|]
  {
    hide Valid, Goes;
    forall i | 0 <= i <= |events|
      ensures Goes(p, ([s] + path)[i], ([e] + events)[i], ([s] + path)[i + 1])
    {
      if i > 0 {
        assert Goes(p, path[i - 1], events[i - 1], path[i]);
      }
    }
  }

  /**
   * The benchmark ends. From every point of every run without faults, steps that each do something lead to a state in
   * which every rank is through the last barrier, within as many steps as there is work left; and no such state is
   * short of the end without a step that does something.
   */
  lemma {:induction false} RunsToTheEnd(p: Params, states: seq<State>, events: seq<Event>, i: nat)
    returns (path: seq<State>, more: seq<Event>)
    requires Valid(p) && IsRun(p, states, events) && i < |states| && forall k | 0 <= k < i :: !IsFault(events[k].step)
    ensures IsPath(p, path, more) && path[0] == states[i] && Shape(p, states[i])
    ensures Shape(p, path[|more|]) && Ended(p, path[|more|]) && |more| <= Left(p, states[i], p.ranks)
    ensures (forall r: nat, l :: !IsProgress(p, states[i], r, l)) ==> Ended(p, states[i])
  {
    hide Valid, OnCourse, BarrierInv, TransferInv, DataInv, Next, Enabled, Left, IsFault, Ended, IsRun, Goes,
         IsProgress;
    RunOnCourse(p, states, events, i);
    path, more := PathFrom(p, states[i]);
    PathBounded(p, path, more, |more|);
    if !Ended(p, states[i]) {
      var r, l := SomeProgress(p, states[i]);
    }
  }
}
