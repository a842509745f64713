/**
 * All ranks of a benchmark run together: marker-file barriers, transfers executed by each rank's worker pool one byte
 * at a time, and failures anywhere. Ranks interleave in any order.
 */
module KvSystem {
  import opened Stages
  import opened ByteMoves
  import X = Executor

  newtype byte = x: int | 0 <= x < 256

  /**
   * What the ranks agree on: the barriers in order, per workload where each local byte goes and how many tasks there
   * are, the pool sizes, and what the buffer of rank 0 holds at the start.
   */
  datatype Params = Params(ranks: nat, schedule: Schedule, script: seq<Stage>, shared: bool, layouts: seq<seq<ByteRef>>,
                           taskCounts: seq<nat>, poolSizes: seq<nat>, data: seq<byte>)

  ghost predicate SamePoolByte(a: ByteRef, b: ByteRef) {
    a.segment == b.segment && a.offset == b.offset
  }

  ghost predicate ValidLayout(layout: seq<ByteRef>, tasks: nat, poolSizes: seq<nat>, localSize: nat) {
    && |layout| <= localSize && tasks > 0
    && (forall a | 0 <= a < |layout| ::
          layout[a].task < tasks && layout[a].segment < |poolSizes| && layout[a].offset < poolSizes[layout[a].segment])
    && (forall a, b | 0 <= a < b < |layout| :: !SamePoolByte(layout[a], layout[b]))
  }

  ghost predicate Valid(p: Params) {
    && p.ranks > 0 && IsScript(p.schedule, p.script) && |p.poolSizes| == p.ranks
    && |p.layouts| == |p.taskCounts| == p.schedule.workloads
    && (forall w | 0 <= w < |p.layouts| :: ValidLayout(p.layouts[w], p.taskCounts[w], p.poolSizes, |p.data|))
  }

  /** What a rank is doing at a barrier, or after it and before the next one. */
  datatype Mode =
    | Entering
    | Polling(seen: nat)
    | Passed
    | Moving(copied: set<nat>, bad: set<nat>)
    | Settled
    | Stopped

  datatype Rank = Rank(pos: nat, mode: Mode, exec: X.State)

  datatype State = State(files: set<(string, nat)>, ranks: seq<Rank>, locals: seq<seq<byte>>, pools: seq<seq<byte>>)

  datatype Action = NoTransfer | Put(workload: nat) | Get(workload: nat)

  /** What rank r does after passing a barrier: in shared models only rank 0 puts. */
  function ActionAt(p: Params, s: Stage, r: nat): Action {
    match s
    case At(w, Ready) => if !p.shared || r == 0 then Put(w) else NoTransfer
    case At(w, GetReady(_)) => Get(w)
    case _ => NoTransfer
  }

  function OpOf(a: Action): X.Op {
    if a.Put? then X.Write else X.Read
  }

  datatype Label =
    | WriteMarker
    | Poll
    | Stop
    | Start
    | Work(step: X.Label)
    | Copy(worker: nat, at: nat)
    | Scribble(worker: nat, at: nat, value: byte)
    | Return
    | Advance

  // ---------------------------------------------------------------- shape of a state

  ghost predicate Shape(p: Params, s: State) {
    && |s.ranks| == |s.locals| == |s.pools| == |p.poolSizes| == p.ranks > 0
    && (forall r | 0 <= r < p.ranks :: s.ranks[r].pos < |p.script|)
    && (forall r | 0 <= r < p.ranks :: |s.locals[r]| == |p.data|)
    && (forall g | 0 <= g < p.ranks :: |s.pools[g]| == p.poolSizes[g])
  }

  function StageOf(p: Params, s: State, r: nat): Stage
    requires r < |s.ranks| && s.ranks[r].pos < |p.script|
  {
    p.script[s.ranks[r].pos]
  }

  function ActionOf(p: Params, s: State, r: nat): Action
    requires r < |s.ranks| && s.ranks[r].pos < |p.script|
  {
    ActionAt(p, StageOf(p, s, r), r)
  }

  lemma {:induction false} ActionWorkload(p: Params, s: State, r: nat)
    requires Valid(p) && Shape(p, s) && r < p.ranks && ActionOf(p, s, r) != NoTransfer
    ensures ActionOf(p, s, r).workload < |p.layouts|
  {
    ScriptPositions(p.schedule, p.script, s.ranks[r].pos);
  }

  /** The workload that rank r transfers. */
  function LayoutOf(p: Params, s: State, r: nat): seq<ByteRef>
    requires Valid(p) && Shape(p, s) && r < p.ranks && ActionOf(p, s, r) != NoTransfer
  {
    ActionWorkload(p, s, r);
    p.layouts[ActionOf(p, s, r).workload]
  }

  function TasksOf(p: Params, s: State, r: nat): nat
    requires Valid(p) && Shape(p, s) && r < p.ranks && ActionOf(p, s, r) != NoTransfer
  {
    ActionWorkload(p, s, r);
    p.taskCounts[ActionOf(p, s, r).workload]
  }

  ghost predicate Init(p: Params, s: State) {
    && Shape(p, s) && s.files == {} && s.locals[0] == p.data
    && forall r | 0 <= r < p.ranks :: InitRank(s.ranks[r])
  }

  ghost predicate InitRank(k: Rank) {
    k.pos == 0 && k.mode == Entering && X.Init(k.exec, |k.exec.workers|)
  }

  // ---------------------------------------------------------------- steps

  /** Worker v of rank r is running the task that byte a travels with. */
  ghost predicate Carries(p: Params, s: State, r: nat, v: nat, a: nat)
    requires Valid(p) && Shape(p, s) && r < p.ranks && ActionOf(p, s, r) != NoTransfer
  {
    var x := s.ranks[r].exec;
    v < |x.workers| && x.workers[v].Running? && a < |LayoutOf(p, s, r)|
    && LayoutOf(p, s, r)[a].task == x.workers[v].task
  }

  /** Every byte of task t has been copied. */
  ghost predicate TaskCopied(layout: seq<ByteRef>, t: nat, copied: set<nat>) {
    forall a | 0 <= a < |layout| && layout[a].task == t :: a in copied
  }

  /** A task may only finish without an exception once all its bytes are copied and none was spoiled. */
  ghost predicate MayWork(p: Params, s: State, r: nat, l: X.Label)
    requires Valid(p) && Shape(p, s) && r < p.ranks && ActionOf(p, s, r) != NoTransfer && s.ranks[r].mode.Moving?
  {
    var x, m := s.ranks[r].exec, s.ranks[r].mode;
    && X.IsWorkerStep(l) && X.Enabled(x, l)
    && (l.FinishStep? && x.workers[l.w].Running? ==>
          x.workers[l.w].task !in m.bad && TaskCopied(LayoutOf(p, s, r), x.workers[l.w].task, m.copied))
  }

  ghost predicate Enabled(p: Params, s: State, r: nat, l: Label)
    requires Valid(p) && Shape(p, s)
  {
    r < p.ranks &&
    var k := s.ranks[r];
    match l
    case WriteMarker => k.mode.Entering?
    case Poll => k.mode.Polling?
    case Stop => !k.mode.Stopped? && !k.mode.Moving?
    case Start => k.mode.Passed? && ActionOf(p, s, r) != NoTransfer
                  && X.Enabled(k.exec, X.StartBatch(TasksOf(p, s, r), OpOf(ActionOf(p, s, r))))
    case Work(x) => k.mode.Moving? && ActionOf(p, s, r) != NoTransfer && MayWork(p, s, r, x)
    case Copy(v, a) => k.mode.Moving? && ActionOf(p, s, r) != NoTransfer && Carries(p, s, r, v, a)
    case Scribble(v, a, _) => k.mode.Moving? && ActionOf(p, s, r) != NoTransfer && Carries(p, s, r, v, a)
    case Return => k.mode.Moving? && X.Enabled(k.exec, X.ReturnStep)
    case Advance => k.pos + 1 < |p.script| && (k.mode.Settled? || (k.mode.Passed? && ActionOf(p, s, r) == NoTransfer))
  }

  /** The poll of one rank's marker: a sweep starts over whenever a marker is missing. */
  function AfterPoll(p: Params, s: State, r: nat, seen: nat): Mode
    requires r < |s.ranks| && s.ranks[r].pos < |p.script|
  {
    if (Name(StageOf(p, s, r)), seen) !in s.files then Polling(0)
    else if seen + 1 < p.ranks then Polling(seen + 1)
    else Passed
  }

  function WithRank(s: State, r: nat, k: Rank): State
    requires r < |s.ranks|
  {
    s.(ranks := s.ranks[r := k])
  }

  /** Byte a of the workload reaches its destination: the pool in a put, the rank's own buffer in a get. */
  function Deliver(s: State, r: nat, put: bool, a: nat, b: ByteRef, value: byte): State
    requires r < |s.locals| && b.segment < |s.pools| && b.offset < |s.pools[b.segment]| && a < |s.locals[r]|
  {
    if put then s.(pools := s.pools[b.segment := s.pools[b.segment][b.offset := value]])
    else s.(locals := s.locals[r := s.locals[r][a := value]])
  }

  lemma {:induction false} ByteInBounds(p: Params, s: State, r: nat, a: nat)
    requires Valid(p) && Shape(p, s) && r < p.ranks && ActionOf(p, s, r) != NoTransfer && a < |LayoutOf(p, s, r)|
    ensures a < |s.locals[r]|
    ensures LayoutOf(p, s, r)[a].segment < |s.pools|
            && LayoutOf(p, s, r)[a].offset < |s.pools[LayoutOf(p, s, r)[a].segment]|
  {
    ActionWorkload(p, s, r);
    var w := ActionOf(p, s, r).workload;
    assert ValidLayout(p.layouts[w], p.taskCounts[w], p.poolSizes, |p.data|);
  }

  ghost function Next(p: Params, s: State, r: nat, l: Label): State
    requires Valid(p) && Shape(p, s) && Enabled(p, s, r, l)
  {
    var k := s.ranks[r];
    match l
    case WriteMarker => WithRank(s, r, k.(mode := Polling(0))).(files := s.files + {(Name(StageOf(p, s, r)), r)})
    case Poll => WithRank(s, r, k.(mode := AfterPoll(p, s, r, k.mode.seen)))
    case Stop => WithRank(s, r, k.(mode := Stopped))
    case Start =>
      WithRank(s, r, k.(mode := Moving({}, {}),
                        exec := X.Next(k.exec, X.StartBatch(TasksOf(p, s, r), OpOf(ActionOf(p, s, r))))))
    case Work(x) => WithRank(s, r, k.(exec := X.Next(k.exec, x)))
    case Copy(v, a) =>
      ByteInBounds(p, s, r, a);
      var b := LayoutOf(p, s, r)[a];
      var put := k.exec.workers[v].op == X.Write;
      WithRank(Deliver(s, r, put, a, b, if put then s.locals[r][a] else s.pools[b.segment][b.offset]), r,
               k.(mode := k.mode.(copied := k.mode.copied + {a})))
    case Scribble(v, a, value) =>
      ByteInBounds(p, s, r, a);
      var b := LayoutOf(p, s, r)[a];
      WithRank(Deliver(s, r, k.exec.workers[v].op == X.Write, a, b, value), r,
               k.(mode := k.mode.(bad := k.mode.bad + {b.task})))
    case Return =>
      WithRank(s, r, k.(mode := if k.exec.shared.error.None? then Settled else Stopped,
                        exec := X.Next(k.exec, X.ReturnStep)))
    case Advance => WithRank(s, r, k.(pos := k.pos + 1, mode := Entering))
  }

  lemma {:induction false} ShapeKept(p: Params, s: State, r: nat, l: Label)
    requires Valid(p) && Shape(p, s) && Enabled(p, s, r, l)
    ensures Shape(p, Next(p, s, r, l))
    ensures forall q | 0 <= q < p.ranks && q != r ::
              Next(p, s, r, l).ranks[q] == s.ranks[q] && Next(p, s, r, l).locals[q] == s.locals[q]
  {
    hide X.Next, X.Enabled, Name, IsScript, MayWork;
    if l.Copy? {
      ByteInBounds(p, s, r, l.at);
    } else if l.Scribble? {
      ByteInBounds(p, s, r, l.at);
    }
  }

  // ---------------------------------------------------------------- the barriers

  /** Rank r has left its marker at barrier k. */
  ghost predicate Marked(p: Params, s: State, k: nat, r: nat)
    requires k < |p.script|
  {
    (Name(p.script[k]), r) in s.files
  }

  /** Past its current barrier. */
  predicate Beyond(m: Mode) {
    m.Passed? || m.Moving? || m.Settled?
  }

  /** A marker says that its rank got at least as far as the barrier. */
  ghost predicate MarkersTrue(p: Params, s: State)
    requires Shape(p, s)
  {
    forall k, r: nat | 0 <= k < |p.script| && Marked(p, s, k, r) :: r < p.ranks && k <= s.ranks[r].pos
  }

  /** A rank that polls has seen the markers it counts. */
  ghost predicate Seen(p: Params, s: State, q: nat)
    requires Shape(p, s) && q < p.ranks
  {
    s.ranks[q].mode.Polling? ==>
      s.ranks[q].mode.seen < p.ranks && forall j: nat | j < s.ranks[q].mode.seen :: Marked(p, s, s.ranks[q].pos, j)
  }

  /** Rank q is never more than one barrier ahead of rank r, and never ahead once it is past its barrier. */
  ghost predicate Behind(q: Rank, r: Rank) {
    q.pos <= r.pos + 1 && (Beyond(q.mode) ==> q.pos <= r.pos)
  }

  ghost predicate BarrierInv(p: Params, s: State)
    requires Shape(p, s)
  {
    && MarkersTrue(p, s)
    && (forall q | 0 <= q < p.ranks :: Seen(p, s, q))
    && (forall q, r | 0 <= q < p.ranks && 0 <= r < p.ranks :: Behind(s.ranks[q], s.ranks[r]))
  }

  /** A step that leaves markers and positions alone and does not pass a barrier. */
  ghost predicate Quiet(s: State, s': State, r: nat)
    requires r < |s.ranks| == |s'.ranks|
  {
    && s'.files == s.files && s'.ranks[r].pos == s.ranks[r].pos && !s'.ranks[r].mode.Polling?
    && (Beyond(s'.ranks[r].mode) ==> Beyond(s.ranks[r].mode))
    && forall q | 0 <= q < |s.ranks| && q != r :: s'.ranks[q] == s.ranks[q]
  }

  /** Markers stay true while no marker is written and no rank falls back. */
  lemma {:induction false} MarkersKept(p: Params, s: State, s': State)
    requires Shape(p, s) && Shape(p, s') && MarkersTrue(p, s) && s'.files == s.files
    requires forall q | 0 <= q < p.ranks :: s.ranks[q].pos <= s'.ranks[q].pos
    ensures MarkersTrue(p, s')
  {
    forall k, q: nat | 0 <= k < |p.script| && Marked(p, s', k, q)
      ensures q < p.ranks && k <= s'.ranks[q].pos
    {
      assert Marked(p, s, k, q);
    }
  }

  lemma {:induction false} SeenKept(p: Params, s: State, s': State, q: nat)
    requires Shape(p, s) && Shape(p, s') && q < p.ranks && Seen(p, s, q) && s.files <= s'.files
    requires s'.ranks[q] == s.ranks[q] || !s'.ranks[q].mode.Polling?
    ensures Seen(p, s', q)
  {
    if s'.ranks[q].mode.Polling? {
      forall j: nat | j < s'.ranks[q].mode.seen
        ensures Marked(p, s', s'.ranks[q].pos, j)
      {
        assert Marked(p, s, s.ranks[q].pos, j);
      }
    }
  }

  lemma {:induction false} QuietKeepsBarriers(p: Params, s: State, s': State, r: nat)
    requires Shape(p, s) && Shape(p, s') && r < p.ranks && BarrierInv(p, s) && Quiet(s, s', r)
    ensures BarrierInv(p, s')
  {
    hide Marked, Seen;
    MarkersKept(p, s, s');
    forall q | 0 <= q < p.ranks
      ensures Seen(p, s', q)
    {
      SeenKept(p, s, s', q);
    }
    forall q, t | 0 <= q < p.ranks && 0 <= t < p.ranks
      ensures Behind(s'.ranks[q], s'.ranks[t])
    {
      assert Behind(s.ranks[q], s.ranks[t]);
    }
  }

  lemma {:induction false} WriteMarkerKeeps(p: Params, s: State, r: nat)
    requires Valid(p) && Shape(p, s) && BarrierInv(p, s) && Enabled(p, s, r, WriteMarker)
             && Shape(p, Next(p, s, r, WriteMarker))
    ensures BarrierInv(p, Next(p, s, r, WriteMarker))
  {
    hide Name, IsScript, ValidLayout;
    var s' := Next(p, s, r, WriteMarker);
    forall k, q: nat | 0 <= k < |p.script| && Marked(p, s', k, q)
      ensures q < p.ranks && k <= s'.ranks[q].pos
    {
      if !Marked(p, s, k, q) {
        ScriptNamesDistinct(p.schedule, p.script, k, s.ranks[r].pos);
      }
    }
    forall q | 0 <= q < p.ranks && q != r
      ensures Seen(p, s', q)
    {
      SeenKept(p, s, s', q);
    }
    forall q, t | 0 <= q < p.ranks && 0 <= t < p.ranks
      ensures Behind(s'.ranks[q], s'.ranks[t])
    {
      assert Behind(s.ranks[q], s.ranks[t]);
    }
  }

  lemma {:induction false} PollKeeps(p: Params, s: State, r: nat)
    requires Valid(p) && Shape(p, s) && BarrierInv(p, s) && Enabled(p, s, r, Poll) && Shape(p, Next(p, s, r, Poll))
    ensures BarrierInv(p, Next(p, s, r, Poll))
  {
    hide Name, IsScript, ValidLayout;
    var s' := Next(p, s, r, Poll);
    var k, seen := s.ranks[r].pos, s.ranks[r].mode.seen;
    assert Seen(p, s, r);
    MarkersKept(p, s, s');
    assert Seen(p, s', r) by {
      forall j: nat | s'.ranks[r].mode.Polling? && j < s'.ranks[r].mode.seen
        ensures Marked(p, s', k, j)
      {
        assert j < seen ==> Marked(p, s, k, j);
      }
    }
    forall q | 0 <= q < p.ranks && q != r
      ensures Seen(p, s', q)
    {
      SeenKept(p, s, s', q);
    }
    forall q, t | 0 <= q < p.ranks && 0 <= t < p.ranks
      ensures Behind(s'.ranks[q], s'.ranks[t])
    {
      assert Behind(s.ranks[q], s.ranks[t]);
      if q == r && s'.ranks[r].mode.Passed? {
        assert Marked(p, s, k, t);
      }
    }
  }

  lemma {:induction false} AdvanceKeeps(p: Params, s: State, r: nat)
    requires Valid(p) && Shape(p, s) && BarrierInv(p, s) && Enabled(p, s, r, Advance)
             && Shape(p, Next(p, s, r, Advance))
    ensures BarrierInv(p, Next(p, s, r, Advance))
  {
    hide Name, IsScript, ValidLayout, Marked, Seen;
    var s' := Next(p, s, r, Advance);
    MarkersKept(p, s, s');
    forall q | 0 <= q < p.ranks
      ensures Seen(p, s', q)
    {
      SeenKept(p, s, s', q);
    }
    forall q, t | 0 <= q < p.ranks && 0 <= t < p.ranks
      ensures Behind(s'.ranks[q], s'.ranks[t])
    {
      assert Behind(s.ranks[q], s.ranks[t]);
    }
  }

  lemma {:induction false} OthersAreQuiet(p: Params, s: State, r: nat, l: Label)
    requires Valid(p) && Shape(p, s) && Enabled(p, s, r, l) && Shape(p, Next(p, s, r, l))
    requires !l.WriteMarker? && !l.Poll? && !l.Advance?
    ensures Quiet(s, Next(p, s, r, l), r)
  {
    hide Name, IsScript, ValidLayout, X.Next, X.Enabled, MayWork;
  }

  lemma {:induction false} BarriersKept(p: Params, s: State, r: nat, l: Label)
    requires Valid(p) && Shape(p, s) && BarrierInv(p, s) && Enabled(p, s, r, l)
    ensures Shape(p, Next(p, s, r, l)) && BarrierInv(p, Next(p, s, r, l))
  {
    hide BarrierInv, Quiet, Shape, Next, Enabled, Valid;
    ShapeKept(p, s, r, l);
    match l
    case WriteMarker => WriteMarkerKeeps(p, s, r);
    case Poll => PollKeeps(p, s, r);
    case Advance => AdvanceKeeps(p, s, r);
    case _ =>
      OthersAreQuiet(p, s, r, l);
      RankInRange(p, s, r, l);
      QuietKeepsBarriers(p, s, Next(p, s, r, l), r);
  }

  lemma {:induction false} RankInRange(p: Params, s: State, r: nat, l: Label)
    requires Valid(p) && Shape(p, s) && Enabled(p, s, r, l)
    ensures r < p.ranks == |s.ranks|
  {
  }

  // ---------------------------------------------------------------- the transfers

  /** A rank's executor is inside a batch exactly while the rank transfers, and finished tasks were copied whole. */
  ghost predicate TransferInv(p: Params, s: State, r: nat)
    requires Valid(p) && Shape(p, s) && r < p.ranks
  {
    var k := s.ranks[r];
    && X.Inv(k.exec) && (k.exec.inside <==> k.mode.Moving?)
    && (k.mode.Moving? ==>
          && ActionOf(p, s, r) != NoTransfer && k.exec.total == TasksOf(p, s, r)
          && k.exec.shared.op == OpOf(ActionOf(p, s, r))
          && FinishedCopied(LayoutOf(p, s, r), k.exec.ok, k.mode.copied, k.mode.bad)
          && (forall t | t in k.mode.bad :: t < k.exec.total)
          && (forall a | a in k.mode.copied :: a < |LayoutOf(p, s, r)|))
  }

  ghost predicate FinishedCopied(layout: seq<ByteRef>, ok: set<nat>, copied: set<nat>, bad: set<nat>) {
    forall t | t in ok :: t !in bad && TaskCopied(layout, t, copied)
  }

  lemma {:induction false} CopyMore(layout: seq<ByteRef>, ok: set<nat>, copied: set<nat>, bad: set<nat>, a: nat)
    requires FinishedCopied(layout, ok, copied, bad)
    ensures FinishedCopied(layout, ok, copied + {a}, bad)
  {
    forall t | t in ok
      ensures TaskCopied(layout, t, copied + {a})
    {
      assert TaskCopied(layout, t, copied);
    }
  }

  /** What a worker step does to the record of the batch. */
  lemma {:induction false} WorkerStepFacts(x: X.State, l: X.Label)
    requires X.Inv(x) && X.Enabled(x, l) && X.IsWorkerStep(l)
    ensures var x' := X.Next(x, l);
            && x'.inside == x.inside && x'.total == x.total && x'.shared.op == x.shared.op
            && x'.ok == if l.FinishStep? && x.workers[l.w].Running? then x.ok + {x.workers[l.w].task} else x.ok
  {
  }

  lemma {:induction false} RunningTask(x: X.State, v: nat)
    requires X.Inv(x) && v < |x.workers| && x.workers[v].Running?
    ensures x.workers[v].task !in x.ok && x.workers[v].task < x.total && x.workers[v].op == x.shared.op && x.inside
  {
    assert X.Holds(x, v);
    X.SomeBusy(x.workers, v);
  }

  lemma {:induction false} StartFacts(x: X.State, n: nat, op: X.Op)
    requires X.Inv(x) && X.Enabled(x, X.StartBatch(n, op))
    ensures var x' := X.Next(x, X.StartBatch(n, op));
            X.Inv(x') && x'.inside && x'.total == n && x'.shared.op == op && x'.ok == {}
  {
    X.StartInv(x, n, op);
  }

  lemma {:induction false} WorkKeeps(p: Params, s: State, r: nat, x: X.Label)
    requires Valid(p) && Shape(p, s) && Enabled(p, s, r, Work(x)) && TransferInv(p, s, r)
             && Shape(p, Next(p, s, r, Work(x)))
    ensures TransferInv(p, Next(p, s, r, Work(x)), r)
  {
    var k := s.ranks[r];
    X.StepInv(k.exec, x);
    WorkerStepFacts(k.exec, x);
    hide X.Inv, X.Next, X.Enabled, X.IsWorkerStep, Valid, TaskCopied;
  }

  lemma {:induction false} CopyKeeps(p: Params, s: State, r: nat, v: nat, a: nat)
    requires Valid(p) && Shape(p, s) && Enabled(p, s, r, Copy(v, a)) && TransferInv(p, s, r)
             && Shape(p, Next(p, s, r, Copy(v, a)))
    ensures TransferInv(p, Next(p, s, r, Copy(v, a)), r)
  {
    hide X.Inv, Valid, FinishedCopied;
    var k := s.ranks[r];
    ByteInBounds(p, s, r, a);
    CopyMore(LayoutOf(p, s, r), k.exec.ok, k.mode.copied, k.mode.bad, a);
  }

  lemma {:induction false} ScribbleKeeps(p: Params, s: State, r: nat, v: nat, a: nat, value: byte)
    requires Valid(p) && Shape(p, s) && Enabled(p, s, r, Scribble(v, a, value)) && TransferInv(p, s, r)
    requires Shape(p, Next(p, s, r, Scribble(v, a, value)))
    ensures TransferInv(p, Next(p, s, r, Scribble(v, a, value)), r)
  {
    hide X.Inv, Valid, TaskCopied;
    ByteInBounds(p, s, r, a);
    RunningTask(s.ranks[r].exec, v);
  }

  lemma {:induction false} OwnTransferKept(p: Params, s: State, r: nat, l: Label)
    requires Valid(p) && Shape(p, s) && Enabled(p, s, r, l) && TransferInv(p, s, r) && Shape(p, Next(p, s, r, l))
    ensures TransferInv(p, Next(p, s, r, l), r)
  {
    match l
    case Work(x) => WorkKeeps(p, s, r, x);
    case Copy(v, a) => CopyKeeps(p, s, r, v, a);
    case Scribble(v, a, value) => ScribbleKeeps(p, s, r, v, a, value);
    case Start =>
      StartFacts(s.ranks[r].exec, TasksOf(p, s, r), OpOf(ActionOf(p, s, r)));
      hide X.Inv, X.Next, X.Enabled, Valid;
    case Return =>
      X.ReturnInv(s.ranks[r].exec);
      hide X.Inv, Valid;
    case _ =>
      hide X.Inv, Valid, Name;
  }

  lemma {:induction false} TransfersKept(p: Params, s: State, r: nat, l: Label, q: nat)
    requires Valid(p) && Shape(p, s) && Enabled(p, s, r, l) && Shape(p, Next(p, s, r, l)) && q < p.ranks
             && TransferInv(p, s, q)
    ensures TransferInv(p, Next(p, s, r, l), q)
  {
    ShapeKept(p, s, r, l);
    hide Next, X.Inv, Valid, Enabled;
    if q == r {
      OwnTransferKept(p, s, r, l);
    }
  }

  // ---------------------------------------------------------------- the data

  lemma {:induction false} LayoutInBounds(p: Params, s: State, w: nat, a: nat)
    requires Valid(p) && Shape(p, s) && w < |p.layouts| && a < |p.layouts[w]|
    ensures a < |p.data| && p.layouts[w][a].segment < |s.pools|
    ensures p.layouts[w][a].offset < |s.pools[p.layouts[w][a].segment]|
  {
    assert ValidLayout(p.layouts[w], p.taskCounts[w], p.poolSizes, |p.data|);
  }

  /** The pool holds, where byte a of workload w goes, what rank 0 started with. */
  ghost predicate PoolByteRight(p: Params, s: State, w: nat, a: nat)
    requires Valid(p) && Shape(p, s) && w < |p.layouts| && a < |p.layouts[w]|
  {
    LayoutInBounds(p, s, w, a);
    s.pools[p.layouts[w][a].segment][p.layouts[w][a].offset] == p.data[a]
  }

  ghost predicate LocalByteRight(p: Params, s: State, q: nat, a: nat)
    requires Shape(p, s) && q < p.ranks
  {
    a < |p.data| && s.locals[q][a] == p.data[a]
  }

  /** The pools hold workload w. */
  ghost predicate Image(p: Params, s: State, w: nat)
    requires Valid(p) && Shape(p, s) && w < |p.layouts|
  {
    forall a | 0 <= a < |p.layouts[w]| :: PoolByteRight(p, s, w, a)
  }

  /** Rank 0 has put workload w and has not come to the next workload. */
  ghost predicate ImageDue(p: Params, s: State, w: nat)
    requires Shape(p, s)
  {
    var at := StageOf(p, s, 0);
    && at.At? && at.workload == w
    && (at.point.PutDone? || at.point.GetReady? || at.point.GetDone? || (at.point.Ready? && s.ranks[0].mode.Settled?))
  }

  /** Nothing that the rank received is spoiled. */
  predicate Clean(m: Mode) {
    !m.Stopped? && (m.Moving? ==> m.bad == {})
  }

  ghost predicate PutSoFar(p: Params, s: State)
    requires Valid(p) && Shape(p, s)
  {
    var at, m := StageOf(p, s, 0), s.ranks[0].mode;
    at.At? && at.point.Ready? && at.workload < |p.layouts| && m.Moving? && m.bad == {} ==>
      forall a | a in m.copied && a < |p.layouts[at.workload]| :: PoolByteRight(p, s, at.workload, a)
  }

  ghost predicate GetSoFar(p: Params, s: State, q: nat)
    requires Valid(p) && Shape(p, s) && q < p.ranks
  {
    var at, m := StageOf(p, s, q), s.ranks[q].mode;
    at.At? && at.point.GetReady? && at.workload < |p.layouts| ==>
      && (m.Moving? && m.bad == {} ==>
            forall a | a in m.copied && a < |p.layouts[at.workload]| :: LocalByteRight(p, s, q, a))
      && (m.Settled? ==> forall a | 0 <= a < |p.layouts[at.workload]| :: LocalByteRight(p, s, q, a))
  }

  ghost predicate DataInv(p: Params, s: State)
    requires Valid(p) && Shape(p, s)
  {
    && (Clean(s.ranks[0].mode) ==> s.locals[0] == p.data)
    && (forall w | 0 <= w < |p.layouts| && ImageDue(p, s, w) :: Image(p, s, w))
    && PutSoFar(p, s)
    && (forall q | 0 <= q < p.ranks :: GetSoFar(p, s, q))
  }

  /** Unchanged pools hold the same bytes. */
  lemma {:induction false} PoolsFrame(p: Params, s: State, s': State)
    requires Valid(p) && Shape(p, s) && Shape(p, s') && s'.pools == s.pools
    ensures forall w, a | 0 <= w < |p.layouts| && 0 <= a < |p.layouts[w]| ::
              PoolByteRight(p, s', w, a) == PoolByteRight(p, s, w, a)
    ensures forall w | 0 <= w < |p.layouts| :: Image(p, s', w) == Image(p, s, w)
  {
    hide Valid;
    forall w, a | 0 <= w < |p.layouts| && 0 <= a < |p.layouts[w]|
      ensures PoolByteRight(p, s', w, a) == PoolByteRight(p, s, w, a)
    {
    }
  }

  /** A buffer that does not change holds the same bytes. */
  lemma {:induction false} LocalsFrame(p: Params, s: State, s': State, q: nat)
    requires Shape(p, s) && Shape(p, s') && q < p.ranks && s'.locals[q] == s.locals[q]
    ensures forall a: nat :: LocalByteRight(p, s', q, a) == LocalByteRight(p, s, q, a)
  {
  }

  /** Steps that touch no buffer and neither start nor end a transfer nor leave a barrier. */
  lemma {:induction false} DataUntouched(p: Params, s: State, s': State, r: nat)
    requires Valid(p) && Shape(p, s) && Shape(p, s') && DataInv(p, s) && r < p.ranks
    requires s'.locals == s.locals && s'.pools == s.pools
    requires forall q | 0 <= q < p.ranks && q != r :: s'.ranks[q] == s.ranks[q]
    requires s'.ranks[r].pos == s.ranks[r].pos
    requires s'.ranks[r].mode == s.ranks[r].mode || s'.ranks[r].mode == Moving({}, {})
             || (!s'.ranks[r].mode.Moving? && !s'.ranks[r].mode.Settled?)
    requires Clean(s'.ranks[r].mode) ==> Clean(s.ranks[r].mode)
    ensures DataInv(p, s')
  {
    hide Valid;
    PoolsFrame(p, s, s');
    forall w | 0 <= w < |p.layouts| && ImageDue(p, s', w)
      ensures Image(p, s', w)
    {
      assert ImageDue(p, s, w);
    }
    assert PutSoFar(p, s');
    forall q | 0 <= q < p.ranks
      ensures GetSoFar(p, s', q)
    {
      assert GetSoFar(p, s, q);
      LocalsFrame(p, s, s', q);
    }
  }

  /** s' is s with one pool byte of workload w replaced: the others of the workload are as before. */
  lemma {:induction false} PoolWrite(p: Params, s: State, s': State, w: nat, a: nat, value: byte, b: nat)
    requires Valid(p) && Shape(p, s) && Shape(p, s') && w < |p.layouts| && a < |p.layouts[w]| && b < |p.layouts[w]|
    requires p.layouts[w][a].segment < |s.pools| && p.layouts[w][a].offset < |s.pools[p.layouts[w][a].segment]|
    requires var x := p.layouts[w][a]; s'.pools == s.pools[x.segment := s.pools[x.segment][x.offset := value]]
    ensures b != a ==> PoolByteRight(p, s', w, b) == PoolByteRight(p, s, w, b)
    ensures PoolByteRight(p, s', w, a) <==> value == p.data[a]
  {
    LayoutInBounds(p, s, w, a);
    LayoutInBounds(p, s, w, b);
    assert ValidLayout(p.layouts[w], p.taskCounts[w], p.poolSizes, |p.data|);
    assert b < a ==> !SamePoolByte(p.layouts[w][b], p.layouts[w][a]);
    assert a < b ==> !SamePoolByte(p.layouts[w][a], p.layouts[w][b]);
  }

  /** A byte arrives in a pool while rank 0 puts workload w: rightly, or in a task that is now spoiled. */
  lemma {:induction false} PutDelivery(p: Params, s: State, s': State, w: nat, a: nat, value: byte)
    requires Valid(p) && Shape(p, s) && Shape(p, s') && DataInv(p, s) && w < |p.layouts| && a < |p.layouts[w]|
    requires StageOf(p, s, 0) == At(w, Ready) && s.ranks[0].mode.Moving?
    requires p.layouts[w][a].segment < |s.pools| && p.layouts[w][a].offset < |s.pools[p.layouts[w][a].segment]|
    requires var x := p.layouts[w][a]; s'.pools == s.pools[x.segment := s.pools[x.segment][x.offset := value]]
    requires s'.locals == s.locals && (forall q | 0 < q < p.ranks :: s'.ranks[q] == s.ranks[q])
    requires s'.ranks[0].pos == s.ranks[0].pos && s'.ranks[0].mode.Moving?
    requires || s'.ranks[0].mode.bad != {}
             || (&& s'.ranks[0].mode.bad == s.ranks[0].mode.bad == {}
                 && s'.ranks[0].mode.copied == s.ranks[0].mode.copied + {a} && value == s.locals[0][a])
    ensures DataInv(p, s')
  {
    hide Valid, PoolByteRight;
    var m, m' := s.ranks[0].mode, s'.ranks[0].mode;
    if m'.bad == {} {
      forall b | b in m'.copied && b < |p.layouts[w]|
        ensures PoolByteRight(p, s', w, b)
      {
        PoolWrite(p, s, s', w, a, value, b);
        assert b in m.copied ==> PoolByteRight(p, s, w, b);
      }
    }
    assert PutSoFar(p, s');
    forall q | 0 <= q < p.ranks
      ensures GetSoFar(p, s', q)
    {
      assert GetSoFar(p, s, q);
      LocalsFrame(p, s, s', q);
    }
  }

  /** While a rank gets a workload, the pools hold it. */
  lemma {:induction false} GetSeesImage(p: Params, s: State, r: nat, w: nat, i: nat)
    requires Valid(p) && Shape(p, s) && BarrierInv(p, s) && DataInv(p, s) && r < p.ranks
    requires StageOf(p, s, r) == At(w, GetReady(i)) && Beyond(s.ranks[r].mode)
    ensures w < |p.layouts| && ImageDue(p, s, w) && Image(p, s, w)
  {
    hide MarkersTrue, Seen, ValidLayout, PutSoFar, GetSoFar, Image;
    ScriptPositions(p.schedule, p.script, s.ranks[r].pos);
    assert Behind(s.ranks[r], s.ranks[0]) && Behind(s.ranks[0], s.ranks[r]);
    if s.ranks[0].pos == s.ranks[r].pos + 1 {
      assert Consecutive(p.schedule, p.script, s.ranks[r].pos);
    }
  }

  /** A byte arrives in the buffer of rank r while it gets workload w: rightly, or in a task that is now spoiled. */
  lemma {:induction false} GetDelivery(p: Params, s: State, s': State, r: nat, w: nat, i: nat, a: nat, value: byte)
    requires Valid(p) && Shape(p, s) && Shape(p, s') && DataInv(p, s) && r < p.ranks && w < |p.layouts|
             && a < |p.layouts[w]|
    requires StageOf(p, s, r) == At(w, GetReady(i)) && s.ranks[r].mode.Moving? && a < |s.locals[r]|
    requires s'.locals == s.locals[r := s.locals[r][a := value]] && s'.pools == s.pools
    requires forall q | 0 <= q < p.ranks && q != r :: s'.ranks[q] == s.ranks[q]
    requires s'.ranks[r].pos == s.ranks[r].pos && s'.ranks[r].mode.Moving?
    requires || s'.ranks[r].mode.bad != {}
             || (&& s'.ranks[r].mode.bad == s.ranks[r].mode.bad == {}
                 && s'.ranks[r].mode.copied == s.ranks[r].mode.copied + {a} && value == p.data[a])
    ensures DataInv(p, s')
  {
    hide Valid;
    PoolsFrame(p, s, s');
    forall w | 0 <= w < |p.layouts| && ImageDue(p, s', w)
      ensures Image(p, s', w)
    {
      assert ImageDue(p, s, w);
    }
    assert PutSoFar(p, s');
    forall q | 0 <= q < p.ranks
      ensures GetSoFar(p, s', q)
    {
      assert GetSoFar(p, s, q);
      forall b: nat
        ensures q != r ==> LocalByteRight(p, s', q, b) == LocalByteRight(p, s, q, b)
        ensures q == r && b != a ==> LocalByteRight(p, s', q, b) == LocalByteRight(p, s, q, b)
      {
      }
    }
  }

  // ---------------------------------------------------------------- ends of transfers and of stages

  /** A transfer that ended without an error copied every byte. */
  lemma {:induction false} AllCopied(p: Params, s: State, r: nat)
    requires Valid(p) && Shape(p, s) && r < p.ranks && TransferInv(p, s, r) && s.ranks[r].mode.Moving?
    requires !s.ranks[r].exec.shared.active && s.ranks[r].exec.shared.error.None?
    ensures s.ranks[r].mode.bad == {}
    ensures forall a | 0 <= a < |LayoutOf(p, s, r)| :: a in s.ranks[r].mode.copied
  {
    var x, m, layout := s.ranks[r].exec, s.ranks[r].mode, LayoutOf(p, s, r);
    X.InactiveIsOver(x);
    ActionWorkload(p, s, r);
    assert ValidLayout(layout, TasksOf(p, s, r), p.poolSizes, |p.data|);
    forall a | 0 <= a < |layout|
      ensures a in m.copied
    {
      assert layout[a].task in x.ok;
      assert TaskCopied(layout, layout[a].task, m.copied);
    }
  }

  lemma {:induction false} ReturnKeepsData(p: Params, s: State, r: nat)
    requires Valid(p) && Shape(p, s) && DataInv(p, s) && Enabled(p, s, r, Return) && TransferInv(p, s, r)
    requires Shape(p, Next(p, s, r, Return)) && p.shared
    ensures DataInv(p, Next(p, s, r, Return))
  {
    var s' := Next(p, s, r, Return);
    if s.ranks[r].exec.shared.error.None? {
      AllCopied(p, s, r);
      ActionWorkload(p, s, r);
      SettledData(p, s, s', r);
    } else {
      DataUntouched(p, s, s', r);
    }
  }

  lemma {:induction false} SettledData(p: Params, s: State, s': State, r: nat)
    requires Valid(p) && Shape(p, s) && Shape(p, s') && DataInv(p, s) && r < p.ranks && p.shared
    requires s'.locals == s.locals && s'.pools == s.pools
    requires forall q | 0 <= q < p.ranks && q != r :: s'.ranks[q] == s.ranks[q]
    requires s'.ranks[r].pos == s.ranks[r].pos && s.ranks[r].mode.Moving? && s'.ranks[r].mode.Settled?
    requires ActionOf(p, s, r) != NoTransfer && ActionOf(p, s, r).workload < |p.layouts|
    requires s.ranks[r].mode.bad == {} && forall a | 0 <= a < |LayoutOf(p, s, r)| :: a in s.ranks[r].mode.copied
    ensures DataInv(p, s')
  {
    hide Valid;
    assert GetSoFar(p, s, r);
    PoolsFrame(p, s, s');
    forall w | 0 <= w < |p.layouts| && ImageDue(p, s', w)
      ensures Image(p, s', w)
    {
      assert ImageDue(p, s, w) ==> Image(p, s, w);
    }
    assert PutSoFar(p, s');
    forall q | 0 <= q < p.ranks
      ensures GetSoFar(p, s', q)
    {
      assert GetSoFar(p, s, q);
      LocalsFrame(p, s, s', q);
    }
  }

  lemma {:induction false} AdvanceKeepsData(p: Params, s: State, r: nat)
    requires Valid(p) && Shape(p, s) && DataInv(p, s) && Enabled(p, s, r, Advance)
             && Shape(p, Next(p, s, r, Advance)) && p.shared
    ensures DataInv(p, Next(p, s, r, Advance))
  {
    var s' := Next(p, s, r, Advance);
    assert Consecutive(p.schedule, p.script, s.ranks[r].pos);
    hide Valid;
    PoolsFrame(p, s, s');
    forall w | 0 <= w < |p.layouts| && ImageDue(p, s', w)
      ensures Image(p, s', w)
    {
      assert ImageDue(p, s, w);
    }
    assert PutSoFar(p, s');
    forall q | 0 <= q < p.ranks
      ensures GetSoFar(p, s', q)
    {
      assert GetSoFar(p, s, q);
      LocalsFrame(p, s, s', q);
    }
  }

  lemma {:induction false} CopyKeepsData(p: Params, s: State, r: nat, v: nat, a: nat)
    requires Valid(p) && Shape(p, s) && BarrierInv(p, s) && DataInv(p, s) && Enabled(p, s, r, Copy(v, a))
             && TransferInv(p, s, r)
    requires Shape(p, Next(p, s, r, Copy(v, a))) && p.shared
    ensures DataInv(p, Next(p, s, r, Copy(v, a)))
  {
    hide X.Inv, BarrierInv, FinishedCopied, IsScript, ValidLayout;
    var s', b, w := Next(p, s, r, Copy(v, a)), LayoutOf(p, s, r)[a], ActionOf(p, s, r).workload;
    ByteInBounds(p, s, r, a);
    ActionWorkload(p, s, r);
    RunningTask(s.ranks[r].exec, v);
    if ActionOf(p, s, r).Put? {
      PutDelivery(p, s, s', w, a, s.locals[0][a]);
    } else {
      GetSeesImage(p, s, r, w, StageOf(p, s, r).point.round);
      assert PoolByteRight(p, s, w, a);
      GetDelivery(p, s, s', r, w, StageOf(p, s, r).point.round, a, s.pools[b.segment][b.offset]);
    }
  }

  lemma {:induction false} ScribbleKeepsData(p: Params, s: State, r: nat, v: nat, a: nat, value: byte)
    requires Valid(p) && Shape(p, s) && DataInv(p, s) && Enabled(p, s, r, Scribble(v, a, value)) && TransferInv(p, s, r)
    requires Shape(p, Next(p, s, r, Scribble(v, a, value))) && p.shared
    ensures DataInv(p, Next(p, s, r, Scribble(v, a, value)))
  {
    hide X.Inv, FinishedCopied, IsScript, ValidLayout;
    var s', b, w := Next(p, s, r, Scribble(v, a, value)), LayoutOf(p, s, r)[a], ActionOf(p, s, r).workload;
    ByteInBounds(p, s, r, a);
    ActionWorkload(p, s, r);
    RunningTask(s.ranks[r].exec, v);
    assert b.task in s'.ranks[r].mode.bad;
    if ActionOf(p, s, r).Put? {
      PutDelivery(p, s, s', w, a, value);
    } else {
      GetDelivery(p, s, s', r, w, StageOf(p, s, r).point.round, a, value);
    }
  }

  lemma {:induction false} DataKept(p: Params, s: State, r: nat, l: Label)
    requires Valid(p) && Shape(p, s) && BarrierInv(p, s) && DataInv(p, s) && Enabled(p, s, r, l) && TransferInv(p, s, r)
    requires Shape(p, Next(p, s, r, l)) && p.shared
    ensures DataInv(p, Next(p, s, r, l))
  {
    hide DataInv, TransferInv, BarrierInv, Valid, X.Next, Name;
    match l
    case Copy(v, a) => CopyKeepsData(p, s, r, v, a);
    case Scribble(v, a, value) => ScribbleKeepsData(p, s, r, v, a, value);
    case Return => ReturnKeepsData(p, s, r);
    case Advance => AdvanceKeepsData(p, s, r);
    case _ => DataUntouched(p, s, Next(p, s, r, l), r);
  }

  // ---------------------------------------------------------------- whole runs

  ghost predicate Inv(p: Params, s: State)
    requires Valid(p)
  {
    && Shape(p, s) && BarrierInv(p, s)
    && (forall r | 0 <= r < p.ranks :: TransferInv(p, s, r))
    && (p.shared ==> DataInv(p, s))
  }

  lemma {:induction false} InitInv(p: Params, s: State)
    requires Valid(p) && Init(p, s)
    ensures Inv(p, s)
  {
    assert p.script[0] == AllConnected;
    hide X.Inv, X.Init, ValidLayout, IsScript;
    forall r | 0 <= r < p.ranks
      ensures TransferInv(p, s, r) && Seen(p, s, r) && StageOf(p, s, r) == AllConnected
      ensures forall q | 0 <= q < p.ranks :: Behind(s.ranks[r], s.ranks[q])
    {
      assert InitRank(s.ranks[r]);
      ExecStarts(s.ranks[r].exec);
      assert forall q | 0 <= q < p.ranks :: InitRank(s.ranks[q]);
    }
  }

  lemma {:induction false} ExecStarts(x: X.State)
    requires X.Init(x, |x.workers|)
    ensures X.Inv(x) && !x.inside
  {
    X.InitInv(x, |x.workers|);
  }

  lemma {:induction false} StepInv(p: Params, s: State, r: nat, l: Label)
    requires Valid(p) && Inv(p, s) && Enabled(p, s, r, l)
    ensures Inv(p, Next(p, s, r, l))
  {
    hide Valid, BarrierInv, TransferInv, DataInv, Next, Enabled, Shape;
    RankInRange(p, s, r, l);
    BarriersKept(p, s, r, l);
    forall q | 0 <= q < p.ranks
      ensures TransferInv(p, Next(p, s, r, l), q)
    {
      TransfersKept(p, s, r, l, q);
    }
    if p.shared {
      DataKept(p, s, r, l);
    }
  }

  datatype Event = Event(rank: nat, step: Label)

  ghost predicate Follows(p: Params, s: State, e: Event, s': State)
    requires Valid(p)
  {
    Shape(p, s) && Enabled(p, s, e.rank, e.step) && s' == Next(p, s, e.rank, e.step)
  }

  /** A run of all ranks: any interleaving, any failures. */
  ghost predicate IsRun(p: Params, states: seq<State>, events: seq<Event>)
    requires Valid(p)
  {
    && |states| == |events| + 1 && Init(p, states[0])
    && forall i | 0 <= i < |events| :: Follows(p, states[i], events[i], states[i + 1])
  }

  lemma {:induction false} RunInv(p: Params, states: seq<State>, events: seq<Event>, i: nat)
    requires Valid(p) && IsRun(p, states, events) && i < |states|
    ensures Inv(p, states[i])
  {
    hide Valid, Inv, Next, Enabled, Shape, Init;
    if i == 0 {
      InitInv(p, states[0]);
    } else {
      RunInv(p, states, events, i - 1);
      assert Follows(p, states[i - 1], events[i - 1], states[i]);
      StepInv(p, states[i - 1], events[i - 1].rank, events[i - 1].step);
    }
  }

  /** In every run, ranks are at most one barrier apart, and two that transfer at the same time are in one phase. */
  lemma {:induction false} PhaseSeparation(p: Params, states: seq<State>, events: seq<Event>, i: nat, q: nat, r: nat)
    requires Valid(p) && IsRun(p, states, events) && i < |states| && q < p.ranks && r < p.ranks
    ensures Shape(p, states[i])
    ensures states[i].ranks[q].pos <= states[i].ranks[r].pos + 1
    ensures states[i].ranks[q].mode.Moving? && states[i].ranks[r].mode.Moving? ==>
              states[i].ranks[q].pos == states[i].ranks[r].pos
              && (ActionOf(p, states[i], q).Put? <==> ActionOf(p, states[i], r).Put?)
  {
    RunInv(p, states, events, i);
    hide Valid, MarkersTrue, Seen, DataInv, IsRun, X.Inv, FinishedCopied;
    var s := states[i];
    assert Behind(s.ranks[q], s.ranks[r]) && Behind(s.ranks[r], s.ranks[q]);
    assert TransferInv(p, s, q) && TransferInv(p, s, r);
  }

  /**
   * Put and get, in every run of a shared model, under any interleaving and any failures: a rank whose get of
   * workload w returned without an error holds, over all bytes of the workload, what rank 0 started with.
   */
  lemma {:induction false} RoundTrip(p: Params, states: seq<State>, events: seq<Event>, i: nat, r: nat, w: nat,
                                     round: nat)
    requires Valid(p) && p.shared && IsRun(p, states, events) && i < |states| && r < p.ranks && Shape(p, states[i])
    requires StageOf(p, states[i], r) == At(w, GetReady(round)) && states[i].ranks[r].mode.Settled?
    ensures w < |p.layouts| && |p.layouts[w]| <= |p.data|
    ensures forall a | 0 <= a < |p.layouts[w]| :: states[i].locals[r][a] == p.data[a]
  {
    RunInv(p, states, events, i);
    var s := states[i];
    ScriptPositions(p.schedule, p.script, s.ranks[r].pos);
    assert ValidLayout(p.layouts[w], p.taskCounts[w], p.poolSizes, |p.data|);
    hide Valid, BarrierInv, TransferInv, IsRun;
    assert GetSoFar(p, s, r);
    forall a | 0 <= a < |p.layouts[w]|
      ensures s.locals[r][a] == p.data[a]
    {
      assert LocalByteRight(p, s, r, a);
    }
  }
}
