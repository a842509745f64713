/**
 * The transfer executor: one caller hands batches of tasks to a pool of workers that share a cursor and a counter
 * under one mutex. Each critical section is one step; between them the workers run in any order.
 */
module Executor {
  import opened Numbers
  import opened Transfers

  datatype Op = Write | Read

  /** The fields guarded by the mutex; an error is recorded as the number of the task that threw it. */
  datatype Shared = Shared(count: nat, op: Op, next: nat, remaining: nat, active: bool, error: Option<nat>) {

    predicate CanAcquire() {
      active && next < count
    }
  }

  /** The first critical section of Transfer. */
  function Begin(n: nat, op: Op): Shared {
    Shared(n, op, 0, n, true, None)
  }

  /** The second critical section of Transfer, once no batch is active. */
  function End(p: Shared): Shared {
    p.(count := 0)
  }

  /** AcquireWorkerTask after its wait. */
  function Acquire(p: Shared): Shared
    requires p.CanAcquire()
  {
    p.(next := p.next + 1)
  }

  /** How many tasks an error cancels, in the unsigned arithmetic of the source. */
  function Cancelled(p: Shared): nat {
    if p.next <= p.count then p.count - p.next else Wrap64(p.count + U64 - Wrap64(p.next))
  }

  /** RecordErrorAndCancelPending. */
  function RecordError(p: Shared, task: nat): Shared {
    p.(error := if p.error.Some? then p.error else Some(task), next := p.count,
       remaining := p.remaining - Min(p.remaining, Cancelled(p)))
  }

  /** The critical section at the end of RunWorkerTask. */
  function Complete(p: Shared): Shared {
    var left := if p.remaining > 0 then p.remaining - 1 else 0;
    p.(remaining := left, active := if left == 0 then false else p.active)
  }

  class KvTransferExecutor {
    var tasks: seq<KeyTransferTask>
    var op: Op
    var nextTask: nat
    var remainingTasks: nat
    var workActive: bool
    var firstError: Option<nat>

    ghost function View(): Shared
      reads this
    {
      Shared(|tasks|, op, nextTask, remainingTasks, workActive, firstError)
    }

    constructor ()
      ensures View() == Shared(0, Write, 0, 0, false, None)
    {
      tasks, op, nextTask, remainingTasks, workActive, firstError := [], Write, 0, 0, false, None;
    }

    /** Transfer up to its wait; an empty batch returns at once. */
    method BeginTransfer(newOp: Op, newTasks: seq<KeyTransferTask>) returns (r: Outcome<bool>)
      modifies this
      ensures newTasks == [] ==> r == Returned(false) && View() == old(View()) && tasks == old(tasks)
      ensures newTasks != [] && old(workActive) ==> r.Threw? && View() == old(View()) && tasks == old(tasks)
      ensures newTasks != [] && !old(workActive) ==>
                r == Returned(true) && View() == Begin(|newTasks|, newOp) && tasks == newTasks
    {
      if |newTasks| == 0 {
        return Returned(false);
      }
      if workActive {
        return Threw("internal error: transfer executor is already active");
      }
      tasks := newTasks;
      op := newOp;
      nextTask := 0;
      remainingTasks := |tasks|;
      firstError := None;
      workActive := true;
      return Returned(true);
    }

    /** Transfer after its wait: the error to rethrow, if any. */
    method EndTransfer() returns (error: Option<nat>)
      requires !workActive
      modifies this
      ensures View() == End(old(View())) && error == old(firstError) && tasks == []
    {
      error := firstError;
      tasks := [];
    }

    /** AcquireWorkerTask, when its wait is over and the executor is not being stopped. */
    method AcquireWorkerTask() returns (task: KeyTransferTask, taskOp: Op)
      requires View().CanAcquire()
      modifies this
      ensures View() == Acquire(old(View())) && tasks == old(tasks)
      ensures task == old(tasks[nextTask]) && taskOp == old(op)
    {
      task, taskOp := tasks[nextTask], op;
      nextTask := nextTask + 1;
    }

    /** RecordErrorAndCancelPending; the task number stands for the exception it threw. */
    method RecordErrorAndCancelPending(task: nat)
      requires |tasks| < U64 && nextTask < U64
      modifies this
      ensures View() == RecordError(old(View()), task) && tasks == old(tasks)
    {
      if firstError.None? {
        firstError := Some(task);
      }
      var cancelled := if nextTask <= |tasks| then |tasks| - nextTask else Wrap64(|tasks| + U64 - nextTask);
      nextTask := |tasks|;
      remainingTasks := remainingTasks - Min(remainingTasks, cancelled);
    }

    /** The end of RunWorkerTask. */
    method CompleteTask()
      modifies this
      ensures View() == Complete(old(View())) && tasks == old(tasks)
    {
      if remainingTasks > 0 {
        remainingTasks := remainingTasks - 1;
      }
      if remainingTasks == 0 && workActive {
        workActive := false;
      }
    }
  }

  // ---------------------------------------------------------------- the machine

  /** What a worker is doing: waiting for a task, running one, or on its way out after an exception. */
  datatype Worker = Waiting | Running(batch: nat, task: nat, op: Op) | Failed(batch: nat, task: nat, op: Op)

  /**
   * The shared fields, the workers and whether the caller is inside Transfer; batch, total, started, ok and bad record
   * which batch this is, how many tasks it has, how many were acquired, which finished and which threw, in order.
   */
  datatype State = State(shared: Shared, workers: seq<Worker>, inside: bool, batch: nat, total: nat, started: nat,
                         ok: set<nat>, bad: seq<nat>)

  datatype Label = StartBatch(n: nat, op: Op) | AcquireStep(w: nat) | FailStep(w: nat) | FinishStep(w: nat) | ReturnStep

  ghost predicate Init(s: State, workers: nat) {
    && s.shared == Shared(0, Write, 0, 0, false, None) && |s.workers| == workers >= 1
    && (forall w | 0 <= w < |s.workers| :: s.workers[w].Waiting?)
    && !s.inside && s.batch == 0 && s.total == 0 && s.started == 0 && s.ok == {} && s.bad == []
  }

  predicate Enabled(s: State, l: Label) {
    match l
    case StartBatch(n, _) => !s.inside && n > 0
    case AcquireStep(w) => w < |s.workers| && s.workers[w].Waiting? && s.shared.CanAcquire()
    case FailStep(w) => w < |s.workers| && s.workers[w].Running?
    case FinishStep(w) => w < |s.workers| && !s.workers[w].Waiting?
    case ReturnStep => s.inside && !s.shared.active
  }

  function Next(s: State, l: Label): State
    requires Enabled(s, l)
  {
    match l
    case StartBatch(n, op) =>
      // a batch that is still active makes Transfer throw without touching anything
      if s.shared.active then s
      else
        s.(shared := Begin(n, op), inside := true, batch := s.batch + 1, total := n, started := 0, ok := {}, bad := [])
    case AcquireStep(w) =>
      s.(shared := Acquire(s.shared), started := s.started + 1,
         workers := s.workers[w := Running(s.batch, s.shared.next, s.shared.op)])
    case FailStep(w) =>
      var r := s.workers[w];
      s.(shared := RecordError(s.shared, r.task), bad := s.bad + [r.task],
         workers := s.workers[w := Failed(r.batch, r.task, r.op)])
    case FinishStep(w) =>
      var r := s.workers[w];
      s.(shared := Complete(s.shared), ok := if r.Running? then s.ok + {r.task} else s.ok,
         workers := s.workers[w := Waiting])
    case ReturnStep =>
      s.(shared := End(s.shared), inside := false)
  }

  // ---------------------------------------------------------------- counting workers

  function Weight(worker: Worker, running: nat, failed: nat): nat {
    match worker
    case Waiting => 0
    case Running(_, _, _) => running
    case Failed(_, _, _) => failed
  }

  /** The first k workers, each counted by what it is doing. */
  function Tally(workers: seq<Worker>, k: nat, running: nat, failed: nat): nat
    requires k <= |workers|
  {
    if k == 0 then 0 else Tally(workers, k - 1, running, failed) + Weight(workers[k - 1], running, failed)
  }

  function Busy(workers: seq<Worker>): nat {
    Tally(workers, |workers|, 1, 1)
  }

  lemma {:induction false} TallyUpdate(workers: seq<Worker>, k: nat, w: nat, worker: Worker, running: nat, failed: nat)
    requires k <= |workers| && w < |workers|
    ensures Tally(workers[w := worker], k, running, failed)
            == Tally(workers, k, running, failed)
               + (if w < k then Weight(worker, running, failed) - Weight(workers[w], running, failed) else 0)
  {
    if k > 0 {
      TallyUpdate(workers, k - 1, w, worker, running, failed);
    }
  }

  lemma {:induction false} BusyUpdate(workers: seq<Worker>, w: nat, worker: Worker)
    requires w < |workers|
    ensures Busy(workers[w := worker]) == Busy(workers) + Weight(worker, 1, 1) - Weight(workers[w], 1, 1)
  {
    TallyUpdate(workers, |workers|, w, worker, 1, 1);
  }

  lemma {:induction false} NoneBusy(workers: seq<Worker>, k: nat)
    requires k <= |workers|
    ensures Tally(workers, k, 1, 1) == 0 <==> forall w | 0 <= w < k :: workers[w].Waiting?
  {
    if k > 0 {
      NoneBusy(workers, k - 1);
    }
  }

  lemma {:induction false} SomeBusy(workers: seq<Worker>, w: nat)
    requires w < |workers| && !workers[w].Waiting?
    ensures Busy(workers) > 0
  {
    NoneBusy(workers, |workers|);
  }

  // ---------------------------------------------------------------- the invariant

  /** The counters: while a batch is active, what remains is what nobody acquired plus what is in flight. */
  ghost predicate Counted(s: State) {
    var p := s.shared;
    if s.inside then
      && p.count == s.total > 0 && p.next <= p.count
      && p.remaining == (p.count - p.next) + Busy(s.workers)
      && (p.active <==> p.remaining > 0)
    else
      p.count == 0 && p.remaining == 0 && !p.active && Busy(s.workers) == 0
  }

  /** The cursor: without an error it is the number of tasks started; an error moves it to the end. */
  ghost predicate Cursored(s: State) {
    && s.started <= s.total
    && (s.inside ==>
          && (s.shared.error.None? ==> s.shared.next == s.started && s.bad == [])
          && (s.shared.error.Some? ==> s.shared.next == s.total && s.bad != [] && s.bad[0] == s.shared.error.value))
  }

  /** What a busy worker holds: a started task of this batch, with the operation of this batch. */
  ghost predicate Holds(s: State, w: nat)
    requires w < |s.workers|
  {
    var r := s.workers[w];
    !r.Waiting? ==>
      && r.batch == s.batch && r.op == s.shared.op && r.task < s.started && r.task !in s.ok
      && (r.Running? ==> r.task !in s.bad) && (r.Failed? ==> r.task in s.bad)
  }

  ghost predicate Apart(a: Worker, b: Worker) {
    a.Waiting? || b.Waiting? || a.task != b.task
  }

  /** Some worker is running task t. */
  ghost predicate InFlight(s: State, t: nat) {
    exists w :: 0 <= w < |s.workers| && s.workers[w].Running? && s.workers[w].task == t
  }

  /** Every started task finished, threw, or is being run. */
  ghost predicate Accounted(s: State) {
    && (forall t | t in s.ok :: t < s.started && t !in s.bad)
    && (forall t | t in s.bad :: t < s.started)
    && (forall t: nat | t < s.started :: t in s.ok || t in s.bad || InFlight(s, t))
  }

  ghost predicate NoDuplicates(bad: seq<nat>) {
    forall i, j | 0 <= i < j < |bad| :: bad[i] != bad[j]
  }

  ghost predicate Workers(s: State) {
    && |s.workers| >= 1
    && (forall w | 0 <= w < |s.workers| :: Holds(s, w))
    && (forall v, w | 0 <= v < w < |s.workers| :: Apart(s.workers[v], s.workers[w]))
  }

  ghost predicate Inv(s: State) {
    Counted(s) && Cursored(s) && Workers(s) && Accounted(s) && NoDuplicates(s.bad)
  }

  lemma {:induction false} InitInv(s: State, workers: nat)
    requires Init(s, workers)
    ensures Inv(s)
  {
    NoneBusy(s.workers, |s.workers|);
  }

  lemma {:induction false} StartInv(s: State, n: nat, op: Op)
    requires Inv(s) && Enabled(s, StartBatch(n, op))
    ensures Inv(Next(s, StartBatch(n, op))) && !s.shared.active
  {
    NoneBusy(s.workers, |s.workers|);
  }

  /** Replacing one worker keeps the others' tasks in flight. */
  lemma {:induction false} StaysInFlight(s: State, s': State, w: nat, t: nat)
    requires w < |s.workers| == |s'.workers| && s'.workers == s.workers[w := s'.workers[w]]
    requires InFlight(s, t) && (s.workers[w].Running? ==> s.workers[w].task != t)
    ensures InFlight(s', t)
  {
    var v :| 0 <= v < |s.workers| && s.workers[v].Running? && s.workers[v].task == t;
    assert s'.workers[v] == s.workers[v];
  }

  lemma {:induction false} AcquireInv(s: State, w: nat)
    requires Inv(s) && Enabled(s, AcquireStep(w))
    ensures Inv(Next(s, AcquireStep(w)))
  {
    hide Busy;
    var s' := Next(s, AcquireStep(w));
    BusyUpdate(s.workers, w, s'.workers[w]);
    forall v | 0 <= v < |s.workers|
      ensures Holds(s', v) && (v < w ==> Apart(s'.workers[v], s'.workers[w]))
              && (w < v ==> Apart(s'.workers[w], s'.workers[v]))
    {
      assert Holds(s, v);
    }
    assert Workers(s');
    forall t: nat | t < s'.started
      ensures t in s'.ok || t in s'.bad || InFlight(s', t)
    {
      if t == s.started {
        assert s'.workers[w].Running?;
      } else if InFlight(s, t) {
        StaysInFlight(s, s', w, t);
      }
    }
  }

  lemma {:induction false} FailInv(s: State, w: nat)
    requires Inv(s) && Enabled(s, FailStep(w))
    ensures Inv(Next(s, FailStep(w)))
    ensures s.shared.next <= s.shared.count && Cancelled(s.shared) <= s.shared.remaining
  {
    hide Busy;
    var s' := Next(s, FailStep(w));
    SomeBusy(s.workers, w);
    BusyUpdate(s.workers, w, s'.workers[w]);
    assert Holds(s, w);
    forall v | 0 <= v < |s.workers|
      ensures Holds(s', v) && (v < w ==> Apart(s'.workers[v], s'.workers[w]))
              && (w < v ==> Apart(s'.workers[w], s'.workers[v]))
    {
      assert Holds(s, v);
      assert v < w ==> Apart(s.workers[v], s.workers[w]);
      assert w < v ==> Apart(s.workers[w], s.workers[v]);
    }
    assert Workers(s');
    forall t: nat | t < s'.started
      ensures t in s'.ok || t in s'.bad || InFlight(s', t)
    {
      if t == s.workers[w].task {
        assert s'.bad[|s.bad|] == t;
      } else if t in s.bad {
        assert t in s'.bad;
      } else if InFlight(s, t) {
        StaysInFlight(s, s', w, t);
      }
    }
  }

  lemma {:induction false} FinishInv(s: State, w: nat)
    requires Inv(s) && Enabled(s, FinishStep(w))
    ensures Inv(Next(s, FinishStep(w)))
    ensures s.inside && s.shared.remaining > 0
  {
    hide Busy;
    var s' := Next(s, FinishStep(w));
    BusyUpdate(s.workers, w, s'.workers[w]);
    assert Holds(s, w);
    forall v | 0 <= v < |s.workers|
      ensures Holds(s', v)
    {
      assert Holds(s, v);
      assert v < w ==> Apart(s.workers[v], s.workers[w]);
      assert w < v ==> Apart(s.workers[w], s.workers[v]);
    }
    assert Workers(s');
    forall t: nat | t < s'.started
      ensures t in s'.ok || t in s'.bad || InFlight(s', t)
    {
      if InFlight(s, t) && t != s.workers[w].task {
        StaysInFlight(s, s', w, t);
      }
    }
  }

  lemma {:induction false} ReturnInv(s: State)
    requires Inv(s) && Enabled(s, ReturnStep)
    ensures Inv(Next(s, ReturnStep))
  {
    forall w | 0 <= w < |s.workers|
      ensures Holds(Next(s, ReturnStep), w)
    {
      assert Holds(s, w);
    }
  }

  /** Every step keeps the invariant. */
  lemma {:induction false} StepInv(s: State, l: Label)
    requires Inv(s) && Enabled(s, l)
    ensures Inv(Next(s, l))
  {
    hide Inv;
    match l
    case StartBatch(n, op) => StartInv(s, n, op);
    case AcquireStep(w) => AcquireInv(s, w);
    case FailStep(w) => FailInv(s, w);
    case FinishStep(w) => FinishInv(s, w);
    case ReturnStep => ReturnInv(s);
  }

  // ---------------------------------------------------------------- whole runs

  ghost predicate Follows(s: State, l: Label, s': State) {
    Enabled(s, l) && s' == Next(s, l)
  }

  /** A run of the executor: any caller behaviour, any worker schedule, any pattern of exceptions. */
  ghost predicate IsRun(states: seq<State>, labels: seq<Label>, workers: nat) {
    && |states| == |labels| + 1 && Init(states[0], workers)
    && forall i | 0 <= i < |labels| :: Follows(states[i], labels[i], states[i + 1])
  }

  lemma {:induction false} RunInv(states: seq<State>, labels: seq<Label>, workers: nat, i: nat)
    requires IsRun(states, labels, workers) && i < |states|
    ensures Inv(states[i])
  {
    hide Inv;
    if i == 0 {
      InitInv(states[0], workers);
    } else {
      RunInv(states, labels, workers, i - 1);
      assert Follows(states[i - 1], labels[i - 1], states[i]);
      StepInv(states[i - 1], labels[i - 1]);
    }
  }

  /**
   * In every run: while a batch is active the counter is what nobody acquired plus what is in flight, so neither the
   * min nor the greater-than-zero guard ever changes anything; a new batch never finds the old one active.
   */
  lemma {:induction false} GuardsNeverSaturate(states: seq<State>, labels: seq<Label>, workers: nat, i: nat)
    requires IsRun(states, labels, workers) && i < |labels|
    ensures var s := states[i];
            && (s.shared.active ==> s.shared.remaining == (s.shared.count - s.shared.next) + Busy(s.workers))
            && (labels[i].StartBatch? ==> !s.shared.active)
            && (labels[i].FailStep? ==> s.shared.next <= s.shared.count && Cancelled(s.shared) <= s.shared.remaining)
            && (labels[i].FinishStep? ==> s.shared.remaining > 0)
  {
    RunInv(states, labels, workers, i);
    assert Follows(states[i], labels[i], states[i + 1]);
    match labels[i]
    case FailStep(w) => FailInv(states[i], w);
    case FinishStep(w) => FinishInv(states[i], w);
    case _ =>
  }

  /** What has happened to the tasks of a batch when Transfer returns. */
  ghost predicate BatchOver(s: State) {
    && (forall w | 0 <= w < |s.workers| :: s.workers[w].Waiting?)
    && (forall t: nat :: t < s.started <==> t in s.ok || t in s.bad)
    && (forall t | t in s.bad :: t !in s.ok) && NoDuplicates(s.bad)
    && (s.shared.error.None? ==> s.bad == [] && s.started == s.total && forall t: nat :: t < s.total <==> t in s.ok)
    && (s.shared.error.Some? ==> s.bad != [] && s.shared.error.value == s.bad[0])
  }

  lemma {:induction false} InactiveIsOver(s: State)
    requires Inv(s) && s.inside && !s.shared.active
    ensures BatchOver(s)
  {
    NoneBusy(s.workers, |s.workers|);
    assert Busy(s.workers) == 0;
  }

  /**
   * In every run Transfer returns only with nothing in flight. Without an error every task finished and none threw;
   * with an error the tasks that ran are a prefix of the batch, and the error rethrown is the first one recorded.
   */
  lemma {:induction false} ReturnMeans(states: seq<State>, labels: seq<Label>, workers: nat, i: nat)
    requires IsRun(states, labels, workers) && i < |labels| && labels[i] == ReturnStep
    ensures BatchOver(states[i])
  {
    hide BatchOver, Inv;
    RunInv(states, labels, workers, i);
    assert Follows(states[i], labels[i], states[i + 1]);
    InactiveIsOver(states[i]);
  }

  /** In every run a task is acquired only if it was not started before, and with the operation of its own batch. */
  lemma {:induction false} AcquiredOnce(states: seq<State>, labels: seq<Label>, workers: nat, i: nat, w: nat)
    requires IsRun(states, labels, workers) && i < |labels| && labels[i] == AcquireStep(w)
    ensures var s, r := states[i], states[i + 1].workers[w];
            && r == Running(s.batch, s.started, s.shared.op) && s.started < s.total
            && s.started !in s.ok && s.started !in s.bad
            && forall v | 0 <= v < |s.workers| && !s.workers[v].Waiting? ::
                 s.workers[v].batch == s.batch && s.workers[v].task < s.started && s.workers[v].op == s.shared.op
  {
    hide Busy;
    RunInv(states, labels, workers, i);
    assert Follows(states[i], labels[i], states[i + 1]);
    var s := states[i];
    forall v | 0 <= v < |s.workers| && !s.workers[v].Waiting?
      ensures s.workers[v].batch == s.batch && s.workers[v].task < s.started && s.workers[v].op == s.shared.op
    {
      assert Holds(s, v);
    }
  }

  /** An error recorded in a batch stays recorded until the next batch. */
  lemma {:induction false} ErrorStays(states: seq<State>, labels: seq<Label>, workers: nat, j: nat, i: nat)
    requires IsRun(states, labels, workers) && j < i < |states| && labels[j].FailStep?
    requires forall k | j < k < i :: !labels[k].StartBatch?
    ensures states[i].shared.error.Some?
    decreases i
  {
    assert Follows(states[i - 1], labels[i - 1], states[i]);
    if j < i - 1 {
      ErrorStays(states, labels, workers, j, i - 1);
    }
    hide IsRun;
  }

  /** In every run, after a task has thrown no further task of its batch is acquired. */
  lemma {:induction false} NothingAfterError(states: seq<State>, labels: seq<Label>, workers: nat, j: nat, i: nat)
    requires IsRun(states, labels, workers) && j < i < |labels| && labels[j].FailStep?
    requires forall k | j < k < i :: !labels[k].StartBatch?
    ensures !labels[i].AcquireStep?
  {
    ErrorStays(states, labels, workers, j, i);
    RunInv(states, labels, workers, i);
    assert Follows(states[i], labels[i], states[i + 1]);
    hide IsRun, Busy, Workers, Accounted;
  }

  // ---------------------------------------------------------------- progress

  predicate IsWorkerStep(l: Label) {
    l.AcquireStep? || l.FailStep? || l.FinishStep?
  }

  /** What is left to do in a batch: three steps per unacquired task, two per running one, one per failed one. */
  function Effort(s: State): nat
    requires s.shared.next <= s.shared.count
  {
    3 * (s.shared.count - s.shared.next) + Tally(s.workers, |s.workers|, 2, 1)
  }

  /** While a batch is active some worker can take a step, whatever failed before. */
  lemma {:induction false} SomeWorkerCanStep(s: State) returns (l: Label)
    requires Inv(s) && s.shared.active
    ensures IsWorkerStep(l) && Enabled(s, l)
  {
    NoneBusy(s.workers, |s.workers|);
    if Busy(s.workers) == 0 {
      l := AcquireStep(0);
    } else {
      var w :| 0 <= w < |s.workers| && !s.workers[w].Waiting?;
      l := FinishStep(w);
    }
  }

  lemma {:induction false} EffortDrops(s: State, l: Label)
    requires Inv(s) && Enabled(s, l) && IsWorkerStep(l)
    ensures s.inside && s.shared.next <= s.shared.count
    ensures Next(s, l).shared.next <= Next(s, l).shared.count && Next(s, l).inside
    ensures Effort(Next(s, l)) < Effort(s)
  {
    match l
    case AcquireStep(w) => TallyUpdate(s.workers, |s.workers|, w, Next(s, l).workers[w], 2, 1);
    case FailStep(w) =>
      SomeBusy(s.workers, w);
      TallyUpdate(s.workers, |s.workers|, w, Next(s, l).workers[w], 2, 1);
    case FinishStep(w) =>
      FinishInv(s, w);
      TallyUpdate(s.workers, |s.workers|, w, Next(s, l).workers[w], 2, 1);
  }

  lemma {:induction false} CursorInBatch(s: State)
    requires Inv(s) && s.inside
    ensures s.shared.next <= s.shared.count
  {
  }

  /** From any point of a batch, the workers take at most Effort steps before Transfer returns. */
  lemma {:induction false} BatchEnds(states: seq<State>, labels: seq<Label>, workers: nat, i: nat, j: nat)
    requires IsRun(states, labels, workers) && i <= j < |states| && states[i].inside
    requires forall k | i <= k < j :: IsWorkerStep(labels[k])
    ensures states[i].shared.next <= states[i].shared.count && states[j].shared.next <= states[j].shared.count
    ensures states[j].inside && (j - i) + Effort(states[j]) <= Effort(states[i])
    decreases j
  {
    hide Effort, Enabled, Next, Init, Inv, IsWorkerStep;
    RunInv(states, labels, workers, i);
    CursorInBatch(states[i]);
    if i < j {
      BatchEnds(states, labels, workers, i, j - 1);
      RunInv(states, labels, workers, j - 1);
      assert Follows(states[j - 1], labels[j - 1], states[j]);
      EffortDrops(states[j - 1], labels[j - 1]);
    }
  }
}
