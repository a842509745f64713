/**
 * Both levels of step synchronisation together: processes of worker threads, each worker bound to a target. Before a
 * step a worker waits for the other workers of its process, then for the release of its target, which waits for all its
 * clients in all processes. What each level does alone is the subject of StepBarrier and TcpBarrier; here a level is
 * what they prove it to be. The workers of a process have targets of their own, so the mutex of a remote is free.
 */
module TwoLevelBarrier {

  /** Where a worker is; once gone it has told its target that it is finished. */
  datatype Phase = Ready | AtLocal | AtTarget | Moving | Broken | Gone(ok: bool)

  /** The transfers a worker has made, its calls of the local barrier, and its arrivals at the target. */
  datatype Thread = Thread(done: nat, called: nat, arrived: nat, phase: Phase)

  /** A target: the rounds it has released, and whether it has ended. */
  datatype Target = Target(round: nat, over: bool)

  /** The process and the target of every worker, how many steps every worker plans, and how many targets there are. */
  datatype Params = Params(process: seq<nat>, target: seq<nat>, steps: seq<nat>, targets: nat)

  /** Processes may plan differently; the workers of one process share its plan. */
  ghost predicate Valid(p: Params) {
    && |p.process| == |p.target| == |p.steps|
    && (forall t | 0 <= t < |p.target| :: p.target[t] < p.targets)
    && (forall t, u | 0 <= t < |p.process| && 0 <= u < |p.process| && p.process[t] == p.process[u] ::
         p.steps[t] == p.steps[u])
  }

  datatype State = State(threads: seq<Thread>, targets: seq<Target>, failed: set<nat>)

  datatype Label =
    | Enter(t: nat)
    | LeaveLocal(t: nat)
    | LeaveTarget(t: nat)
    | Transfer(t: nat)
    | Fails(t: nat)        // a transfer, or anything else between the barriers, goes wrong
    | CallFail(t: nat)
    | Finish(t: nat)
    | Release(x: nat)
    | TargetEnds(x: nat)

  predicate IsFault(l: Label) {
    l.Fails?
  }

  predicate IsTargetStep(l: Label) {
    l.Release? || l.TargetEnds?
  }

  ghost predicate Shape(p: Params, s: State) {
    Valid(p) && |s.threads| == |p.process| && |s.targets| == p.targets
  }

  /** Everybody in t's process has called the local barrier for the step after d. */
  ghost predicate RoundComplete(p: Params, s: State, t: nat, d: nat)
    requires Shape(p, s) && t < |s.threads|
  {
    forall u | 0 <= u < |s.threads| && p.process[u] == p.process[t] :: s.threads[u].called > d
  }

  /** What the target reads from a client in its current round: an arrival, or that the client is finished. */
  predicate Arrives(h: Thread, round: nat) {
    h.arrived > round
  }

  predicate Answers(h: Thread, round: nat) {
    h.arrived > round || h.phase.Gone?
  }

  ghost predicate IsClient(p: Params, t: nat, x: nat)
    requires |p.target| == |p.process|
  {
    t < |p.target| && p.target[t] == x
  }

  ghost predicate AllAnswer(p: Params, s: State, x: nat)
    requires Shape(p, s) && x < p.targets
  {
    forall u | 0 <= u < |s.threads| && p.target[u] == x :: Answers(s.threads[u], s.targets[x].round)
  }

  ghost predicate AllArrive(p: Params, s: State, x: nat)
    requires Shape(p, s) && x < p.targets
  {
    forall u | 0 <= u < |s.threads| && p.target[u] == x :: Arrives(s.threads[u], s.targets[x].round)
  }

  ghost predicate Init(p: Params, s: State) {
    && Shape(p, s) && s.failed == {}
    && (forall t | 0 <= t < |s.threads| :: s.threads[t] == Thread(0, 0, 0, Ready))
    && (forall x | 0 <= x < p.targets :: s.targets[x] == Target(0, false))
  }

  ghost predicate Enabled(p: Params, s: State, l: Label)
    requires Shape(p, s)
  {
    if IsTargetStep(l) then
      && l.x < p.targets && !s.targets[l.x].over && AllAnswer(p, s, l.x)
      && (l.Release? <==> AllArrive(p, s, l.x) && exists t :: IsClient(p, t, l.x))
    else
      l.t < |s.threads| &&
      var h := s.threads[l.t];
      match l
      case Enter(t) => h.phase.Ready? && h.done < p.steps[t]
      case LeaveLocal(t) => h.phase.AtLocal? && (p.process[t] in s.failed || RoundComplete(p, s, t, h.done))
      case LeaveTarget(t) => h.phase.AtTarget? && (s.targets[p.target[t]].over || s.targets[p.target[t]].round > h.done)
      case Transfer(_) => h.phase.Moving?
      case Fails(_) => h.phase.Ready? || h.phase.Moving?
      case CallFail(_) => h.phase.Broken?
      case Finish(t) => h.phase.Ready? && h.done >= p.steps[t]
      case _ => false
  }

  function With(s: State, t: nat, h: Thread): State
    requires t < |s.threads|
  {
    s.(threads := s.threads[t := h])
  }

  ghost function Next(p: Params, s: State, l: Label): State
    requires Shape(p, s) && Enabled(p, s, l)
  {
    if IsTargetStep(l) then
      var target := s.targets[l.x];
      s.(targets := s.targets[l.x := if l.Release? then target.(round := target.round + 1) else target.(over := true)])
    else
      var t, h := l.t, s.threads[l.t];
      match l
      case Enter(_) =>
        if p.process[t] in s.failed then With(s, t, h.(phase := Broken))
        else With(s, t, h.(called := h.called + 1, phase := AtLocal))
      case LeaveLocal(_) =>
        if p.process[t] in s.failed then With(s, t, h.(phase := Broken))
        else With(s, t, h.(arrived := h.arrived + 1, phase := AtTarget))
      case LeaveTarget(_) => With(s, t, h.(phase := if s.targets[p.target[t]].round > h.done then Moving else Broken))
      case Transfer(_) => With(s, t, h.(done := h.done + 1, phase := Ready))
      case Fails(_) => With(s, t, h.(phase := Broken))
      case CallFail(_) => With(s, t, h.(phase := Gone(false))).(failed := s.failed + {p.process[t]})
      case _ => With(s, t, h.(phase := Gone(true)))
  }

  // ---------------------------------------------------------------- the invariant

  ghost predicate ThreadInv(p: Params, s: State, t: nat)
    requires Shape(p, s) && t < |s.threads|
  {
    var h := s.threads[t];
    && h.done <= h.arrived <= h.called <= h.done + 1 && h.called <= p.steps[t]
    && (h.phase.Ready? ==> h.called == h.done)
    && (h.phase.AtLocal? ==> h.called == h.done + 1 && h.arrived == h.done)
    && (h.phase.AtTarget? || h.phase.Moving? ==> h.arrived == h.done + 1)
    && (h.phase == Gone(true) ==> h.done == p.steps[t])
    && (h.phase == Gone(false) ==> p.process[t] in s.failed)
    && s.targets[p.target[t]].round <= h.arrived
    && (h.phase.Moving? ==> s.targets[p.target[t]].round > h.done)
  }

  /** Within a process nobody arrives at a target for a step that a fellow worker has not called for. */
  ghost predicate ProcessAligned(p: Params, s: State)
    requires Shape(p, s)
  {
    forall t, u | 0 <= t < |s.threads| && 0 <= u < |s.threads| && p.process[t] == p.process[u] ::
      s.threads[t].arrived <= s.threads[u].called
  }

  /** The steps all workers plan together: no target releases more rounds. */
  function Planned(steps: seq<nat>, n: nat): nat
    requires n <= |steps|
  {
    if n == 0 then 0 else Planned(steps, n - 1) + steps[n - 1]
  }

  lemma {:induction false} PlannedBounds(steps: seq<nat>, n: nat, t: nat)
    requires t < n <= |steps|
    ensures steps[t] <= Planned(steps, n)
  {
    if t < n - 1 {
      PlannedBounds(steps, n - 1, t);
    }
  }

  ghost predicate RoundsPlanned(p: Params, s: State) {
    forall x | 0 <= x < |s.targets| :: s.targets[x].round <= Planned(p.steps, |p.steps|)
  }

  ghost predicate Inv(p: Params, s: State) {
    && Shape(p, s) && ProcessAligned(p, s) && RoundsPlanned(p, s)
    && forall t | 0 <= t < |s.threads| :: ThreadInv(p, s, t)
  }

  lemma {:induction false} ThreadStepInv(p: Params, s: State, l: Label)
    requires Inv(p, s) && Enabled(p, s, l) && !IsTargetStep(l)
    ensures Inv(p, Next(p, s, l))
  {
    var s' := Next(p, s, l);
    assert ThreadInv(p, s, l.t);
    assert ThreadInv(p, s', l.t);
    forall u | 0 <= u < |s.threads| && u != l.t
      ensures ThreadInv(p, s', u)
    {
      assert ThreadInv(p, s, u);
    }
    hide Valid, ThreadInv;
  }

  lemma {:induction false} TargetStepInv(p: Params, s: State, l: Label)
    requires Inv(p, s) && Enabled(p, s, l) && IsTargetStep(l)
    ensures Inv(p, Next(p, s, l))
  {
    var s' := Next(p, s, l);
    forall u | 0 <= u < |s.threads|
      ensures ThreadInv(p, s', u)
    {
      assert ThreadInv(p, s, u);
    }
    if l.Release? {
      var t :| IsClient(p, t, l.x);
      assert ThreadInv(p, s, t);
      PlannedBounds(p.steps, |p.steps|, t);
    }
    hide ThreadInv, Planned;
  }

  lemma {:induction false} StepInv(p: Params, s: State, l: Label)
    requires Inv(p, s) && Enabled(p, s, l)
    ensures Inv(p, Next(p, s, l))
  {
    hide Inv, Next, Enabled;
    if IsTargetStep(l) {
      TargetStepInv(p, s, l);
    } else {
      ThreadStepInv(p, s, l);
    }
  }

  // ---------------------------------------------------------------- whole runs

  ghost predicate Follows(p: Params, s: State, l: Label, s': State) {
    Shape(p, s) && Enabled(p, s, l) && s' == Next(p, s, l)
  }

  /** A run: any interleaving of workers and targets, any failures. */
  ghost predicate IsRun(p: Params, states: seq<State>, labels: seq<Label>) {
    && |states| == |labels| + 1 && Init(p, states[0])
    && forall i | 0 <= i < |labels| :: Follows(p, states[i], labels[i], states[i + 1])
  }

  lemma {:induction false} RunInv(p: Params, states: seq<State>, labels: seq<Label>, i: nat)
    requires IsRun(p, states, labels) && i < |states|
    ensures Inv(p, states[i])
  {
    hide Next, Enabled;
    if i > 0 {
      hide Inv, Init;
      RunInv(p, states, labels, i - 1);
      assert Follows(p, states[i - 1], labels[i - 1], states[i]);
      StepInv(p, states[i - 1], labels[i - 1]);
    }
  }

  /**
   * In every run, across processes: while a worker makes its k-th transfer, every worker of its process and every
   * client of its target in whatever process has made the k - 1 transfers before.
   */
  lemma {:induction false} StepsStartTogether(p: Params, states: seq<State>, labels: seq<Label>, i: nat, t: nat, u: nat)
    requires IsRun(p, states, labels) && i < |states| && Shape(p, states[i])
    requires t < |states[i].threads| && u < |states[i].threads| && states[i].threads[t].phase.Moving?
    requires p.process[t] == p.process[u] || p.target[t] == p.target[u]
    ensures states[i].threads[t].done <= states[i].threads[u].done
  {
    RunInv(p, states, labels, i);
    assert ThreadInv(p, states[i], t) && ThreadInv(p, states[i], u);
  }

  // ---------------------------------------------------------------- nobody waits for ever

  /** The worker waits at one of the barriers. */
  predicate Waits(h: Thread) {
    h.phase.AtLocal? || h.phase.AtTarget?
  }

  /** How far a waiting worker is: two places per step. */
  function Place(h: Thread): nat {
    2 * h.done + (if h.phase.AtTarget? then 1 else 0)
  }

  lemma {:induction false} Hindmost(threads: seq<Thread>, n: nat, t: nat) returns (e: nat)
    requires n <= |threads| && t < |threads| && Waits(threads[t])
    ensures e < |threads| && Waits(threads[e]) && Place(threads[e]) <= Place(threads[t])
    ensures forall u | 0 <= u < n && Waits(threads[u]) :: Place(threads[e]) <= Place(threads[u])
  {
    if n == 0 {
      e := t;
    } else {
      e := Hindmost(threads, n - 1, t);
      if Waits(threads[n - 1]) && Place(threads[n - 1]) < Place(threads[e]) {
        e := n - 1;
      }
    }
  }

  /** When everybody waits or is gone, the hindmost worker can go on, or its target can. */
  lemma {:induction false} HindmostGoesOn(p: Params, s: State, e: nat) returns (l: Label)
    requires Inv(p, s) && e < |s.threads| && Waits(s.threads[e])
    requires forall u | 0 <= u < |s.threads| :: Waits(s.threads[u]) || s.threads[u].phase.Gone?
    requires forall u | 0 <= u < |s.threads| && Waits(s.threads[u]) :: Place(s.threads[e]) <= Place(s.threads[u])
    ensures Enabled(p, s, l) && !IsFault(l)
  {
    var h, x := s.threads[e], p.target[e];
    assert ThreadInv(p, s, e);
    if h.phase.AtLocal? {
      l := LeaveLocal(e);
      if p.process[e] !in s.failed {
        forall u | 0 <= u < |s.threads| && p.process[u] == p.process[e]
          ensures s.threads[u].called > h.done
        {
          assert ThreadInv(p, s, u);
        }
      }
    } else if s.targets[x].over || s.targets[x].round > h.done {
      l := LeaveTarget(e);
    } else {
      forall u | 0 <= u < |s.threads| && p.target[u] == x
        ensures Answers(s.threads[u], s.targets[x].round)
      {
        assert ThreadInv(p, s, u);
      }
      assert IsClient(p, e, x);
      l := if AllArrive(p, s, x) then Release(x) else TargetEnds(x);
    }
  }

  /** Until every worker is gone, whatever has failed, a step other than a new failure can be taken. */
  lemma {:induction false} SomeStep(p: Params, s: State) returns (l: Label)
    requires Inv(p, s) && exists t :: 0 <= t < |s.threads| && !s.threads[t].phase.Gone?
    ensures Enabled(p, s, l) && !IsFault(l)
  {
    if t :| 0 <= t < |s.threads| && !s.threads[t].phase.Gone? && !Waits(s.threads[t]) {
      var h := s.threads[t];
      l := if h.phase.Moving? then Transfer(t)
           else if h.phase.Broken? then CallFail(t)
           else if h.done < p.steps[t] then Enter(t)
           else Finish(t);
    } else {
      var t :| 0 <= t < |s.threads| && !s.threads[t].phase.Gone?;
      var e := Hindmost(s.threads, |s.threads|, t);
      l := HindmostGoesOn(p, s, e);
    }
  }

  function ThreadLeft(h: Thread, steps: nat): nat
    requires h.done <= steps
  {
    match h.phase
    case Ready => 4 * (steps - h.done) + 2
    case AtLocal => 4 * (steps - h.done) + 1
    case AtTarget => 4 * (steps - h.done)
    case Moving => if h.done < steps then 4 * (steps - h.done) - 1 else 0
    case Broken => 1
    case Gone(_) => 0
  }

  ghost function ThreadsLeft(p: Params, s: State, n: nat): nat
    requires Inv(p, s) && n <= |s.threads|
  {
    if n == 0 then 0
    else assert ThreadInv(p, s, n - 1); ThreadsLeft(p, s, n - 1) + ThreadLeft(s.threads[n - 1], p.steps[n - 1])
  }

  function TargetLeft(x: Target, rounds: nat): nat {
    if x.over || x.round > rounds then 0 else rounds - x.round + 1
  }

  function TargetsLeft(targets: seq<Target>, rounds: nat, n: nat): nat
    requires n <= |targets|
  {
    if n == 0 then 0 else TargetsLeft(targets, rounds, n - 1) + TargetLeft(targets[n - 1], rounds)
  }

  ghost function Left(p: Params, s: State): nat
    requires Inv(p, s)
  {
    ThreadsLeft(p, s, |s.threads|) + TargetsLeft(s.targets, Planned(p.steps, |p.steps|), |s.targets|)
  }

  lemma {:induction false} ThreadsDrop(p: Params, s: State, s': State, n: nat, t: nat)
    requires Inv(p, s) && Inv(p, s') && n <= |s.threads| && t < |s.threads|
    requires forall u | 0 <= u < |s.threads| && u != t :: s'.threads[u] == s.threads[u]
    requires s.threads[t].done <= p.steps[t] && s'.threads[t].done <= p.steps[t]
    requires ThreadLeft(s'.threads[t], p.steps[t]) < ThreadLeft(s.threads[t], p.steps[t])
    ensures if t < n then ThreadsLeft(p, s', n) < ThreadsLeft(p, s, n)
            else ThreadsLeft(p, s', n) == ThreadsLeft(p, s, n)
  {
    hide ThreadLeft, ProcessAligned;
    if n > 0 {
      assert ThreadInv(p, s, n - 1) && ThreadInv(p, s', n - 1);
      ThreadsDrop(p, s, s', n - 1, t);
    }
  }

  lemma {:induction false} ThreadsSame(p: Params, s: State, s': State, n: nat)
    requires Inv(p, s) && Inv(p, s') && s'.threads == s.threads && n <= |s.threads|
    ensures ThreadsLeft(p, s', n) == ThreadsLeft(p, s, n)
  {
    hide ThreadLeft, ProcessAligned;
    if n > 0 {
      assert ThreadInv(p, s, n - 1) && ThreadInv(p, s', n - 1);
      ThreadsSame(p, s, s', n - 1);
    }
  }

  lemma {:induction false} TargetsDrop(targets: seq<Target>, rounds: nat, n: nat, x: nat, after: Target)
    requires n <= |targets| && x < |targets| && TargetLeft(after, rounds) < TargetLeft(targets[x], rounds)
    ensures if x < n then TargetsLeft(targets[x := after], rounds, n) < TargetsLeft(targets, rounds, n)
            else TargetsLeft(targets[x := after], rounds, n) == TargetsLeft(targets, rounds, n)
  {
    hide TargetLeft;
    if n > 0 {
      TargetsDrop(targets, rounds, n - 1, x, after);
    }
  }

  lemma {:induction false} ThreadDrops(p: Params, s: State, l: Label)
    requires Inv(p, s) && Enabled(p, s, l) && !IsTargetStep(l)
    ensures s.threads[l.t].done <= p.steps[l.t] && Next(p, s, l).threads[l.t].done <= p.steps[l.t]
    ensures ThreadLeft(Next(p, s, l).threads[l.t], p.steps[l.t]) < ThreadLeft(s.threads[l.t], p.steps[l.t])
  {
    assert ThreadInv(p, s, l.t);
    hide Inv, Valid, RoundComplete;
  }

  /** Every step, failures included, leaves less to do. */
  lemma {:induction false} WorkDrops(p: Params, s: State, l: Label)
    requires Inv(p, s) && Enabled(p, s, l) && Inv(p, Next(p, s, l))
    ensures Left(p, Next(p, s, l)) < Left(p, s)
  {
    var s', rounds := Next(p, s, l), Planned(p.steps, |p.steps|);
    if IsTargetStep(l) {
      assert s.targets[l.x].round <= rounds;
      ThreadsSame(p, s, s', |s.threads|);
      TargetsDrop(s.targets, rounds, |s.targets|, l.x, s'.targets[l.x]);
    } else {
      ThreadDrops(p, s, l);
      ThreadsDrop(p, s, s', |s.threads|, l.t);
    }
    hide Inv, Enabled, Planned, TargetsLeft, ThreadsLeft;
  }

  /**
   * Nobody waits for ever, whatever fails and whatever the processes plan: a run takes no more steps than there was
   * work at its start, and where it cannot go on every worker is gone.
   */
  lemma {:induction false} RunsEnd(p: Params, states: seq<State>, labels: seq<Label>, i: nat)
    requires IsRun(p, states, labels) && i < |states|
    ensures Inv(p, states[0]) && Inv(p, states[i])
    ensures i + Left(p, states[i]) <= Left(p, states[0])
    ensures (forall l | Enabled(p, states[i], l) :: IsFault(l)) ==>
              forall t | 0 <= t < |states[i].threads| :: states[i].threads[t].phase.Gone?
  {
    hide Next, Enabled, Init, Left;
    RunInv(p, states, labels, 0);
    RunInv(p, states, labels, i);
    if i > 0 {
      RunsEnd(p, states, labels, i - 1);
      assert Follows(p, states[i - 1], labels[i - 1], states[i]);
      WorkDrops(p, states[i - 1], labels[i - 1]);
    }
    if exists t :: 0 <= t < |states[i].threads| && !states[i].threads[t].phase.Gone? {
      var l := SomeStep(p, states[i]);
    }
  }
}
