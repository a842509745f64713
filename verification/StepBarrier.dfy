/**
 * The in-process step barrier: worker threads that share it, each bound to a remote whose mutex it holds while it
 * transfers. A round completes when all threads arrived; a failure releases everybody for good.
 */
module StepBarrier {
  import opened Numbers

  /** The fields of the barrier. */
  datatype Barrier = Barrier(n: nat, arrived: nat, gen: u32, failed: bool)

  datatype Entry = Answer(ok: bool) | Block(gen: u32)

  function Size(n: nat): nat {
    if n == 0 then 1 else n
  }

  function FailBarrier(b: Barrier): Barrier {
    b.(failed := true, arrived := 0, gen := Wrap32(b.gen + 1))
  }

  /** Wait up to the point where it returns or starts waiting. */
  function EnterBarrier(b: Barrier): (Barrier, Entry) {
    if b.n <= 1 then (b, Answer(!b.failed))
    else if b.failed then (b, Answer(false))
    else if b.arrived + 1 == b.n then (b.(arrived := 0, gen := Wrap32(b.gen + 1)), Answer(true))
    else (b.(arrived := b.arrived + 1), Block(b.gen))
  }

  /** The condition a waiting thread waits for. */
  predicate CanWake(b: Barrier, gen: u32) {
    b.failed || b.gen != gen
  }

  class CountingBarrier {
    const n: nat
    var arrived: nat
    var gen: u32
    var failed: bool

    ghost function View(): Barrier
      reads this
    {
      Barrier(n, arrived, gen, failed)
    }

    constructor (n: nat)
      ensures View() == Barrier(Size(n), 0, 0, false) && this.n == if n == 0 then 1 else n
    {
      this.n := if n == 0 then 1 else n;
      arrived, gen, failed := 0, 0, false;
    }

    method Fail()
      modifies this
      ensures View() == FailBarrier(old(View()))
      ensures failed && arrived == 0 && gen == Wrap32(old(gen) + 1)
    {
      failed := true;
      arrived := 0;
      gen := Wrap32(gen + 1);
    }

    /** Wait, up to its condition variable. */
    method Enter() returns (e: Entry)
      modifies this
      ensures (View(), e) == EnterBarrier(old(View()))
    {
      if n <= 1 {
        return Answer(!failed);
      }
      if failed {
        return Answer(false);
      }
      var myGen := gen;
      arrived := arrived + 1;
      if arrived == n {
        arrived := 0;
        gen := Wrap32(gen + 1);
        return Answer(!failed);
      }
      return Block(myGen);
    }

    /** Wait, after its condition variable. */
    method Leave(ghost myGen: u32) returns (ok: bool)
      requires CanWake(View(), myGen)
      ensures ok == !failed
    {
      return !failed;
    }
  }

  // ---------------------------------------------------------------- the workers

  /**
   * Where SharedRemoteWorker is: not yet holding its remote's mutex, between steps, waiting for the other workers,
   * waiting for the release of its target, failing, or gone.
   */
  datatype Phase = Setup | Ready | Blocked(gen: u32) | AtTarget | Broken(locked: bool) | Exited(ok: bool)

  datatype Thread = Thread(phase: Phase, calls: nat, passed: nat)

  /** What does not change: the steps every worker makes, and the remote each worker is bound to. */
  datatype Params = Params(steps: nat, remotes: seq<nat>)

  /** rounds counts the rounds that completed before any failure. */
  datatype State = State(barrier: Barrier, threads: seq<Thread>, rounds: nat)

  /** Released and TargetBreaks are what the TCP barrier of the worker's target answers. */
  datatype Label =
    | SetupFails(t: nat)
    | Lock(t: nat)
    | Enter(t: nat)
    | Wake(t: nat)
    | Released(t: nat)
    | TargetBreaks(t: nat)
    | StepFails(t: nat)
    | CallFail(t: nat)
    | Finish(t: nat)

  predicate HoldsMutex(h: Thread) {
    h.phase.Ready? || h.phase.Blocked? || h.phase.AtTarget? || (h.phase.Broken? && h.phase.locked)
  }

  ghost predicate Shape(p: Params, s: State) {
    |s.threads| == |p.remotes| == s.barrier.n > 0
  }

  /** Nobody holds the mutex of t's remote. */
  ghost predicate MutexFree(p: Params, s: State, t: nat)
    requires Shape(p, s) && t < |s.threads|
  {
    forall u | 0 <= u < |s.threads| && p.remotes[u] == p.remotes[t] :: !HoldsMutex(s.threads[u])
  }

  ghost predicate Init(p: Params, s: State) {
    && Shape(p, s) && s.barrier == Barrier(|s.threads|, 0, 0, false) && s.rounds == 0
    && forall t | 0 <= t < |s.threads| :: s.threads[t] == Thread(Setup, 0, 0)
  }

  ghost predicate Enabled(p: Params, s: State, l: Label)
    requires Shape(p, s)
  {
    l.t < |s.threads| &&
    var h := s.threads[l.t];
    match l
    case SetupFails(_) => h.phase.Setup?
    case Lock(t) => h.phase.Setup? && MutexFree(p, s, t)
    case Enter(_) => h.phase.Ready? && h.calls < p.steps
    case Wake(_) => h.phase.Blocked? && CanWake(s.barrier, h.phase.gen)
    case Released(_) => h.phase.AtTarget?
    case TargetBreaks(_) => h.phase.AtTarget?
    case StepFails(_) => h.phase.Ready?
    case CallFail(_) => h.phase.Broken?
    case Finish(_) => h.phase.Ready? && h.calls >= p.steps
  }

  function With(s: State, t: nat, h: Thread): State
    requires t < |s.threads|
  {
    s.(threads := s.threads[t := h])
  }

  ghost function Next(p: Params, s: State, l: Label): State
    requires Shape(p, s) && Enabled(p, s, l)
  {
    var t, h := l.t, s.threads[l.t];
    match l
    case SetupFails(_) => With(s, t, h.(phase := Broken(false)))
    case Lock(_) => With(s, t, h.(phase := Ready))
    case Enter(_) =>
      var (b, e) := EnterBarrier(s.barrier);
      (match e
       case Answer(true) =>
         With(s, t, Thread(AtTarget, h.calls + 1, h.passed + 1)).(barrier := b, rounds := s.rounds + 1)
       case Answer(false) => With(s, t, Thread(Broken(true), h.calls + 1, h.passed)).(barrier := b)
       case Block(g) => With(s, t, Thread(Blocked(g), h.calls + 1, h.passed)).(barrier := b))
    case Wake(_) =>
      if s.barrier.failed then With(s, t, h.(phase := Broken(true)))
      else With(s, t, h.(phase := AtTarget, passed := h.passed + 1))
    case Released(_) => With(s, t, h.(phase := Ready))
    case TargetBreaks(_) => With(s, t, h.(phase := Broken(true)))
    case StepFails(_) => With(s, t, h.(phase := Broken(true)))
    case CallFail(_) => With(s, t, h.(phase := Exited(false))).(barrier := FailBarrier(s.barrier))
    case Finish(_) => With(s, t, h.(phase := Exited(true)))
  }

  // ---------------------------------------------------------------- the invariant

  /** How many of the first k threads have made c calls. */
  function Callers(threads: seq<Thread>, k: nat, c: nat): nat
    requires k <= |threads|
  {
    if k == 0 then 0 else Callers(threads, k - 1, c) + (if threads[k - 1].calls == c then 1 else 0)
  }

  lemma {:induction false} CallersUpdate(threads: seq<Thread>, k: nat, t: nat, h: Thread, c: nat)
    requires k <= |threads| && t < |threads|
    ensures Callers(threads[t := h], k, c)
            == Callers(threads, k, c)
               + (if t < k then (if h.calls == c then 1 else 0) - (if threads[t].calls == c then 1 else 0) else 0)
  {
    if k > 0 {
      CallersUpdate(threads, k - 1, t, h, c);
    }
  }

  lemma {:induction false} CallersBound(threads: seq<Thread>, k: nat, c: nat)
    requires k <= |threads|
    ensures Callers(threads, k, c) <= k
    ensures Callers(threads, k, c) == k <==> forall t | 0 <= t < k :: threads[t].calls == c
  {
    if k > 0 {
      CallersBound(threads, k - 1, c);
    }
  }

  lemma {:induction false} NoCallers(threads: seq<Thread>, k: nat, c: nat)
    requires k <= |threads| && forall t | 0 <= t < k :: threads[t].calls < c
    ensures Callers(threads, k, c) == 0
  {
    if k > 0 {
      NoCallers(threads, k - 1, c);
    }
  }

  /** A thread while no failure has happened, when r rounds are complete. */
  ghost predicate InStep(h: Thread, r: nat, n: nat) {
    && r <= h.calls <= r + 1
    && (h.phase.Setup? ==> h.calls == 0)
    && (h.phase.Ready? || h.phase.AtTarget? || h.phase.Exited? ==> h.calls == r)
    && (h.phase.Broken? ==> h.calls == r)
    && (h.phase.Exited? ==> h.phase.ok)
    && (h.phase.Blocked? ==>
          n >= 2 && if h.calls == r then r > 0 && h.phase.gen == Wrap32(r - 1) && h.passed == r - 1
                    else h.phase.gen == Wrap32(r) && h.passed == r)
    && (!h.phase.Blocked? ==> h.passed == h.calls)
  }

  /** A thread at any time: what it passed it called for, and it never calls more often than planned. */
  ghost predicate Sound(h: Thread, steps: nat) {
    && h.passed <= h.calls <= steps
    && (h.phase.Setup? ==> h.calls == 0)
    && (h.phase.Exited? && h.phase.ok ==> h.passed == h.calls == steps)
    && (h.phase.Ready? || h.phase.AtTarget? ==> h.passed == h.calls)
  }

  ghost predicate AllSound(p: Params, s: State) {
    forall t | 0 <= t < |s.threads| :: Sound(s.threads[t], p.steps)
  }

  /** Nobody has passed a step that somebody has not called for. */
  ghost predicate Aligned(s: State) {
    forall t, u | 0 <= t < |s.threads| && 0 <= u < |s.threads| :: s.threads[t].passed <= s.threads[u].calls
  }

  ghost predicate MutexesApart(p: Params, s: State)
    requires Shape(p, s)
  {
    forall t, u | 0 <= t < u < |s.threads| && HoldsMutex(s.threads[t]) && HoldsMutex(s.threads[u]) ::
      p.remotes[t] != p.remotes[u]
  }

  /**
   * The barrier before any failure: the generation counts the rounds, and arrived counts the callers of the next one.
   */
  ghost predicate Calm(s: State) {
    && (forall t | 0 <= t < |s.threads| :: InStep(s.threads[t], s.rounds, |s.threads|))
    && (|s.threads| >= 2 ==> s.barrier.gen == Wrap32(s.rounds))
    && s.barrier.arrived == Callers(s.threads, |s.threads|, s.rounds + 1) < |s.threads|
  }

  ghost predicate Inv(p: Params, s: State) {
    Shape(p, s) && AllSound(p, s) && Aligned(s) && MutexesApart(p, s) && (!s.barrier.failed ==> Calm(s))
  }

  lemma {:induction false} InitInv(p: Params, s: State)
    requires Init(p, s)
    ensures Inv(p, s)
  {
    NoCallers(s.threads, |s.threads|, 1);
  }

  /** Consecutive generations differ, wrap-around or not. */
  lemma {:induction false} WrapDiffers(r: nat)
    ensures Wrap32(Wrap32(r) + 1) == Wrap32(r + 1) != Wrap32(r)
  {
    RemAdd(r, 1, 0x1_0000_0000);
  }

  lemma {:induction false} MutexKept(p: Params, s: State, l: Label)
    requires Inv(p, s) && Enabled(p, s, l)
    ensures Shape(p, Next(p, s, l)) && MutexesApart(p, Next(p, s, l))
  {
    hide AllSound, Calm, Aligned, Wrap32;
  }

  /** A round that completes: everybody has arrived. */
  lemma {:induction false} LastArrives(s: State, t: nat)
    requires Calm(s) && t < |s.threads| && s.threads[t].calls == s.rounds && s.barrier.arrived + 1 == |s.threads|
    ensures forall u | 0 <= u < |s.threads| && u != t :: s.threads[u].calls == s.rounds + 1
  {
    var h := s.threads[t].(calls := s.rounds + 1);
    CallersUpdate(s.threads, |s.threads|, t, h, s.rounds + 1);
    CallersBound(s.threads[t := h], |s.threads|, s.rounds + 1);
    forall u | 0 <= u < |s.threads| && u != t
      ensures s.threads[u].calls == s.rounds + 1
    {
      assert s.threads[t := h][u] == s.threads[u];
    }
  }

  /** The thread that completes a round. */
  lemma {:induction false} CompleteInv(p: Params, s: State, t: nat)
    requires Inv(p, s) && Enabled(p, s, Enter(t)) && EnterBarrier(s.barrier).1 == Answer(true)
    ensures AllSound(p, Next(p, s, Enter(t))) && Aligned(Next(p, s, Enter(t))) && Calm(Next(p, s, Enter(t)))
  {
    var s', n := Next(p, s, Enter(t)), |s.threads|;
    assert InStep(s.threads[t], s.rounds, n);
    WrapDiffers(s.rounds);
    CallersBound(s.threads, n, s.rounds + 1);
    LastArrives(s, t);
    hide Wrap32, Callers, MutexesApart;
    forall u | 0 <= u < n
      ensures InStep(s'.threads[u], s'.rounds, n) && Sound(s'.threads[u], p.steps)
      ensures s'.threads[u].calls == s'.rounds
    {
      assert InStep(s.threads[u], s.rounds, n) && Sound(s.threads[u], p.steps);
    }
    NoCallers(s'.threads, n, s'.rounds + 1);
  }

  /** A thread that has to wait. */
  lemma {:induction false} BlockInv(p: Params, s: State, t: nat)
    requires Inv(p, s) && Enabled(p, s, Enter(t)) && EnterBarrier(s.barrier).1.Block?
    ensures AllSound(p, Next(p, s, Enter(t))) && Aligned(Next(p, s, Enter(t))) && Calm(Next(p, s, Enter(t)))
  {
    var s', n := Next(p, s, Enter(t)), |s.threads|;
    assert InStep(s.threads[t], s.rounds, n) && Sound(s.threads[t], p.steps);
    CallersUpdate(s.threads, n, t, s'.threads[t], s.rounds + 1);
    CallersBound(s'.threads, n, s.rounds + 1);
    hide Wrap32, Callers, MutexesApart;
  }

  /** Once failed, entering answers false. */
  lemma {:induction false} RefuseInv(p: Params, s: State, t: nat)
    requires Inv(p, s) && Enabled(p, s, Enter(t)) && s.barrier.failed
    ensures AllSound(p, Next(p, s, Enter(t))) && Aligned(Next(p, s, Enter(t))) && Next(p, s, Enter(t)).barrier.failed
  {
    assert Sound(s.threads[t], p.steps);
    hide Wrap32, MutexesApart;
  }

  lemma {:induction false} EnterInv(p: Params, s: State, t: nat)
    requires Inv(p, s) && Enabled(p, s, Enter(t))
    ensures Inv(p, Next(p, s, Enter(t)))
  {
    MutexKept(p, s, Enter(t));
    if s.barrier.failed {
      RefuseInv(p, s, t);
    } else if EnterBarrier(s.barrier).1.Block? {
      BlockInv(p, s, t);
    } else {
      CompleteInv(p, s, t);
    }
    hide AllSound, Calm, Aligned, MutexesApart, Wrap32;
  }

  /** A step after which no thread has called anew: only t's phase, and what it passed, may differ. */
  lemma {:induction false} SameCalls(threads: seq<Thread>, t: nat, h: Thread, c: nat)
    requires t < |threads| && h.calls == threads[t].calls
    ensures Callers(threads[t := h], |threads|, c) == Callers(threads, |threads|, c)
  {
    CallersUpdate(threads, |threads|, t, h, c);
  }

  /** What the thread of a step has passed then was called for by everybody. */
  lemma {:induction false} WakeAligned(p: Params, s: State, t: nat, u: nat)
    requires Inv(p, s) && Enabled(p, s, Wake(t)) && !s.barrier.failed && u < |s.threads|
    ensures s.threads[t].passed + 1 <= s.threads[u].calls && s.threads[t].passed + 1 <= s.threads[t].calls
  {
    assert InStep(s.threads[t], s.rounds, |s.threads|) && InStep(s.threads[u], s.rounds, |s.threads|);
    hide Callers, MutexesApart, Aligned, AllSound;
  }

  /** A step of one thread that makes no call keeps what holds of all of them, if it holds of that thread. */
  lemma {:induction false} OneThreadKeeps(p: Params, s: State, s': State, t: nat)
    requires AllSound(p, s) && Aligned(s) && t < |s.threads| == |s'.threads|
    requires forall u | 0 <= u < |s.threads| && u != t :: s'.threads[u] == s.threads[u]
    requires s'.threads[t].calls == s.threads[t].calls && Sound(s'.threads[t], p.steps)
    requires forall u | 0 <= u < |s.threads| :: s'.threads[t].passed <= s.threads[u].calls
    ensures AllSound(p, s') && Aligned(s')
  {
    forall u | 0 <= u < |s.threads|
      ensures Sound(s'.threads[u], p.steps) && s'.threads[u].calls == s.threads[u].calls
      ensures forall v | 0 <= v < |s.threads| :: s'.threads[u].passed <= s.threads[v].calls
    {
      if u != t {
        assert Sound(s.threads[u], p.steps);
      }
    }
    hide Sound;
  }

  lemma {:induction false} OtherSound(p: Params, s: State, l: Label)
    requires Inv(p, s) && Enabled(p, s, l) && !l.Enter?
    ensures AllSound(p, Next(p, s, l)) && Aligned(Next(p, s, l))
  {
    var s', n := Next(p, s, l), |s.threads|;
    assert Sound(s.threads[l.t], p.steps);
    forall u | 0 <= u < n
      ensures s'.threads[l.t].passed <= s.threads[u].calls && s'.threads[l.t].passed <= s.threads[l.t].calls
    {
      if !s.barrier.failed && l.Wake? {
        WakeAligned(p, s, l.t, u);
      } else {
        assert s.threads[l.t].passed <= s.threads[u].calls;
      }
    }
    hide AllSound, Aligned, MutexesApart, Calm, CanWake, Wrap32;
    OneThreadKeeps(p, s, s', l.t);
  }

  lemma {:induction false} OtherCalm(p: Params, s: State, l: Label)
    requires Inv(p, s) && Enabled(p, s, l) && !l.Enter? && !l.CallFail? && !s.barrier.failed
    ensures Calm(Next(p, s, l))
  {
    var s', n := Next(p, s, l), |s.threads|;
    SameCalls(s.threads, l.t, s'.threads[l.t], s.rounds + 1);
    assert InStep(s.threads[l.t], s.rounds, n) && Sound(s.threads[l.t], p.steps);
    assert l.Wake? ==> s.threads[l.t].calls == s.rounds;
    hide Callers, Wrap32, MutexesApart, Aligned, AllSound;
    assert InStep(s'.threads[l.t], s.rounds, n);
    hide InStep;
  }

  lemma {:induction false} OtherInv(p: Params, s: State, l: Label)
    requires Inv(p, s) && Enabled(p, s, l) && !l.Enter?
    ensures Inv(p, Next(p, s, l))
  {
    MutexKept(p, s, l);
    OtherSound(p, s, l);
    if !s.barrier.failed && !l.CallFail? {
      OtherCalm(p, s, l);
    }
    hide AllSound, Calm, Aligned, MutexesApart, Wrap32;
  }

  lemma {:induction false} StepInv(p: Params, s: State, l: Label)
    requires Inv(p, s) && Enabled(p, s, l)
    ensures Inv(p, Next(p, s, l))
  {
    hide Inv, Next;
    if l.Enter? {
      EnterInv(p, s, l.t);
    } else {
      OtherInv(p, s, l);
    }
  }

  // ---------------------------------------------------------------- whole runs

  ghost predicate Follows(p: Params, s: State, l: Label, s': State) {
    Shape(p, s) && Enabled(p, s, l) && s' == Next(p, s, l)
  }

  /** A run: any schedule, any failures. */
  ghost predicate IsRun(p: Params, states: seq<State>, labels: seq<Label>) {
    && |states| == |labels| + 1 && Init(p, states[0])
    && forall i | 0 <= i < |labels| :: Follows(p, states[i], labels[i], states[i + 1])
  }

  lemma {:induction false} RunInv(p: Params, states: seq<State>, labels: seq<Label>, i: nat)
    requires IsRun(p, states, labels) && i < |states|
    ensures Inv(p, states[i])
  {
    hide Inv, Next, Enabled, Init;
    if i == 0 {
      InitInv(p, states[0]);
    } else {
      RunInv(p, states, labels, i - 1);
      assert Follows(p, states[i - 1], labels[i - 1], states[i]);
      StepInv(p, states[i - 1], labels[i - 1]);
    }
  }

  /** In every run: the k-th Wait of a thread returns true only if every thread has made k calls. */
  lemma {:induction false} PassedMeansCalled(p: Params, states: seq<State>, labels: seq<Label>, i: nat, t: nat, u: nat)
    requires IsRun(p, states, labels) && i < |states| && t < |states[i].threads| && u < |states[i].threads|
    ensures states[i].threads[t].passed <= states[i].threads[u].calls
  {
    RunInv(p, states, labels, i);
    hide Calm, MutexesApart, AllSound;
  }

  /**
   * In every run without a failure so far: a waiting thread can go on exactly when the round it waits for is complete,
   * although the generation counter wraps.
   */
  lemma {:induction false} WakesAfterItsRound(p: Params, states: seq<State>, labels: seq<Label>, i: nat, t: nat)
    requires IsRun(p, states, labels) && i < |states| && t < |states[i].threads| && states[i].threads[t].phase.Blocked?
    requires !states[i].barrier.failed
    ensures CanWake(states[i].barrier, states[i].threads[t].phase.gen)
            <==> states[i].threads[t].calls <= states[i].rounds
  {
    RunInv(p, states, labels, i);
    var s := states[i];
    assert InStep(s.threads[t], s.rounds, |s.threads|);
    if s.rounds > 0 {
      WrapDiffers(s.rounds - 1);
    }
  }

  /** A step after a failure: it stays, and no Wait gives true. */
  lemma {:induction false} FailureStays(p: Params, s: State, l: Label)
    requires Shape(p, s) && Enabled(p, s, l) && s.barrier.failed
    ensures Next(p, s, l).barrier.failed && |Next(p, s, l).threads| == |s.threads|
    ensures forall t | 0 <= t < |s.threads| :: Next(p, s, l).threads[t].passed == s.threads[t].passed
    ensures l.Enter? || l.Wake? ==> Next(p, s, l).threads[l.t].phase == Broken(true)
  {
    hide Wrap32;
  }

  /**
   * In every run, from the first failure on: it stays, every Wait that returns gives false, so nobody passes another
   * step, and nobody has to stay blocked.
   */
  lemma {:induction false} FailureReleases(p: Params, states: seq<State>, labels: seq<Label>, i: nat, j: nat)
    requires IsRun(p, states, labels) && i <= j < |states| && states[i].barrier.failed
    ensures Shape(p, states[j]) && states[j].barrier.failed && |states[j].threads| == |states[i].threads|
    ensures forall t | 0 <= t < |states[i].threads| :: states[j].threads[t].passed == states[i].threads[t].passed
    ensures forall t | 0 <= t < |states[i].threads| && states[j].threads[t].phase.Blocked? ::
              Enabled(p, states[j], Wake(t))
    ensures j < |labels| && (labels[j].Enter? || labels[j].Wake?) ==>
              labels[j].t < |states[j + 1].threads| && states[j + 1].threads[labels[j].t].phase == Broken(true)
    decreases j
  {
    RunInv(p, states, labels, j);
    if i < j {
      FailureReleases(p, states, labels, i, j - 1);
      assert Follows(p, states[j - 1], labels[j - 1], states[j]);
      FailureStays(p, states[j - 1], labels[j - 1]);
    }
    if j < |labels| {
      assert Follows(p, states[j], labels[j], states[j + 1]);
      FailureStays(p, states[j], labels[j]);
    }
    hide Next, Calm, AllSound, Aligned, MutexesApart, IsRun;
  }

  // ---------------------------------------------------------------- everybody leaves

  function ThreadLeft(h: Thread, steps: nat): nat
    requires h.calls <= steps
  {
    match h.phase
    case Setup => 4 * (steps - h.calls) + 3
    case Ready => 4 * (steps - h.calls) + 2
    case Blocked(_) => 4 * (steps - h.calls) + 5
    case AtTarget => 4 * (steps - h.calls) + 3
    case Broken(_) => 1
    case Exited(_) => 0
  }

  ghost function Left(p: Params, s: State, k: nat): nat
    requires k <= |s.threads| && AllSound(p, s)
  {
    if k == 0 then 0
    else assert Sound(s.threads[k - 1], p.steps); Left(p, s, k - 1) + ThreadLeft(s.threads[k - 1], p.steps)
  }

  lemma {:induction false} LeftDrops(p: Params, s: State, s': State, k: nat, t: nat)
    requires AllSound(p, s) && AllSound(p, s') && k <= |s.threads| == |s'.threads| && t < |s.threads|
    requires forall u | 0 <= u < |s.threads| && u != t :: s'.threads[u] == s.threads[u]
    requires Sound(s.threads[t], p.steps) && Sound(s'.threads[t], p.steps)
    requires ThreadLeft(s'.threads[t], p.steps) < ThreadLeft(s.threads[t], p.steps)
    ensures if t < k then Left(p, s', k) < Left(p, s, k) else Left(p, s', k) == Left(p, s, k)
  {
    hide ThreadLeft;
    if k > 0 {
      assert Sound(s.threads[k - 1], p.steps) && Sound(s'.threads[k - 1], p.steps);
      LeftDrops(p, s, s', k - 1, t);
    }
  }

  /** Every step, failures included, leaves less to do. */
  lemma {:induction false} WorkDrops(p: Params, s: State, l: Label)
    requires Inv(p, s) && Enabled(p, s, l) && Inv(p, Next(p, s, l))
    ensures Left(p, Next(p, s, l), |s.threads|) < Left(p, s, |s.threads|)
  {
    hide Calm, Aligned, MutexesApart, Wrap32;
    assert Sound(s.threads[l.t], p.steps) && Sound(Next(p, s, l).threads[l.t], p.steps);
    LeftDrops(p, s, Next(p, s, l), |s.threads|, l.t);
  }

  predicate IsFailure(l: Label) {
    l.SetupFails? || l.StepFails? || l.TargetBreaks?
  }

  ghost predicate Distinct(remotes: seq<nat>) {
    forall t, u | 0 <= t < u < |remotes| :: remotes[t] != remotes[u]
  }

  /** Not everybody can be waiting for a round that nobody completes. */
  lemma {:induction false} NotAllBlocked(p: Params, s: State, t: nat)
    requires Inv(p, s) && t < |s.threads| && s.threads[t].phase.Blocked? && !CanWake(s.barrier, s.threads[t].phase.gen)
    requires forall u | 0 <= u < |s.threads| :: s.threads[u].phase.Exited? || s.threads[u].phase.Blocked?
    ensures exists u ::
              0 <= u < |s.threads| && s.threads[u].phase.Blocked? && CanWake(s.barrier, s.threads[u].phase.gen)
  {
    var n := |s.threads|;
    assert InStep(s.threads[t], s.rounds, n) && Sound(s.threads[t], p.steps);
    if s.rounds > 0 {
      WrapDiffers(s.rounds - 1);
    }
    CallersBound(s.threads, n, s.rounds + 1);
    var u :| 0 <= u < n && s.threads[u].calls != s.rounds + 1;
    assert InStep(s.threads[u], s.rounds, n) && Sound(s.threads[u], p.steps);
  }

  /**
   * With a remote of its own for every worker, until all have left: some worker waits for its target, or a step other
   * than a failure can be taken without any target.
   */
  lemma {:induction false} SomeStep(p: Params, s: State) returns (l: Label)
    requires Inv(p, s) && Distinct(p.remotes)
    requires exists t :: 0 <= t < |s.threads| && !s.threads[t].phase.Exited?
    requires forall t | 0 <= t < |s.threads| :: !s.threads[t].phase.AtTarget?
    ensures Enabled(p, s, l) && !IsFailure(l) && !l.Released?
  {
    if t :| 0 <= t < |s.threads| && !s.threads[t].phase.Exited? && !s.threads[t].phase.Blocked? {
      var h := s.threads[t];
      l := if h.phase.Setup? then Lock(t)
           else if h.phase.Broken? then CallFail(t)
           else if h.calls < p.steps then Enter(t)
           else Finish(t);
    } else {
      var t :| 0 <= t < |s.threads| && s.threads[t].phase.Blocked?;
      if CanWake(s.barrier, s.threads[t].phase.gen) {
        l := Wake(t);
      } else {
        NotAllBlocked(p, s, t);
        var u :| 0 <= u < |s.threads| && s.threads[u].phase.Blocked? && CanWake(s.barrier, s.threads[u].phase.gen);
        l := Wake(u);
      }
    }
  }

  /** Nothing but failures and answers of targets is left to happen. */
  ghost predicate WaitsForTargets(p: Params, s: State)
    requires Shape(p, s)
  {
    forall l | Enabled(p, s, l) :: IsFailure(l) || l.Released?
  }

  /**
   * With distinct remotes, whatever fails: a run takes no more steps than there was work at its start, and where it
   * cannot go on by itself every worker has left, or some worker waits for its target.
   */
  lemma {:induction false} RunsEnd(p: Params, states: seq<State>, labels: seq<Label>, i: nat)
    requires IsRun(p, states, labels) && i < |states| && Distinct(p.remotes)
    ensures Inv(p, states[0]) && Inv(p, states[i]) && |states[i].threads| == |states[0].threads|
    ensures i + Left(p, states[i], |states[i].threads|) <= Left(p, states[0], |states[0].threads|)
    ensures WaitsForTargets(p, states[i]) ==>
              || (forall t | 0 <= t < |states[i].threads| :: states[i].threads[t].phase.Exited?)
              || (exists t :: 0 <= t < |states[i].threads| && states[i].threads[t].phase.AtTarget?)
  {
    hide AllSound, Calm, Aligned, MutexesApart, Next, Enabled, Init, Left;
    RunInv(p, states, labels, 0);
    RunInv(p, states, labels, i);
    if i > 0 {
      RunsEnd(p, states, labels, i - 1);
      assert Follows(p, states[i - 1], labels[i - 1], states[i]);
      WorkDrops(p, states[i - 1], labels[i - 1]);
    }
    var s := states[i];
    if (exists t :: 0 <= t < |s.threads| && !s.threads[t].phase.Exited?)
       && forall t | 0 <= t < |s.threads| :: !s.threads[t].phase.AtTarget? {
      var l := SomeStep(p, s);
    }
  }

  // ---------------------------------------------------------------- without failures

  /** Nobody has failed. */
  ghost predicate Smooth(s: State) {
    !s.barrier.failed && forall t | 0 <= t < |s.threads| :: !s.threads[t].phase.Broken?
  }

  lemma {:induction false} SmoothRun(p: Params, states: seq<State>, labels: seq<Label>, i: nat)
    requires IsRun(p, states, labels) && i < |states| && forall k | 0 <= k < i :: !IsFailure(labels[k])
    ensures Smooth(states[i])
  {
    if i > 0 {
      SmoothRun(p, states, labels, i - 1);
      assert Follows(p, states[i - 1], labels[i - 1], states[i]);
      hide IsRun, Wrap32;
    }
  }

  /** Without failures, a worker that has left made and passed all its steps. */
  lemma {:induction false} LeftMeansDone(p: Params, states: seq<State>, labels: seq<Label>, i: nat, t: nat)
    requires IsRun(p, states, labels) && i < |states| && forall k | 0 <= k < i :: !IsFailure(labels[k])
    requires t < |states[i].threads| && states[i].threads[t].phase.Exited?
    ensures states[i].threads[t].passed == p.steps
  {
    SmoothRun(p, states, labels, i);
    RunInv(p, states, labels, i);
    var s := states[i];
    assert InStep(s.threads[t], s.rounds, |s.threads|) && Sound(s.threads[t], p.steps);
  }

  /** No round has completed, and nobody has passed a step or left. */
  ghost predicate NobodyPassed(s: State) {
    && s.rounds == 0
    && forall v | 0 <= v < |s.threads| :: s.threads[v].passed == 0 && !s.threads[v].phase.Exited?
  }

  /** Two workers bound to one remote: without a failure, no Wait of anybody ever returns true. */
  lemma {:induction false} SharedRemoteBlocks(p: Params, states: seq<State>, labels: seq<Label>, i: nat, t: nat, u: nat)
    requires IsRun(p, states, labels) && i < |states| && forall k | 0 <= k < i :: !IsFailure(labels[k])
    requires t < u < |p.remotes| && p.remotes[t] == p.remotes[u] && p.steps > 0
    ensures NobodyPassed(states[i]) && |states[i].threads| == |p.remotes|
  {
    RunInv(p, states, labels, i);
    assert |states[i].threads| == |p.remotes|;
    if i == 0 {
      assert NobodyPassed(states[0]);
    } else {
      hide Inv, Enabled, Next, Init, Smooth, NobodyPassed, IsFailure;
      SharedRemoteBlocks(p, states, labels, i - 1, t, u);
      RunInv(p, states, labels, i - 1);
      SmoothRun(p, states, labels, i - 1);
      SmoothRun(p, states, labels, i);
      assert Follows(p, states[i - 1], labels[i - 1], states[i]);
      NoRound(p, states[i - 1], labels[i - 1], t, u);
    }
  }

  lemma {:induction false} NoRound(p: Params, s: State, l: Label, t: nat, u: nat)
    requires Inv(p, s) && Enabled(p, s, l) && Inv(p, Next(p, s, l)) && Smooth(s) && Smooth(Next(p, s, l))
    requires t < u < |p.remotes| && p.remotes[t] == p.remotes[u] && p.steps > 0 && NobodyPassed(s)
    ensures NobodyPassed(Next(p, s, l))
  {
    assert !(HoldsMutex(s.threads[t]) && HoldsMutex(s.threads[u]));
    assert s.threads[t].phase.Setup? || s.threads[u].phase.Setup?;
    var s', v := Next(p, s, l), if s.threads[t].phase.Setup? then t else u;
    assert Sound(s.threads[v], p.steps) && InStep(s.threads[l.t], 0, |s.threads|) && Sound(s.threads[l.t], p.steps);
    assert Sound(s'.threads[v], p.steps);
    assert s'.threads[l.t].passed <= s'.threads[v].calls;
    hide Calm, AllSound, MutexesApart, Wrap32;
  }
}
