/**
 * The TCP step barrier: every client sends Arrive before a step and waits for Release; the target releases a step once
 * all clients arrived, and ends when all send Finished. A client that fails while connected also sends Finished; any
 * connection may break, and the target may fail, at any point.
 */
module TcpBarrier {
  import opened Numbers

  datatype Msg = Arrive | Release | Finish

  /** A step is a barrier and a transfer: a client waits for the release, then moves its data, then goes on. */
  datatype Phase = Working | Awaiting | Moving | Finished | Lost

  /** The steps a client plans, the transfers it has made, the releases it has passed and the arrivals it has sent. */
  datatype Client = Client(steps: nat, done: nat, passed: nat, sent: nat, phase: Phase)

  datatype Mode = Collecting | Sending(next: nat) | Over(ok: bool)

  /** Clients, unread messages both ways, and the target: rounds released, what this round brought, what it does. */
  datatype State = State(clients: seq<Client>, up: seq<seq<Msg>>, down: seq<seq<Msg>>, round: nat,
                         got: seq<Option<Msg>>, mode: Mode)

  datatype Label =
    | SendArrive(i: nat)
    | SendFinished(i: nat)
    | TakeRelease(i: nat)
    | MakeTransfer(i: nat)
    | Receive(i: nat)
    | Decide
    | SendRelease
    | SeeBreak(i: nat)       // the target finds the connection of a lost client broken
    | ClientBreak(i: nat)    // a waiting client finds the connection closed by the target
    | GiveUp(i: nat)         // a connected client fails short of its plan, and reports that it is finished
    | ClientFails(i: nat)    // a connection breaks
    | TargetFails            // a receive or send of the target fails for a reason of its own

  // ---------------------------------------------------------------- the decision after a full round

  datatype Verdict = Done | Next | Broken

  ghost predicate AllAre(msgs: seq<Msg>, m: Msg) {
    forall i | 0 <= i < |msgs| :: msgs[i] == m
  }

  /** What one message from every client means: all are finished, all have arrived, or anything else. */
  ghost function VerdictOf(msgs: seq<Msg>): Verdict {
    if AllAre(msgs, Finish) then Done else if AllAre(msgs, Arrive) then Next else Broken
  }

  /** The counting loop of RunStepBarrierUntilFinished over one round of messages. */
  method Classify(msgs: seq<Msg>) returns (v: Verdict)
    requires msgs != []
    ensures v == VerdictOf(msgs)
  {
    var arrived, finished := 0, 0;
    for i := 0 to |msgs|
      invariant arrived + finished == i
      invariant 0 <= arrived <= i && (arrived == i <==> forall j | 0 <= j < i :: msgs[j] == Arrive)
      invariant 0 <= finished <= i && (finished == i <==> forall j | 0 <= j < i :: msgs[j] == Finish)
    {
      if msgs[i] == Arrive {
        arrived := arrived + 1;
      } else if msgs[i] == Finish {
        finished := finished + 1;
      } else {
        return Broken;
      }
    }
    if finished == |msgs| {
      return Done;
    }
    if arrived == |msgs| {
      return Next;
    }
    return Broken;
  }

  ghost predicate AllGot(s: State, m: Msg) {
    forall i | 0 <= i < |s.got| :: s.got[i] == Some(m)
  }

  ghost predicate RoundComplete(s: State) {
    forall i | 0 <= i < |s.got| :: s.got[i].Some?
  }

  /** The messages of a complete round, as the target classifies them. */
  function Messages(got: seq<Option<Msg>>): (r: seq<Msg>)
    requires forall i | 0 <= i < |got| :: got[i].Some?
    ensures |r| == |got|
    ensures forall i {:trigger r[i]} | 0 <= i < |r| :: r[i] == got[i].value
  {
    seq(|got|, i requires 0 <= i < |got| => got[i].value)
  }

  lemma {:induction false} VerdictOfRound(s: State)
    requires RoundComplete(s)
    ensures VerdictOf(Messages(s.got)) == if AllGot(s, Finish) then Done else if AllGot(s, Arrive) then Next else Broken
  {
    var msgs := Messages(s.got);
    forall m: Msg
      ensures AllAre(msgs, m) <==> AllGot(s, m)
    {
      if AllAre(msgs, m) {
        forall i | 0 <= i < |s.got|
          ensures s.got[i] == Some(m)
        {
          assert msgs[i] == m;
        }
      }
    }
  }

  function Nothing(n: nat): (r: seq<Option<Msg>>)
    ensures |r| == n
    ensures forall i {:trigger r[i]} | 0 <= i < n :: r[i] == None
  {
    seq(n, i => None)
  }

  // ---------------------------------------------------------------- steps

  ghost predicate Shape(s: State) {
    |s.clients| == |s.up| == |s.down| == |s.got| > 0
  }

  ghost predicate Init(s: State) {
    && Shape(s) && s.round == 0 && s.mode == Collecting
    && forall i | 0 <= i < |s.clients| :: InitClient(s, i)
  }

  ghost predicate InitClient(s: State, i: nat)
    requires Shape(s) && i < |s.clients|
  {
    && s.clients[i] == Client(s.clients[i].steps, 0, 0, 0, Working)
    && s.up[i] == [] && s.down[i] == [] && s.got[i] == None
  }

  /** The client has neither reported that it is finished nor lost its connection. */
  predicate Busy(c: Client) {
    c.phase.Working? || c.phase.Awaiting? || c.phase.Moving?
  }

  ghost predicate Enabled(s: State, l: Label)
    requires Shape(s)
  {
    match l
    case SendArrive(i) => i < |s.clients| && s.clients[i].phase.Working? && s.clients[i].done < s.clients[i].steps
    case SendFinished(i) => i < |s.clients| && s.clients[i].phase.Working? && s.clients[i].done >= s.clients[i].steps
    case TakeRelease(i) => i < |s.clients| && s.clients[i].phase.Awaiting? && s.down[i] != []
    case MakeTransfer(i) => i < |s.clients| && s.clients[i].phase.Moving?
    case Receive(i) => i < |s.clients| && s.mode == Collecting && s.got[i].None? && s.up[i] != []
    case Decide => s.mode == Collecting && RoundComplete(s)
    case SendRelease => s.mode.Sending? && s.mode.next < |s.clients|
    case SeeBreak(i) => i < |s.clients| && s.clients[i].phase.Lost? && !s.mode.Over?
                        && (s.mode.Sending? ==> s.mode.next == i)
                        && (s.mode == Collecting ==> s.got[i].None? && s.up[i] == [])
    case ClientBreak(i) => i < |s.clients| && s.clients[i].phase.Awaiting? && s.down[i] == [] && s.mode.Over?
    case GiveUp(i) => i < |s.clients| && Busy(s.clients[i])
                      && (s.clients[i].phase.Working? ==> s.clients[i].done < s.clients[i].steps)
    case ClientFails(i) => i < |s.clients| && Busy(s.clients[i])
    case TargetFails => !s.mode.Over?
  }

  function SetPhase(s: State, i: nat, p: Phase): State
    requires i < |s.clients|
  {
    s.(clients := s.clients[i := s.clients[i].(phase := p)])
  }

  ghost function Step(s: State, l: Label): State
    requires Shape(s) && Enabled(s, l)
  {
    match l
    case SendArrive(i) =>
      s.(up := s.up[i := s.up[i] + [Arrive]],
         clients := s.clients[i := s.clients[i].(sent := s.clients[i].sent + 1, phase := Awaiting)])
    case SendFinished(i) =>
      SetPhase(s, i, Finished).(up := s.up[i := s.up[i] + [Finish]])
    case TakeRelease(i) =>
      var rest := s.(down := s.down[i := s.down[i][1..]]);
      if s.down[i][0] == Release then
        rest.(clients := s.clients[i := s.clients[i].(passed := s.clients[i].passed + 1, phase := Moving)])
      else SetPhase(rest, i, Lost)
    case MakeTransfer(i) =>
      s.(clients := s.clients[i := s.clients[i].(done := s.clients[i].done + 1, phase := Working)])
    case Receive(i) =>
      s.(got := s.got[i := Some(s.up[i][0])], up := s.up[i := s.up[i][1..]])
    case Decide =>
      (match VerdictOf(Messages(s.got))
       case Done => s.(mode := Over(true))
       case Next => s.(round := s.round + 1, got := Nothing(|s.got|), mode := Sending(0))
       case Broken => s.(mode := Over(false)))
    case SendRelease =>
      var i := s.mode.next;
      s.(down := s.down[i := s.down[i] + [Release]],
         mode := if i + 1 == |s.clients| then Collecting else Sending(i + 1))
    case SeeBreak(_) => s.(mode := Over(false))
    case ClientBreak(i) => SetPhase(s, i, Lost)
    case GiveUp(i) =>
      SetPhase(s, i, Finished).(up := s.up[i := s.up[i] + [Finish]])
    case ClientFails(i) => SetPhase(s, i, Lost)
    case TargetFails => s.(mode := Over(false))
  }

  // ---------------------------------------------------------------- the invariant

  /** Releases sent to client i so far. */
  function Released(s: State, i: nat): int {
    if s.mode.Sending? && i >= s.mode.next then s.round - 1 else s.round
  }

  /** Messages of client i the target has read so far. */
  function Consumed(s: State, i: nat): nat
    requires i < |s.got|
  {
    s.round + (if s.got[i].Some? then 1 else 0)
  }

  ghost predicate ClientInv(c: Client) {
    && c.done <= c.passed <= c.sent <= c.done + 1 && c.sent <= c.steps
    && (c.phase.Working? ==> c.sent == c.done)
    && (c.phase.Awaiting? ==> c.passed == c.done && c.sent == c.done + 1)
    && (c.phase.Moving? ==> c.passed == c.done + 1)
  }

  /** What one client, its two channels and the target's record of it have to do with each other. */
  ghost predicate LinkInv(s: State, i: nat)
    requires Shape(s) && i < |s.clients|
  {
    var c := s.clients[i];
    var total := c.sent + (if c.phase.Finished? then 1 else 0);
    && ClientInv(c) && s.round <= c.sent
    && c.passed + |s.down[i]| <= s.round && (!s.mode.Over? ==> c.passed + |s.down[i]| == Released(s, i))
    && (forall k | 0 <= k < |s.down[i]| :: s.down[i][k] == Release)
    && Consumed(s, i) + |s.up[i]| == total
    && (s.got[i] == Some(Arrive) ==> s.round < c.sent)
    && (s.got[i] == Some(Finish) ==> c.phase.Finished? && s.round == c.sent)
    && (s.got[i] == None || s.got[i] == Some(Arrive) || s.got[i] == Some(Finish))
    && (forall k | 0 <= k < |s.up[i]| :: s.up[i][k] == if Consumed(s, i) + k < c.sent then Arrive else Finish)
  }

  ghost predicate Inv(s: State) {
    && Shape(s) && (s.mode.Sending? ==> s.mode.next < |s.clients| && s.round > 0 && s.got == Nothing(|s.clients|))
    && (s.mode == Over(true) ==> AllGot(s, Finish))
    && forall i | 0 <= i < |s.clients| :: LinkInv(s, i)
  }

  /** The step concerns client i and its channels alone. */
  predicate StepOf(l: Label, i: nat) {
    || l == SendArrive(i) || l == SendFinished(i) || l == TakeRelease(i) || l == MakeTransfer(i) || l == Receive(i)
    || l == ClientBreak(i) || l == ClientFails(i) || l == GiveUp(i)
  }

  lemma {:induction false} InitInv(s: State)
    requires Init(s)
    ensures Inv(s)
  {
    forall i | 0 <= i < |s.clients|
      ensures LinkInv(s, i)
    {
      assert InitClient(s, i);
    }
  }

  lemma {:induction false} SendLinkKept(s: State, l: Label, i: nat)
    requires Inv(s) && Enabled(s, l) && i < |s.clients|
             && (l == SendArrive(i) || l == SendFinished(i) || l == GiveUp(i))
    ensures Shape(Step(s, l)) && LinkInv(Step(s, l), i)
  {
    assert LinkInv(s, i);
    hide Inv, VerdictOf, Messages, Nothing;
  }

  lemma {:induction false} OwnLinkKept(s: State, l: Label, i: nat)
    requires Inv(s) && Enabled(s, l) && i < |s.clients| && StepOf(l, i)
    ensures Shape(Step(s, l)) && LinkInv(Step(s, l), i)
  {
    if l == SendArrive(i) || l == SendFinished(i) || l == GiveUp(i) {
      SendLinkKept(s, l, i);
    } else {
      assert LinkInv(s, i);
      hide Inv, VerdictOf, Messages, Nothing;
    }
  }

  /** A step of client i leaves the links of the others alone. */
  lemma {:induction false} OtherLinkKept(s: State, l: Label, i: nat, j: nat)
    requires Inv(s) && Enabled(s, l) && i < |s.clients| && StepOf(l, i) && j != i && j < |s.clients|
    ensures Shape(Step(s, l)) && LinkInv(Step(s, l), j)
  {
    assert LinkInv(s, j);
    hide Inv, ClientInv, VerdictOf, Messages, Nothing;
  }

  lemma {:induction false} ClientStepInv(s: State, l: Label, i: nat)
    requires Inv(s) && Enabled(s, l) && i < |s.clients| && StepOf(l, i)
    ensures Inv(Step(s, l))
  {
    var s' := Step(s, l);
    OwnLinkKept(s, l, i);
    forall j | 0 <= j < |s.clients|
      ensures LinkInv(s', j)
    {
      if j != i {
        OtherLinkKept(s, l, i, j);
      }
    }
    hide LinkInv, VerdictOf, Messages;
  }

  lemma {:induction false} DecideInv(s: State)
    requires Inv(s) && Enabled(s, Decide)
    ensures Inv(Step(s, Decide))
  {
    var s' := Step(s, Decide);
    VerdictOfRound(s);
    forall j | 0 <= j < |s.clients|
      ensures LinkInv(s', j)
    {
      assert LinkInv(s, j);
      assert AllGot(s, Arrive) ==> s.got[j] == Some(Arrive);
    }
  }

  lemma {:induction false} TargetStepInv(s: State, l: Label)
    requires Inv(s) && Enabled(s, l) && (l.SendRelease? || l.SeeBreak? || l.TargetFails?)
    ensures Inv(Step(s, l))
  {
    var s' := Step(s, l);
    forall j | 0 <= j < |s.clients|
      ensures LinkInv(s', j)
    {
      assert LinkInv(s, j);
    }
  }

  lemma {:induction false} InRange(s: State, l: Label, i: nat)
    requires Inv(s) && Enabled(s, l) && StepOf(l, i)
    ensures Shape(s) && i < |s.clients|
  {
  }

  lemma {:induction false} StepInv(s: State, l: Label)
    requires Inv(s) && Enabled(s, l)
    ensures Inv(Step(s, l))
  {
    hide Inv;
    match l
    case SendArrive(i) => InRange(s, l, i); ClientStepInv(s, l, i);
    case SendFinished(i) => InRange(s, l, i); ClientStepInv(s, l, i);
    case TakeRelease(i) => InRange(s, l, i); ClientStepInv(s, l, i);
    case MakeTransfer(i) => InRange(s, l, i); ClientStepInv(s, l, i);
    case Receive(i) => InRange(s, l, i); ClientStepInv(s, l, i);
    case ClientBreak(i) => InRange(s, l, i); ClientStepInv(s, l, i);
    case ClientFails(i) => InRange(s, l, i); ClientStepInv(s, l, i);
    case GiveUp(i) => InRange(s, l, i); ClientStepInv(s, l, i);
    case Decide => DecideInv(s);
    case _ => TargetStepInv(s, l);
  }

  // ---------------------------------------------------------------- whole runs

  ghost predicate Follows(s: State, l: Label, s': State) {
    Shape(s) && Enabled(s, l) && s' == Step(s, l)
  }

  /** A run: any interleaving of the clients and the target, any failures. */
  ghost predicate IsRun(states: seq<State>, labels: seq<Label>) {
    && |states| == |labels| + 1 && Init(states[0])
    && forall k | 0 <= k < |labels| :: Follows(states[k], labels[k], states[k + 1])
  }

  lemma {:induction false} RunInv(states: seq<State>, labels: seq<Label>, k: nat)
    requires IsRun(states, labels) && k < |states|
    ensures Inv(states[k])
  {
    hide Inv, Step, Enabled, Init;
    if k == 0 {
      InitInv(states[0]);
    } else {
      RunInv(states, labels, k - 1);
      assert Follows(states[k - 1], labels[k - 1], states[k]);
      StepInv(states[k - 1], labels[k - 1]);
    }
  }

  /**
   * In every run: no client has passed more steps than any client has arrived at, so completed steps differ by at most
   * one. At most one release is unread; at most one message to the target, or two if a client gave up while waiting.
   */
  lemma {:induction false} StepsAligned(states: seq<State>, labels: seq<Label>, k: nat, i: nat, j: nat)
    requires IsRun(states, labels) && k < |states| && Shape(states[k])
    requires i < |states[k].clients| && j < |states[k].clients|
    ensures states[k].clients[i].passed <= states[k].clients[j].sent
    ensures states[k].clients[i].passed <= states[k].clients[j].passed + 1
    ensures |states[k].down[i]| <= 1 && |states[k].up[i]| <= 2
    ensures |states[k].up[i]| == 2 ==>
              && states[k].clients[i].phase == Finished && states[k].clients[i].sent == states[k].clients[i].passed + 1
              && states[k].up[i] == [Arrive, Finish]
  {
    RunInv(states, labels, k);
    assert LinkInv(states[k], i) && LinkInv(states[k], j);
  }

  /** A client that gave up short of its plan stays short of it. */
  lemma {:induction false} GaveUpStays(states: seq<State>, labels: seq<Label>, m: nat, k: nat, i: nat)
    requires IsRun(states, labels) && m < k < |states| && labels[m] == GiveUp(i)
    ensures i < |states[k].clients| && states[k].clients[i].phase.Finished?
    ensures states[k].clients[i].done < states[k].clients[i].steps
    decreases k
  {
    assert Follows(states[k - 1], labels[k - 1], states[k]);
    if k == m + 1 {
      RunInv(states, labels, m);
      assert LinkInv(states[m], i);
    } else {
      GaveUpStays(states, labels, m, k - 1, i);
    }
    hide IsRun, Inv, VerdictOf;
  }

  /** Where nobody gave up, finished clients have made all their transfers. */
  lemma {:induction false} FinishedIsDone(states: seq<State>, labels: seq<Label>, k: nat)
    requires IsRun(states, labels) && k < |states| && forall m | 0 <= m < k :: !labels[m].GiveUp?
    ensures forall i | 0 <= i < |states[k].clients| && states[k].clients[i].phase.Finished? ::
              states[k].clients[i].done == states[k].clients[i].steps
  {
    if k == 0 {
      forall i | 0 <= i < |states[0].clients|
        ensures !states[0].clients[i].phase.Finished?
      {
        assert InitClient(states[0], i);
      }
    } else {
      FinishedIsDone(states, labels, k - 1);
      RunInv(states, labels, k - 1);
      assert Follows(states[k - 1], labels[k - 1], states[k]);
      assert labels[k - 1].SendFinished? ==> LinkInv(states[k - 1], labels[k - 1].i);
      hide IsRun, Inv, VerdictOf;
    }
  }

  /** Every client has made every transfer it planned. */
  ghost predicate AllDone(s: State) {
    forall i | 0 <= i < |s.clients| :: s.clients[i].done == s.clients[i].steps
  }

  /**
   * In every run, failures included: the target reports success only if every client reported finished after arriving
   * at the same number of steps; and all planned transfers were then made exactly when no client gave up on the way.
   */
  lemma {:induction false} SuccessMeans(states: seq<State>, labels: seq<Label>, k: nat)
    requires IsRun(states, labels) && k < |states| && states[k].mode == Over(true)
    ensures forall i | 0 <= i < |states[k].clients| ::
              && states[k].clients[i].phase.Finished? && states[k].clients[i].sent == states[k].round
              && states[k].round - 1 <= states[k].clients[i].done <= states[k].clients[i].passed <= states[k].round
    ensures AllDone(states[k]) <==> forall m | 0 <= m < k :: !labels[m].GiveUp?
    ensures AllDone(states[k]) ==>
              forall i | 0 <= i < |states[k].clients| :: states[k].clients[i].steps == states[k].round
  {
    RunInv(states, labels, k);
    var s := states[k];
    forall i | 0 <= i < |s.clients|
      ensures s.clients[i].phase.Finished? && s.clients[i].sent == s.round
      ensures s.round - 1 <= s.clients[i].done <= s.clients[i].passed <= s.round
      ensures s.clients[i].done == s.clients[i].steps ==> s.clients[i].steps == s.round
    {
      assert LinkInv(s, i);
    }
    hide IsRun, Inv;
    if forall m | 0 <= m < k :: !labels[m].GiveUp? {
      FinishedIsDone(states, labels, k);
    } else {
      var m :| 0 <= m < k && labels[m].GiveUp?;
      GaveUpStays(states, labels, m, k, labels[m].i);
    }
  }

  ghost predicate IsFailure(l: Label) {
    l.ClientFails? || l.TargetFails? || l.GiveUp?
  }

  /** All clients plan the same number of steps. */
  ghost predicate EqualPlans(s: State) {
    forall i, j | 0 <= i < |s.clients| && 0 <= j < |s.clients| :: s.clients[i].steps == s.clients[j].steps
  }

  /** Plans do not change. */
  lemma {:induction false} PlansKept(s: State, l: Label)
    requires Shape(s) && Enabled(s, l)
    ensures |Step(s, l).clients| == |s.clients|
            && forall i | 0 <= i < |s.clients| :: Step(s, l).clients[i].steps == s.clients[i].steps
  {
  }

  /** Until the target gives up, nobody is lost; and it does not give up while plans are equal. */
  ghost predicate Undisturbed(s: State) {
    && s.mode != Over(false)
    && (s.mode.Over? || forall i | 0 <= i < |s.clients| :: !s.clients[i].phase.Lost?)
  }

  lemma {:induction false} EqualNeverMixed(s: State)
    requires Inv(s) && EqualPlans(s) && s.mode == Collecting && RoundComplete(s)
    requires forall i | 0 <= i < |s.clients| && s.clients[i].phase.Finished? :: s.clients[i].done == s.clients[i].steps
    ensures AllGot(s, Finish) || AllGot(s, Arrive)
  {
    assert s.got[0].Some?;
    forall i | 0 <= i < |s.got|
      ensures s.got[i] == s.got[0]
    {
      assert LinkInv(s, i) && LinkInv(s, 0);
      assert s.got[i].Some? && s.clients[i].steps == s.clients[0].steps;
    }
    assert LinkInv(s, 0);
    assert s.got[0] == Some(Arrive) || s.got[0] == Some(Finish);
  }

  lemma {:induction false} UndisturbedStep(s: State, l: Label)
    requires Inv(s) && Enabled(s, l) && EqualPlans(s) && Undisturbed(s) && !IsFailure(l)
    requires forall i | 0 <= i < |s.clients| && s.clients[i].phase.Finished? :: s.clients[i].done == s.clients[i].steps
    ensures Undisturbed(Step(s, l))
  {
    if l.Decide? {
      VerdictOfRound(s);
      EqualNeverMixed(s);
    }
    if l.TakeRelease? {
      assert LinkInv(s, l.i);
    }
  }

  lemma {:induction false} UndisturbedRun(states: seq<State>, labels: seq<Label>, k: nat)
    requires IsRun(states, labels) && k < |states| && EqualPlans(states[0])
    requires forall m | 0 <= m < k :: !IsFailure(labels[m])
    ensures EqualPlans(states[k]) && Undisturbed(states[k])
  {
    if k == 0 {
      forall i | 0 <= i < |states[0].clients|
        ensures !states[0].clients[i].phase.Lost?
      {
        assert InitClient(states[0], i);
      }
    } else {
      UndisturbedRun(states, labels, k - 1);
      FinishedIsDone(states, labels, k - 1);
      RunInv(states, labels, k - 1);
      assert Follows(states[k - 1], labels[k - 1], states[k]);
      PlansKept(states[k - 1], labels[k - 1]);
      UndisturbedStep(states[k - 1], labels[k - 1]);
      hide Inv, Step, Enabled, Undisturbed;
    }
  }

  lemma {:induction false} PlansOfRun(states: seq<State>, labels: seq<Label>, k: nat)
    requires IsRun(states, labels) && k < |states|
    ensures |states[k].clients| == |states[0].clients|
    ensures forall i | 0 <= i < |states[0].clients| :: states[k].clients[i].steps == states[0].clients[i].steps
  {
    if k > 0 {
      PlansOfRun(states, labels, k - 1);
      assert Follows(states[k - 1], labels[k - 1], states[k]);
      PlansKept(states[k - 1], labels[k - 1]);
      hide Step, Enabled;
    }
  }

  /** In every run without failures that the target has ended: it reports success exactly when all plans are equal. */
  lemma {:induction false} SuccessIffEqual(states: seq<State>, labels: seq<Label>, k: nat)
    requires IsRun(states, labels) && k < |states| && states[k].mode.Over?
    requires forall m | 0 <= m < k :: !IsFailure(labels[m])
    ensures states[k].mode.ok <==> EqualPlans(states[0])
  {
    PlansOfRun(states, labels, k);
    RunInv(states, labels, k);
    if states[k].mode.ok {
      SuccessMeans(states, labels, k);
    }
    if EqualPlans(states[0]) {
      UndisturbedRun(states, labels, k);
    }
  }

  // ---------------------------------------------------------------- success with clients that give up

  /** The connection of a client breaks, or the target fails; a client that gives up keeps its connection. */
  ghost predicate IsBreak(l: Label) {
    l.ClientFails? || l.TargetFails?
  }

  /** Some client is finished after fewer arrivals than another made. */
  ghost predicate Mixed(s: State) {
    exists i, j :: 0 <= i < |s.clients| && 0 <= j < |s.clients| && FinishedBefore(s.clients[j], s.clients[i])
  }

  predicate FinishedBefore(a: Client, b: Client) {
    a.phase.Finished? && a.sent < b.sent
  }

  ghost predicate Unbroken(s: State) {
    && (!s.mode.Over? ==> forall i | 0 <= i < |s.clients| :: !s.clients[i].phase.Lost?)
    && (s.mode == Over(false) ==> Mixed(s))
  }

  lemma {:induction false} BrokenRoundIsMixed(s: State)
    requires Inv(s) && s.mode == Collecting && RoundComplete(s) && !AllGot(s, Finish) && !AllGot(s, Arrive)
    ensures Mixed(s)
  {
    var i :| 0 <= i < |s.got| && s.got[i] != Some(Finish);
    var j :| 0 <= j < |s.got| && s.got[j] != Some(Arrive);
    assert LinkInv(s, i) && LinkInv(s, j) && s.got[i].Some? && s.got[j].Some?;
    assert FinishedBefore(s.clients[j], s.clients[i]);
  }

  lemma {:induction false} UnbrokenStep(s: State, l: Label)
    requires Inv(s) && Enabled(s, l) && Unbroken(s) && !IsBreak(l)
    ensures Unbroken(Step(s, l))
  {
    if l.Decide? {
      VerdictOfRound(s);
      if !AllGot(s, Finish) && !AllGot(s, Arrive) {
        BrokenRoundIsMixed(s);
      }
    }
    if l.TakeRelease? {
      assert LinkInv(s, l.i);
    }
    if s.mode == Over(false) {
      var i, j :| 0 <= i < |s.clients| && 0 <= j < |s.clients| && FinishedBefore(s.clients[j], s.clients[i]);
      assert FinishedBefore(Step(s, l).clients[j], Step(s, l).clients[i]);
    }
    hide VerdictOf, LinkInv;
  }

  lemma {:induction false} UnbrokenRun(states: seq<State>, labels: seq<Label>, k: nat)
    requires IsRun(states, labels) && k < |states| && forall m | 0 <= m < k :: !IsBreak(labels[m])
    ensures Unbroken(states[k])
  {
    if k == 0 {
      forall i | 0 <= i < |states[0].clients|
        ensures !states[0].clients[i].phase.Lost?
      {
        assert InitClient(states[0], i);
      }
    } else {
      UnbrokenRun(states, labels, k - 1);
      RunInv(states, labels, k - 1);
      assert Follows(states[k - 1], labels[k - 1], states[k]);
      hide Inv, Step, Enabled, Unbroken;
      UnbrokenStep(states[k - 1], labels[k - 1]);
    }
  }

  /**
   * In every run without breaks that the target has ended, whoever gave up: it reports success exactly when all clients
   * reported finished in the same round, that is, after equally many arrivals.
   */
  lemma {:induction false} SuccessIffSameRound(states: seq<State>, labels: seq<Label>, k: nat)
    requires IsRun(states, labels) && k < |states| && states[k].mode.Over?
             && forall m | 0 <= m < k :: !IsBreak(labels[m])
    ensures states[k].mode.ok <==>
              forall i, j | 0 <= i < |states[k].clients| && 0 <= j < |states[k].clients| ::
                states[k].clients[i].phase.Finished? && states[k].clients[i].sent == states[k].clients[j].sent
  {
    UnbrokenRun(states, labels, k);
    hide Unbroken, IsRun;
    if states[k].mode.ok {
      SuccessMeans(states, labels, k);
    } else {
      UnbrokenFails(states[k]);
    }
  }

  lemma {:induction false} UnbrokenFails(s: State)
    requires Unbroken(s) && s.mode == Over(false)
    ensures exists i, j :: 0 <= i < |s.clients| && 0 <= j < |s.clients| && s.clients[j].sent < s.clients[i].sent
  {
    var i, j :| 0 <= i < |s.clients| && 0 <= j < |s.clients| && FinishedBefore(s.clients[j], s.clients[i]);
    assert s.clients[j].sent < s.clients[i].sent;
  }

  /** One client whose first transfer fails, whatever it plans. */
  function ShortState(steps: nat, k: nat): State {
    var phase := if k == 0 then Working else if k < 5 then Awaiting else if k == 5 then Moving else Finished;
    var up := if k == 1 then [Arrive] else if k == 6 then [Finish] else [];
    var got := if k == 2 then Some(Arrive) else if k >= 7 then Some(Finish) else None;
    State([Client(steps, 0, if k >= 5 then 1 else 0, if k >= 1 then 1 else 0, phase)], [up],
          [if k == 4 then [Release] else []], if k >= 3 then 1 else 0, [got],
          if k == 3 then Sending(0) else if k == 8 then Over(true) else Collecting)
  }

  function ShortLabel(k: nat): Label {
    if k == 0 then SendArrive(0)
    else if k == 1 || k == 6 then Receive(0)
    else if k == 2 || k == 7 then Decide
    else if k == 3 then SendRelease
    else if k == 4 then TakeRelease(0)
    else GiveUp(0)
  }

  lemma {:induction false} ShortStep(steps: nat, k: nat)
    requires k < 8 && steps > 0
    ensures Follows(ShortState(steps, k), ShortLabel(k), ShortState(steps, k + 1))
  {
    if k == 2 || k == 7 {
      VerdictOfRound(ShortState(steps, k));
      assert ShortState(steps, k).got[0] == Some(if k == 2 then Arrive else Finish);
    }
    hide VerdictOf;
    assert Nothing(1) == [None];
    var s, s' := Step(ShortState(steps, k), ShortLabel(k)), ShortState(steps, k + 1);
    assert s.clients == s'.clients && s.got == s'.got;
    assert s.up[0] == s'.up[0] && s.down[0] == s'.down[0];
    assert s.up == s'.up && s.down == s'.down;
  }

  /**
   * Success does not mean that anything was transferred: a client that plans any number of steps, be it one, and whose
   * first transfer fails, makes the target report success.
   */
  lemma {:induction false} SuccessAfterGivingUp(steps: nat) returns (states: seq<State>, labels: seq<Label>)
    requires steps > 0
    ensures IsRun(states, labels) && states[|labels|].mode == Over(true) && states[|labels|].round == 1
    ensures states[|labels|].clients == [Client(steps, 0, 1, 1, Finished)]
  {
    states := seq(9, k requires 0 <= k < 9 => ShortState(steps, k));
    labels := seq(8, k requires 0 <= k < 8 => ShortLabel(k));
    assert InitClient(states[0], 0);
    assert Init(states[0]);
    hide Follows, ShortLabel, Init;
    forall k | 0 <= k < |labels|
      ensures Follows(states[k], labels[k], states[k + 1])
    {
      ShortStep(steps, k);
    }
  }

  /** Two unread messages: a client that gives up while it waits, before the target has read its arrival. */
  lemma {:induction false} TwoUnread(steps: nat, states: seq<State>, labels: seq<Label>)
    requires steps > 0 && labels == [SendArrive(0), GiveUp(0)]
    requires states == [ShortState(steps, 0), ShortState(steps, 1), Step(ShortState(steps, 1), GiveUp(0))]
    ensures IsRun(states, labels) && states[2].up[0] == [Arrive, Finish]
  {
    assert InitClient(states[0], 0);
    ShortStep(steps, 0);
  }

  // ---------------------------------------------------------------- nobody waits for ever

  function ClientLeft(c: Client): nat
    requires c.done <= c.steps
  {
    match c.phase
    case Working => 12 * (c.steps - c.done) + 8
    case Awaiting => 12 * (c.steps - c.done) + 4
    case Moving => 12 * (c.steps - c.done) + 2
    case _ => 0
  }

  /** What is left to do around client i. */
  ghost function LinkLeft(s: State, i: nat): nat
    requires Shape(s) && i < |s.clients| && LinkInv(s, i)
  {
    ClientLeft(s.clients[i]) + 3 * |s.up[i]| + (if s.got[i].Some? then 2 else 0)
    + (if s.mode.Sending? && i >= s.mode.next then 1 else 0)
  }

  ghost function Left(s: State, n: nat): nat
    requires Inv(s) && n <= |s.clients|
  {
    if n == 0 then (if s.mode.Over? then 0 else 1) else assert LinkInv(s, n - 1); Left(s, n - 1) + LinkLeft(s, n - 1)
  }

  /** All that is left to do. */
  ghost function Work(s: State): nat
    requires Inv(s)
  {
    Left(s, |s.clients|)
  }

  function Alive(s: State): nat {
    if s.mode.Over? then 0 else 1
  }

  /** Nothing got more, and something got less: what is left drops. */
  lemma {:induction false} LeftDrops(s: State, s': State, n: nat, strict: bool)
    requires Inv(s) && Inv(s') && n <= |s.clients| == |s'.clients| && Alive(s') <= Alive(s)
    requires forall i | 0 <= i < n :: LinkInv(s, i) && LinkInv(s', i) && LinkLeft(s', i) <= LinkLeft(s, i)
    requires strict ==> Alive(s') < Alive(s) || exists i :: 0 <= i < n && LinkLeft(s', i) < LinkLeft(s, i)
    ensures Left(s', n) <= Left(s, n) && (strict ==> Left(s', n) < Left(s, n))
  {
    hide LinkLeft, LinkInv;
    if n > 0 {
      LeftDrops(s, s', n - 1, strict && LinkLeft(s', n - 1) == LinkLeft(s, n - 1));
    }
  }

  /** A step of a client leaves less to do around that client. */
  lemma {:induction false} OwnLinkDrops(s: State, l: Label, i: nat)
    requires Inv(s) && Enabled(s, l) && i < |s.clients| && Inv(Step(s, l)) && StepOf(l, i)
    requires LinkInv(s, i) && LinkInv(Step(s, l), i)
    ensures LinkLeft(Step(s, l), i) < LinkLeft(s, i) && Alive(Step(s, l)) == Alive(s)
  {
  }

  lemma {:induction false} OtherLinkSame(s: State, l: Label, d: nat, i: nat)
    requires Inv(s) && Enabled(s, l) && d < |s.clients| && i < |s.clients| && i != d && Inv(Step(s, l)) && StepOf(l, d)
    requires LinkInv(s, i) && LinkInv(Step(s, l), i)
    ensures LinkLeft(Step(s, l), i) == LinkLeft(s, i)
  {
  }

  /** A step of the target leaves less to do around each client, or ends the target. */
  lemma {:induction false} TargetLinkDrops(s: State, l: Label, i: nat)
    requires Inv(s) && Enabled(s, l) && i < |s.clients| && Inv(Step(s, l))
    requires l == Decide || l == SendRelease || l.SeeBreak? || l == TargetFails
    requires LinkInv(s, i) && LinkInv(Step(s, l), i)
    ensures LinkLeft(Step(s, l), i) <= LinkLeft(s, i)
    ensures l == SendRelease && s.mode.next == i ==> LinkLeft(Step(s, l), i) < LinkLeft(s, i)
    ensures l == Decide && !Step(s, l).mode.Over? ==> LinkLeft(Step(s, l), i) < LinkLeft(s, i)
  {
    assert l == Decide ==> s.got[i].Some?;
  }

  /** Every step, failures included, leaves less to do. */
  lemma {:induction false} WorkDrops(s: State, l: Label)
    requires Inv(s) && Enabled(s, l)
    ensures Inv(Step(s, l)) && Work(Step(s, l)) < Work(s)
  {
    StepInv(s, l);
    var s' := Step(s, l);
    PlansKept(s, l);
    var d := match l
      case SendArrive(i) => i case SendFinished(i) => i case TakeRelease(i) => i case Receive(i) => i
      case ClientBreak(i) => i case ClientFails(i) => i case GiveUp(i) => i case MakeTransfer(i) => i
      case SendRelease => s.mode.next case _ => 0;
    assert Alive(s') <= Alive(s)
           && (StepOf(l, d) || l == SendRelease || Alive(s') < Alive(s) || (l == Decide && !s'.mode.Over?));
    assert d < |s.clients| && forall i | 0 <= i < |s.clients| :: LinkInv(s, i) && LinkInv(s', i);
    hide LinkLeft, LinkInv, Inv, Enabled, Step;
    forall i | 0 <= i < |s.clients|
      ensures LinkLeft(s', i) <= LinkLeft(s, i) && (i == d ==> Alive(s') < Alive(s) || LinkLeft(s', i) < LinkLeft(s, i))
    {
      if !StepOf(l, d) {
        TargetLinkDrops(s, l, i);
      } else if i == d {
        OwnLinkDrops(s, l, i);
      } else {
        OtherLinkSame(s, l, d, i);
      }
    }
    assert Alive(s') < Alive(s) || LinkLeft(s', d) < LinkLeft(s, d);
    LeftDrops(s, s', |s.clients|, true);
  }

  /** As long as a client works or waits, or the target has not ended, some step other than a failure can be taken. */
  lemma {:induction false} SomeStep(s: State) returns (l: Label)
    requires Inv(s)
    requires !s.mode.Over? || exists i :: 0 <= i < |s.clients| && Busy(s.clients[i])
    ensures Enabled(s, l) && !IsFailure(l)
  {
    if s.mode.Sending? {
      l := SendRelease;
    } else if s.mode == Collecting && RoundComplete(s) {
      l := Decide;
    } else {
      var i :| 0 <= i < |s.clients| && if s.mode.Over? then Busy(s.clients[i]) else s.got[i].None?;
      assert LinkInv(s, i);
      var c := s.clients[i];
      l := if c.phase.Working? && c.done < c.steps then SendArrive(i)
           else if c.phase.Working? then SendFinished(i)
           else if c.phase.Moving? then MakeTransfer(i)
           else if c.phase.Awaiting? && s.down[i] != [] then TakeRelease(i)
           else if s.mode.Over? then ClientBreak(i)
           else if s.up[i] != [] then Receive(i)
           else SeeBreak(i);
    }
  }

  /**
   * Nobody waits for ever: a run takes no more steps than there was work at its start, and where it cannot go on
   * the target has ended and every client has finished or given up.
   */
  lemma {:induction false} RunsEnd(states: seq<State>, labels: seq<Label>, k: nat)
    requires IsRun(states, labels) && k < |states|
    ensures Inv(states[0]) && Inv(states[k]) && k + Work(states[k]) <= Work(states[0])
    ensures (forall l | Enabled(states[k], l) :: IsFailure(l)) ==>
              && states[k].mode.Over?
              && forall i | 0 <= i < |states[k].clients| ::
                   states[k].clients[i].phase.Finished? || states[k].clients[i].phase.Lost?
  {
    hide Inv, Step, Enabled, Init, Work;
    RunInv(states, labels, k);
    RunInv(states, labels, 0);
    if k > 0 {
      RunsEnd(states, labels, k - 1);
      assert Follows(states[k - 1], labels[k - 1], states[k]);
      WorkDrops(states[k - 1], labels[k - 1]);
    }
    var s := states[k];
    if !s.mode.Over? || exists i :: 0 <= i < |s.clients| && Busy(s.clients[i]) {
      var l := SomeStep(s);
    }
  }
}
