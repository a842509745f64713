/**
 * The barriers of a benchmark run in order. Every rank enters the same barriers, and no name is used twice.
 */
module Stages {
  import opened Numbers
  import opened PlacementKeys

  /** Number of workloads, and of warm-up plus measured get rounds per workload. */
  datatype Schedule = Schedule(workloads: nat, rounds: nat)

  /** The barriers of one workload. */
  datatype Point = Ready | PutDone | GetReady(round: nat) | GetDone(round: nat) | Done

  datatype Stage = AllConnected | At(workload: nat, point: Point) | AllDone

  function Suffix(p: Point): string {
    match p
    case Ready => "_ready"
    case PutDone => "_put_done"
    case GetReady(i) => "_get_ready_" + Decimal(i)
    case GetDone(i) => "_get_done_" + Decimal(i)
    case Done => "_done"
  }

  /** The name a barrier's marker files are kept under. */
  function Name(s: Stage): string {
    match s
    case AllConnected => "all_connected"
    case At(w, p) => "workload_" + (Decimal(w) + Suffix(p))
    case AllDone => "all_done"
  }

  lemma {:induction false} SuffixShape(p: Point)
    ensures |Suffix(p)| >= 5 && Suffix(p)[0] == '_'
    ensures Suffix(p)[1] == match p case Ready => 'r' case PutDone => 'p' case Done => 'd' case _ => 'g'
    ensures p.GetReady? ==> |Suffix(p)| > 11 && Suffix(p)[5] == 'r' && Suffix(p)[11..] == Decimal(p.round)
    ensures p.GetDone? ==> |Suffix(p)| > 10 && Suffix(p)[5] == 'd' && Suffix(p)[10..] == Decimal(p.round)
  {
    match p
    case GetReady(i) =>
      DecimalDigits(i);
      assert ("_get_ready_" + Decimal(i))[11..] == Decimal(i);
    case GetDone(i) =>
      DecimalDigits(i);
      assert ("_get_done_" + Decimal(i))[10..] == Decimal(i);
    case _ =>
  }

  lemma {:induction false} SuffixInjective(p: Point, q: Point)
    requires Suffix(p) == Suffix(q)
    ensures p == q
  {
    SuffixShape(p);
    SuffixShape(q);
    hide Suffix, Decimal;
    if (p.GetReady? && q.GetReady?) || (p.GetDone? && q.GetDone?) {
      DecimalInjective(p.round, q.round);
    }
  }

  lemma {:induction false} NameSplit(w: nat, p: Point)
    ensures |Name(At(w, p))| > 9 && Name(At(w, p))[0] == 'w' && Name(At(w, p))[9..] == Decimal(w) + Suffix(p)
  {
    DecimalDigits(w);
    assert ("workload_" + (Decimal(w) + Suffix(p)))[9..] == Decimal(w) + Suffix(p);
  }

  /** Different barriers have different names. */
  lemma {:induction false} NamesDistinct(a: Stage, b: Stage)
    requires Name(a) == Name(b)
    ensures a == b
  {
    assert Name(AllConnected)[0] == 'a' && |Name(AllConnected)| == 13;
    assert Name(AllDone)[0] == 'a' && |Name(AllDone)| == 8;
    if a.At? {
      NameSplit(a.workload, a.point);
    }
    if b.At? {
      NameSplit(b.workload, b.point);
    }
    hide Name;
    if a.At? && b.At? {
      SuffixShape(a.point);
      SuffixShape(b.point);
      hide Suffix, Decimal;
      NumberSplits(a.workload, Suffix(a.point), b.workload, Suffix(b.point));
      SuffixInjective(a.point, b.point);
    }
  }

  // ---------------------------------------------------------------- their order

  /** The barrier after s. */
  function Next(c: Schedule, s: Stage): Option<Stage> {
    match s
    case AllConnected => Some(if c.workloads == 0 then AllDone else At(0, Ready))
    case AllDone => None
    case At(w, Ready) => Some(At(w, PutDone))
    case At(w, PutDone) => Some(At(w, if c.rounds == 0 then Done else GetReady(0)))
    case At(w, GetReady(i)) => Some(At(w, GetDone(i)))
    case At(w, GetDone(i)) => Some(At(w, if i + 1 < c.rounds then GetReady(i + 1) else Done))
    case At(w, Done) => Some(if w + 1 < c.workloads then At(w + 1, Ready) else AllDone)
  }

  /** How many barriers come before those of workload w. */
  function Before(c: Schedule, w: nat): nat {
    if w == 0 then 1 else Before(c, w - 1) + 3 + 2 * c.rounds
  }

  /** The position of a barrier in the run. */
  function Position(c: Schedule, s: Stage): nat {
    match s
    case AllConnected => 0
    case AllDone => Before(c, c.workloads)
    case At(w, Ready) => Before(c, w)
    case At(w, PutDone) => Before(c, w) + 1
    case At(w, GetReady(i)) => Before(c, w) + 2 + 2 * i
    case At(w, GetDone(i)) => Before(c, w) + 3 + 2 * i
    case At(w, Done) => Before(c, w) + 2 + 2 * c.rounds
  }

  /** The barrier occurs in the run. */
  predicate Occurs(c: Schedule, s: Stage) {
    s.At? ==>
      && s.workload < c.workloads
      && (s.point.GetReady? || s.point.GetDone? ==> s.point.round < c.rounds)
  }

  lemma {:induction false} NextPosition(c: Schedule, s: Stage)
    requires Occurs(c, s) && s != AllDone
    ensures Next(c, s).Some? && Occurs(c, Next(c, s).value)
    ensures Position(c, Next(c, s).value) == Position(c, s) + 1
  {
  }

  ghost predicate Consecutive(c: Schedule, script: seq<Stage>, k: nat)
    requires k + 1 < |script|
  {
    Next(c, script[k]) == Some(script[k + 1])
  }

  /** The barriers listed so far, each the successor of the one before. */
  ghost predicate Chain(c: Schedule, script: seq<Stage>) {
    && script != [] && script[0] == AllConnected
    && forall k | 0 <= k < |script| - 1 :: Consecutive(c, script, k)
  }

  /** The barriers of a whole run. */
  ghost predicate IsScript(c: Schedule, script: seq<Stage>) {
    Chain(c, script) && script[|script| - 1] == AllDone
  }

  lemma {:induction false} ChainExtends(c: Schedule, script: seq<Stage>, s: Stage)
    requires Chain(c, script) && Next(c, script[|script| - 1]) == Some(s)
    ensures Chain(c, script + [s])
  {
    forall k | 0 <= k < |script|
      ensures Consecutive(c, script + [s], k)
    {
      if k < |script| - 1 {
        assert Consecutive(c, script, k);
      }
    }
  }

  lemma {:induction false} ScriptPositions(c: Schedule, script: seq<Stage>, k: nat)
    requires IsScript(c, script) && k < |script|
    ensures Occurs(c, script[k]) && Position(c, script[k]) == k
  {
    if k > 0 {
      ScriptPositions(c, script, k - 1);
      assert Consecutive(c, script, k - 1);
      assert script[k - 1] != AllDone;
      NextPosition(c, script[k - 1]);
    }
  }

  /** No two barriers of a run have the same name. */
  lemma {:induction false} ScriptNamesDistinct(c: Schedule, script: seq<Stage>, j: nat, k: nat)
    requires IsScript(c, script) && j < |script| && k < |script| && Name(script[j]) == Name(script[k])
    ensures j == k
  {
    hide *;
    NamesDistinct(script[j], script[k]);
    ScriptPositions(c, script, j);
    ScriptPositions(c, script, k);
  }

  // ---------------------------------------------------------------- the whole list

  /** Where the barriers of workload w begin. */
  function Base(c: Schedule, w: nat): nat {
    1 + w * (3 + 2 * c.rounds)
  }

  /** The barriers of workload w, one after the other: ready, put_done, a ready and a done per round, done. */
  ghost predicate WorkloadListed(c: Schedule, script: seq<Stage>, w: nat) {
    && Base(c, w) + 3 + 2 * c.rounds < |script|
    && script[Base(c, w)] == At(w, Ready) && script[Base(c, w) + 1] == At(w, PutDone)
    && (forall i | 0 <= i < c.rounds ::
          && script[Base(c, w) + 2 + 2 * i] == At(w, GetReady(i))
          && script[Base(c, w) + 2 + 2 * i + 1] == At(w, GetDone(i)))
    && script[Base(c, w) + 2 + 2 * c.rounds] == At(w, Done)
  }

  /** The barriers of a run, listed: the connection, the workloads in order, the end, and nothing else. */
  ghost predicate Listed(c: Schedule, script: seq<Stage>) {
    && |script| == 2 + c.workloads * (3 + 2 * c.rounds)
    && script[0] == AllConnected && script[|script| - 1] == AllDone
    && (forall w | 0 <= w < c.workloads :: WorkloadListed(c, script, w))
    && (forall s :: s in script <==> Occurs(c, s))
  }

  lemma {:induction false} BeforeIsBase(c: Schedule, w: nat)
    ensures Before(c, w) == Base(c, w)
  {
    if w > 0 {
      BeforeIsBase(c, w - 1);
      Distribute(w - 1, 3 + 2 * c.rounds);
    }
  }

  lemma {:induction false} BaseMonotone(c: Schedule, v: nat, w: nat)
    requires v < w
    ensures Base(c, v) + 3 + 2 * c.rounds <= Base(c, w)
  {
    Distribute(v, 3 + 2 * c.rounds);
    TimesMonotone(v + 1, w, 3 + 2 * c.rounds);
  }

  /** A barrier of workload w lies between the beginning of its barriers and that of the next. */
  lemma {:induction false} PositionBounds(c: Schedule, s: Stage)
    requires Occurs(c, s)
    ensures s.At? ==>
              Base(c, s.workload) <= Position(c, s) < Base(c, s.workload) + 3 + 2 * c.rounds <= Base(c, c.workloads)
    ensures s == AllDone ==> Position(c, s) == Base(c, c.workloads)
    ensures Position(c, s) <= Base(c, c.workloads)
  {
    BeforeIsBase(c, c.workloads);
    if s.At? {
      BeforeIsBase(c, s.workload);
      BaseMonotone(c, s.workload, c.workloads);
    }
    hide Base, Before;
  }

  /** No two barriers have the same position. */
  lemma {:induction false} PositionsDiffer(c: Schedule, a: Stage, b: Stage)
    requires Occurs(c, a) && Occurs(c, b) && Position(c, a) == Position(c, b)
    ensures a == b
  {
    PositionBounds(c, a);
    PositionBounds(c, b);
    assert Base(c, c.workloads) > 0;
    if a.At? {
      assert Base(c, a.workload) > 0;
    }
    if b.At? {
      assert Base(c, b.workload) > 0;
    }
    if a.At? && b.At? {
      if a.workload < b.workload {
        BaseMonotone(c, a.workload, b.workload);
      } else if b.workload < a.workload {
        BaseMonotone(c, b.workload, a.workload);
      }
    }
    hide Base, Before;
  }

  lemma {:induction false} StandsAtPosition(c: Schedule, script: seq<Stage>, s: Stage)
    requires IsScript(c, script) && Occurs(c, s)
    ensures |script| == Base(c, c.workloads) + 1
    ensures Position(c, s) < |script| && script[Position(c, s)] == s
  {
    ScriptPositions(c, script, |script| - 1);
    PositionBounds(c, AllDone);
    PositionBounds(c, s);
    ScriptPositions(c, script, Position(c, s));
    PositionsDiffer(c, script[Position(c, s)], s);
  }

  lemma {:induction false} WorkloadIsListed(c: Schedule, script: seq<Stage>, w: nat)
    requires IsScript(c, script) && w < c.workloads
    ensures WorkloadListed(c, script, w)
  {
    BeforeIsBase(c, w);
    BaseMonotone(c, w, c.workloads);
    StandsAtPosition(c, script, At(w, Ready));
    StandsAtPosition(c, script, At(w, PutDone));
    StandsAtPosition(c, script, At(w, Done));
    hide Base, Before, IsScript;
    forall i | 0 <= i < c.rounds
      ensures script[Base(c, w) + 2 + 2 * i] == At(w, GetReady(i))
      ensures script[Base(c, w) + 2 + 2 * i + 1] == At(w, GetDone(i))
    {
      StandsAtPosition(c, script, At(w, GetReady(i)));
      StandsAtPosition(c, script, At(w, GetDone(i)));
    }
  }

  /** A chain of successors from the first barrier to the last is the list, so there is one script only. */
  lemma {:induction false} ScriptIsListed(c: Schedule, script: seq<Stage>)
    requires IsScript(c, script)
    ensures Listed(c, script)
  {
    StandsAtPosition(c, script, AllDone);
    hide Before, Position, WorkloadListed;
    forall w | 0 <= w < c.workloads
      ensures WorkloadListed(c, script, w)
    {
      WorkloadIsListed(c, script, w);
    }
    forall s: Stage
      ensures s in script <==> Occurs(c, s)
    {
      if Occurs(c, s) {
        StandsAtPosition(c, script, s);
      } else if s in script {
        var k :| 0 <= k < |script| && script[k] == s;
        ScriptPositions(c, script, k);
      }
    }
  }

  /** The barriers of MeasureRepeated: two per round. */
  method MeasureRepeated(c: Schedule, w: nat, soFar: seq<Stage>) returns (script: seq<Stage>)
    requires Chain(c, soFar) && soFar[|soFar| - 1] == At(w, PutDone)
    ensures Chain(c, script) && Next(c, script[|script| - 1]) == Some(At(w, Done))
    ensures |script| == |soFar| + 2 * c.rounds && soFar <= script
    ensures forall i | 0 <= i < c.rounds ::
              script[|soFar| + 2 * i] == At(w, GetReady(i)) && script[|soFar| + 2 * i + 1] == At(w, GetDone(i))
  {
    script := soFar;
    for i := 0 to c.rounds
      invariant Chain(c, script) && |script| == |soFar| + 2 * i && soFar <= script
      invariant forall j | 0 <= j < i ::
                  script[|soFar| + 2 * j] == At(w, GetReady(j)) && script[|soFar| + 2 * j + 1] == At(w, GetDone(j))
      invariant Next(c, script[|script| - 1]) == Some(At(w, if i < c.rounds then GetReady(i) else Done))
    {
      ChainExtends(c, script, At(w, GetReady(i)));
      script := script + [At(w, GetReady(i))];
      ChainExtends(c, script, At(w, GetDone(i)));
      script := script + [At(w, GetDone(i))];
    }
  }

  /** The barriers of RunKvBenchParsed around RunBenchmark and RunWorkload, in the order the loops enter them. */
  method RunBenchmark(c: Schedule) returns (script: seq<Stage>)
    ensures IsScript(c, script) && Listed(c, script)
  {
    script := [AllConnected];
    for w := 0 to c.workloads
      invariant Chain(c, script)
      invariant Next(c, script[|script| - 1]) == Some(if w < c.workloads then At(w, Ready) else AllDone)
    {
      ChainExtends(c, script, At(w, Ready));
      script := script + [At(w, Ready)];
      ChainExtends(c, script, At(w, PutDone));
      script := script + [At(w, PutDone)];
      script := MeasureRepeated(c, w, script);
      ChainExtends(c, script, At(w, Done));
      script := script + [At(w, Done)];
    }
    ChainExtends(c, script, AllDone);
    script := script + [AllDone];
    ScriptIsListed(c, script);
  }

  /** The names under which the first barriers of a run are kept. */
  lemma {:induction false} NamesAsWritten()
    ensures Name(AllConnected) == "all_connected" && Name(AllDone) == "all_done"
    ensures Name(At(0, Ready)) == "workload_0_ready" && Name(At(0, PutDone)) == "workload_0_put_done"
    ensures Name(At(0, GetReady(0))) == "workload_0_get_ready_0" && Name(At(0, GetDone(0))) == "workload_0_get_done_0"
    ensures Name(At(0, Done)) == "workload_0_done"
  {
    DecimalAsWritten();
    hide Decimal;
  }
}
