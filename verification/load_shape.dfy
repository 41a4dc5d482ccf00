/** `CustomLoadShape`: the staged ramp a Locust runner would poll, once the
    class is installed as a `LoadTestShape`, to learn how many
    users should be running and how fast to spawn them. */
module LoadShape {
  import opened Wrappers

  /** One row of the stage table: how long it lasts (in seconds), the user
      count and the spawn rate. */
  datatype Stage = Stage(duration: nat, users: nat, spawnRate: nat)

  /** The `(users, spawn_rate)` pair that `tick` returns. */
  datatype Target = Target(users: nat, spawnRate: nat)

  function TargetOf(s: Stage): Target {
    Target(s.users, s.spawnRate)
  }

  /** The table `__init__` installs. */
  const Ramp: seq<Stage> := [
    Stage(30, 10, 2),
    Stage(60, 10, 2),
    Stage(30, 20, 2),
    Stage(60, 20, 2),
    Stage(30, 0, 2)
  ]

  /** One `tick` once the start time is known, from stage `index` with
      `elapsed` seconds since the first poll: the stage index it leaves and
      what it returns. It stays while `elapsed` is below the current stage's
      own duration, and otherwise moves on by exactly one stage, returning
      None when that runs past the table. */
  function Step(stages: seq<Stage>, index: nat, elapsed: real): (s: (nat, Option<Target>))
    requires index < |stages|
    ensures index <= s.0 <= index + 1 && s.0 <= |stages|
    ensures s.0 == index <==> elapsed < stages[index].duration as real
    ensures s.1.None? <==> s.0 == |stages|
    ensures s.1.Some? ==> s.1.value == TargetOf(stages[s.0])
  {
    if elapsed < stages[index].duration as real then
      (index, Some(TargetOf(stages[index])))
    else if index + 1 >= |stages| then
      (index + 1, None)
    else
      (index + 1, Some(TargetOf(stages[index + 1])))
  }

  /** A runner polling at the times `polls`, with the start time already
      fixed at `start`: the final stage index and the answers. Polling ends
      once None has been returned, since a runner stops the test there. */
  function Run(stages: seq<Stage>, index: nat, start: real, polls: seq<real>): (res: (nat, seq<Option<Target>>))
    requires index <= |stages|
    ensures index <= res.0 <= |stages|
    ensures res.0 <= index + |polls|
    ensures |res.1| <= |polls|
    ensures |res.1| == |polls| || res.0 == |stages|
    ensures None in res.1 <==> index < |stages| && res.0 == |stages|
    ensures forall k :: 0 <= k < |res.1| - 1 ==> res.1[k].Some?
    decreases |polls|
  {
    if |polls| == 0 || index == |stages| then
      (index, [])
    else
      var step := Step(stages, index, polls[0] - start);
      var rest := Run(stages, step.0, start, polls[1..]);
      (rest.0, [step.1] + rest.1)
  }

  /** While every poll comes before the current stage's duration has
      elapsed, the ramp holds that stage and keeps returning its target. */
  lemma {:induction false} RunHolds(stages: seq<Stage>, index: nat, start: real, polls: seq<real>)
    requires index < |stages|
    requires forall k :: 0 <= k < |polls| ==> polls[k] - start < stages[index].duration as real
    ensures Run(stages, index, start, polls).0 == index
    ensures Run(stages, index, start, polls).1 == seq(|polls|, _ => Some(TargetOf(stages[index])))
    decreases |polls|
  {
    if |polls| != 0 {
      RunHolds(stages, index, start, polls[1..]);
    }
  }

  /** Once every poll comes after the longest stage duration, each poll
      leaves one stage, so `|stages| - index` polls reach the end of the
      table and the last answer is None. */
  lemma {:induction false} RunReachesEnd(stages: seq<Stage>, index: nat, start: real, polls: seq<real>)
    requires index < |stages|
    requires |polls| >= |stages| - index
    requires forall k, i :: 0 <= k < |polls| && 0 <= i < |stages| ==>
      polls[k] - start >= stages[i].duration as real
    ensures Run(stages, index, start, polls).0 == |stages|
    ensures |Run(stages, index, start, polls).1| == |stages| - index
    ensures Run(stages, index, start, polls).1[|stages| - index - 1] == None
    decreases |polls|
  {
    assert polls[0] - start >= stages[index].duration as real;
    if index + 1 < |stages| {
      RunReachesEnd(stages, index + 1, start, polls[1..]);
    }
  }

  /** Polling at `a` and then at `b` is polling at `a + b`: the run over `b`
      starts from the stage index the run over `a` left. */
  lemma {:induction false} RunAppend(stages: seq<Stage>, index: nat, start: real, a: seq<real>, b: seq<real>)
    requires index <= |stages|
    ensures Run(stages, index, start, a + b).0 ==
      Run(stages, Run(stages, index, start, a).0, start, b).0
    ensures Run(stages, index, start, a + b).1 ==
      Run(stages, index, start, a).1 + Run(stages, Run(stages, index, start, a).0, start, b).1
    decreases |a|
  {
    if |a| == 0 {
      assert a + b == b;
    } else if index < |stages| {
      assert (a + b)[0] == a[0];
      assert (a + b)[1..] == a[1..] + b;
      RunAppend(stages, Step(stages, index, a[0] - start).0, start, a[1..], b);
    }
  }

  /** The controller object. `stages` is fixed at construction; `tick`
      updates `stageIndex` and, on its first call only, `startTime`. */
  class CustomLoadShape {
    const stages: seq<Stage>
    var stageIndex: nat
    var startTime: Option<real>

    constructor ()
      ensures stages == Ramp && stageIndex == 0 && startTime == None
    {
      stages := Ramp;
      stageIndex := 0;
      startTime := None;
    }

    /** One poll at time `now` (both readings of `time.time()` in one call
        are taken to be the same instant). The start time is set by the first
        poll and never again, so elapsed time counts from the first poll for
        every stage. Polling past the stop answer would index beyond the table,
        so the index must still be inside it. */
    method Tick(now: real) returns (r: Option<Target>)
      requires stageIndex < |stages|
      modifies this`stageIndex, this`startTime
      ensures old(startTime).None? ==> startTime == Some(now)
      ensures old(startTime).Some? ==> startTime == old(startTime)
      ensures (stageIndex, r) == Step(stages, old(stageIndex), now - startTime.value)
    {
      if startTime.None? {
        startTime := Some(now);
      }
      var elapsed := now - startTime.value;
      var current := stages[stageIndex];
      if elapsed < current.duration as real {
        return Some(TargetOf(current));
      }
      stageIndex := stageIndex + 1;
      if stageIndex >= |stages| {
        return None;
      }
      r := Some(TargetOf(stages[stageIndex]));
    }
  }

  /** A runner polling a freshly built controller at the times `polls`
      until it answers None: the answers are those of `Run` with the start
      time fixed at the first poll. */
  method PollUntilStop(shape: CustomLoadShape, polls: seq<real>) returns (answers: seq<Option<Target>>)
    requires shape.stageIndex == 0 && shape.startTime.None? && |shape.stages| != 0
    modifies shape
    ensures |polls| != 0 ==> answers == Run(shape.stages, 0, polls[0], polls).1
    ensures |polls| != 0 ==> shape.stageIndex == Run(shape.stages, 0, polls[0], polls).0
    ensures |polls| == 0 ==> answers == [] && shape.stageIndex == 0
  {
    answers := [];
    var k := 0;
    while k < |polls| && shape.stageIndex < |shape.stages|
      invariant 0 <= k <= |polls|
      invariant k == 0 ==> answers == [] && shape.stageIndex == 0 && shape.startTime.None?
      invariant k != 0 ==> shape.startTime == Some(polls[0])
      invariant k != 0 ==> shape.stageIndex == Run(shape.stages, 0, polls[0], polls[..k]).0
      invariant k != 0 ==> answers == Run(shape.stages, 0, polls[0], polls[..k]).1
      decreases |polls| - k
    {
      ghost var before := shape.stageIndex;
      var r := shape.Tick(polls[k]);
      ghost var start := polls[0];
      assert Run(shape.stages, before, start, [polls[k]]).0 == shape.stageIndex;
      assert Run(shape.stages, before, start, [polls[k]]).1 == [r];
      if k != 0 {
        RunAppend(shape.stages, 0, start, polls[..k], [polls[k]]);
        assert polls[..k] + [polls[k]] == polls[..k + 1];
      } else {
        assert polls[..1] == [polls[k]];
      }
      answers := answers + [r];
      k := k + 1;
    }
    if k < |polls| {
      RunAppend(shape.stages, 0, polls[0], polls[..k], polls[k..]);
      assert polls[..k] + polls[k..] == polls;
    } else {
      assert polls[..k] == polls;
    }
  }

  /** Two stages polled at 0, 10, 31 and 61 s: a poll at 10 s holds the first
      stage, one at 31 s moves to the second, and one at 61 s (already past
      the second stage's own 60 s) stops the test. */
  lemma TwoStageExample()
    ensures Run([Stage(30, 10, 2), Stage(60, 10, 2)], 0, 0.0, [0.0, 10.0, 31.0, 61.0]).0 == 2
    ensures Run([Stage(30, 10, 2), Stage(60, 10, 2)], 0, 0.0, [0.0, 10.0, 31.0, 61.0]).1 ==
      [Some(Target(10, 2)), Some(Target(10, 2)), Some(Target(10, 2)), None]
  {

  }

  // The intended reading of the table: per-stage durations laid end to end.

  /** The total duration of `stages`. */
  function Span(stages: seq<Stage>): nat
    decreases |stages|
  {
    if |stages| == 0 then 0 else stages[0].duration + Span(stages[1..])
  }

  /** The target `elapsed` seconds into the run when every stage lasts its
      own duration after the previous one ends; None once all have ended. */
  function IntendedTarget(stages: seq<Stage>, elapsed: real): Option<Target>
    decreases |stages|
  {
    if |stages| == 0 then None
    else if elapsed < stages[0].duration as real then Some(TargetOf(stages[0]))
    else IntendedTarget(stages[1..], elapsed - stages[0].duration as real)
  }

  /** Stage `i` is in force from the end of the stages before it until its
      own duration has passed on top of that. */
  lemma {:induction false} IntendedTargetInStage(stages: seq<Stage>, i: nat, elapsed: real)
    requires i < |stages|
    requires Span(stages[..i]) as real <= elapsed < (Span(stages[..i]) + stages[i].duration) as real
    ensures IntendedTarget(stages, elapsed) == Some(TargetOf(stages[i]))
    decreases i
  {
    if i == 0 {
      assert stages[..0] == [];
    } else {
      var rest := stages[1..];
      assert stages[..i][1..] == rest[..i - 1];
      assert Span(stages[..i]) == stages[0].duration + Span(rest[..i - 1]);
      IntendedTargetInStage(rest, i - 1, elapsed - stages[0].duration as real);
    }
  }

  /** Once the total duration has passed, the intended ramp stops the test. */
  lemma {:induction false} IntendedTargetStops(stages: seq<Stage>, elapsed: real)
    requires elapsed >= Span(stages) as real
    ensures IntendedTarget(stages, elapsed) == None
    decreases |stages|
  {
    if |stages| != 0 {
      IntendedTargetStops(stages[1..], elapsed - stages[0].duration as real);
    }
  }

  /** As written, with the start time never reset, the ramp polled once a
      second leaves the 20-user stages one poll after entering them and stops
      the test at 63 s, although the table adds up to 210 s and the intended
      reading is still in the second stage then. */
  lemma RampEndsEarly()
    ensures Run(Ramp, 1, 0.0, [60.0, 61.0, 62.0, 63.0]).0 == 5
    ensures Run(Ramp, 1, 0.0, [60.0, 61.0, 62.0, 63.0]).1 ==
      [Some(Target(20, 2)), Some(Target(20, 2)), Some(Target(0, 2)), None]
    ensures Span(Ramp) == 210
    ensures IntendedTarget(Ramp, 63.0) == Some(Target(10, 2))
  {

  }

  /** The ramp as written, polled once a second from the first poll at 0 s:
      it holds the first stage for 30 polls and the second until 59 s, then
      answers `(20, 2)`, `(20, 2)`, `(0, 2)` at 60, 61 and 62 s and stops the
      test at 63 s. */
  lemma RampPolledEverySecond()
    ensures Run(Ramp, 0, 0.0, seq(64, i => i as real)).0 == 5
    ensures |Run(Ramp, 0, 0.0, seq(64, i => i as real)).1| == 64
    ensures Run(Ramp, 0, 0.0, seq(64, i => i as real)).1[..60] == seq(60, _ => Some(Target(10, 2)))
    ensures Run(Ramp, 0, 0.0, seq(64, i => i as real)).1[60] == Some(Target(20, 2))
    ensures Run(Ramp, 0, 0.0, seq(64, i => i as real)).1[61] == Some(Target(20, 2))
    ensures Run(Ramp, 0, 0.0, seq(64, i => i as real)).1[62] == Some(Target(0, 2))
    ensures Run(Ramp, 0, 0.0, seq(64, i => i as real)).1[63] == None
  {
    var polls := seq(64, i => i as real);
    var first, rest := polls[..30], polls[30..];
    var second, tail := polls[31..60], polls[60..];
    assert polls == first + rest;
    assert rest[1..] == second + tail;
    assert tail == [60.0, 61.0, 62.0, 63.0];
    RunHolds(Ramp, 0, 0.0, first);
    RunHolds(Ramp, 1, 0.0, second);
    RampEndsEarly();
    RunAppend(Ramp, 1, 0.0, second, tail);
    var late := Run(Ramp, 1, 0.0, rest[1..]);
    assert late.0 == 5 && |late.1| == 33;
    assert late.1[28] == Some(Target(10, 2)) && late.1[29] == Some(Target(20, 2));
    assert late.1[31] == Some(Target(0, 2)) && late.1[32] == None;
    assert Step(Ramp, 0, rest[0] - 0.0) == (1, Some(Target(10, 2)));
    assert Run(Ramp, 0, 0.0, rest).0 == 5;
    assert Run(Ramp, 0, 0.0, rest).1 == [Some(Target(10, 2))] + late.1;
    RunAppend(Ramp, 0, 0.0, first, rest);
  }
}
