/**
 The generations of the segment encoder thread (recorder/segments.py). A start that finds the
 previous worker stopping adds a generation, which joins its predecessor before it encodes.
 */
module Encoder {

  datatype Phase = Joining | Encoding | Finished

  /** One worker thread and its own stop event. */
  datatype Generation = Generation(stop: bool, phase: Phase)

  type Chain = seq<Generation>

  predicate Live(g: Generation) {
    !g.phase.Finished?
  }

  /** A worker is up and has not been told to stop: a further start has nothing to do. */
  predicate Serving(c: Chain) {
    c != [] && Live(c[|c| - 1]) && !c[|c| - 1].stop
  }

  function Started(c: Chain): Chain {
    if Serving(c) then c else c + [Generation(false, Joining)]
  }

  /** Only the newest generation's event is reachable through the recorder. */
  function Stopped(c: Chain): Chain {
    if c == [] then c else c[|c| - 1 := c[|c| - 1].(stop := true)]
  }

  /** `_thread` and `_stop` are the newest generation; a worker keeps its own event and its predecessor. */
  class SegmentRecorder {
    var generations: Chain

    constructor ()
      ensures generations == []
    {
      generations := [];
    }

    method Start()
      modifies this
      ensures generations == Started(old(generations))
      ensures old(generations) <= generations && Serving(generations)
      ensures |generations| == |old(generations)| + if Serving(old(generations)) then 0 else 1
    {
      if generations != [] {
        var newest := generations[|generations| - 1];
        if Live(newest) && !newest.stop {
          return;
        }
      }
      generations := generations + [Generation(false, Joining)];
    }

    method Stop()
      modifies this
      ensures generations == Stopped(old(generations))
      ensures !Serving(generations) && |generations| == |old(generations)|
      ensures forall i | 0 <= i < |generations| :: generations[i].phase == old(generations)[i].phase
      ensures forall i | 0 <= i < |generations| - 1 :: generations[i].stop == old(generations)[i].stop
    {
      if generations != [] {
        var newest := |generations| - 1;
        generations := generations[newest := generations[newest].(stop := true)];
      }
    }
  }

  // ── Scheduling ──

  datatype Step =
    | Start
    | Stop
    | Join(i: nat)   // previous.join() returned
    | Quit(i: nat)   // the loop saw its stop event
    | Crash(i: nat)  // an exception ended the worker

  predicate Enabled(c: Chain, step: Step) {
    match step
    case Start => true
    case Stop => true
    case Join(i) => i < |c| && c[i].phase.Joining? && (i > 0 ==> c[i - 1].phase.Finished?)
    case Quit(i) => i < |c| && c[i].phase.Encoding? && c[i].stop
    case Crash(i) => i < |c| && c[i].phase.Encoding?
  }

  function After(c: Chain, step: Step): Chain
    requires Enabled(c, step)
  {
    match step
    case Start => Started(c)
    case Stop => Stopped(c)
    case Join(i) => c[i := c[i].(phase := Encoding)]
    case Quit(i) => c[i := c[i].(phase := Finished)]
    case Crash(i) => c[i := c[i].(phase := Finished)]
  }

  ghost predicate Inv(c: Chain) {
    && (forall i, j | 0 <= i < j < |c| && !c[j].phase.Joining? :: c[i].phase.Finished?)
    && (forall i | 0 <= i < |c| - 1 :: c[i].stop || c[i].phase.Finished?)
  }

  ghost predicate Run(c: Chain, steps: seq<Step>, d: Chain)
    decreases |steps|
  {
    if steps == [] then c == d else Enabled(c, steps[0]) && Run(After(c, steps[0]), steps[1..], d)
  }

  lemma {:induction false} RunKeepsInv(c: Chain, steps: seq<Step>, d: Chain)
    requires Inv(c) && Run(c, steps, d)
    ensures Inv(d)
    decreases |steps|
  {
    if steps == [] {
    } else {
      RunKeepsInv(After(c, steps[0]), steps[1..], d);
    }
  }

  /**
   Over any sequence of start and stop calls and any scheduling, at most one generation encodes,
   every later one is still joining, and only the newest can be live with a clear stop event.
   */
  lemma OneEncoderAtATime(steps: seq<Step>, d: Chain)
    requires Run([], steps, d)
    ensures forall i, j | 0 <= i < |d| && 0 <= j < |d| && d[i].phase.Encoding? && d[j].phase.Encoding? :: i == j
    ensures forall i, j | 0 <= i < j < |d| && Live(d[i]) :: d[j].phase.Joining?
    ensures forall i | 0 <= i < |d| && Live(d[i]) && !d[i].stop :: i == |d| - 1
  {
    RunKeepsInv([], steps, d);
  }

  // ── Winding down ──

  function Cost(g: Generation): nat {
    match g.phase case Joining => 2 case Encoding => 1 case Finished => 0
  }

  /** Worker steps still to come. */
  function Remaining(c: Chain): nat {
    if c == [] then 0 else Remaining(c[..|c| - 1]) + Cost(c[|c| - 1])
  }

  ghost predicate AllTold(c: Chain) {
    forall i | 0 <= i < |c| :: c[i].stop || c[i].phase.Finished?
  }

  lemma {:induction false} CheaperStep(c: Chain, i: nat, g: Generation)
    requires i < |c| && Cost(g) < Cost(c[i])
    ensures Remaining(c[i := g]) < Remaining(c)
    decreases |c|
  {
    if i < |c| - 1 {
      CheaperStep(c[..|c| - 1], i, g);
      assert c[i := g][..|c| - 1] == c[..|c| - 1][i := g];
    } else {
      assert c[i := g][..|c| - 1] == c[..|c| - 1];
    }
  }

  lemma {:induction false} NothingRemaining(c: Chain)
    ensures Remaining(c) == 0 <==> forall i | 0 <= i < |c| :: c[i].phase.Finished?
  {
    if c == [] {
    } else {
      NothingRemaining(c[..|c| - 1]);
      assert forall i | 0 <= i < |c| :: i < |c| - 1 ==> c[i] == c[..|c| - 1][i];
    }
  }

  /**
   Once stop is the last call, every worker step lowers the measure, and as long as a generation
   is unfinished some worker step is possible: the chain winds down to no live generation.
   */
  lemma StopWindsDown(steps: seq<Step>, c: Chain)
    requires Run([], steps, c) && AllTold(c)
    ensures forall step | Enabled(c, step) && !step.Start? && !step.Stop? ::
      Remaining(After(c, step)) < Remaining(c) && AllTold(After(c, step))
    ensures Remaining(c) > 0 ==> exists step :: Enabled(c, step) && !step.Start? && !step.Stop?
    ensures Remaining(c) == 0 ==> forall i | 0 <= i < |c| :: !Live(c[i])
  {
    RunKeepsInv([], steps, c);
    NothingRemaining(c);
    forall step | Enabled(c, step) && !step.Start? && !step.Stop?
      ensures Remaining(After(c, step)) < Remaining(c) && AllTold(After(c, step))
    {
      CheaperStep(c, step.i, After(c, step)[step.i]);
    }
    if Remaining(c) > 0 {
      var i :| 0 <= i < |c| && Live(c[i]);
      var first := FirstLive(c, i);
      assert Enabled(c, if c[first].phase.Joining? then Join(first) else Quit(first));
    }
  }

  /** So however the scheduler picks, only boundedly many worker steps are left after the last call. */
  lemma {:induction false} WorkersFinish(c: Chain, steps: seq<Step>, d: Chain)
    requires Run(c, steps, d) && forall step | step in steps :: !step.Start? && !step.Stop?
    ensures |steps| + Remaining(d) <= Remaining(c)
    decreases |steps|
  {
    if steps == [] {
    } else {
      var step := steps[0];
      assert step in steps;
      CheaperStep(c, step.i, After(c, step)[step.i]);
      forall later | later in steps[1..] ensures !later.Start? && !later.Stop? {
        assert later in steps;
      }
      WorkersFinish(After(c, step), steps[1..], d);
    }
  }

  lemma {:induction false} FirstLive(c: Chain, i: nat) returns (first: nat)
    requires i < |c| && Live(c[i])
    ensures first <= i && Live(c[first]) && forall j | 0 <= j < first :: !Live(c[j])
    decreases i
  {
    if j :| 0 <= j < i && Live(c[j]) {
      first := FirstLive(c, j);
    } else {
      first := i;
    }
  }

  /** A stop tells everyone: the older generations were told when their successor was started. */
  lemma StopTellsAll(steps: seq<Step>, c: Chain)
    requires Run([], steps, c)
    ensures AllTold(Stopped(c))
  {
    RunKeepsInv([], steps, c);
  }

  /** A start gets its encoder: left to themselves, the workers come to the newest generation encoding. */
  lemma StartedWorkerEncodes(before: seq<Step>, c: Chain) returns (steps: seq<Step>, d: Chain)
    requires Run([], before, c)
    ensures Run(Started(c), steps, d) && forall step | step in steps :: step.Join? || step.Quit?
    ensures d != [] && d[|d| - 1].phase.Encoding? && !d[|d| - 1].stop && |d| == |Started(c)|
  {
    RunKeepsInv([], before, c);
    assert Run(c, [Start], Started(c));
    RunKeepsInv(c, [Start], Started(c));
    steps, d := NewestEncodes(Started(c));
  }

  lemma {:induction false} NewestEncodes(c: Chain) returns (steps: seq<Step>, d: Chain)
    requires Inv(c) && Serving(c)
    ensures Run(c, steps, d) && forall step | step in steps :: step.Join? || step.Quit?
    ensures |d| == |c| && d[|d| - 1].phase.Encoding? && !d[|d| - 1].stop
    decreases Remaining(c)
  {
    if c[|c| - 1].phase.Encoding? {
      steps, d := [], c;
    } else {
      var first := FirstLive(c, |c| - 1);
      var step := if c[first].phase.Joining? then Join(first) else Quit(first);
      var next := After(c, step);
      CheaperStep(c, first, next[first]);
      var rest;
      rest, d := NewestEncodes(next);
      steps := [step] + rest;
      assert steps[1..] == rest;
    }
  }
}
