/**
 The analysis flag in the settings file (`persist_settings` in analyzer/server.py, `save` in
 analyzer/settings.py), over the pipeline protocol. A handler that has written the flag reads it again for the
 file, writes the file under a lock of its own, and only then runs its callback; other settings are
 saved in the same way. What is read and what is set when it is written can differ.
 */
module FlagFile {
  import opened Options
  import P = Pipeline

  /** A handler that has to save: before it reads the flag, or with what it read. */
  datatype Saving = Unread | Read(flag: bool)

  /**
   `saving` are the handlers that have not saved yet. `stale` is history: the latest save to end
   left another flag in the file than was set just then.
   */
  datatype State = State(p: P.State, saving: map<P.Thread, Saving>, persisted: bool, stale: bool)

  datatype Step =
    | Core(step: P.Step)
    | ChangeSetting(t: P.Thread)    // /prompt or /presets
    | Sample(t: P.Thread)           // persist_settings evaluates its arguments
    | Save(t: P.Thread)
    | SaveFails(t: P.Thread)        // an OSError, logged and swallowed

  /** The step of a handler that comes after its save. */
  predicate Callback(step: P.Step) {
    step.CallStart? || step.CheckInactive?
  }

  predicate Enabled(s: State, step: Step) {
    match step
    case Core(st) =>
      && P.Enabled(s.p, st) && (Callback(st) ==> st.t !in s.saving)
      && (st.RaiseFlag? || st.DropFlag? ==> st.t !in s.saving)
    case ChangeSetting(t) => t !in s.saving && t !in s.p.threads
    case Sample(t) => t in s.saving && s.saving[t].Unread?
    case Save(t) => t in s.saving && s.saving[t].Read?
    case SaveFails(t) => t in s.saving && s.saving[t].Read?
  }

  function Ended(s: State, t: P.Thread, persisted: bool): State {
    State(s.p, s.saving - {t}, persisted, persisted != s.p.active)
  }

  function After(s: State, step: Step): State
    requires Enabled(s, step)
  {
    match step
    case Core(st) =>
      s.(p := P.After(s.p, st), saving := if st.RaiseFlag? || st.DropFlag? then s.saving[st.t := Unread] else s.saving)
    case ChangeSetting(t) => s.(saving := s.saving[t := Unread])
    case Sample(t) => s.(saving := s.saving[t := Read(s.p.active)])
    case Save(t) => Ended(s, t, s.saving[t].flag)
    case SaveFails(t) => Ended(s, t, s.persisted)
  }

  ghost predicate Run(s: State, steps: seq<Step>, t: State)
    decreases |steps|
  {
    if steps == [] then s == t else Enabled(s, steps[0]) && Run(After(s, steps[0]), steps[1..], t)
  }

  /** The process has come up with the flag of the file. */
  ghost predicate Init(s: State) {
    P.Init(s.p) && s.saving == map[] && s.persisted == s.p.active && !s.stale
  }

  // ── The pipeline protocol is undisturbed ──

  function Cores(steps: seq<Step>): seq<P.Step> {
    if steps == [] then []
    else if steps[0].Core? then [steps[0].step] + Cores(steps[1..])
    else Cores(steps[1..])
  }

  /** Seen without the file, a run is a run of the pipeline protocol, and all that is proved of those holds. */
  lemma {:induction false} RunsProject(s: State, steps: seq<Step>, t: State)
    requires Run(s, steps, t)
    ensures P.Run(s.p, Cores(steps), t.p)
    decreases |steps|
  {
    if steps == [] {
    } else {
      RunsProject(After(s, steps[0]), steps[1..], t);
      if steps[0].Core? {
        assert Cores(steps)[1..] == Cores(steps[1..]);
      }
    }
  }

  // ── When the file agrees ──

  /** A core step leaves the flag alone unless it raises or drops it. */
  lemma FlagChangesOnlyBy(s: P.State, step: P.Step)
    requires P.Enabled(s, step) && !step.RaiseFlag? && !step.DropFlag?
    ensures P.After(s, step).active == s.active
  {
  }

  /** No change of the flag is without a save that ends after it, or will. */
  ghost predicate FileInv(s: State) {
    (s.persisted == s.p.active <==> !s.stale) || s.saving != map[]
  }

  lemma StepKeepsFile(s: State, step: Step)
    requires FileInv(s) && Enabled(s, step)
    ensures FileInv(After(s, step))
  {
    if step.Core? {
      var st := step.step;
      if st.RaiseFlag? || st.DropFlag? {
        assert st.t in After(s, step).saving;
      } else {
        FlagChangesOnlyBy(s.p, st);
      }
    } else if step.ChangeSetting? || step.Sample? {
      assert step.t in After(s, step).saving;
    }
  }

  lemma {:induction false} RunKeepsFile(s: State, steps: seq<Step>, t: State)
    requires FileInv(s) && Run(s, steps, t)
    ensures FileInv(t)
    decreases |steps|
  {
    if steps == [] {
    } else {
      StepKeepsFile(s, steps[0]);
      RunKeepsFile(After(s, steps[0]), steps[1..], t);
    }
  }

  /** No handler is in flight. */
  predicate Quiet(s: State) {
    s.p.threads == map[] && s.saving == map[]
  }

  /**
   Once quiet, the file has the flag that is set in memory if and only if the last save to end had
   left in it what was set at that moment.
   */
  lemma FileAgreesIff(z: State, steps: seq<Step>, t: State)
    requires Init(z) && Run(z, steps, t) && Quiet(t)
    ensures t.persisted == t.p.active <==> !t.stale
  {
    RunKeepsFile(z, steps, t);
  }

  /** The save writes a flag that has been changed since it was read, or writes nothing. */
  predicate SavesLate(s: State, step: Step)
    requires Enabled(s, step)
  {
    step.SaveFails? || (step.Save? && s.saving[step.t].flag != s.p.active)
  }

  ghost predicate SavesInTime(s: State, steps: seq<Step>)
    decreases |steps|
  {
    steps == [] || (Enabled(s, steps[0]) && !SavesLate(s, steps[0]) && SavesInTime(After(s, steps[0]), steps[1..]))
  }

  /**
   So where every save writes what is set as it writes, once booted and quiet the file, the flag
   and the pipeline agree, unless the latest build raised.
   */
  lemma FilePipelineAndFlagAgree(z: State, steps: seq<Step>, t: State)
    requires Init(z) && Run(z, steps, t) && SavesInTime(z, steps) && Quiet(t)
    ensures t.persisted == t.p.active
    ensures t.p.boot.Booted? && !t.p.buildFailed ==> (t.persisted <==> t.p.pipeline.Some?)
  {
    NeverStale(z, steps, t);
    FileAgreesIff(z, steps, t);
    if t.p.boot.Booted? {
      RunsProject(z, steps, t);
      P.LatestFlagWins(z.p, Cores(steps), t.p);
    }
  }

  lemma {:induction false} NeverStale(s: State, steps: seq<Step>, t: State)
    requires !s.stale && Run(s, steps, t) && SavesInTime(s, steps)
    ensures !t.stale
    decreases |steps|
  {
    if steps == [] {
    } else {
      NeverStale(After(s, steps[0]), steps[1..], t);
    }
  }

  // ── When it does not ──

  lemma {:induction false} RunsCompose(s: State, first: seq<Step>, mid: State, second: seq<Step>, t: State)
    requires Run(s, first, mid) && Run(mid, second, t)
    ensures Run(s, first + second, t)
    decreases |first|
  {
    if first == [] {
      assert first + second == second;
    } else {
      RunsCompose(After(s, first[0]), first[1..], mid, second, t);
      assert (first + second)[1..] == first[1..] + second;
    }
  }

  lemma Then(s: State, steps: seq<Step>, mid: State, step: Step) returns (longer: seq<Step>, t: State)
    requires Run(s, steps, mid) && Enabled(mid, step)
    ensures longer == steps + [step] && t == After(mid, step) && Run(s, longer, t)
  {
    longer, t := steps + [step], After(mid, step);
    assert [step][1..] == [];
    RunsCompose(s, steps, mid, [step], t);
  }

  /** A request that nothing comes between puts its own flag into the file. */
  lemma UndisturbedRequestIsSaved(s: State, k: P.Thread, up: bool) returns (steps: seq<Step>, t: State)
    requires Quiet(s)
    ensures Run(s, steps, t) && t.persisted == up == t.p.active && t.saving == map[] && !t.stale
    ensures t.p == s.p.(active := up, threads := map[k := if up then P.Raised else P.Dropped])
  {
    steps, t := Then(s, [], s, Core(if up then P.RaiseFlag(k) else P.DropFlag(k)));
    assert t.p.threads == map[k := if up then P.Raised else P.Dropped];
    steps, t := Then(s, steps, t, Sample(k));
    steps, t := Then(s, steps, t, Save(k));
    assert t.saving == map[];
  }

  /** A save that fails leaves the file alone. */
  lemma FailedSaveLeavesTheFile(s: State, k: P.Thread)
    requires Enabled(s, SaveFails(k))
    ensures var t := After(s, SaveFails(k));
            t.persisted == s.persisted && t.p == s.p && t.saving == s.saving - {k}
  {
  }

  /** A start that has read the flag for the file, and writes it after the stop that follows has written. */
  lemma OvertakenSave(z: State) returns (steps: seq<Step>, t: State)
    requires Init(z)
    ensures Run(z, steps, t) && t.persisted && t.saving == map[]
    ensures t.p == z.p.(active := false, threads := map[0 := P.Raised, 1 := P.Dropped])
  {
    steps, t := Then(z, [], z, Core(P.RaiseFlag(0)));
    steps, t := Then(z, steps, t, Sample(0));
    steps, t := Then(z, steps, t, Core(P.DropFlag(1)));
    assert t.saving == map[0 := Read(true), 1 := Unread];
    steps, t := Then(z, steps, t, Sample(1));
    steps, t := Then(z, steps, t, Save(1));
    assert t.saving == map[0 := Read(true)];
    steps, t := Then(z, steps, t, Save(0));
  }

  /**
   The last request to change the flag was a stop, all is quiet, and the file says that analysis
   is on: a process that comes up again starts it.
   */
  lemma StoppedButSavedAsActive(z: State) returns (steps: seq<Step>, t: State)
    requires Init(z)
    ensures Run(z, steps, t) && Quiet(t) && !t.p.active && t.persisted
  {
    var overtaken, stopping;
    steps, overtaken := OvertakenSave(z);
    steps, stopping := Then(z, steps, overtaken, Core(P.CallStart(0)));
    assert stopping.p.threads == map[1 := P.Dropped];
    var stop;
    stop, t := StopEnds(stopping);
    RunsCompose(z, steps, stopping, stop, t);
    steps := steps + stop;
  }

  function AsCores(steps: seq<P.Step>): seq<Step> {
    if steps == [] then [] else [Core(steps[0])] + AsCores(steps[1..])
  }

  /** With no save outstanding, what the pipeline protocol can do without a new request happens. */
  lemma {:induction false} RunsLift(s: State, steps: seq<P.Step>, p: P.State)
    requires P.Run(s.p, steps, p) && s.saving == map[]
    requires forall step | step in steps :: !step.RaiseFlag? && !step.DropFlag?
    ensures Run(s, AsCores(steps), s.(p := p))
    decreases |steps|
  {
    if steps == [] {
    } else {
      assert steps[0] in steps;
      RunsLift(After(s, Core(steps[0])), steps[1..], p);
      assert AsCores(steps)[1..] == AsCores(steps[1..]);
    }
  }

  lemma StopEnds(s: State) returns (steps: seq<Step>, t: State)
    requires s.saving == map[] && s.p.threads == map[1 := P.Dropped] && !s.p.active
    requires s.p.pipelineLock == None && s.p.pipeline == None
    ensures Run(s, steps, t) && t == s.(p := t.p) && t.p == s.p.(threads := map[])
  {
    var stop, p := P.StopFindsNothing(s.p, 1);
    RunsLift(s, stop, p);
    steps, t := AsCores(stop), s.(p := p);
    assert p.threads == map[];
  }
}
