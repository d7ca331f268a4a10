/**
 Starting and stopping the analysis pipeline (analyzer/main.py, analyzer/server.py,
 analyzer/pipeline_lifecycle.py).

 Handler threads write the analysis flag outside both locks. _start_lock serializes whole
 restarts; _pipeline_lock guards the reference and is not held while a pipeline is torn down.
 Any number of /start and /stop handlers, watchdog restarts and the boot thread interleave.
 */
module Pipeline {
  import opened Options

  type Thread = nat
  type Pid = nat

  datatype Phase =
    | Raised                      // /start: flag set, callback not yet run
    | WaitStart                   // start_pipeline: before _start_lock
    | HasStart
    | Detached(taken: Option<Pid>)  // took the old pipeline out of the reference
    | Cleared                     // old one stopped, before the second critical section
    | Checked                     // holds _pipeline_lock and saw the flag set
    | Dropped                     // /stop: flag cleared, callback not yet run
    | Confirmed                   // holds _pipeline_lock and saw the flag clear
    | Stopping(taken: Option<Pid>)  // took the pipeline out, about to stop it

  /** The boot thread: the model loads, then the references are published, then it looks at the flag. */
  datatype Boot = Loading | Published | Booted

  // `playing` has an entry for every pipeline ever set PLAYING; false once set to NULL.
  // `ring` has the pipelines whose frames are in the inference ring. `buildFailed` is history:
  // the latest attempt to build a pipeline raised.
  datatype State = State(
    active: bool,
    pipeline: Option<Pid>,
    playing: map<Pid, bool>,
    startLock: Option<Thread>,
    pipelineLock: Option<Thread>,
    threads: map<Thread, Phase>,
    boot: Boot,
    ring: set<Pid>,
    buildFailed: bool)

  datatype Step =
    | RaiseFlag(t: Thread)
    | CallStart(t: Thread)
    | TakeStart(t: Thread)
    | Detach(t: Thread)
    | StopOld(t: Thread)
    | CheckActive(t: Thread)
    | Build(t: Thread, pid: Pid)
    | BuildFails(t: Thread)
    | DropFlag(t: Thread)
    | CheckInactive(t: Thread)
    | Withdraw(t: Thread)
    | StopHeld(t: Thread)
    | WatchdogFires(t: Thread)
    | Publish
    | BootLooks(t: Thread)
    | Frame(pid: Pid)             // a pipeline's callback pushes a frame

  predicate At(s: State, t: Thread, phase: Phase) {
    t in s.threads && s.threads[t] == phase
  }

  predicate Enabled(s: State, step: Step) {
    match step
    case RaiseFlag(t) => t !in s.threads
    case CallStart(t) => At(s, t, Raised)
    case TakeStart(t) => At(s, t, WaitStart) && s.startLock == None
    case Detach(t) => At(s, t, HasStart) && s.pipelineLock == None
    case StopOld(t) => t in s.threads && s.threads[t].Detached?
    case CheckActive(t) => At(s, t, Cleared) && s.pipelineLock == None
    case Build(t, pid) => At(s, t, Checked) && pid !in s.playing
    case BuildFails(t) => At(s, t, Checked)
    case DropFlag(t) => t !in s.threads
    case CheckInactive(t) => At(s, t, Dropped) && s.pipelineLock == None
    case Withdraw(t) => At(s, t, Confirmed)
    case StopHeld(t) => t in s.threads && s.threads[t].Stopping?
    case WatchdogFires(t) => t !in s.threads && s.pipelineLock == None && s.pipeline.Some? && s.boot != Loading
    case Publish => s.boot.Loading?
    case BootLooks(t) => t !in s.threads && s.boot.Published?
    case Frame(pid) => pid in s.playing && s.playing[pid]
  }

  function Goto(s: State, t: Thread, phase: Phase): State {
    s.(threads := s.threads[t := phase])
  }

  function Leave(s: State, t: Thread): State {
    s.(threads := s.threads - {t})
  }

  /** set_state(NULL) on a pipeline a thread took out of the reference. */
  function Stopped(s: State, taken: Option<Pid>): State {
    if taken.Some? then s.(playing := s.playing[taken.value := false]) else s
  }

  function After(s: State, step: Step): State
    requires Enabled(s, step)
  {
    match step
    case RaiseFlag(t) => Goto(s, t, Raised).(active := true)
    case CallStart(t) => if s.boot.Loading? then Leave(s, t) else Goto(s, t, WaitStart)
    case TakeStart(t) => Goto(s, t, HasStart).(startLock := Some(t))
    case Detach(t) => Goto(s, t, Detached(s.pipeline)).(pipeline := None)
    case StopOld(t) => Goto(Stopped(s, s.threads[t].taken), t, Cleared)
    case CheckActive(t) =>
      if s.active then Goto(s, t, Checked).(pipelineLock := Some(t)) else Leave(s, t).(startLock := None)
    case Build(t, pid) =>
      Leave(s, t).(pipeline := Some(pid), playing := s.playing[pid := true],
                   startLock := None, pipelineLock := None, ring := {}, buildFailed := false)
    case BuildFails(t) => Leave(s, t).(startLock := None, pipelineLock := None, buildFailed := true)
    case DropFlag(t) => Goto(s, t, Dropped).(active := false)
    case CheckInactive(t) => if s.active then Leave(s, t) else Goto(s, t, Confirmed).(pipelineLock := Some(t))
    case Withdraw(t) => Goto(s, t, Stopping(s.pipeline)).(pipeline := None, pipelineLock := None)
    case StopHeld(t) => Leave(Stopped(s, s.threads[t].taken), t)
    case WatchdogFires(t) => Goto(s, t, WaitStart)
    case Publish => s.(boot := Published)
    case BootLooks(t) => if s.active then Goto(s, t, WaitStart).(boot := Booted) else s.(boot := Booted)
    case Frame(pid) => s.(ring := s.ring + {pid})
  }

  // ── The invariant ──

  predicate Restarting(phase: Phase) {
    phase.HasStart? || phase.Detached? || phase.Cleared? || phase.Checked?
  }

  ghost predicate StartLockInv(s: State) {
    && (forall t | t in s.threads :: (Restarting(s.threads[t]) <==> s.startLock == Some(t)))
    && (s.startLock.Some? ==> s.startLock.value in s.threads)
    && (forall t | t in s.threads && Restarting(s.threads[t]) && !s.threads[t].HasStart? :: s.pipeline.None?)
  }

  ghost predicate PipelineLockInv(s: State) {
    && (forall t | t in s.threads :: (s.threads[t].Checked? || s.threads[t].Confirmed? <==> s.pipelineLock == Some(t)))
    && (s.pipelineLock.Some? ==> s.pipelineLock.value in s.threads)
  }

  ghost predicate LockInv(s: State) {
    StartLockInv(s) && PipelineLockInv(s)
  }

  /** Thread t took p out of the reference and is about to stop it. */
  predicate Holds(s: State, t: Thread, p: Pid) {
    t in s.threads && (s.threads[t].Detached? || s.threads[t].Stopping?) && s.threads[t].taken == Some(p)
  }

  ghost predicate HandsInv(s: State) {
    && (s.pipeline.Some? ==> s.pipeline.value in s.playing && s.playing[s.pipeline.value])
    && (forall t, p | Holds(s, t, p) :: p in s.playing && s.playing[p] && s.pipeline != Some(p))
    && (forall t, u, p | Holds(s, t, p) && Holds(s, u, p) :: t == u)
  }

  ghost predicate OwnerInv(s: State) {
    HandsInv(s) && forall p | p in s.playing && s.playing[p] :: s.pipeline == Some(p) || exists t :: Holds(s, t, p)
  }

  predicate WillStop(s: State, t: Thread) {
    t in s.threads && (s.threads[t].Dropped? || s.threads[t].Confirmed?)
  }

  predicate WillStart(s: State, t: Thread) {
    && t in s.threads
    && (s.threads[t].Raised? || s.threads[t].WaitStart? || Restarting(s.threads[t]))
  }

  /** A clear flag with a pipeline up, or coming up, is some stop handler's unfinished business. */
  ghost predicate StopInv(s: State) {
    && (!s.active && s.pipeline.Some? ==> exists t :: WillStop(s, t))
    && (forall t | At(s, t, Checked) && !s.active :: exists u :: WillStop(s, u))
  }

  /** A set flag without a pipeline, or about to lose it, is some start's unfinished business. */
  ghost predicate StartInv(s: State) {
    && (s.active && s.pipeline.None? ==> s.buildFailed || !s.boot.Booted? || exists t :: WillStart(s, t))
    && (forall t | At(s, t, Confirmed) && s.active :: !s.boot.Booted? || exists u :: WillStart(s, u))
  }

  ghost predicate Inv(s: State) {
    LockInv(s) && OwnerInv(s) && StopInv(s) && StartInv(s)
  }

  ghost predicate Init(s: State) {
    && s.pipeline == None && s.playing == map[] && s.startLock == None && s.pipelineLock == None
    && s.threads == map[] && s.boot == Loading && s.ring == {}
  }

  lemma StepKeepsStartLock(s: State, step: Step)
    requires StartLockInv(s) && Enabled(s, step)
    ensures StartLockInv(After(s, step))
  {
  }

  lemma StepKeepsPipelineLock(s: State, step: Step)
    requires PipelineLockInv(s) && Enabled(s, step)
    ensures PipelineLockInv(After(s, step))
  {
  }

  /** A pipeline gets into hands only out of the reference, and leaves them only by being stopped. */
  lemma HoldsComesFrom(s: State, step: Step, t: Thread, p: Pid)
    requires HandsInv(s) && Enabled(s, step) && Holds(After(s, step), t, p)
    ensures Holds(s, t, p) || (s.pipeline == Some(p) && (step == Detach(t) || step == Withdraw(t)))
    ensures p in After(s, step).playing && After(s, step).playing[p] && After(s, step).pipeline != Some(p)
  {
    if (step.StopOld? || step.StopHeld?) && s.threads[step.t].taken == Some(p) {
      assert Holds(s, step.t, p);
    }
  }

  lemma StepKeepsHands(s: State, step: Step)
    requires HandsInv(s) && Enabled(s, step)
    ensures HandsInv(After(s, step))
  {
    var s' := After(s, step);
    forall t, p | Holds(s', t, p) ensures p in s'.playing && s'.playing[p] && s'.pipeline != Some(p) {
      HoldsComesFrom(s, step, t, p);
    }
    forall t, u, p | Holds(s', t, p) && Holds(s', u, p) ensures t == u {
      HoldsComesFrom(s, step, t, p);
      HoldsComesFrom(s, step, u, p);
    }
    if (step.StopOld? || step.StopHeld?) && s.threads[step.t].taken.Some? {
      assert Holds(s, step.t, s.threads[step.t].taken.value);
    }
  }

  /** Whoever has a pipeline in hand keeps it until he stops it. */
  lemma HandStays(s: State, step: Step, k: Thread, p: Pid)
    requires Enabled(s, step) && Holds(s, k, p)
    ensures var s' := After(s, step); Holds(s', k, p) || (p in s'.playing && !s'.playing[p])
  {
  }

  /** The reference is emptied only into somebody's hands. */
  lemma ReferenceGoesToHands(s: State, step: Step, p: Pid)
    requires StartLockInv(s) && Enabled(s, step) && s.pipeline == Some(p)
    ensures var s' := After(s, step); s'.pipeline == Some(p) || exists k :: Holds(s', k, p)
  {
    var s' := After(s, step);
    if step.Detach? || step.Withdraw? {
      assert Holds(s', step.t, p);
    }
  }

  lemma StepKeepsOwners(s: State, step: Step)
    requires StartLockInv(s) && OwnerInv(s) && Enabled(s, step)
    ensures OwnerInv(After(s, step))
  {
    var s' := After(s, step);
    StepKeepsHands(s, step);
    forall p | p in s'.playing && s'.playing[p] && s'.pipeline != Some(p) ensures exists k :: Holds(s', k, p) {
      OnlyBuildPlays(s, step, p);
      if s.pipeline == Some(p) {
        ReferenceGoesToHands(s, step, p);
      } else {
        var k :| Holds(s, k, p);
        HandStays(s, step, k, p);
      }
    }
  }

  lemma OnlyBuildPlays(s: State, step: Step, p: Pid)
    requires Enabled(s, step) && p in After(s, step).playing && After(s, step).playing[p]
    ensures (p in s.playing && s.playing[p]) || After(s, step).pipeline == Some(p)
  {
  }

  lemma StepKeepsStops(s: State, step: Step)
    requires LockInv(s) && StopInv(s) && Enabled(s, step)
    ensures StopInv(After(s, step))
  {
    var s' := After(s, step);
    if step.DropFlag? {
      assert WillStop(s', step.t);
    } else if !s'.active {
      forall k | At(s', k, Checked) ensures exists u :: WillStop(s', u) {
        assert At(s, k, Checked);
        var u :| WillStop(s, u);
        assert WillStop(s', u);
      }
      if s'.pipeline.Some? {
        assert step.Build? ==> At(s, step.t, Checked);
        var u :| WillStop(s, u);
        assert WillStop(s', u);
      }
    }
  }

  lemma StepKeepsStarts(s: State, step: Step)
    requires LockInv(s) && StartInv(s) && Enabled(s, step)
    ensures StartInv(After(s, step))
  {
    var s' := After(s, step);
    if step.RaiseFlag? || step.Detach? || step.WatchdogFires? || (step.BootLooks? && s.active) {
      assert WillStart(s', step.t);
    } else if s'.active && s'.boot.Booted? {
      forall k | At(s', k, Confirmed) ensures exists u :: WillStart(s', u) {
        assert At(s, k, Confirmed);
        var u :| WillStart(s, u);
        assert WillStart(s', u);
      }
      if s'.pipeline.None? && !s'.buildFailed {
        assert step.Withdraw? ==> At(s, step.t, Confirmed);
        var u :| WillStart(s, u);
        assert WillStart(s', u);
      }
    }
  }

  lemma StepKeepsInv(s: State, step: Step)
    requires Inv(s) && Enabled(s, step)
    ensures Inv(After(s, step))
  {
    StepKeepsStartLock(s, step);
    StepKeepsPipelineLock(s, step);
    StepKeepsOwners(s, step);
    StepKeepsStops(s, step);
    StepKeepsStarts(s, step);
  }

  // ── Whole runs ──

  ghost predicate Run(s: State, steps: seq<Step>, t: State)
    decreases |steps|
  {
    if steps == [] then s == t else Enabled(s, steps[0]) && Run(After(s, steps[0]), steps[1..], t)
  }

  lemma {:induction false} RunKeepsInv(s: State, steps: seq<Step>, t: State)
    requires Inv(s) && Run(s, steps, t)
    ensures Inv(t)
    decreases |steps|
  {
    if steps == [] {
    } else {
      StepKeepsInv(s, steps[0]);
      RunKeepsInv(After(s, steps[0]), steps[1..], t);
    }
  }

  /**
   No pipeline is ever lost: one that was set PLAYING is the referenced one, or in the hands of
   exactly one thread that is about to stop it, or stopped.
   */
  lemma EveryPipelineIsAccountedFor(s: State, steps: seq<Step>, t: State, p: Pid)
    requires Init(s) && Run(s, steps, t) && p in t.playing
    ensures !t.playing[p] || t.pipeline == Some(p) || exists k :: Holds(t, k, p)
    ensures t.pipeline == Some(p) ==> t.playing[p] && forall k :: !Holds(t, k, p)
    ensures forall k, j | Holds(t, k, p) && Holds(t, j, p) :: k == j
    ensures forall k | Holds(t, k, p) :: t.playing[p]
  {
    RunKeepsInv(s, steps, t);
  }

  /**
   Latest flag wins, in both directions: once booted and with no handler in flight, a pipeline is
   referenced exactly when the flag is set, unless the latest build raised; and nothing else plays.
   */
  lemma LatestFlagWins(s: State, steps: seq<Step>, t: State)
    requires Init(s) && Run(s, steps, t) && t.threads == map[] && t.boot == Booted
    ensures t.pipeline.Some? ==> t.active
    ensures t.active ==> t.pipeline.Some? || t.buildFailed
    ensures forall p | p in t.playing && t.playing[p] :: t.pipeline == Some(p)
  {
    RunKeepsInv(s, steps, t);
  }

  // ── What the requests come to ──

  lemma RunsCompose(s: State, first: seq<Step>, mid: State, second: seq<Step>, t: State)
    requires Run(s, first, mid) && Run(mid, second, t)
    ensures Run(s, first + second, t)
    decreases |first|
  {
    if first == [] {
      assert first + second == second;
    } else {
      RunsCompose(After(s, first[0]), first[1..], mid, second, t);
      assert (first + second)[1..] == first[1..] + second;
    }
  }

  lemma Then(s: State, steps: seq<Step>, mid: State, step: Step) returns (longer: seq<Step>, t: State)
    requires Run(s, steps, mid) && Enabled(mid, step)
    ensures longer == steps + [step] && t == After(mid, step) && Run(s, longer, t)
  {
    longer, t := steps + [step], After(mid, step);
    assert [step][1..] == [];
    RunsCompose(s, steps, mid, [step], t);
  }

  /** The pipelines that play when the referenced one, if any, has been stopped. */
  function Silenced(s: State): map<Pid, bool> {
    map p | p in s.playing :: s.playing[p] && s.pipeline != Some(p)
  }

  /** Nothing but the pipelines and the flag is different, and thread k has gone. */
  predicate ThreadDone(s: State, t: State, k: Thread) {
    t.threads == s.threads - {k} && t.startLock == None && t.pipelineLock == None && t.boot == s.boot
  }

  /** The referenced pipeline is stopped, by a thread that holds _start_lock. */
  lemma RestartStopsTheOld(s: State, k: Thread) returns (steps: seq<Step>, t: State)
    requires At(s, k, WaitStart) && s.startLock == None && s.pipelineLock == None
    requires s.pipeline.Some? ==> s.pipeline.value in s.playing
    ensures Run(s, steps, t)
    ensures t == s.(threads := s.threads[k := Cleared], startLock := Some(k), pipeline := None, playing := Silenced(s))
  {
    steps, t := Then(s, [], s, TakeStart(k));
    steps, t := Then(s, steps, t, Detach(k));
    steps, t := Then(s, steps, t, StopOld(k));
    assert t.playing == Silenced(s);
    assert t.threads == s.threads[k := Cleared];
  }

  lemma ClearedBuilds(s: State, k: Thread, pid: Pid) returns (steps: seq<Step>, t: State)
    requires At(s, k, Cleared) && s.startLock == Some(k) && s.pipelineLock == None && pid !in s.playing
    ensures Run(s, steps, t) && ThreadDone(s, t, k) && t.active == s.active
    ensures s.active ==>
              t.pipeline == Some(pid) && t.playing == s.playing[pid := true] && t.ring == {} && !t.buildFailed
    ensures !s.active ==> t.pipeline == s.pipeline && t.playing == s.playing && t.ring == s.ring
  {
    steps, t := Then(s, [], s, CheckActive(k));
    if s.active {
      steps, t := Then(s, steps, t, Build(k, pid));
    }
    assert t.threads == s.threads - {k};
  }

  /** A build that raises leaves no pipeline behind and both locks free, so that a later start can try again. */
  lemma FailedBuildLeavesNothing(s: State, k: Thread) returns (steps: seq<Step>, t: State)
    requires At(s, k, Cleared) && s.startLock == Some(k) && s.pipelineLock == None && s.active && s.pipeline == None
    ensures Run(s, steps, t) && ThreadDone(s, t, k) && t.active && t.buildFailed
    ensures t.pipeline == None && t.playing == s.playing
  {
    steps, t := Then(s, [], s, CheckActive(k));
    steps, t := Then(s, steps, t, BuildFails(k));
    assert t.threads == s.threads - {k};
  }

  /**
   A restart that nothing disturbs, whoever asked for it: the old pipeline is stopped, and a new one
   is referenced and plays, with an empty ring, if and only if the flag is set.
   */
  lemma RestartReplaces(s: State, k: Thread, pid: Pid) returns (steps: seq<Step>, t: State)
    requires At(s, k, WaitStart) && s.startLock == None && s.pipelineLock == None && pid !in s.playing
    requires s.pipeline.Some? ==> s.pipeline.value in s.playing
    ensures Run(s, steps, t) && ThreadDone(s, t, k) && t.active == s.active
    ensures s.active ==> t.pipeline == Some(pid) && t.ring == {} && !t.buildFailed
    ensures !s.active ==> t.pipeline == None && t.ring == s.ring
    ensures forall p ::
              p in t.playing && t.playing[p]
              <==> (p in s.playing && s.playing[p] && s.pipeline != Some(p)) || (s.active && p == pid)
  {
    var clearing, cleared := RestartStopsTheOld(s, k);
    steps, t := ClearedBuilds(cleared, k, pid);
    RunsCompose(s, clearing, cleared, steps, t);
    steps := clearing + steps;
  }

  /** A start: the flag is set, the old pipeline is stopped, the new one is referenced and plays. */
  lemma UndisturbedStart(s: State, k: Thread, pid: Pid) returns (steps: seq<Step>, t: State)
    requires Inv(s) && s.threads == map[] && !s.boot.Loading? && pid !in s.playing
    ensures Run(s, steps, t) && ThreadDone(s, t, k) && t.active && steps != [] && steps[0] == RaiseFlag(k)
    ensures t.pipeline == Some(pid) && t.ring == {} && !t.buildFailed
    ensures forall p :: p in t.playing && t.playing[p] <==> p == pid
  {
    var raising, raised := Then(s, [], s, RaiseFlag(k));
    var calling, waiting := Then(s, raising, raised, CallStart(k));
    assert waiting.threads == map[k := WaitStart];
    var rest;
    rest, t := RestartReplaces(waiting, k, pid);
    RunsCompose(s, calling, waiting, rest, t);
    steps := calling + rest;
    NothingElsePlays(s);
  }

  /** A watchdog restart replaces a pipeline that delivers nothing. */
  lemma UndisturbedWatchdog(s: State, k: Thread, pid: Pid) returns (steps: seq<Step>, t: State)
    requires Inv(s) && s.threads == map[] && Enabled(s, WatchdogFires(k)) && s.active && pid !in s.playing
    ensures Run(s, steps, t) && ThreadDone(s, t, k) && t.active && steps != [] && steps[0] == WatchdogFires(k)
    ensures t.pipeline == Some(pid) && t.ring == {}
    ensures forall p :: p in t.playing && t.playing[p] <==> p == pid
  {
    var firing, waiting := Then(s, [], s, WatchdogFires(k));
    assert waiting.threads == map[k := WaitStart];
    var rest;
    rest, t := RestartReplaces(waiting, k, pid);
    RunsCompose(s, firing, waiting, rest, t);
    steps := firing + rest;
    NothingElsePlays(s);
  }

  /** A start before the model is loaded is only noted; the boot thread then acts on the flag. */
  lemma EarlyStartIsHonoured(z: State, k: Thread, pid: Pid) returns (steps: seq<Step>, t: State)
    requires Init(z)
    ensures Run(z, steps, t) && t.threads == map[] && t.active && t.boot.Booted?
    ensures t.pipeline == Some(pid) && forall p :: p in t.playing && t.playing[p] <==> p == pid
  {
    var noting, noted := EarlyStartIsNoted(z, k);
    var looking, looked := Then(z, noting, noted, Publish);
    looking, looked := Then(z, looking, looked, BootLooks(k));
    assert looked.threads == map[k := WaitStart];
    steps, t := RestartReplaces(looked, k, pid);
    RunsCompose(z, looking, looked, steps, t);
    steps := looking + steps;
  }

  lemma EarlyStartIsNoted(z: State, k: Thread) returns (steps: seq<Step>, t: State)
    requires Init(z)
    ensures Run(z, steps, t) && t == z.(active := true)
  {
    steps, t := Then(z, [], z, RaiseFlag(k));
    steps, t := Then(z, steps, t, CallStart(k));
    assert t.threads == map[];
  }

  /** With no handler in flight only the referenced pipeline plays. */
  lemma NothingElsePlays(s: State)
    requires Inv(s) && s.threads == map[]
    ensures forall p | p in s.playing && s.playing[p] :: s.pipeline == Some(p)
  {
  }

  /** A stop: the flag is down, the pipeline is stopped and no longer referenced. */
  lemma UndisturbedStop(s: State, k: Thread) returns (steps: seq<Step>, t: State)
    requires Inv(s) && s.threads == map[]
    ensures Run(s, steps, t) && ThreadDone(s, t, k) && !t.active && steps != [] && steps[0] == DropFlag(k)
    ensures t.pipeline == None && t.ring == s.ring
    ensures forall p :: !(p in t.playing && t.playing[p])
  {
    var dropping, dropped := Then(s, [], s, DropFlag(k));
    assert dropped.threads == map[k := Dropped];
    var rest;
    rest, t := DroppedStops(dropped, k);
    RunsCompose(s, dropping, dropped, rest, t);
    steps := dropping + rest;
    NothingElsePlays(s);
  }

  lemma DroppedStops(s: State, k: Thread) returns (steps: seq<Step>, t: State)
    requires At(s, k, Dropped) && !s.active && s.pipelineLock == None
    requires s.pipeline.Some? ==> s.pipeline.value in s.playing
    ensures Run(s, steps, t)
    ensures t == s.(pipeline := None, playing := Silenced(s), threads := s.threads - {k})
  {
    steps, t := Then(s, [], s, CheckInactive(k));
    steps, t := Then(s, steps, t, Withdraw(k));
    assert t == s.(pipeline := None, threads := s.threads[k := Stopping(s.pipeline)]);
    steps, t := Then(s, steps, t, StopHeld(k));
    assert t.playing == Silenced(s);
    assert t.threads == s.threads - {k};
  }

  // ── Frames of another pipeline ──

  ghost predicate NoBuild(steps: seq<Step>) {
    forall step | step in steps :: !step.Build?
  }

  /** Until the next build, no frame of another pipeline than the referenced one gets into the ring. */
  ghost predicate StaysPure(s: State) {
    forall steps, t | Run(s, steps, t) && NoBuild(steps) && t.pipeline.Some? :: t.ring <= {t.pipeline.value}
  }

  ghost predicate OnlyOne(s: State, pid: Pid) {
    && s.ring <= {pid} && (s.pipeline.Some? ==> s.pipeline.value == pid)
    && forall p | p in s.playing && s.playing[p] :: p == pid
  }

  lemma StepKeepsOnlyOne(s: State, step: Step, pid: Pid)
    requires OnlyOne(s, pid) && Enabled(s, step) && !step.Build?
    ensures OnlyOne(After(s, step), pid)
  {
  }

  lemma {:induction false} OnlyOneStays(s: State, steps: seq<Step>, t: State, pid: Pid)
    requires OnlyOne(s, pid) && Run(s, steps, t) && NoBuild(steps)
    ensures OnlyOne(t, pid)
    decreases |steps|
  {
    if steps == [] {
    } else {
      assert steps[0] in steps;
      forall step | step in steps[1..] ensures !step.Build? {
        assert step in steps;
      }
      StepKeepsOnlyOne(s, steps[0], pid);
      OnlyOneStays(After(s, steps[0]), steps[1..], t, pid);
    }
  }

  /**
   Clearing the ring at a start keeps older frames out exactly when no other thread has a pipeline
   in hand at that moment. A /stop that withdrew one and has not stopped it yet is enough to break it.
   */
  lemma RingIsPureIff(s: State, t: Thread, pid: Pid)
    requires Inv(s) && Enabled(s, Build(t, pid))
    ensures StaysPure(After(s, Build(t, pid))) <==> forall k, p :: !Holds(s, k, p)
  {
    var s' := After(s, Build(t, pid));
    if k, p :| Holds(s, k, p) {
      var s'' := After(s', Frame(p));
      assert Run(s', [Frame(p)], s'') by {
        assert [Frame(p)][1..] == [];
      }
      assert p in s''.ring && s''.pipeline == Some(pid) && p != pid;
      assert NoBuild([Frame(p)]);
    } else {
      assert s.pipeline.None?;
      assert OnlyOne(s', pid);
      forall steps, u | Run(s', steps, u) && NoBuild(steps) && u.pipeline.Some?
        ensures u.ring <= {u.pipeline.value}
      {
        OnlyOneStays(s', steps, u, pid);
      }
    }
  }

  // ── And it does happen ──

  /** A start by a new thread, up to where it is about to build; nothing was referenced before. */
  lemma StartReachesBuild(s: State, k: Thread) returns (steps: seq<Step>, t: State)
    requires k !in s.threads && s.startLock == None && s.pipelineLock == None && !s.boot.Loading? && s.pipeline == None
    ensures Run(s, steps, t)
    ensures t == s.(active := true, startLock := Some(k), pipelineLock := Some(k), threads := s.threads[k := Checked])
  {
    steps, t := Then(s, [], s, RaiseFlag(k));
    steps, t := Then(s, steps, t, CallStart(k));
    steps, t := Then(s, steps, t, TakeStart(k));
    steps, t := Then(s, steps, t, Detach(k));
    steps, t := Then(s, steps, t, StopOld(k));
    steps, t := Then(s, steps, t, CheckActive(k));
    assert t.threads == s.threads[k := Checked];
  }

  /** A stop by a new thread, up to where it has the pipeline in hand and has not stopped it yet. */
  lemma StopWithdraws(s: State, k: Thread, pid: Pid) returns (steps: seq<Step>, t: State)
    requires k !in s.threads && s.pipelineLock == None && s.pipeline == Some(pid)
    ensures Run(s, steps, t)
    ensures t == s.(active := false, pipeline := None, threads := s.threads[k := Stopping(Some(pid))])
  {
    steps, t := Then(s, [], s, DropFlag(k));
    steps, t := Then(s, steps, t, CheckInactive(k));
    steps, t := Then(s, steps, t, Withdraw(k));
    assert t.threads == s.threads[k := Stopping(Some(pid))];
  }

  /** A stop's callback that finds no pipeline. */
  lemma StopFindsNothing(s: State, k: Thread) returns (steps: seq<Step>, t: State)
    requires At(s, k, Dropped) && !s.active && s.pipelineLock == None && s.pipeline == None
    ensures Run(s, steps, t) && t == s.(threads := s.threads - {k})
    ensures steps == [CheckInactive(k), Withdraw(k), StopHeld(k)]
  {
    var confirmed := s.(threads := s.threads[k := Confirmed], pipelineLock := Some(k));
    steps, t := Then(s, [], s, CheckInactive(k));
    assert t == confirmed;
    steps, t := Then(s, steps, t, Withdraw(k));
    assert t == s.(threads := s.threads[k := Stopping(None)]);
    steps, t := Then(s, steps, t, StopHeld(k));
    assert t.threads == s.threads - {k};
  }

  /** A start, a stop that has only withdrawn, a second start about to build: pipeline 10 still plays in hand. */
  lemma BuildWhileAnotherIsHeld(z: State) returns (steps: seq<Step>, t: State)
    requires Init(z)
    ensures Run(z, steps, t) && Enabled(t, Build(2, 11)) && Holds(t, 1, 10) && t.playing == map[10 := true]
  {
    var more;
    steps, t := Then(z, [], z, Publish);
    var s := t;
    more, t := StartReachesBuild(s, 0);
    RunsCompose(z, steps, s, more, t);
    steps, t := Then(z, steps + more, t, Build(0, 10));
    s := t;
    more, t := StopWithdraws(s, 1, 10);
    RunsCompose(z, steps, s, more, t);
    steps, s := steps + more, t;
    more, t := StartReachesBuild(s, 2);
    RunsCompose(z, steps, s, more, t);
    steps := steps + more;
  }

  /** So a frame of the old pipeline feeds the ring of the new one, from any start of the process. */
  lemma OlderFrameGetsIn(z: State) returns (steps: seq<Step>, t: State)
    requires Init(z)
    ensures Run(z, steps, t) && t.pipeline == Some(11) && t.ring == {10}
  {
    steps, t := BuildWhileAnotherIsHeld(z);
    steps, t := Then(z, steps, t, Build(2, 11));
    steps, t := Then(z, steps, t, Frame(10));
  }
}
