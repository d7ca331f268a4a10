/**
 The VLM child and the switching of models: `VlmProcess` in analyzer/vlm_worker.py, `ModelHolder`,
 `_perform_switch` and the switching and inferring part of `inference_worker` in analyzer/main.py.

 Child processes live in an operating system that may end any of them at any time and may fail to
 kill one; such a child is remembered in `unkillable`.
 */
module Vlm {
  import opened Options

  // ── The manager and its children ──

  type Model = string

  /** `_proc`, `_conn`, `_current`, and the host: pids given out, running children and their models. */
  datatype Manager = Manager(
    proc: Option<nat>, conn: bool, current: Option<Model>,
    born: nat, alive: map<nat, Model>, unkillable: set<nat>)

  predicate IsReady(m: Manager) {
    m.conn && m.proc.Some? && m.proc.value in m.alive
  }

  function Dropped(m: Manager, killed: bool): Manager {
    if m.proc.None? then
      m.(conn := false)
    else if killed || m.proc.value !in m.alive then
      m.(proc := None, conn := false, alive := m.alive - {m.proc.value})
    else
      m.(proc := None, conn := false, unkillable := m.unkillable + {m.proc.value})
  }

  function Launched(m: Manager, model: Model): Manager {
    m.(proc := Some(m.born), conn := false, born := m.born + 1, alive := m.alive[m.born := model])
  }

  function Loaded(m: Manager, model: Model): Manager {
    m.(conn := true, current := Some(model))
  }

  function Perished(m: Manager, pid: nat): Manager {
    m.(alive := m.alive - {pid})
  }

  /** Every running child is the manager's own or one that could not be killed. */
  predicate Contained(m: Manager) {
    && (forall pid | pid in m.alive :: pid < m.born && (m.proc == Some(pid) || pid in m.unkillable))
    && (forall pid | pid in m.unkillable :: pid < m.born)
    && (m.proc.Some? ==> m.proc.value < m.born && m.proc.value !in m.unkillable)
  }

  /** What holds between two calls: connected exactly when there is a process, and that one runs `_current`. */
  predicate Settled(m: Manager) {
    && Contained(m)
    && (m.conn <==> m.proc.Some?)
    && (m.proc.Some? ==> m.current.Some?)
    && (m.proc.Some? && m.proc.value in m.alive ==> Some(m.alive[m.proc.value]) == m.current)
  }

  /** No child of the manager is running. */
  predicate Childless(m: Manager) {
    m.proc.Some? ==> m.proc.value !in m.alive
  }

  // ── The class ──

  /** How launching a child ends: no process at all, a process that never reports ready, or a model. */
  datatype Launch = NoProcess | NotReady | Ready

  function Spawned(m: Manager, model: Model, launch: Launch, killed: bool): Manager {
    match launch
    case NoProcess => m
    case NotReady => Dropped(Launched(m, model), killed)
    case Ready => Loaded(Launched(m, model), model)
  }

  /** What the child answers; Broken stands for a timeout or a child that died under the request. */
  datatype Reply = Text(text: string) | Refused(reason: string) | Broken

  class VlmProcess {
    var proc: Option<nat>
    var conn: bool
    var current: Option<Model>
    var born: nat
    var alive: map<nat, Model>
    var unkillable: set<nat>

    function View(): Manager
      reads this
    {
      Manager(proc, conn, current, born, alive, unkillable)
    }

    constructor ()
      ensures Settled(View()) && Childless(View()) && current == None && alive == map[]
    {
      proc, conn, current := None, false, None;
      born, alive, unkillable := 0, map[], {};
    }

    /** `killed` tells whether SIGTERM or SIGKILL worked. */
    method Stop(killed: bool)
      modifies this
      ensures View() == Dropped(old(View()), killed)
      ensures proc == None && !conn && current == old(current)
    {
      conn := false;
      if proc.Some? {
        if killed || proc.value !in alive {
          alive := alive - {proc.value};
        } else {
          unkillable := unkillable + {proc.value};
        }
        proc := None;
      }
    }

    method Spawn(model: Model, launch: Launch, killed: bool) returns (ok: bool)
      requires Contained(View()) && Childless(View())
      modifies this
      ensures ok <==> launch.Ready?
      ensures View() == Spawned(old(View()), model, launch, killed)
      ensures Contained(View()) && (!launch.NoProcess? ==> Settled(View()))
    {
      if launch.NoProcess? {
        return false;
      }
      proc, conn := Some(born), false;
      alive := alive[born := model];
      born := born + 1;
      if launch.NotReady? {
        Stop(killed);
        return false;
      }
      conn := true;
      current := Some(model);
      return true;
    }

    /** On failure the manager is stopped, and still remembers the model it had before. */
    method Switch(model: Model, launch: Launch, oldKilled: bool, newKilled: bool) returns (ok: bool)
      requires Settled(View())
      modifies this
      ensures View() == Spawned(Dropped(old(View()), oldKilled), model, launch, newKilled)
      ensures Settled(View())
      ensures ok <==> launch.Ready?
      ensures ok ==> IsReady(View()) && current == Some(model) && alive[proc.value] == model
      ensures !ok ==> proc == None && current == old(current)
      ensures old(unkillable) <= unkillable <= old(unkillable) + alive.Keys
      ensures oldKilled && newKilled ==> unkillable == old(unkillable)
    {
      Stop(oldKilled);
      ok := Spawn(model, launch, newKilled);
    }

    /** A child that crashed is replaced by one for the same model; a broken transport drops the child. */
    method Infer(launch: Launch, reply: Reply, killed: bool) returns (answer: Result<string, string>)
      requires Settled(View())
      modifies this
      ensures Settled(View()) && current == old(current)
      ensures answer.Ok? <==> reply.Text? && (IsReady(old(View())) || (old(current).Some? && launch.Ready?))
      ensures answer.Ok? ==> answer.result == reply.text && IsReady(View())
      ensures born == old(born) + if IsReady(old(View())) || old(current).None? || launch.NoProcess? then 0 else 1
      ensures IsReady(old(View())) && !reply.Broken? ==> View() == old(View())
      ensures reply.Broken? && (IsReady(old(View())) || launch.Ready?) ==> proc == None && !conn
      ensures !IsReady(old(View())) && old(current).Some? && launch.Ready? && !reply.Broken? ==>
                proc == Some(old(born)) && old(born) in alive && Some(alive[old(born)]) == current
    {
      if !(conn && proc.Some? && proc.value in alive) {
        if current.None? {
          return Err("never started");
        }
        var ok := Spawn(current.value, launch, killed);
        if !ok {
          return Err("load failed");
        }
      }
      match reply {
        case Broken =>
          Stop(killed);
          return Err("transport");
        case Text(text) => return Ok(text);
        case Refused(reason) => return Err(reason);
      }
    }
  }

  // ── The worker ──

  datatype Purpose = Boot | Change(target: Model) | Rollback(target: Model) | Respawn

  /** Where the inference worker is (during Boot: the main thread). */
  datatype Pc =
    | Top                                      // before pop_request
    | Asked(target: Model)                     // popped a model that is not the current one
    | Announced(target: Model)                 // state written, displayed model not yet
    | Dropping(model: Model, why: Purpose)     // switch: about to stop the old child
    | Spawning(model: Model, why: Purpose)     // about to launch
    | Awaiting(model: Model, why: Purpose)     // launched, waiting for its report
    | Adopting(target: Model)                  // switched: holder.name not yet written
    | Declaring                                // about to write the state "ready"
    | Reporting(target: Model)                 // switch failed: about to write the state "error"
    | Restoring(target: Model)                 // rolled back: about to show the previous model
    | Between                                  // after the switch, before the inference
    | Sending                                  // a request is on its way to the child
    | Quit

  datatype Shown = Loading | Switching | Usable | Failed

  /**
   `holder` and `queued` are ModelHolder's name and _switch_to; `shown` and `ui` what clients read.
   `unrestored` is history: the latest switch failed, and so did the rollback after it.
   */
  datatype State = State(
    m: Manager, holder: Model, queued: Option<Model>, shown: Model, ui: Shown, pc: Pc, unrestored: bool)

  function Booting(default: Model): State {
    State(Manager(None, false, None, 0, map[], {}), default, None, default, Loading, Spawning(default, Boot), false)
  }

  datatype Step =
    | Request(name: Model)      // asking for a model by name; validated by the caller
    | Die(pid: nat)             // a child ends by itself
    | Pop
    | Announce
    | Display
    | Drop(killed: bool)
    | Popen(works: bool)
    | Report(ok: bool, killed: bool)
    | Adopt
    | Declare
    | Admit
    | Restore
    | Skip                      // no frame, stopped, or too early for an inference
    | Infer
    | Answer(reply: Reply, killed: bool)
    | GiveUp                    // too many failed inferences in a row

  predicate Enabled(s: State, step: Step) {
    match step
    case Request(_) => !s.ui.Loading?
    case Die(pid) => pid in s.m.alive
    case Pop => s.pc.Top?
    case Announce => s.pc.Asked?
    case Display => s.pc.Announced?
    case Drop(_) => s.pc.Dropping?
    case Popen(_) => s.pc.Spawning?
    case Report(ok, _) => s.pc.Awaiting? && (ok ==> s.m.proc.Some?)
    case Adopt => s.pc.Adopting?
    case Declare => s.pc.Declaring?
    case Admit => s.pc.Reporting?
    case Restore => s.pc.Restoring?
    case Skip => s.pc.Between?
    case Infer => s.pc.Between? && s.m.current.Some?
    case Answer(_, _) => s.pc.Sending?
    case GiveUp => s.pc.Top?
  }

  /** Where the worker goes when a launch came to nothing. */
  function AfterFailure(why: Purpose): Pc {
    match why
    case Boot => Quit
    case Change(target) => Reporting(target)
    case Rollback(_) => Between
    case Respawn => Top
  }

  function AfterSuccess(why: Purpose): Pc {
    match why
    case Boot => Declaring
    case Change(target) => Adopting(target)
    case Rollback(target) => Restoring(target)
    case Respawn => Sending
  }

  function After(s: State, step: Step): State
    requires Enabled(s, step)
  {
    match step
    case Request(name) => if name == s.holder && s.queued.None? then s else s.(queued := Some(name))
    case Die(pid) => s.(m := Perished(s.m, pid))
    case Pop =>
      s.(queued := None, pc := if s.queued.Some? && s.queued.value != s.holder then Asked(s.queued.value) else Between)
    case Announce => s.(ui := Switching, pc := Announced(s.pc.target))
    case Display => s.(shown := s.pc.target, pc := Dropping(s.pc.target, Change(s.pc.target)))
    case Drop(killed) => s.(m := Dropped(s.m, killed), pc := Spawning(s.pc.model, s.pc.why))
    case Popen(works) =>
      if works then
        s.(m := Launched(s.m, s.pc.model), pc := Awaiting(s.pc.model, s.pc.why))
      else
        s.(ui := if s.pc.why.Boot? then Failed else s.ui, pc := AfterFailure(s.pc.why),
           unrestored := s.unrestored || s.pc.why.Rollback?)
    case Report(ok, killed) =>
      if ok then
        s.(m := Loaded(s.m, s.pc.model), pc := AfterSuccess(s.pc.why),
           unrestored := s.unrestored && s.pc.why.Respawn?)
      else
        s.(m := Dropped(s.m, killed), ui := if s.pc.why.Boot? then Failed else s.ui, pc := AfterFailure(s.pc.why),
           unrestored := s.unrestored || s.pc.why.Rollback?)
    case Adopt => s.(holder := s.pc.target, pc := Declaring)
    case Declare => s.(ui := Usable, pc := Between)
    case Admit => s.(ui := Failed, pc := Dropping(s.holder, Rollback(s.pc.target)))
    case Restore => s.(shown := s.holder, pc := Declaring)
    case Skip => s.(pc := Top)
    case Infer =>
      s.(pc := if IsReady(s.m) then Sending else Spawning(s.m.current.value, Respawn))
    case Answer(reply, killed) => s.(m := if reply.Broken? then Dropped(s.m, killed) else s.m, pc := Top)
    case GiveUp => s.(ui := Failed, pc := Quit)
  }

  ghost predicate Run(s: State, steps: seq<Step>, t: State)
    decreases |steps|
  {
    if steps == [] then t == s else Enabled(s, steps[0]) && Run(After(s, steps[0]), steps[1..], t)
  }

  // ── What every step keeps ──

  /** The manager has no call in progress. */
  predicate Resting(pc: Pc) {
    !pc.Spawning? && !pc.Awaiting?
  }

  ghost predicate ManagerInv(m: Manager, pc: Pc) {
    && Contained(m)
    && (Resting(pc) ==> Settled(m))
    && (pc.Spawning? ==> Childless(m) && (m.conn <==> m.proc.Some?) && (m.proc.Some? ==> m.current.Some?))
    && (pc.Awaiting? ==>
          && !m.conn && m.proc.Some?
          && (m.proc.value in m.alive ==> m.alive[m.proc.value] == pc.model))
  }

  /** Outside switching: the manager and the holder name one model, and the display tells when it does not. */
  predicate Agreed(s: State) {
    && s.m.current == Some(s.holder)
    && (s.ui == if s.shown == s.holder then Usable else Failed) && (s.shown != s.holder <==> s.unrestored)
  }

  /** A switch is under way to `model`, in a first attempt or back again. */
  predicate Changing(s: State, model: Model, why: Purpose) {
    && s.m.current == Some(s.holder)
    && match why
       case Change(target) => s.ui.Switching? && s.shown == target == model != s.holder
       case Rollback(target) => s.ui.Failed? && s.shown == target != s.holder && model == s.holder
       case _ => false
  }

  predicate Moving(s: State, model: Model, why: Purpose) {
    match why
    case Boot => !s.unrestored && s.ui.Loading? && s.shown == s.holder == model && s.m.current.None?
    case Respawn => Agreed(s) && model == s.holder
    case _ => Changing(s, model, why)
  }

  /** Which model each party has, point by point. */
  predicate Agreement(s: State) {
    match s.pc
    case Asked(target) => Agreed(s) && target != s.holder
    case Announced(target) => s.ui.Switching? && s.m.current == Some(s.holder) && target != s.holder
    case Dropping(model, why) => Changing(s, model, why)
    case Spawning(model, why) => Moving(s, model, why)
    case Awaiting(model, why) => Moving(s, model, why)
    case Adopting(target) =>
      !s.unrestored && s.ui.Switching? && s.m.current == Some(target) && s.shown == target != s.holder
    case Declaring => !s.unrestored && !s.ui.Usable? && s.m.current == Some(s.holder) && s.shown == s.holder
    case Reporting(target) => Changing(s, target, Change(target))
    case Restoring(target) => !s.unrestored && Changing(s, s.holder, Rollback(target))
    case Quit => s.ui.Failed?
    case _ => Agreed(s)
  }

  ghost predicate Inv(s: State) {
    ManagerInv(s.m, s.pc) && Agreement(s)
  }

  lemma StepKeepsManager(s: State, step: Step)
    requires Inv(s) && Enabled(s, step)
    ensures ManagerInv(After(s, step).m, After(s, step).pc)
  {
  }

  lemma LaunchKeepsAgreement(s: State, step: Step)
    requires Inv(s) && Enabled(s, step) && (step.Popen? || step.Report?)
    ensures Agreement(After(s, step))
  {
  }

  lemma StepKeepsAgreement(s: State, step: Step)
    requires Inv(s) && Enabled(s, step)
    ensures Agreement(After(s, step))
  {
    if step.Popen? || step.Report? {
      LaunchKeepsAgreement(s, step);
    } else {
      OtherStepKeepsAgreement(s, step);
    }
  }

  lemma OtherStepKeepsAgreement(s: State, step: Step)
    requires Inv(s) && Enabled(s, step) && !step.Popen? && !step.Report?
    ensures Agreement(After(s, step))
  {
  }

  lemma {:induction false} RunKeepsInv(s: State, steps: seq<Step>, t: State)
    requires Inv(s) && Run(s, steps, t)
    ensures Inv(t)
    decreases |steps|
  {
    if steps == [] {
    } else {
      StepKeepsManager(s, steps[0]);
      StepKeepsAgreement(s, steps[0]);
      RunKeepsInv(After(s, steps[0]), steps[1..], t);
    }
  }

  // ── Main results ──

  /**
   Whenever clients read "ready", the model they are shown, the holder's, the manager's and that
   of every child the host did not refuse to kill are the same.
   */
  lemma ReadyModelsAgree(default: Model, steps: seq<Step>, t: State)
    requires Run(Booting(default), steps, t) && t.ui.Usable?
    ensures t.shown == t.holder && t.m.current == Some(t.holder)
    ensures forall pid | pid in t.m.alive && pid !in t.m.unkillable :: t.m.alive[pid] == t.holder
  {
    RunKeepsInv(Booting(default), steps, t);
  }

  /** Through failed switches, rollbacks, respawns and crashes, at most one child is running. */
  lemma OneChildAtATime(default: Model, steps: seq<Step>, t: State, p: nat, q: nat)
    requires Run(Booting(default), steps, t)
    requires p in t.m.alive && q in t.m.alive && p !in t.m.unkillable && q !in t.m.unkillable
    ensures p == q
  {
    RunKeepsInv(Booting(default), steps, t);
  }

  /** At the top of every iteration the holder names the model a respawn would load. */
  lemma HolderNamesTheManagersModel(default: Model, steps: seq<Step>, t: State)
    requires Run(Booting(default), steps, t) && t.pc.Top?
    ensures t.m.current == Some(t.holder) && Settled(t.m)
    ensures t.ui == if t.shown == t.holder then Usable else Failed
  {
    RunKeepsInv(Booting(default), steps, t);
  }

  /**
   Between switches clients are shown the model in use and "ready", unless the latest switch failed
   and its rollback too: a rollback that loads always restores both.
   */
  lemma FailedOnlyAfterAFailedRollback(default: Model, steps: seq<Step>, t: State)
    requires Run(Booting(default), steps, t) && (t.pc.Top? || t.pc.Between? || t.pc.Sending?)
    ensures t.ui.Usable? && t.shown == t.holder <==> !t.unrestored
    ensures t.ui.Failed? && t.shown != t.holder <==> t.unrestored
  {
    RunKeepsInv(Booting(default), steps, t);
  }

  /** A call of Switch is the worker's three steps: stop, launch, report. */
  lemma SwitchInSteps(s: State, launch: Launch, oldKilled: bool, newKilled: bool) returns (steps: seq<Step>, t: State)
    requires s.pc.Dropping? && !s.pc.why.Boot?
    ensures Run(s, steps, t) && t.m == Spawned(Dropped(s.m, oldKilled), s.pc.model, launch, newKilled)
    ensures t.pc == if launch.Ready? then AfterSuccess(s.pc.why) else AfterFailure(s.pc.why)
    ensures t == s.(m := t.m, pc := t.pc, unrestored := t.unrestored)
  {
    steps := [Drop(oldKilled), Popen(!launch.NoProcess?)];
    var dropped := After(s, steps[0]);
    t := After(dropped, steps[1]);
    if !launch.NoProcess? {
      var report := Report(launch.Ready?, newKilled);
      assert Run(t, [report], After(t, report)) by {
        assert [report][1..] == [];
      }
      steps := steps + [report];
      t := After(t, report);
      assert steps[1..][1..] == [report];
    } else {
      assert steps[1..][1..] == [];
    }
    assert Run(dropped, steps[1..], t);
  }

  // ── What the worker's calls come to ──

  lemma Go(s: State, steps: seq<Step>, mid: State, step: Step) returns (longer: seq<Step>, t: State)
    requires Run(s, steps, mid) && Enabled(mid, step)
    ensures longer == steps + [step] && t == After(mid, step) && Run(s, longer, t)
  {
    longer, t := steps + [step], After(mid, step);
    assert [step][1..] == [];
    RunsCompose(s, steps, mid, [step], t);
  }

  lemma {:induction false} RunsCompose(s: State, first: seq<Step>, mid: State, second: seq<Step>, t: State)
    requires Run(s, first, mid) && Run(mid, second, t)
    ensures Run(s, first + second, t)
    decreases |first|
  {
    if first == [] {
      assert first + second == second;
    } else {
      RunsCompose(After(s, first[0]), first[1..], mid, second, t);
      assert (first + second)[1..] == first[1..] + second;
    }
  }

  /** A child for the model runs and is connected. */
  predicate Runs(m: Manager, model: Model) {
    m.conn && m.proc.Some? && m.proc.value in m.alive && m.alive[m.proc.value] == model && m.current == Some(model)
  }

  /** The default model loads: it runs, is shown, and the state is "ready". */
  lemma BootLoads(default: Model) returns (steps: seq<Step>, t: State)
    ensures Run(Booting(default), steps, t) && t.pc.Between? && t.queued == None
    ensures t.ui.Usable? && t.shown == default == t.holder && Runs(t.m, default)
  {
    var z := Booting(default);
    steps, t := Go(z, [], z, Popen(true));
    steps, t := Go(z, steps, t, Report(true, true));
    steps, t := Go(z, steps, t, Declare);
  }

  /** It does not load: the state is "error", nothing runs, and the process ends. */
  lemma BootFails(default: Model) returns (steps: seq<Step>, t: State)
    ensures Run(Booting(default), steps, t) && t.pc.Quit? && t.ui.Failed? && t.m.alive == map[]
  {
    var z := Booting(default);
    steps, t := Go(z, [], z, Popen(true));
    steps, t := Go(z, steps, t, Report(false, true));
    assert t.m.alive == map[];
  }

  /** A model asked for at the top of an iteration, up to where the old child is stopped; the client sees it coming. */
  lemma SwitchIsAnnounced(s: State, target: Model) returns (steps: seq<Step>, t: State)
    requires s.pc.Top? && target != s.holder && !s.ui.Loading?
    ensures Run(s, steps, t) && t.pc == Dropping(target, Change(target)) && Request(target) in steps
    ensures t == s.(queued := None, ui := Switching, shown := target, pc := t.pc)
  {
    steps, t := Go(s, [], s, Request(target));
    steps, t := Go(s, steps, t, Pop);
    steps, t := Go(s, steps, t, Announce);
    steps, t := Go(s, steps, t, Display);
    assert steps[0] == Request(target);
  }

  /** An undisturbed switch to a model that loads: that model runs, is shown, and the state is "ready". */
  lemma UndisturbedSwitch(s: State, target: Model) returns (steps: seq<Step>, t: State)
    requires Inv(s) && s.pc.Top? && target != s.holder
    ensures Run(s, steps, t) && t.pc.Between? && t.queued == None && Request(target) in steps
    ensures t.ui.Usable? && t.shown == target == t.holder && Runs(t.m, target)
  {
    var asking, asked := SwitchIsAnnounced(s, target);
    var loading, loaded := SwitchLoads(asked, target, Change(target));
    RunsCompose(s, asking, asked, loading, loaded);
    steps, t := Go(s, asking + loading, loaded, Adopt);
    steps, t := Go(s, steps, t, Declare);
  }

  /** Stop, launch and report of a child that gets ready. */
  lemma SwitchLoads(s: State, model: Model, why: Purpose) returns (steps: seq<Step>, t: State)
    requires s.pc == Dropping(model, why) && (why.Change? || why.Rollback?)
    ensures Run(s, steps, t) && Runs(t.m, model) && t == s.(m := t.m, pc := t.pc, unrestored := false)
    ensures t.pc == if why.Change? then Adopting(why.target) else Restoring(why.target)
  {
    steps, t := Go(s, [], s, Drop(true));
    steps, t := Go(s, steps, t, Popen(true));
    steps, t := Go(s, steps, t, Report(true, true));
  }

  lemma SwitchFails(s: State, model: Model, why: Purpose) returns (steps: seq<Step>, t: State)
    requires s.pc == Dropping(model, why) && (why.Change? || why.Rollback?)
    ensures Run(s, steps, t) && t.m.proc == None && t.m.current == s.m.current
    ensures t == s.(m := t.m, pc := t.pc, unrestored := t.unrestored)
    ensures t.pc == if why.Change? then Reporting(why.target) else Between
  {
    steps, t := Go(s, [], s, Drop(true));
    steps, t := Go(s, steps, t, Popen(true));
    steps, t := Go(s, steps, t, Report(false, true));
  }

  /** The target does not load: the client is told, and the model before is about to be loaded. */
  lemma TargetFails(s: State, target: Model) returns (steps: seq<Step>, t: State)
    requires s.pc.Top? && target != s.holder && !s.ui.Loading?
    ensures Run(s, steps, t) && t.pc == Dropping(s.holder, Rollback(target)) && Request(target) in steps
    ensures t.ui.Failed? && t.shown == target && t.holder == s.holder && t.queued == None
    ensures t.m.proc == None && t.m.current == s.m.current
  {
    var asking, asked := SwitchIsAnnounced(s, target);
    var failing, failed := SwitchFails(asked, target, Change(target));
    RunsCompose(s, asking, asked, failing, failed);
    steps, t := Go(s, asking + failing, failed, Admit);
  }

  /** The target does not load and the model before does: it runs again, is shown, and the state is "ready". */
  lemma RollbackRestores(s: State, target: Model) returns (steps: seq<Step>, t: State)
    requires Inv(s) && s.pc.Top? && target != s.holder
    ensures Run(s, steps, t) && t.pc.Between? && Request(target) in steps
    ensures t.ui.Usable? && t.shown == t.holder == s.holder && Runs(t.m, s.holder)
  {
    var admitting, admitted := TargetFails(s, target);
    var loading, loaded := SwitchLoads(admitted, s.holder, Rollback(target));
    RunsCompose(s, admitting, admitted, loading, loaded);
    steps, t := Go(s, admitting + loading, loaded, Restore);
    steps, t := Go(s, steps, t, Declare);
  }

  /** An inference in a child that runs: its answer leaves the child alone. */
  lemma UndisturbedInference(s: State, reply: Reply) returns (steps: seq<Step>, t: State)
    requires s.pc.Between? && s.m.current.Some? && Runs(s.m, s.m.current.value) && !reply.Broken?
    ensures Run(s, steps, t) && t == s.(pc := Top)
  {
    steps, t := Go(s, [], s, Infer);
    steps, t := Go(s, steps, t, Answer(reply, true));
  }

  /** When the transport breaks the child is dropped. */
  lemma BrokenTransportDrops(s: State) returns (steps: seq<Step>, t: State)
    requires s.pc.Between? && IsReady(s.m) && s.m.current.Some?
    ensures Run(s, steps, t) && t == s.(pc := Top, m := t.m)
    ensures t.m.proc == None && !t.m.conn && t.m.current == s.m.current && t.m.born == s.m.born
    ensures t.m.alive == s.m.alive - {s.m.proc.value}
  {
    steps, t := Go(s, [], s, Infer);
    steps, t := Go(s, steps, t, Answer(Broken, true));
  }

  /** With no child left, an inference launches a new one for the same model first. */
  lemma MissingChildIsRespawned(s: State) returns (steps: seq<Step>, t: State)
    requires s.pc.Between? && !IsReady(s.m) && s.m.current.Some?
    ensures Run(s, steps, t) && t == s.(pc := Sending, m := t.m)
    ensures Runs(t.m, s.m.current.value) && t.m.proc == Some(s.m.born)
  {
    steps, t := Go(s, [], s, Infer);
    steps, t := Go(s, steps, t, Popen(true));
    steps, t := Go(s, steps, t, Report(true, true));
  }

  /** A child that crashes is missed at the next inference, which waits for a new one of the same model. */
  lemma CrashedChildIsReplaced(s: State) returns (crashed: State, steps: seq<Step>, t: State)
    requires Inv(s) && s.pc.Between? && IsReady(s.m)
    ensures Run(s, [Die(s.m.proc.value)], crashed) && crashed == s.(m := crashed.m)
    ensures crashed.m == s.m.(alive := s.m.alive - {s.m.proc.value}) && !IsReady(crashed.m)
    ensures Run(crashed, steps, t) && t == s.(pc := Sending, m := t.m)
    ensures Runs(t.m, s.holder) && t.m.proc == Some(s.m.born)
  {
    var died;
    died, crashed := Go(s, [], s, Die(s.m.proc.value));
    steps, t := MissingChildIsRespawned(crashed);
  }

  // ── A failed rollback ──

  /** The worker has settled after a failed rollback, and nobody has asked for another model since. */
  ghost predicate Stuck(s: State) {
    && Inv(s) && s.ui.Failed? && s.queued.None?
    && match s.pc
       case Top => true
       case Between => true
       case Sending => true
       case Quit => true
       case Spawning(_, why) => why.Respawn?
       case Awaiting(_, why) => why.Respawn?
       case _ => false
  }

  /**
   After a rollback that failed too, the error stays on display, however well later inferences
   go, until a model other than the one in use is asked for: a request for that one is dropped.
   */
  lemma {:induction false} ErrorStaysShown(s: State, steps: seq<Step>, t: State)
    requires Stuck(s) && Run(s, steps, t)
    requires forall name | Request(name) in steps :: name == s.holder
    ensures t.ui.Failed? && t.holder == s.holder && t.shown == s.shown
    decreases |steps|
  {
    if steps == [] {
    } else {
      StepKeepsManager(s, steps[0]);
      StepKeepsAgreement(s, steps[0]);
      assert steps[0] in steps;
      ErrorStaysShown(After(s, steps[0]), steps[1..], t);
    }
  }

  /** Asking for any other model that loads clears it. */
  lemma AnotherModelClearsTheError(s: State, name: Model) returns (steps: seq<Step>, t: State)
    requires Stuck(s) && s.pc.Top? && name != s.holder
    ensures Run(s, steps, t) && Request(name) in steps
    ensures t.ui.Usable? && t.shown == name == t.holder && IsReady(t.m) && t.m.current == Some(name)
  {
    steps, t := Go(s, [], s, Request(name));
    steps, t := Go(s, steps, t, Pop);
    steps, t := Go(s, steps, t, Announce);
    steps, t := Go(s, steps, t, Display);
    var switched, loaded := SwitchInSteps(t, Ready, true, true);
    RunsCompose(s, steps, t, switched, loaded);
    steps, t := Go(s, steps + switched, loaded, Adopt);
    steps, t := Go(s, steps, t, Declare);
  }

  /** A switch whose target does not load, and neither does the previous model again. */
  lemma BothLoadsFail(s: State, target: Model) returns (steps: seq<Step>, t: State)
    requires Inv(s) && s.pc.Top? && target != s.holder
    ensures Run(s, steps, t) && Inv(t)
    ensures t.pc.Between? && t.m.proc == None && t.queued == None && t.holder == s.holder && t.shown == target
  {
    var admitting, admitted := TargetFails(s, target);
    var failing, failed := SwitchFails(admitted, s.holder, Rollback(target));
    RunsCompose(s, admitting, admitted, failing, failed);
    steps, t := admitting + failing, failed;
    RunKeepsInv(s, steps, t);
  }

  /** From any iteration, such a state is reached in which the previous model answers again unseen. */
  lemma RecoveryGoesUnseen(s: State, target: Model) returns (steps: seq<Step>, t: State)
    requires Inv(s) && s.pc.Top? && target != s.holder
    ensures Run(s, steps, t) && Stuck(t) && t.pc.Top?
    ensures IsReady(t.m) && t.m.alive[t.m.proc.value] == s.holder && t.shown == target
  {
    var failing, mid := BothLoadsFail(s, target);
    steps, t := Go(mid, [], mid, Infer);
    steps, t := Go(mid, steps, t, Popen(true));
    steps, t := Go(mid, steps, t, Report(true, true));
    steps, t := Go(mid, steps, t, Answer(Text("a cat"), true));
    RunsCompose(s, failing, mid, steps, t);
    steps := failing + steps;
    RunKeepsInv(s, steps, t);
  }

  /** From the start of the process. */
  lemma UnseenRecoveryIsReached(default: Model, target: Model) returns (steps: seq<Step>, t: State)
    requires default != target
    ensures Run(Booting(default), steps, t) && Stuck(t) && t.pc.Top?
    ensures IsReady(t.m) && t.m.alive[t.m.proc.value] == default && t.shown == target
  {
    var z := Booting(default);
    var up, top := Go(z, [], z, Popen(true));
    up, top := Go(z, up, top, Report(true, true));
    up, top := Go(z, up, top, Declare);
    up, top := Go(z, up, top, Skip);
    RunKeepsInv(z, up, top);
    steps, t := RecoveryGoesUnseen(top, target);
    RunsCompose(z, up, top, steps, t);
    steps := up + steps;
  }
}
