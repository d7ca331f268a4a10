/**
 Connecting and disconnecting the camera (streamer/camera.py): starts, stops and restore attempts
 under the runtime lock, registrations and settings beside it, and a MediaMTX child that loses
 its source whenever it restarts.
 */
module Camera {
  import opened Options
  import Profiles

  type Profile = Profiles.Profile

  /** The source MediaMTX pulls from; percent-quoting keeps distinct credentials distinct. */
  datatype Source = Detached | Pulling(user: string, password: string, ip: string, port: int, path: string)

  datatype Target = Off | Aimed(ip: string, port: int, user: string, password: string)

  function SourceOf(p: Profile): Source {
    Pulling(p.username, p.password, p.ip, p.rtspPort, p.path)
  }

  /** A missing port and port 0 both turn PTZ off. */
  function TargetOf(p: Profile): Target {
    if p.onvifPort.None? || p.onvifPort.value == 0 then Off
    else Aimed(p.ip, p.onvifPort.value, p.username, p.password)
  }

  type Presets = map<int, (real, real)>

  datatype Patrol = Patrol(enabled: bool, interval: int)

  /** The applied slot on disk. */
  datatype Slot = Slot(active: bool, profile: Option<Profile>, presets: Presets, patrol: Option<Patrol>)

  /**
   The two connections of the moment. The last four fields record what happened and are not part of
   the program: `torn`, the last patch to take effect was reported as failed (a reply lost or
   late); `sourceAhead` and `ptzAhead`, source or target were set by a start that then could not
   write the slot; and `unstopped`, the last stop reported an error.
   */
  datatype Link = Link(
    source: Source, ptz: Target, torn: bool, sourceAhead: bool, ptzAhead: bool, unstopped: bool)

  const UNLINKED := Link(Detached, Off, false, false, false, false)

  /** Where a handler or a restore thread is. */
  datatype Pc =
    | StartWaiting
    | Decided(config: Profile, seen: Slot)
    | Patched(config: Profile, seen: Slot)
    | Configured(config: Profile, seen: Slot)
    | Persisted(presets: Presets)
    | StopWaiting
    | Lowering
    | Lowered
    | Severed
    | Checking
    | Retrying
    | Attempting(config: Profile)
    | Reattached(config: Profile)

  /** Inside the runtime lock. */
  predicate Holding(pc: Pc) {
    !pc.StartWaiting? && !pc.StopWaiting? && !pc.Checking? && !pc.Retrying?
  }

  /** `memory` are the presets PTZ works with, `restoring` the single-flight guard of the restores. */
  datatype State = State(
    registered: Option<Profiles.Config>, slot: Slot, link: Link, memory: Presets,
    lock: Option<nat>, restoring: bool, born: nat, agents: map<nat, Pc>)

  /** The streamer comes up: what is on disk is kept, everything else starts empty. */
  function Booted(registered: Option<Profiles.Config>, slot: Slot): State {
    State(registered, slot, UNLINKED, slot.presets, None, false, 0, map[])
  }

  /** What a handler does next. */
  datatype Action =
    | Decide                               // a start takes the lock and reads both slots
    | Lower                                // a stop takes the lock
    | Flag                                 // and writes the flag
    | FlagFails                            // the slot could not be written: the error ends the stop
    | Sever                                // ptz.clear_config
    | Check                                // the restore's look at the flag outside the lock
    | Attempt                              // a restore attempt takes the lock and reads the slot
    | Patch(effect: bool, reported: bool)
    | Configure
    | Persist(current: Patrol)             // `current` is what ptz.get_patrol would answer
    | PersistFails                         // the slot could not be written: the error ends the start
    | LoadPresets

  datatype Step =
    | BeginStart
    | BeginStop
    | BeginRestore                         // at startup and after every restart of the child
    | Register(config: Profiles.Config)
    | SavePatrol(patrol: Patrol)
    | SavePresets(presets: Presets)
    | ChildRestarts
    | Reboot
    | Act(id: nat, action: Action)

  predicate CanPatch(pc: Pc) {
    pc.Decided? || pc.Severed? || pc.Attempting?
  }

  predicate CanAct(pc: Pc, action: Action) {
    match action
    case Decide => pc.StartWaiting?
    case Lower => pc.StopWaiting?
    case Flag => pc.Lowering?
    case FlagFails => pc.Lowering?
    case Sever => pc.Lowered?
    case Check => pc.Checking?
    case Attempt => pc.Retrying?
    case Patch(effect, reported) => CanPatch(pc) && (reported ==> effect)
    case Configure => pc.Patched? || pc.Reattached?
    case Persist(_) => pc.Configured?
    case PersistFails => pc.Configured?
    case LoadPresets => pc.Persisted?
  }

  /** Steps that wait for the runtime lock. */
  predicate Enters(action: Action) {
    action.Decide? || action.Lower? || action.Attempt?
  }

  predicate Enabled(s: State, step: Step) {
    step.Act? ==>
      && step.id in s.agents && CanAct(s.agents[step.id], step.action)
      && (Enters(step.action) ==> s.lock.None?)
  }

  /** What an action leaves on disk, connected and in memory; `next` is None once the handler has returned. */
  datatype Outcome = Outcome(slot: Slot, link: Link, memory: Presets, next: Option<Pc>)

  function Chosen(registered: Option<Profiles.Config>): Option<Profile> {
    if registered.None? then None
    else
      match Profiles.Normalised(registered.value, registered.value)
      case Err(_) => None
      case Ok(config) => Some(config)
  }

  function Wanted(pc: Pc): Source
    requires CanPatch(pc)
  {
    if pc.Severed? then Detached else SourceOf(pc.config)
  }

  function PatchedLink(link: Link, pc: Pc, effect: bool, reported: bool): Link
    requires CanPatch(pc)
  {
    var patched := if effect then link.(source := Wanted(pc), torn := !reported, sourceAhead := false) else link;
    if pc.Severed? then patched.(unstopped := !reported) else patched
  }

  function AfterPatch(pc: Pc, reported: bool): Option<Pc>
    requires CanPatch(pc)
  {
    match pc
    case Decided(config, seen) => if reported then Some(Patched(config, seen)) else None
    case Attempting(config) => if reported then Some(Reattached(config)) else Some(Retrying)
    case _ => None
  }

  /** What a start writes: presets only for the same address, and the patrol setting it read. */
  function Promoted(config: Profile, seen: Slot, current: Patrol): Slot {
    Slot(true, Some(config), KeptPresets(config, seen), if seen.patrol.Some? then seen.patrol else Some(current))
  }

  function KeptPresets(config: Profile, seen: Slot): Presets {
    if seen.profile.Some? && seen.profile.value.ip == config.ip then seen.presets else map[]
  }

  function Effect(
    registered: Option<Profiles.Config>, slot: Slot, link: Link, memory: Presets, pc: Pc, action: Action): Outcome
    requires CanAct(pc, action)
  {
    match action
    case Decide =>
      var config := Chosen(registered);
      Outcome(slot, link, memory, if config.Some? then Some(Decided(config.value, slot)) else None)
    case Lower => Outcome(slot, link, memory, Some(Lowering))
    case Flag => Outcome(slot.(active := false), link, memory, Some(Lowered))
    case FlagFails => Outcome(slot, link, memory, None)
    case Sever => Outcome(slot, link.(ptz := Off, ptzAhead := false), memory, Some(Severed))
    case Check => Outcome(slot, link, memory, if slot.active then Some(Retrying) else None)
    case Attempt =>
      var going := slot.active && slot.profile.Some?;
      Outcome(slot, link, memory, if going then Some(Attempting(slot.profile.value)) else None)
    case Patch(effect, reported) =>
      Outcome(slot, PatchedLink(link, pc, effect, reported), memory, AfterPatch(pc, reported))
    case Configure =>
      Outcome(slot, link.(ptz := TargetOf(pc.config), ptzAhead := false), memory,
              if pc.Patched? then Some(Configured(pc.config, pc.seen)) else None)
    case Persist(current) =>
      Outcome(Promoted(pc.config, pc.seen, current), link, memory, Some(Persisted(KeptPresets(pc.config, pc.seen))))
    case PersistFails => Outcome(slot, link.(sourceAhead := true, ptzAhead := true), memory, None)
    case LoadPresets => Outcome(slot, link, pc.presets, None)
  }

  predicate Restores(pc: Pc) {
    pc.Checking? || pc.Retrying? || pc.Attempting? || pc.Reattached?
  }

  /** The handler moves on; returning or going back to wait, it gives the runtime lock back. */
  function Placed(s: State, id: nat, next: Option<Pc>): State
    requires id in s.agents
  {
    if next.None? then
      s.(agents := s.agents - {id}, lock := if s.lock == Some(id) then None else s.lock,
         restoring := s.restoring && !Restores(s.agents[id]))
    else
      s.(agents := s.agents[id := next.value],
         lock := if Holding(next.value) then Some(id) else if s.lock == Some(id) then None else s.lock)
  }

  function Acted(s: State, id: nat, action: Action): State
    requires id in s.agents && CanAct(s.agents[id], action)
  {
    var o := Effect(s.registered, s.slot, s.link, s.memory, s.agents[id], action);
    Placed(s, id, o.next).(slot := o.slot, link := o.link, memory := o.memory)
  }

  function Spawned(s: State, pc: Pc): State {
    s.(born := s.born + 1, agents := s.agents[s.born := pc])
  }

  function After(s: State, step: Step): State
    requires Enabled(s, step)
  {
    match step
    case BeginStart => Spawned(s, StartWaiting)
    case BeginStop => Spawned(s, StopWaiting)
    case BeginRestore => if s.restoring then s else Spawned(s, Checking).(restoring := true)
    case Register(config) => s.(registered := Profiles.Registered(s.registered, config))
    case SavePatrol(patrol) => s.(slot := s.slot.(patrol := Some(patrol)))
    case SavePresets(presets) => s.(slot := s.slot.(presets := presets))
    case ChildRestarts => s.(link := s.link.(source := Detached, torn := false, sourceAhead := false))
    case Reboot => Booted(s.registered, s.slot)
    case Act(id, action) => Acted(s, id, action)
  }

  ghost predicate Run(s: State, steps: seq<Step>, t: State)
    decreases |steps|
  {
    if steps == [] then t == s else Enabled(s, steps[0]) && Run(After(s, steps[0]), steps[1..], t)
  }

  // ── What every step keeps ──

  predicate SourceFits(source: Source, profile: Option<Profile>) {
    source == Detached || (profile.Some? && source == SourceOf(profile.value))
  }

  predicate PtzFits(ptz: Target, profile: Option<Profile>) {
    ptz == Off || (profile.Some? && ptz == TargetOf(profile.value))
  }

  /** The stream's camera and the PTZ camera are one, with the same credentials, if there are both. */
  predicate OneCamera(link: Link) {
    var source, ptz := link.source, link.ptz;
    source.Pulling? && ptz.Aimed? ==> source.ip == ptz.ip && source.user == ptz.user && source.password == ptz.password
  }

  predicate SourceFollows(slot: Slot, link: Link) {
    link.torn || link.sourceAhead || SourceFits(link.source, slot.profile)
  }

  predicate PtzFollows(slot: Slot, link: Link) {
    link.ptzAhead || PtzFits(link.ptz, slot.profile)
  }

  /** What the three transitions hand on to each other with the lock. */
  predicate Consistent(slot: Slot, link: Link) {
    && SourceFollows(slot, link) && PtzFollows(slot, link) && (link.torn || OneCamera(link))
    && (!slot.active ==> (link.ptz == Off || link.ptzAhead))
    && (!slot.active ==> link.source == Detached || link.torn || link.sourceAhead || link.unstopped)
  }

  /** The source is the new configuration's, and known to be. */
  predicate Switched(link: Link, config: Profile) {
    !link.torn && !link.sourceAhead && SourceFits(link.source, Some(config))
  }

  /** What holds while some transition is inside the lock. */
  predicate Halfway(slot: Slot, link: Link, pc: Pc) {
    match pc
    case Decided(_, seen) => Consistent(slot, link) && seen.profile == slot.profile
    case Patched(config, seen) => Switched(link, config) && PtzFollows(slot, link) && seen.profile == slot.profile
    case Configured(config, seen) =>
      Switched(link, config) && !link.ptzAhead && link.ptz == TargetOf(config) && seen.profile == slot.profile
    case Lowered =>
      !slot.active && SourceFollows(slot, link) && PtzFollows(slot, link) && (link.torn || OneCamera(link))
    case Severed => !slot.active && SourceFollows(slot, link) && link.ptz == Off && !link.ptzAhead
    case Attempting(config) => Consistent(slot, link) && slot.active && slot.profile == Some(config)
    case Reattached(config) =>
      Switched(link, config) && PtzFollows(slot, link) && slot.active && slot.profile == Some(config)
    case _ => Consistent(slot, link)
  }

  predicate Connected(s: State) {
    if s.lock.None? then Consistent(s.slot, s.link)
    else s.lock.value in s.agents && Halfway(s.slot, s.link, s.agents[s.lock.value])
  }

  ghost predicate Locking(s: State) {
    && (forall id | id in s.agents :: id < s.born && (Holding(s.agents[id]) <==> s.lock == Some(id)))
    && (s.lock.Some? ==> s.lock.value in s.agents)
  }

  ghost predicate Inv(s: State) {
    Locking(s) && Connected(s)
  }

  lemma StepKeepsLocking(s: State, step: Step)
    requires Locking(s) && Enabled(s, step)
    ensures Locking(After(s, step))
  {
  }

  /** A handler inside the lock, or just taking it, leaves the connections as its next position promises. */
  lemma EffectKeepsConnection(
    registered: Option<Profiles.Config>, slot: Slot, link: Link, memory: Presets, pc: Pc, action: Action)
    requires CanAct(pc, action) && (Holding(pc) || Enters(action))
    requires if Holding(pc) then Halfway(slot, link, pc) else Consistent(slot, link)
    ensures var o := Effect(registered, slot, link, memory, pc, action);
            if o.next.Some? && Holding(o.next.value) then Halfway(o.slot, o.link, o.next.value)
            else Consistent(o.slot, o.link)
  {
  }

  /** Saved settings and a lost source disturb nobody's promises. */
  lemma BesideKeepsConnection(slot: Slot, link: Link, pc: Pc, other: Slot)
    requires other.active == slot.active && other.profile == slot.profile
    ensures Consistent(slot, link) ==> Consistent(other, link)
    ensures Halfway(slot, link, pc) ==> Halfway(other, link, pc)
    ensures var lost := link.(source := Detached, torn := false, sourceAhead := false);
            && (Consistent(slot, link) ==> Consistent(slot, lost))
            && (Halfway(slot, link, pc) ==> Halfway(slot, lost, pc))
  {
  }

  lemma ActionKeepsConnection(s: State, id: nat, action: Action)
    requires Inv(s) && Enabled(s, Act(id, action))
    ensures Connected(Acted(s, id, action))
  {
    if Holding(s.agents[id]) || Enters(action) {
      EffectKeepsConnection(s.registered, s.slot, s.link, s.memory, s.agents[id], action);
    }
  }

  lemma BesideKeepsInv(s: State, step: Step)
    requires Inv(s) && Enabled(s, step) && !step.Act? && !step.Reboot?
    ensures Connected(After(s, step))
  {
    var pc := if s.lock.Some? then s.agents[s.lock.value] else StartWaiting;
    BesideKeepsConnection(s.slot, s.link, pc, After(s, step).slot);
  }

  lemma StepKeepsInv(s: State, step: Step)
    requires Inv(s) && Enabled(s, step)
    ensures Inv(After(s, step))
  {
    StepKeepsLocking(s, step);
    if step.Act? {
      ActionKeepsConnection(s, step.id, step.action);
    } else if !step.Reboot? {
      BesideKeepsInv(s, step);
    }
  }

  lemma {:induction false} RunKeepsInv(s: State, steps: seq<Step>, t: State)
    requires Inv(s) && Run(s, steps, t)
    ensures Inv(t)
    decreases |steps|
  {
    if steps == [] {
    } else {
      StepKeepsInv(s, steps[0]);
      RunKeepsInv(After(s, steps[0]), steps[1..], t);
    }
  }

  // ── Main results ──

  /**
   Whenever the runtime lock is free: MediaMTX pulls from the applied profile's camera or not at
   all, PTZ is off or aimed with that same profile, and when streaming is off so is PTZ, and the
   source unless the last stop said it had failed. Excepted are the source after a patch that took
   effect and was reported as failed, and both after a start that could not write the slot.
   */
  lemma ConnectionFollowsTheAppliedSlot(
    registered: Option<Profiles.Config>, slot: Slot, steps: seq<Step>, t: State)
    requires Run(Booted(registered, slot), steps, t) && t.lock.None?
    ensures !t.link.torn && !t.link.sourceAhead ==>
              t.link.source == Detached || (t.slot.profile.Some? && t.link.source == SourceOf(t.slot.profile.value))
    ensures !t.link.ptzAhead ==>
              t.link.ptz == Off || (t.slot.profile.Some? && t.link.ptz == TargetOf(t.slot.profile.value))
    ensures !t.slot.active && !t.link.ptzAhead ==> t.link.ptz == Off
    ensures !t.slot.active && !t.link.torn && !t.link.sourceAhead && !t.link.unstopped ==> t.link.source == Detached
  {
    RunKeepsInv(Booted(registered, slot), steps, t);
  }

  /** Stream and PTZ never end up on different cameras, failed slot writes included, lost replies excepted. */
  lemma StreamAndPtzAgree(registered: Option<Profiles.Config>, slot: Slot, steps: seq<Step>, t: State)
    requires Run(Booted(registered, slot), steps, t) && t.lock.None? && !t.link.torn
    ensures OneCamera(t.link)
  {
    RunKeepsInv(Booted(registered, slot), steps, t);
  }

  /** Stopped, and no start has passed its decision. */
  ghost predicate Stopped(s: State) {
    && Inv(s) && !s.slot.active && s.link.ptz == Off && s.link.source == Detached
    && (s.lock.Some? ==> Stopping(s.agents[s.lock.value]))
  }

  predicate Stopping(pc: Pc) {
    pc.Lowering? || pc.Lowered? || pc.Severed?
  }

  predicate Decides(step: Step) {
    step.Act? && step.action.Decide?
  }

  /** Whatever a stop does, or a restore that finds the flag down, connects nothing. */
  lemma EffectKeepsStopped(
    registered: Option<Profiles.Config>, slot: Slot, link: Link, memory: Presets, pc: Pc, action: Action)
    requires CanAct(pc, action) && !action.Decide? && (Holding(pc) ==> Stopping(pc))
    requires !slot.active && link.ptz == Off && link.source == Detached
    ensures var o := Effect(registered, slot, link, memory, pc, action);
            && !o.slot.active && o.link.ptz == Off && o.link.source == Detached
            && (o.next.Some? && Holding(o.next.value) ==> Stopping(o.next.value))
  {
  }

  lemma StoppedStays(s: State, step: Step)
    requires Stopped(s) && Enabled(s, step) && !Decides(step)
    ensures Stopped(After(s, step))
  {
    StepKeepsInv(s, step);
    if step.Act? {
      EffectKeepsStopped(s.registered, s.slot, s.link, s.memory, s.agents[step.id], step.action);
    }
  }

  /** After a stop, whatever restores are under way or begin later, only a start connects again. */
  lemma {:induction false} NothingReattachesAfterAStop(s: State, steps: seq<Step>, t: State)
    requires Stopped(s) && Run(s, steps, t) && forall step | step in steps :: !Decides(step)
    ensures Stopped(t)
    decreases |steps|
  {
    if steps == [] {
    } else {
      assert steps[0] in steps;
      StoppedStays(s, steps[0]);
      NothingReattachesAfterAStop(After(s, steps[0]), steps[1..], t);
    }
  }

  /** A stop that reports success leaves such a state. */
  lemma StopSucceeds(s: State, id: nat)
    requires Inv(s) && id in s.agents && s.agents[id].Severed?
    ensures Stopped(After(s, Act(id, Patch(true, true))))
  {
    StepKeepsInv(s, Act(id, Patch(true, true)));
  }

  // ── What the transitions achieve ──

  lemma RunOne(s: State, step: Step, steps: seq<Step>, t: State)
    requires Enabled(s, step) && Run(After(s, step), steps, t)
    ensures Run(s, [step] + steps, t)
  {
    assert ([step] + steps)[1..] == steps;
  }

  lemma {:induction false} RunsCompose(s: State, first: seq<Step>, mid: State, second: seq<Step>, t: State)
    requires Run(s, first, mid) && Run(mid, second, t)
    ensures Run(s, first + second, t)
    decreases |first|
  {
    if first == [] {
      assert first + second == second;
    } else {
      RunsCompose(After(s, first[0]), first[1..], mid, second, t);
      assert (first + second)[1..] == first[1..] + second;
    }
  }

  /** A handler's action in a run of its own. */
  lemma Then(s: State, steps: seq<Step>, mid: State, id: nat, action: Action) returns (longer: seq<Step>, t: State)
    requires Run(s, steps, mid) && Enabled(mid, Act(id, action))
    ensures longer == steps + [Act(id, action)] && t == Acted(mid, id, action) && Run(s, longer, t)
  {
    longer, t := steps + [Act(id, action)], After(mid, Act(id, action));
    RunOne(mid, Act(id, action), [], t);
    assert [Act(id, action)] + [] == [Act(id, action)];
    RunsCompose(s, steps, mid, [Act(id, action)], t);
  }

  /** A start that nothing disturbs has connected the registered profile and is about to write the slot. */
  lemma StartConnects(s: State, id: nat) returns (steps: seq<Step>, t: State)
    requires Inv(s) && Enabled(s, Act(id, Decide)) && Chosen(s.registered).Some?
    ensures Run(s, steps, t) && Inv(t) && id in t.agents && t.lock == Some(id)
    ensures var config := Chosen(s.registered).value;
            && t.agents[id] == Configured(config, s.slot) && t.slot == s.slot && t.born == s.born
            && t.registered == s.registered && t.agents.Keys == s.agents.Keys && !t.link.torn
            && t.restoring == s.restoring
            && t.link.source == SourceOf(config) && t.link.ptz == TargetOf(config)
  {
    var mid := After(s, Act(id, Decide));
    steps, t := DecidedConnects(mid, id);
    RunOne(s, Act(id, Decide), steps, t);
    steps := [Act(id, Decide)] + steps;
    RunKeepsInv(s, steps, t);
  }

  lemma DecidedConnects(s: State, id: nat) returns (steps: seq<Step>, t: State)
    requires id in s.agents && s.agents[id].Decided? && s.lock == Some(id)
    ensures Run(s, steps, t) && steps == [Act(id, Patch(true, true)), Act(id, Configure)]
    ensures var config := s.agents[id].config;
            && t.agents == s.agents[id := Configured(config, s.agents[id].seen)]
            && t.link == Link(SourceOf(config), TargetOf(config), false, false, false, s.link.unstopped)
            && t == s.(agents := t.agents, link := t.link)
  {
    var patched := Acted(s, id, Patch(true, true));
    t := Acted(patched, id, Configure);
    RunOne(patched, Act(id, Configure), [], t);
    steps := [Act(id, Patch(true, true))] + ([Act(id, Configure)] + []);
    RunOne(s, Act(id, Patch(true, true)), [Act(id, Configure)] + [], t);
  }

  /**
   A start that nothing disturbs connects the registered profile, address, port, path and
   credentials, and writes it to the slot; presets stay only for the same address, patrol if there
   was a setting.
   */
  lemma UndisturbedStart(s: State, id: nat, current: Patrol) returns (steps: seq<Step>, t: State)
    requires Inv(s) && Enabled(s, Act(id, Decide)) && Chosen(s.registered).Some?
    ensures Run(s, steps, t) && Inv(t) && t.lock.None? && t.agents.Keys == s.agents.Keys - {id} && t.born == s.born
    ensures t.registered == s.registered && t.restoring == s.restoring && !t.link.torn && !t.link.ptzAhead
    ensures var p := Chosen(s.registered).value;
            && t.slot.active && t.slot.profile == Some(p) && t.memory == t.slot.presets
            && t.slot.presets
               == (if s.slot.profile.Some? && s.slot.profile.value.ip == p.ip then s.slot.presets else map[])
            && t.slot.patrol == (if s.slot.patrol.Some? then s.slot.patrol else Some(current))
            && t.link.source == Pulling(p.username, p.password, p.ip, p.rtspPort, p.path)
            && t.link.ptz
               == (if p.onvifPort.Some? && p.onvifPort.value != 0
                   then Aimed(p.ip, p.onvifPort.value, p.username, p.password) else Off)
  {
    var connecting, connected := StartConnects(s, id);
    steps, t := StartWrites(connected, id, current);
    RunsCompose(s, connecting, connected, steps, t);
    steps := connecting + steps;
    RunKeepsInv(s, steps, t);
  }

  lemma StartWrites(s: State, id: nat, current: Patrol) returns (steps: seq<Step>, t: State)
    requires id in s.agents && s.agents[id].Configured? && s.lock == Some(id)
    ensures Run(s, steps, t)
    ensures t == s.(slot := t.slot, memory := t.slot.presets, agents := s.agents - {id}, lock := None)
    ensures t.slot == Promoted(s.agents[id].config, s.agents[id].seen, current)
  {
    steps, t := Then(s, [], s, id, Persist(current));
    steps, t := Then(s, steps, t, id, LoadPresets);
    assert t.agents == s.agents - {id};
  }

  /** Nothing registered, or nothing valid: the start reports so and touches nothing. */
  lemma RefusedStart(s: State, id: nat)
    requires Enabled(s, Act(id, Decide))
    requires s.registered.None? || Profiles.Normalised(s.registered.value, s.registered.value).Err?
    ensures After(s, Act(id, Decide)) == s.(agents := s.agents - {id})
  {
  }

  /** A start whose patch fails without effect leaves everything as it was. */
  lemma FailedPatchChangesNothing(s: State, id: nat) returns (steps: seq<Step>, t: State)
    requires Enabled(s, Act(id, Decide)) && Chosen(s.registered).Some?
    ensures Run(s, steps, t) && t == s.(agents := s.agents - {id})
  {
    steps, t := Then(s, [], s, id, Decide);
    steps, t := Then(s, steps, t, id, Patch(false, false));
    assert t.agents == s.agents - {id};
  }

  /**
   A stop that nothing disturbs: the flag is down, profile, presets and patrol are kept, PTZ is off
   and the source detached; with the patch failing, all that but the source.
   */
  lemma UndisturbedStop(s: State, id: nat, detached: bool) returns (steps: seq<Step>, t: State)
    requires Inv(s) && Enabled(s, Act(id, Lower))
    ensures Run(s, steps, t) && t.lock.None? && t.agents == s.agents - {id} && t.born == s.born
    ensures t.slot == s.slot.(active := false) && t.memory == s.memory && t.registered == s.registered
    ensures t.link.ptz == Off && t.link.unstopped == !detached
    ensures detached ==> t.link.source == Detached && Stopped(t)
    ensures !detached ==> t.link.source == s.link.source
  {
    var severing, severed := StopSevers(s, id);
    steps, t := Then(s, severing, severed, id, Patch(detached, detached));
    assert t.agents == s.agents - {id};
    RunKeepsInv(s, severing, severed);
    if detached {
      StopSucceeds(severed, id);
    }
  }

  lemma StopSevers(s: State, id: nat) returns (steps: seq<Step>, t: State)
    requires Enabled(s, Act(id, Lower))
    ensures Run(s, steps, t)
    ensures t == s.(slot := s.slot.(active := false), link := s.link.(ptz := Off, ptzAhead := false),
                    agents := s.agents[id := Severed], lock := Some(id))
  {
    steps, t := Then(s, [], s, id, Lower);
    steps, t := Then(s, steps, t, id, Flag);
    assert t == s.(slot := s.slot.(active := false), agents := s.agents[id := Lowered], lock := Some(id));
    steps, t := Then(s, steps, t, id, Sever);
  }

  /** A stop that cannot write the slot changes nothing. */
  lemma FailedFlagChangesNothing(s: State, id: nat) returns (steps: seq<Step>, t: State)
    requires Enabled(s, Act(id, Lower))
    ensures Run(s, steps, t) && t == s.(agents := s.agents - {id})
  {
    steps, t := Then(s, [], s, id, Lower);
    steps, t := Then(s, steps, t, id, FlagFails);
    assert t.agents == s.agents - {id};
  }

  /** A restore attempt whose patch fails changes nothing, and the restore is there to try again. */
  lemma FailedAttemptTriesAgain(s: State, id: nat) returns (steps: seq<Step>, t: State)
    requires Enabled(s, Act(id, Attempt)) && s.slot.active && s.slot.profile.Some?
    ensures Run(s, steps, t) && t == s && Enabled(t, Act(id, Attempt))
  {
    steps, t := Then(s, [], s, id, Attempt);
    steps, t := Then(s, steps, t, id, Patch(false, false));
    assert t.agents == s.agents;
  }

  /** With the flag down a restore gives up, at its first look or at its next attempt, and another may begin. */
  lemma RestoreGivesUp(s: State, id: nat, action: Action)
    requires Enabled(s, Act(id, action)) && (action.Check? || action.Attempt?) && !s.slot.active && s.lock != Some(id)
    ensures After(s, Act(id, action)) == s.(agents := s.agents - {id}, restoring := false)
  {
  }

  /** While streaming is active, a restore attempt that nothing disturbs reconnects the applied profile. */
  lemma UndisturbedRestore(s: State, id: nat) returns (steps: seq<Step>, t: State)
    requires Inv(s) && Enabled(s, Act(id, Attempt)) && s.slot.active && s.slot.profile.Some?
    ensures Run(s, steps, t) && t.lock.None? && id !in t.agents && t.slot == s.slot
    ensures t.link.source == SourceOf(s.slot.profile.value) && t.link.ptz == TargetOf(s.slot.profile.value)
    ensures !t.restoring && t.agents == s.agents - {id} && !t.link.torn
  {
    var attempting, rest;
    steps, attempting := Then(s, [], s, id, Attempt);
    StepKeepsInv(s, Act(id, Attempt));
    rest, t := AttemptConnects(attempting, id);
    RunsCompose(s, steps, attempting, rest, t);
    steps := steps + rest;
    assert t.agents == s.agents - {id};
  }

  // ── Restarts ──

  /** Settings saved are on disk: a reboot keeps them, and starts with nothing connected. */
  lemma SavedSettingsSurviveAReboot(s: State, patrol: Patrol, presets: Presets) returns (t: State)
    ensures Run(s, [SavePatrol(patrol), SavePresets(presets), Reboot], t)
    ensures t == State(s.registered, s.slot.(patrol := Some(patrol), presets := presets),
                       Link(Detached, Off, false, false, false, false), presets, None, false, 0, map[])
  {
    var patrolling := After(s, SavePatrol(patrol));
    var saved := After(patrolling, SavePresets(presets));
    t := After(saved, Reboot);
    RunOne(saved, Reboot, [], t);
    RunOne(patrolling, SavePresets(presets), [Reboot] + [], t);
    RunOne(s, SavePatrol(patrol), [SavePresets(presets)] + ([Reboot] + []), t);
    assert [SavePatrol(patrol)] + ([SavePresets(presets)] + ([Reboot] + []))
        == [SavePatrol(patrol), SavePresets(presets), Reboot];
  }

  /** Where streaming is active, a reboot or a restart of the child is followed by a restore that reconnects. */
  lemma RestoreAfterARestart(s: State, restart: Step) returns (down: State, steps: seq<Step>, t: State)
    requires Inv(s) && (restart == Reboot || (restart == ChildRestarts && s.lock.None? && !s.restoring))
    requires s.slot.active && s.slot.profile.Some?
    ensures Run(s, [restart], down) && down.link.source == Detached && down.slot == s.slot
    ensures down.registered == s.registered && down.memory == if restart == Reboot then s.slot.presets else s.memory
    ensures down.link.ptz == if restart == Reboot then Off else s.link.ptz
    ensures Run(down, steps, t) && t.slot == s.slot && t.lock.None? && !t.restoring && t.agents == down.agents
    ensures t.link.source == SourceOf(s.slot.profile.value) && t.link.ptz == TargetOf(s.slot.profile.value)
  {
    down := After(s, restart);
    RunOne(s, restart, [], down);
    assert [restart] + [] == [restart];
    RunKeepsInv(s, [restart], down);
    var attempting;
    steps, attempting := RestoreAttempts(down);
    var rest;
    rest, t := AttemptConnects(attempting, down.born);
    RunsCompose(down, steps, attempting, rest, t);
    steps := steps + rest;
    assert t.agents == down.agents;
  }

  lemma AttemptConnects(s: State, id: nat) returns (steps: seq<Step>, t: State)
    requires Inv(s) && id in s.agents && s.agents[id].Attempting?
    ensures Run(s, steps, t) && t.lock.None? && t.slot == s.slot && !t.restoring && t.agents == s.agents - {id}
    ensures t.link.source == SourceOf(s.agents[id].config) && t.link.ptz == TargetOf(s.agents[id].config)
    ensures !t.link.torn
  {
    steps, t := Then(s, [], s, id, Patch(true, true));
    steps, t := Then(s, steps, t, id, Configure);
  }

  /** The guard is up exactly while a restore is about. */
  ghost predicate SingleFlight(s: State) {
    && (forall id | id in s.agents :: id < s.born)
    && (s.restoring <==> exists id :: IsRestore(s, id))
    && (forall i, j | IsRestore(s, i) && IsRestore(s, j) :: i == j)
  }

  predicate IsRestore(s: State, id: nat) {
    id in s.agents && Restores(s.agents[id])
  }

  /** A handler that moves on stays what it is. */
  lemma RestoresStay(s: State, id: nat, action: Action)
    requires Enabled(s, Act(id, action))
    ensures var t := After(s, Act(id, action));
            && t.born == s.born && t.agents.Keys <= s.agents.Keys
            && (forall i :: IsRestore(t, i) <==> IsRestore(s, i) && (i != id || id in t.agents))
            && t.restoring == (s.restoring && (id in t.agents || !Restores(s.agents[id])))
  {
  }

  lemma StepKeepsSingleFlight(s: State, step: Step)
    requires SingleFlight(s) && Enabled(s, step)
    ensures SingleFlight(After(s, step))
  {
    var t := After(s, step);
    match step {
      case Act(id, action) =>
        RestoresStay(s, id, action);
        if t.restoring {
          var i :| IsRestore(s, i);
          assert IsRestore(t, i);
        } else if j :| IsRestore(t, j) {
          assert IsRestore(s, j) && s.restoring && IsRestore(s, id);
          assert false;
        }
      case BeginRestore =>
        if !s.restoring {
          assert IsRestore(t, s.born);
          assert forall i | i != s.born :: IsRestore(t, i) <==> IsRestore(s, i);
        }
      case Reboot => assert forall i :: !IsRestore(t, i);
      case _ => assert forall i :: IsRestore(t, i) <==> IsRestore(s, i);
    }
  }

  /** However often the child restarts, at most one restore is about, and the guard knows of it. */
  lemma {:induction false} OneRestoreAtATime(s: State, steps: seq<Step>, t: State)
    requires SingleFlight(s) && Run(s, steps, t)
    ensures forall i, j | IsRestore(t, i) && IsRestore(t, j) :: i == j
    ensures t.restoring <==> exists id :: IsRestore(t, id)
    decreases |steps|
  {
    if steps == [] {
    } else {
      StepKeepsSingleFlight(s, steps[0]);
      OneRestoreAtATime(After(s, steps[0]), steps[1..], t);
    }
  }

  // ── Where the code falls short ──

  /** PTZ is off, or on the camera of that profile with its credentials. */
  predicate PtzIsOn(ptz: Target, config: Profile) {
    ptz.Aimed? ==> ptz.ip == config.ip && ptz.user == config.username && ptz.password == config.password
  }

  /**
   A start or a restore attempt whose patch took effect with its reply lost: stream and PTZ are on
   one camera afterwards if and only if PTZ was on that of the profile being connected, or off.
   */
  lemma LostReplyAgreesIff(s: State, id: nat)
    requires Inv(s) && id in s.agents && (s.agents[id].Decided? || s.agents[id].Attempting?)
    ensures var t := After(s, Act(id, Patch(true, false)));
            && t.lock.None? && t.slot == s.slot && t.link.ptz == s.link.ptz
            && t.link.source == SourceOf(s.agents[id].config)
            && (OneCamera(t.link) <==> PtzIsOn(s.link.ptz, s.agents[id].config))
  {
  }

  /**
   For a start from a state in which PTZ follows the slot that means: if and only if the registered
   profile has the applied one's address and credentials, or PTZ was off.
   */
  lemma LostStartAgreesIff(s: State, id: nat) returns (steps: seq<Step>, t: State)
    requires Inv(s) && Enabled(s, Act(id, Decide)) && Chosen(s.registered).Some? && !s.link.ptzAhead
    ensures Run(s, steps, t) && steps == [Act(id, Decide), Act(id, Patch(true, false))]
    ensures t.lock.None? && t.slot == s.slot && t.link.ptz == s.link.ptz
    ensures t.link.source == SourceOf(Chosen(s.registered).value)
    ensures s.link.ptz.Aimed? ==> s.slot.profile.Some?
    ensures OneCamera(t.link)
            <==> s.link.ptz.Aimed? ==>
                   var next, prior := Chosen(s.registered).value, s.slot.profile.value;
                   next.ip == prior.ip && next.username == prior.username && next.password == prior.password
  {
    var mid;
    steps, mid := Then(s, [], s, id, Decide);
    StepKeepsInv(s, Act(id, Decide));
    LostReplyAgreesIff(mid, id);
    steps, t := Then(s, steps, mid, id, Patch(true, false));
  }

  /** Source and PTZ as the slot says, both off when streaming is. */
  predicate Follows(slot: Slot, link: Link) {
    && SourceFits(link.source, slot.profile) && PtzFits(link.ptz, slot.profile)
    && (!slot.active ==> link.ptz == Off && link.source == Detached)
  }

  /**
   A start that connects and then cannot write the slot leaves source and PTZ on one camera, but
   following the slot if and only if streaming was active with a profile of the same connection.
   */
  lemma FailedWriteFollowsIff(s: State, id: nat) returns (steps: seq<Step>, t: State)
    requires Inv(s) && Enabled(s, Act(id, Decide)) && Chosen(s.registered).Some?
    ensures Run(s, steps, t) && t.lock.None? && t.slot == s.slot && t.restoring == s.restoring
    ensures OneCamera(t.link)
    ensures var config := Chosen(s.registered).value;
            && t.link.source == SourceOf(config) && t.link.ptz == TargetOf(config)
    ensures var config := Chosen(s.registered).value;
            Follows(t.slot, t.link)
            <==> s.slot.active && s.slot.profile.Some? && SourceOf(s.slot.profile.value) == SourceOf(config)
                 && (TargetOf(config) == Off || TargetOf(config) == TargetOf(s.slot.profile.value))
  {
    steps, t := StartConnects(s, id);
    steps, t := Then(s, steps, t, id, PersistFails);
  }

  /** The patrol setting the client saved last, given what the slot held before. */
  function LastSaved(steps: seq<Step>, before: Option<Patrol>): Option<Patrol> {
    if steps == [] then before
    else LastSaved(steps[1..], if steps[0].SavePatrol? then Some(steps[0].patrol) else before)
  }

  /** A start is between its read of the slot and its write. */
  predicate Underway(s: State, id: nat, config: Profile, seen: Slot) {
    && id in s.agents
    && match s.agents[id]
       case Decided(chosen, was) => chosen == config && was == seen
       case Patched(chosen, was) => chosen == config && was == seen
       case Configured(chosen, was) => chosen == config && was == seen
       case _ => false
  }

  /** It has written or failed, and stays out of that part. */
  predicate Past(s: State, id: nat) {
    id < s.born && (id in s.agents ==> s.agents[id].Persisted?)
  }

  lemma PastStaysPast(s: State, step: Step, id: nat)
    requires Inv(s) && Enabled(s, step) && !step.Reboot? && Past(s, id)
    ensures Past(After(s, step), id)
  {
  }

  lemma UnderwayMoves(s: State, step: Step, id: nat, config: Profile, seen: Slot)
    requires Inv(s) && Enabled(s, step) && !step.Reboot? && Underway(s, id, config, seen)
    ensures var t := After(s, step);
            Past(t, id)
            || (Underway(t, id, config, seen)
                && t.slot.patrol == if step.SavePatrol? then Some(step.patrol) else s.slot.patrol)
  {
    if step.Act? && step.id != id {
      OthersLeaveTheSlot(s, step.id, step.action, id);
    }
  }

  /** While a start holds the lock, nobody else gets at the slot. */
  lemma OthersLeaveTheSlot(s: State, other: nat, action: Action, id: nat)
    requires Inv(s) && Enabled(s, Act(other, action)) && other != id && id in s.agents && Holding(s.agents[id])
    ensures var t := After(s, Act(other, action));
            t.slot == s.slot && t.born == s.born && id in t.agents && t.agents[id] == s.agents[id]
  {
    assert !Holding(s.agents[other]) && !Enters(action);
  }

  lemma {:induction false} SlotWhileStarting(
    s: State, steps: seq<Step>, t: State, id: nat, config: Profile, seen: Slot)
    requires Inv(s) && Run(s, steps, t) && Reboot !in steps
    requires Past(s, id) || Underway(s, id, config, seen)
    ensures Past(t, id)
            || (Underway(t, id, config, seen) && (Past(s, id) || t.slot.patrol == LastSaved(steps, s.slot.patrol)))
    ensures Past(s, id) ==> Past(t, id)
    decreases |steps|
  {
    if steps == [] {
    } else {
      assert steps[0] in steps;
      StepKeepsInv(s, steps[0]);
      if Past(s, id) {
        PastStaysPast(s, steps[0], id);
      } else {
        UnderwayMoves(s, steps[0], id, config, seen);
      }
      SlotWhileStarting(After(s, steps[0]), steps[1..], t, id, config, seen);
    }
  }

  /**
   A start writes what it found when it took the lock, whatever is registered or saved until it
   writes: the profile it chose, and the presets there were if they belong to the same address.
   */
  lemma AStartWritesWhatItRead(
    s: State, steps: seq<Step>, t: State, id: nat, config: Profile, current: Patrol)
    requires Inv(s) && Underway(s, id, config, s.slot)
    requires Run(s, steps, t) && Reboot !in steps && Enabled(t, Act(id, Persist(current)))
    ensures var written := After(t, Act(id, Persist(current))).slot;
            && written.active && written.profile == Some(config)
            && (s.slot.profile.Some? && s.slot.profile.value.ip == config.ip ==> written.presets == s.slot.presets)
            && (s.slot.profile.None? || s.slot.profile.value.ip != config.ip ==> written.presets == map[])
            && written.patrol == if s.slot.patrol.Some? then s.slot.patrol else Some(current)
  {
    SlotWhileStarting(s, steps, t, id, config, s.slot);
    WrittenIsPromoted(t, id, config, s.slot, current);
  }

  lemma WrittenIsPromoted(t: State, id: nat, config: Profile, seen: Slot, current: Patrol)
    requires Underway(t, id, config, seen) && Enabled(t, Act(id, Persist(current)))
    ensures After(t, Act(id, Persist(current))).slot == Promoted(config, seen, current)
  {
  }

  /** So a patrol setting saved meanwhile survives exactly when it is what the start writes. */
  lemma SavedPatrolSurvivesIff(s: State, steps: seq<Step>, t: State, id: nat, config: Profile, current: Patrol)
    requires Inv(s) && Underway(s, id, config, s.slot)
    requires Run(s, steps, t) && Reboot !in steps && Enabled(t, Act(id, Persist(current)))
    ensures var saved := LastSaved(steps, s.slot.patrol);
            && t.slot.patrol == saved
            && (After(t, Act(id, Persist(current))).slot.patrol == saved
                <==> saved == if s.slot.patrol.Some? then s.slot.patrol else Some(current))
  {
    SlotWhileStarting(s, steps, t, id, config, s.slot);
    WrittenIsPromoted(t, id, config, s.slot, current);
  }

  // ── Both are reached ──

  /** A streamer that has never been used. */
  function Blank(): State {
    Booted(None, Slot(false, None, map[], None))
  }

  /** Registering a profile and asking for a start, by a new handler. */
  lemma RegisterAndBegin(s: State, p: Profile) returns (steps: seq<Step>, t: State)
    requires Inv(s) && s.lock.None? && Profiles.Sound(p)
    ensures Run(s, steps, t) && Inv(t) && Enabled(t, Act(s.born, Decide)) && Chosen(t.registered) == Some(p)
    ensures t.slot == s.slot && t.link == s.link && t.born == s.born + 1 && t.restoring == s.restoring
    ensures t.agents.Keys == s.agents.Keys + {s.born}
  {
    var stored := Profiles.Stored(p);
    var known := After(s, Register(stored));
    RegisteredIsChosen(s, p);
    t := After(known, BeginStart);
    RunOne(known, BeginStart, [], t);
    steps := [Register(stored)] + ([BeginStart] + []);
    RunOne(s, Register(stored), [BeginStart] + [], t);
    RunKeepsInv(s, steps, t);
  }

  lemma RegisteredIsChosen(s: State, p: Profile)
    requires Profiles.Sound(p)
    ensures After(s, Register(Profiles.Stored(p))) == s.(registered := Some(Profiles.Stored(p)))
    ensures Chosen(Some(Profiles.Stored(p))) == Some(p)
  {
    Profiles.SoundIsNormal(p, if s.registered.Some? then s.registered.value else Profiles.NOTHING);
    Profiles.SoundIsNormal(p, Profiles.Stored(p));
  }

  /** p registered and started on a new streamer. */
  lemma FirstStart(p: Profile, current: Patrol) returns (steps: seq<Step>, t: State)
    requires Profiles.Sound(p)
    ensures Run(Blank(), steps, t) && Inv(t) && t.lock.None? && !t.link.ptzAhead && !t.restoring
    ensures t.slot == Slot(true, Some(p), map[], Some(current)) && t.link.ptz == TargetOf(p)
  {
    var begin, begun := RegisterAndBegin(Blank(), p);
    steps, t := UndisturbedStart(begun, 0, current);
    RunsCompose(Blank(), begin, begun, steps, t);
    steps := begin + steps;
  }

  /** And then q registered and a second start begun. */
  lemma SecondStart(p: Profile, q: Profile, current: Patrol) returns (steps: seq<Step>, t: State, id: nat)
    requires Profiles.Sound(p) && Profiles.Sound(q)
    ensures Run(Blank(), steps, t) && Inv(t) && Enabled(t, Act(id, Decide)) && Chosen(t.registered) == Some(q)
    ensures t.slot == Slot(true, Some(p), map[], Some(current)) && t.link.ptz == TargetOf(p) && !t.link.ptzAhead
    ensures !t.restoring
  {
    var first, started := FirstStart(p, current);
    id := started.born;
    var begin;
    begin, t := RegisterAndBegin(started, q);
    RunsCompose(Blank(), first, started, begin, t);
    steps := first + begin;
  }

  /** Changing the camera with the reply lost: the stream is the new camera's, PTZ moves the old one. */
  lemma LostReplySplitsTheCameras(p: Profile, q: Profile, current: Patrol) returns (steps: seq<Step>, t: State)
    requires Profiles.Sound(p) && Profiles.Sound(q) && TargetOf(p).Aimed? && p.ip != q.ip
    ensures Run(Blank(), steps, t) && t.lock.None? && t.slot.profile == Some(p)
    ensures t.link.source == SourceOf(q) && t.link.ptz == TargetOf(p) && !OneCamera(t.link)
  {
    var before, begun, id := SecondStart(p, q, current);
    steps, t := LostStartAgreesIff(begun, id);
    RunsCompose(Blank(), before, begun, steps, t);
    steps := before + steps;
  }

  /** A setting saved after a start's read is gone with its write. */
  lemma SaveDuringAStart(s: State, id: nat, saved: Patrol) returns (rest: seq<Step>, t: State)
    requires id in s.agents && s.agents[id].Decided? && s.lock == Some(id) && s.agents[id].seen.patrol.Some?
    ensures Run(After(s, SavePatrol(saved)), rest, t)
    ensures rest == [Act(id, Patch(true, true)), Act(id, Configure), Act(id, Persist(saved))]
    ensures t.slot.active && t.slot.patrol == s.agents[id].seen.patrol
  {
    var later := After(s, SavePatrol(saved));
    var connected;
    rest, connected := DecidedConnects(later, id);
    rest, t := Then(later, rest, connected, id, Persist(saved));
  }

  /** A patrol setting saved while a start is under way, and lost: no later step saves another. */
  lemma SavedPatrolIsLost(p: Profile, first: Patrol, saved: Patrol)
      returns (before: seq<Step>, mid: State, id: nat, rest: seq<Step>, t: State)
    requires Profiles.Sound(p) && first != saved
    ensures Run(Blank(), before, mid) && Run(After(mid, SavePatrol(saved)), rest, t)
    ensures rest == [Act(id, Patch(true, true)), Act(id, Configure), Act(id, Persist(saved))]
    ensures t.slot.active && t.slot.patrol == Some(first)
  {
    var begin, begun;
    begin, begun, id := SecondStart(p, p, first);
    before, mid := Then(Blank(), begin, begun, id, Decide);
    rest, t := SaveDuringAStart(mid, id, saved);
  }

  /** p streams; a start of q connects and cannot write the slot: PTZ and stream are q's, the slot is p's. */
  lemma SecondStartCannotWrite(p: Profile, q: Profile, current: Patrol) returns (steps: seq<Step>, t: State)
    requires Profiles.Sound(p) && Profiles.Sound(q) && SourceOf(p) != SourceOf(q)
    ensures Run(Blank(), steps, t) && Inv(t) && t.lock.None? && !Follows(t.slot, t.link)
    ensures t.slot == Slot(true, Some(p), map[], Some(current))
    ensures t.link.source == SourceOf(q) && t.link.ptz == TargetOf(q) && !t.restoring
  {
    var before, begun, id := SecondStart(p, q, current);
    steps, t := FailedWriteFollowsIff(begun, id);
    RunsCompose(Blank(), before, begun, steps, t);
    steps := before + steps;
    RunKeepsInv(Blank(), steps, t);
  }

  /** A restore attempt by a new thread, if none is under way, up to its patch. */
  lemma RestoreAttempts(s: State) returns (steps: seq<Step>, t: State)
    requires Inv(s) && s.lock.None? && !s.restoring && s.slot.active && s.slot.profile.Some?
    ensures Run(s, steps, t) && Inv(t) && s.born in t.agents
    ensures t.agents == s.agents[s.born := Attempting(s.slot.profile.value)] && t.link == s.link && t.slot == s.slot
  {
    var begun := After(s, BeginRestore);
    RunOne(s, BeginRestore, [], begun);
    assert [BeginRestore] + [] == [BeginRestore];
    steps, t := Then(s, [BeginRestore], begun, s.born, Check);
    steps, t := Then(s, steps, t, s.born, Attempt);
    RunKeepsInv(s, steps, t);
  }

  /** After that failed write, a restore whose reply is lost: the stream is the old camera's, PTZ on the new one. */
  lemma LostRestoreSplitsTheCameras(p: Profile, q: Profile, current: Patrol) returns (steps: seq<Step>, t: State)
    requires Profiles.Sound(p) && Profiles.Sound(q) && TargetOf(q).Aimed? && p.ip != q.ip
    ensures Run(Blank(), steps, t) && t.lock.None? && t.slot.profile == Some(p)
    ensures t.link.source == SourceOf(p) && t.link.ptz == TargetOf(q) && !OneCamera(t.link)
  {
    var failing, failed := SecondStartCannotWrite(p, q, current);
    var more, attempting := RestoreAttempts(failed);
    RunsCompose(Blank(), failing, failed, more, attempting);
    LostReplyAgreesIff(attempting, failed.born);
    steps, t := Then(Blank(), failing + more, attempting, failed.born, Patch(true, false));
  }
}
