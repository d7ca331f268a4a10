/**
 The event gate across crashes: `accept_event` in recorder/finalize.py and the merged state file
 of recorder/state_store.py, with the buffer endpoints as the file's other writer.
 */
module Cooldown {
  import opened Options

  /** The default of TRIGGER_COOLDOWN in recorder/settings.py, in seconds. */
  const COOLDOWN := 30.0

  /** The JSON object on disk; a missing member is None. */
  datatype File = File(active: Option<bool>, anchor: Option<real>)

  /** The fields of one `update` call. */
  datatype Fields = Active(active: bool) | Anchor(anchor: real)

  function Merged(file: File, fields: Fields): File {
    match fields
    case Active(active) => file.(active := Some(active))
    case Anchor(anchor) => file.(anchor := Some(anchor))
  }

  /** The anchor a starting process reads; a missing file or member counts as 0. */
  function Restored(file: File): real {
    if file.anchor.Some? then file.anchor.value else 0.0
  }

  /** Where a handler is. A handler that has gone is no longer in the map. */
  datatype Pc =
    | Notified(time: real)
    | Accepted(time: real)                       // holds the trigger lock; the anchor in memory is set
    | Switching(active: bool)                    // a buffer endpoint, before `update`
    | Merging(fields: Fields, loaded: File)      // holds the store lock; an event also the trigger lock
    | Starting(time: real)                       // both locks released, worker not started yet

  /**
   `wrote` is what each writer last saw written, and `started` the time of every event whose
   worker was started, by handler; neither is part of the program.
   */
  datatype State = State(
    disk: File, anchor: real, trigger: Option<nat>, store: Option<nat>,
    born: nat, agents: map<nat, Pc>, wrote: File, started: map<nat, real>)

  function Initial(file: File): State {
    State(file, Restored(file), None, None, 0, map[], file, map[])
  }

  datatype Step =
    | Notify(time: real)
    | Flip(active: bool)
    | Gate(id: nat)         // takes the trigger lock, compares and sets the anchor
    | Load(id: nat)         // takes the store lock, reads the file
    | Replace(id: nat)      // os.replace, then the locks are released
    | Fail(id: nat)         // the file could not be written: the error ends the handler
    | Start(id: nat)
    | Restart               // the process dies at any point and comes up again

  predicate Waits(s: State, id: nat) {
    id in s.agents && (s.agents[id].Accepted? || s.agents[id].Switching?)
  }

  predicate Enabled(s: State, step: Step) {
    match step
    case Notify(_) => true
    case Flip(_) => true
    case Gate(id) => id in s.agents && s.agents[id].Notified? && s.trigger.None?
    case Load(id) => Waits(s, id) && s.store.None?
    case Replace(id) => id in s.agents && s.agents[id].Merging?
    case Fail(id) => id in s.agents && s.agents[id].Merging?
    case Start(id) => id in s.agents && s.agents[id].Starting?
    case Restart => true
  }

  function FieldsOf(pc: Pc): Fields
    requires pc.Accepted? || pc.Switching?
  {
    if pc.Accepted? then Anchor(pc.time) else Active(pc.active)
  }

  function Left(s: State, id: nat): State {
    s.(agents := s.agents - {id})
  }

  /** Both locks are released by the one handler that holds them. */
  function Released(s: State, fields: Fields): State {
    s.(store := None, trigger := if fields.Anchor? then None else s.trigger)
  }

  function After(s: State, step: Step): State
    requires Enabled(s, step)
  {
    match step
    case Notify(time) => s.(born := s.born + 1, agents := s.agents[s.born := Notified(time)])
    case Flip(active) => s.(born := s.born + 1, agents := s.agents[s.born := Switching(active)])
    case Gate(id) =>
      var time := s.agents[id].time;
      if time - s.anchor < COOLDOWN then
        Left(s, id)
      else
        s.(trigger := Some(id), anchor := time, agents := s.agents[id := Accepted(time)])
    case Load(id) =>
      s.(store := Some(id), agents := s.agents[id := Merging(FieldsOf(s.agents[id]), s.disk)])
    case Replace(id) =>
      var fields, loaded := s.agents[id].fields, s.agents[id].loaded;
      var freed := Released(s, fields).(disk := Merged(loaded, fields), wrote := Merged(s.wrote, fields));
      if fields.Anchor? then freed.(agents := s.agents[id := Starting(fields.anchor)]) else Left(freed, id)
    case Fail(id) => Left(Released(s, s.agents[id].fields), id)
    case Start(id) => Left(s, id).(started := s.started[id := s.agents[id].time])
    case Restart => s.(anchor := Restored(s.disk), trigger := None, store := None, agents := map[])
  }

  ghost predicate Run(s: State, steps: seq<Step>, t: State)
    decreases |steps|
  {
    if steps == [] then t == s else Enabled(s, steps[0]) && Run(After(s, steps[0]), steps[1..], t)
  }

  // ── What every step keeps ──

  predicate HoldsTrigger(pc: Pc) {
    pc.Accepted? || (pc.Merging? && pc.fields.Anchor?)
  }

  ghost predicate Locks(s: State) {
    && (forall id | id in s.agents :: id < s.born)
    && (forall id | id in s.agents :: HoldsTrigger(s.agents[id]) <==> s.trigger == Some(id))
    && (forall id | id in s.agents :: s.agents[id].Merging? <==> s.store == Some(id))
    && (s.trigger.Some? ==> s.trigger.value in s.agents)
    && (s.store.Some? ==> s.store.value in s.agents)
  }

  /** Nobody works on a stale copy, so the file holds what each writer wrote last. */
  ghost predicate Fresh(s: State) {
    && s.disk == s.wrote
    && forall id | id in s.agents && s.agents[id].Merging? :: s.agents[id].loaded == s.disk
  }

  /** The time of an event whose acceptance is on disk, whether or not its worker has started. */
  predicate Committed(s: State, id: nat, time: real) {
    (id in s.started && s.started[id] == time) || (id in s.agents && s.agents[id] == Starting(time))
  }

  ghost predicate Spaced(s: State) {
    && (forall id | id in s.started :: id < s.born && id !in s.agents)
    && (forall id, time | Committed(s, id, time) :: time <= Restored(s.disk))
    && (forall p, q, t, u | p != q && Committed(s, p, t) && Committed(s, q, u) :: Far(t, u))
  }

  predicate Far(t: real, u: real) {
    t + COOLDOWN <= u || u + COOLDOWN <= t
  }

  /** The anchor in memory runs ahead of the file, by a cooldown for the event being saved. */
  ghost predicate Anchored(s: State) {
    && Restored(s.disk) <= s.anchor
    && (forall id | id in s.agents && HoldsTrigger(s.agents[id]) ::
          s.anchor == TimeOf(s.agents[id]) && Restored(s.disk) + COOLDOWN <= s.anchor)
  }

  function TimeOf(pc: Pc): real
    requires HoldsTrigger(pc)
  {
    if pc.Accepted? then pc.time else pc.fields.anchor
  }

  ghost predicate Inv(s: State) {
    Locks(s) && Fresh(s) && Spaced(s) && Anchored(s)
  }

  lemma StepKeepsLocks(s: State, step: Step)
    requires Inv(s) && Enabled(s, step)
    ensures Locks(After(s, step)) && Fresh(After(s, step))
  {
  }

  lemma StepKeepsAnchor(s: State, step: Step)
    requires Inv(s) && Enabled(s, step)
    ensures Anchored(After(s, step))
  {
  }

  lemma CommittedComesFrom(s: State, step: Step, id: nat, time: real)
    requires Inv(s) && Enabled(s, step) && Committed(After(s, step), id, time)
    ensures Committed(s, id, time) || (step == Replace(id) && s.agents[id].fields == Anchor(time))
  {
  }

  lemma StepKeepsSpacing(s: State, step: Step)
    requires Inv(s) && Enabled(s, step)
    ensures Spaced(After(s, step))
  {
    var t := After(s, step);
    assert Restored(s.disk) <= Restored(t.disk);
    forall id, time | Committed(t, id, time) ensures time <= Restored(t.disk) {
      CommittedComesFrom(s, step, id, time);
    }
    forall p, q, a, b | p != q && Committed(t, p, a) && Committed(t, q, b) ensures Far(a, b) {
      CommittedComesFrom(s, step, p, a);
      CommittedComesFrom(s, step, q, b);
    }
  }

  lemma {:induction false} RunKeepsInv(s: State, steps: seq<Step>, t: State)
    requires Inv(s) && Run(s, steps, t)
    ensures Inv(t)
    decreases |steps|
  {
    if steps == [] {
    } else {
      StepKeepsLocks(s, steps[0]);
      StepKeepsAnchor(s, steps[0]);
      StepKeepsSpacing(s, steps[0]);
      RunKeepsInv(After(s, steps[0]), steps[1..], t);
    }
  }

  // ── Main results ──

  /** Over any run with restarts at any point, two started events are a cooldown apart. */
  lemma StartedEventsAreFarApart(file: File, steps: seq<Step>, t: State, p: nat, q: nat)
    requires Run(Initial(file), steps, t) && p in t.started && q in t.started && p != q
    ensures Far(t.started[p], t.started[q])
  {
    RunKeepsInv(Initial(file), steps, t);
    assert Committed(t, p, t.started[p]) && Committed(t, q, t.started[q]);
  }

  lemma MergingIsFresh(file: File, steps: seq<Step>, t: State)
    requires Run(Initial(file), steps, t)
    ensures t.disk == t.wrote
  {
    RunKeepsInv(Initial(file), steps, t);
  }

  /** The flag and the anchor that were saved last, read off the steps that replaced the file. */
  function LastFlag(s: State, steps: seq<Step>, flag: Option<bool>): Option<bool>
    requires CanRun(s, steps)
    decreases |steps|
  {
    if steps == [] then flag
    else
      var saved := steps[0].Replace? && s.agents[steps[0].id].fields.Active?;
      LastFlag(After(s, steps[0]), steps[1..], if saved then Some(s.agents[steps[0].id].fields.active) else flag)
  }

  function LastAnchor(s: State, steps: seq<Step>, anchor: Option<real>): Option<real>
    requires CanRun(s, steps)
    decreases |steps|
  {
    if steps == [] then anchor
    else
      var saved := steps[0].Replace? && s.agents[steps[0].id].fields.Anchor?;
      LastAnchor(After(s, steps[0]), steps[1..], if saved then Some(s.agents[steps[0].id].fields.anchor) else anchor)
  }

  predicate CanRun(s: State, steps: seq<Step>)
    decreases |steps|
  {
    steps == [] || (Enabled(s, steps[0]) && CanRun(After(s, steps[0]), steps[1..]))
  }

  lemma {:induction false} WroteIsTheLast(s: State, steps: seq<Step>, t: State)
    requires Run(s, steps, t)
    ensures CanRun(s, steps)
    ensures t.wrote == File(LastFlag(s, steps, s.wrote.active), LastAnchor(s, steps, s.wrote.anchor))
    decreases |steps|
  {
    if steps == [] {
    } else {
      WroteIsTheLast(After(s, steps[0]), steps[1..], t);
    }
  }

  /**
   Neither writer's field is ever lost: over any run with restarts, the file holds the last flag and
   the last anchor that were saved, or what was there at the start.
   */
  lemma MergingLosesNothing(file: File, steps: seq<Step>, t: State)
    requires Run(Initial(file), steps, t)
    ensures CanRun(Initial(file), steps)
    ensures t.disk.active == LastFlag(Initial(file), steps, file.active)
    ensures t.disk.anchor == LastAnchor(Initial(file), steps, file.anchor)
  {
    MergingIsFresh(file, steps, t);
    WroteIsTheLast(Initial(file), steps, t);
  }

  /** An event that is due and cannot be saved is not started, and holds others off as if it had been. */
  lemma UnsavedEvent(s: State, time: real) returns (steps: seq<Step>, t: State)
    requires Inv(s) && s.agents == map[] && s.anchor + COOLDOWN <= time
    ensures Run(s, steps, t) && t.agents == map[] && t.started == s.started && t.disk == s.disk && t.anchor == time
    ensures t.store == None == t.trigger
  {
    var id := s.born;
    var asked := After(s, Notify(time));
    var judged := After(asked, Gate(id));
    var loaded := After(judged, Load(id));
    t := After(loaded, Fail(id));
    RunOne(loaded, Fail(id), [], t);
    RunOne(judged, Load(id), [Fail(id)] + [], t);
    RunOne(asked, Gate(id), [Load(id)] + ([Fail(id)] + []), t);
    steps := [Notify(time)] + ([Gate(id)] + ([Load(id)] + ([Fail(id)] + [])));
    RunOne(s, Notify(time), [Gate(id)] + ([Load(id)] + ([Fail(id)] + [])), t);
    assert t.agents == map[];
  }

  /** A restart takes up the anchor of the file, or 0; what was not saved is gone. */
  lemma RestartTakesTheFilesAnchor(s: State)
    ensures var t := After(s, Restart);
            && t.disk == s.disk && t.started == s.started && t.agents == map[]
            && t.anchor == match s.disk.anchor case Some(anchor) => anchor case None => 0.0
  {
  }

  /** An undisturbed buffer request saves its flag, and a failed one nothing; the anchor stays. */
  lemma UndisturbedFlip(s: State, active: bool, works: bool) returns (steps: seq<Step>, t: State)
    requires Inv(s) && s.agents == map[]
    ensures Run(s, steps, t) && t.agents == map[] && t.started == s.started && t.anchor == s.anchor
    ensures t.store == None == t.trigger
    ensures t.disk == File(if works then Some(active) else s.disk.active, s.disk.anchor)
  {
    var id := s.born;
    var asked := After(s, Flip(active));
    var loaded := After(asked, Load(id));
    var last := if works then Replace(id) else Fail(id);
    t := After(loaded, last);
    RunOne(loaded, last, [], t);
    RunOne(asked, Load(id), [last] + [], t);
    RunOne(s, Flip(active), [Load(id)] + ([last] + []), t);
    steps := [Flip(active)] + ([Load(id)] + ([last] + []));
    assert t.agents == map[];
  }

  /** Events within an interval of length hi - lo: at most one more than the cooldowns that fit into it. */
  lemma EventsInAnInterval(file: File, steps: seq<Step>, t: State, lo: real, hi: real, ids: set<nat>)
    requires Run(Initial(file), steps, t) && lo <= hi
    requires forall id | id in ids :: id in t.started && lo <= t.started[id] <= hi
    ensures |ids| as real * COOLDOWN <= hi - lo + COOLDOWN
  {
    forall p, q | p in ids && q in ids && p != q ensures Far(t.started[p], t.started[q]) {
      StartedEventsAreFarApart(file, steps, t, p, q);
    }
    FewInterval(t.started, ids, lo, hi);
  }

  /**
   The other side: an event that nothing disturbs is started exactly when it is a cooldown past the
   anchor, and otherwise leaves no trace.
   */
  lemma UndisturbedEvent(s: State, time: real) returns (steps: seq<Step>, t: State)
    requires Inv(s) && s.agents == map[]
    ensures Run(s, steps, t) && t.agents == map[] && s.born !in s.started
    ensures s.anchor + COOLDOWN <= time ==>
              t.started == s.started[s.born := time] && t.anchor == time && t.disk == s.disk.(anchor := Some(time))
    ensures time < s.anchor + COOLDOWN ==> t.started == s.started && t.anchor == s.anchor && t.disk == s.disk
  {
    var id := s.born;
    var asked := After(s, Notify(time));
    var judged := After(asked, Gate(id));
    if id in judged.agents {
      var loaded := After(judged, Load(id));
      var saved := After(loaded, Replace(id));
      t := After(saved, Start(id));
      RunOne(saved, Start(id), [], t);
      RunOne(loaded, Replace(id), [Start(id)], t);
      RunOne(judged, Load(id), [Replace(id), Start(id)], t);
      RunOne(asked, Gate(id), [Load(id), Replace(id), Start(id)], t);
      RunOne(s, Notify(time), [Gate(id), Load(id), Replace(id), Start(id)], t);
      steps := [Notify(time)] + [Gate(id), Load(id), Replace(id), Start(id)];
    } else {
      t := judged;
      RunOne(asked, Gate(id), [], t);
      RunOne(s, Notify(time), [Gate(id)], t);
      steps := [Notify(time)] + [Gate(id)];
    }
  }

  lemma RunOne(s: State, step: Step, steps: seq<Step>, t: State)
    requires Enabled(s, step) && Run(After(s, step), steps, t)
    ensures Run(s, [step] + steps, t)
  {
    assert ([step] + steps)[1..] == steps;
  }

  lemma {:induction false} FewInterval(times: map<nat, real>, ids: set<nat>, lo: real, hi: real)
    requires ids <= times.Keys && forall id | id in ids :: lo <= times[id] <= hi
    requires lo <= hi + COOLDOWN
    requires forall p, q | p in ids && q in ids && p != q :: Far(times[p], times[q])
    ensures |ids| as real * COOLDOWN <= hi - lo + COOLDOWN
    decreases |ids|
  {
    if ids == {} {
    } else {
      var last := Latest(times, ids);
      var rest := ids - {last};
      forall id | id in rest ensures times[id] <= times[last] - COOLDOWN {
        assert Far(times[id], times[last]);
      }
      FewInterval(times, rest, lo, times[last] - COOLDOWN);
      assert |ids| == |rest| + 1;
    }
  }

  lemma {:induction false} Latest(times: map<nat, real>, ids: set<nat>) returns (last: nat)
    requires ids != {} && ids <= times.Keys
    ensures last in ids && forall id | id in ids :: times[id] <= times[last]
    decreases |ids|
  {
    var one :| one in ids;
    last := one;
    if ids - {one} != {} {
      var other := Latest(times, ids - {one});
      if times[one] < times[other] {
        last := other;
      }
    }
    assert forall id | id in ids :: id == one || id in ids - {one};
  }
}
