/**
 The automatic patrol (streamer/ptz.py): a thread that visits the saved presets in slot order,
 beside handlers that change the setting, the presets, the PTZ target and the manual hold.
 */
module Patrolling {
  import opened Options

  const MIN_INTERVAL := 5
  const MOVE_HOLD := 10.0

  type Position = (real, real)

  /** The module's state under `_lock`. */
  datatype Shared = Shared(
    enabled: bool, interval: int, slot: Option<nat>, presets: map<nat, Position>, configured: bool,
    movingUntil: real)

  function Max(a: int, b: int): int {
    if a < b then b else a
  }

  function FlagSet(sh: Shared, enabled: bool, interval: Option<int>): Shared {
    sh.(enabled := enabled, interval := if interval.Some? then Max(MIN_INTERVAL, interval.value) else sh.interval)
  }

  /** set_patrol with nothing in between: turning the patrol off sends the camera home, to preset 1. */
  function PatrolSet(sh: Shared, enabled: bool, interval: Option<int>): Shared {
    var home := if 1 in sh.presets then Some(1) else None;
    FlagSet(sh, enabled, interval).(slot := if sh.enabled && !enabled then home else sh.slot)
  }

  function MovingSet(sh: Shared, moving: bool, now: real): Shared {
    sh.(movingUntil := if moving then now + MOVE_HOLD else 0.0)
  }

  predicate Held(sh: Shared, now: real) {
    now < sh.movingUntil
  }

  predicate IsSlot(slot: nat) {
    1 <= slot <= 4
  }

  /** The saved slots from `from` on, in order. */
  function SlotsFrom(presets: map<nat, Position>, from: nat): seq<nat>
    decreases 5 - from
  {
    if from > 4 then []
    else (if from in presets then [from] else []) + SlotsFrom(presets, from + 1)
  }

  function Slots(presets: map<nat, Position>): seq<nat> {
    SlotsFrom(presets, 1)
  }

  class Ptz {
    var enabled: bool
    var interval: int
    var slot: Option<nat>
    var presets: map<nat, Position>
    var configured: bool
    var movingUntil: real

    function View(): Shared
      reads this
    {
      Shared(enabled, interval, slot, presets, configured, movingUntil)
    }

    constructor ()
      ensures View() == Shared(false, 30, None, map[], false, 0.0)
    {
      enabled, interval, slot := false, 30, None;
      presets, configured, movingUntil := map[], false, 0.0;
    }

    /** Answers where to send the camera when the patrol has just been turned off. */
    method SetPatrol(on: bool, seconds: Option<int>) returns (home: Option<Position>)
      modifies this
      ensures View() == PatrolSet(old(View()), on, seconds)
      ensures enabled == on && unchanged(this`presets, this`configured, this`movingUntil)
      ensures interval == if seconds.None? then old(interval) else if seconds.value < 5 then 5 else seconds.value
      ensures !(old(enabled) && !on) ==> slot == old(slot)
      ensures old(enabled) && !on ==> slot == if 1 in presets then Some(1) else None
      ensures home.Some? <==> old(enabled) && !on && 1 in presets
      ensures home.Some? ==> home.value == presets[1] && slot == Some(1)
      ensures old(interval) >= MIN_INTERVAL ==> interval >= MIN_INTERVAL
    {
      var was := enabled;
      enabled := on;
      if seconds.Some? {
        interval := Max(MIN_INTERVAL, seconds.value);
      }
      home := None;
      if was && !on {
        slot := None;
        if 1 in presets {
          slot := Some(1);
          home := Some(presets[1]);
        }
      }
    }

    method SetMoving(moving: bool, now: real)
      modifies this
      ensures View() == MovingSet(old(View()), moving, now)
      ensures forall t :: Held(View(), t) <==> t < if moving then now + MOVE_HOLD else 0.0
    {
      movingUntil := if moving then now + MOVE_HOLD else 0.0;
    }

    /** Answers what is to be persisted; every other preset stays, and the patrol will visit the new one. */
    method SavePreset(at: nat, current: Option<Position>) returns (snapshot: Option<map<nat, Position>>)
      modifies this
      ensures snapshot.Some? <==> IsSlot(at) && current.Some?
      ensures snapshot.Some? ==> snapshot.value == presets && at in presets && Some(presets[at]) == current
      ensures snapshot.Some? ==> at in Slots(presets)
      ensures forall other | other != at :: other in presets <==> other in old(presets)
      ensures forall other | other in presets && other != at :: presets[other] == old(presets)[other]
      ensures snapshot.None? ==> presets == old(presets)
      ensures View() == old(View()).(presets := presets)
    {
      if !IsSlot(at) || current.None? {
        return None;
      }
      presets := presets[at := current.value];
      SlotsAreThePresets(presets);
      snapshot := Some(presets);
    }

    method ClearConfig()
      modifies this
      ensures View() == old(View()).(configured := false, movingUntil := 0.0)
    {
      configured := false;
      movingUntil := 0.0;
    }
  }

  // ── The loop and the handlers beside it ──

  /** Where patrol_loop is within one iteration, with what it has read. */
  datatype Pc =
    | Asleep
    | Woken(on: bool, seconds: int, slots: seq<nat>)
    | Due(now: real, seconds: int, slots: seq<nat>)
    | Free(now: real, seconds: int, slots: seq<nat>, polled: Moment)

  /** When something happened, and the move command in force then, as far as it had been given and not released. */
  datatype Moment = Moment(clock: real, command: Option<real>)

  /**
   One decided move: the slots it chose from, when it was due and the interval read, where the
   camera was sent (nowhere when the preset had gone), whether the schedule had been reset before
   it, when is_moving was asked and when the move was issued, and whether a hold was on by then.
   */
  datatype Turn = Turn(
    slot: nat, slots: seq<nat>, at: real, seconds: int, to: Option<Position>, reset: bool,
    polled: Moment, taken: Moment, held: bool)

  /** Where a handler that has turned the patrol off is: before its look at preset 1, or with what it saw. */
  datatype Homing = NotHoming | Looking | Found(home: Option<Position>)

  /**
   `turns`, `pressed` (the last move command not yet released) and `sent` (where the patrol or a
   turning off sent the camera last) only record what happened.
   */
  datatype State = State(
    sh: Shared, clock: real, pc: Pc, idx: nat, nextDue: Option<real>, homing: Homing,
    turns: seq<Turn>, pressed: Option<real>, sent: Option<Position>)

  datatype Step =
    | Pass(time: real)
    | SetPatrol(on: bool, seconds: Option<int>)   // the flag and the interval; requests come one at a time
    | Look                                        // get_preset(1)
    | Home                                        // the slot, and the move
    | SetMoving(moving: bool)
    | SavePreset(slot: nat, at: Position)
    | LoadPresets(presets: map<nat, Position>)
    | Configure
    | ClearConfig
    | Wake
    | Consider
    | Poll
    | Go

  predicate Enabled(s: State, step: Step) {
    match step
    case Pass(time) => time > 0.0
    case SetPatrol(_, _) => s.homing.NotHoming?
    case Look => s.homing.Looking?
    case Home => s.homing.Found?
    case SavePreset(slot, _) => IsSlot(slot)
    case LoadPresets(presets) => forall slot | slot in presets :: IsSlot(slot)
    case Wake => s.pc.Asleep?
    case Consider => s.pc.Woken?
    case Poll => s.pc.Due?
    case Go => s.pc.Free? && s.pc.slots != []
    case _ => true
  }

  function Considered(s: State): State
    requires s.pc.Woken?
  {
    var cleared := if s.pc.slots == [] then s.(sh := s.sh.(slot := None)) else s;
    if !s.pc.on || s.pc.slots == [] || !s.sh.configured then
      cleared.(nextDue := None, pc := Asleep)
    else if s.nextDue.Some? && s.clock < s.nextDue.value then
      s.(pc := Asleep)
    else
      s.(pc := Due(s.clock, s.pc.seconds, s.pc.slots))
  }

  function Gone(s: State): State
    requires s.pc.Free? && s.pc.slots != []
  {
    var slot := s.pc.slots[s.idx % |s.pc.slots|];
    var to := if slot in s.sh.presets then Some(s.sh.presets[slot]) else None;
    var taken := Moment(s.clock, s.pressed);
    var turn := Turn(slot, s.pc.slots, s.pc.now, s.pc.seconds, to, s.nextDue.None?,
                     s.pc.polled, taken, Held(s.sh, s.clock));
    s.(idx := s.idx + 1, nextDue := Some(s.pc.now + s.pc.seconds as real), pc := Asleep,
       sh := if to.Some? then s.sh.(slot := Some(slot)) else s.sh, turns := s.turns + [turn],
       sent := if to.Some? then to else s.sent)
  }

  function After(s: State, step: Step): State
    requires Enabled(s, step)
  {
    match step
    case Pass(time) => s.(clock := s.clock + time)
    case SetPatrol(on, seconds) =>
      s.(sh := FlagSet(s.sh, on, seconds), homing := if s.sh.enabled && !on then Looking else NotHoming)
    case Look => s.(homing := Found(if 1 in s.sh.presets then Some(s.sh.presets[1]) else None))
    case Home =>
      var home := s.homing.home;
      s.(sh := s.sh.(slot := if home.Some? then Some(1) else None), homing := NotHoming,
         sent := if home.Some? then home else s.sent)
    case SetMoving(moving) =>
      s.(sh := MovingSet(s.sh, moving, s.clock), pressed := if moving then Some(s.clock) else None)
    case SavePreset(slot, at) => s.(sh := s.sh.(presets := s.sh.presets[slot := at]))
    case LoadPresets(presets) => s.(sh := s.sh.(presets := presets))
    case Configure => s.(sh := s.sh.(configured := true))
    case ClearConfig => s.(sh := s.sh.(configured := false, movingUntil := 0.0), pressed := None)
    case Wake => s.(pc := Woken(s.sh.enabled, s.sh.interval, Slots(s.sh.presets)))
    case Consider => Considered(s)
    case Poll =>
      if Held(s.sh, s.clock) then s.(pc := Asleep)
      else s.(pc := Free(s.pc.now, s.pc.seconds, s.pc.slots, Moment(s.clock, s.pressed)))
    case Go => Gone(s)
  }

  ghost predicate Run(s: State, steps: seq<Step>, t: State)
    decreases |steps|
  {
    if steps == [] then t == s else Enabled(s, steps[0]) && Run(After(s, steps[0]), steps[1..], t)
  }

  function Initial(enabled: bool, interval: int, presets: map<nat, Position>, clock: real): State {
    State(Shared(enabled, interval, None, presets, false, 0.0), clock, Asleep, 0, None, NotHoming, [], None, None)
  }

  /** The service has come up with what the applied slot held; the setting loaded is at least the minimum. */
  predicate Init(s: State) {
    && s == Initial(s.sh.enabled, s.sh.interval, s.sh.presets, s.clock)
    && s.sh.interval >= MIN_INTERVAL && 0.0 <= s.clock && forall slot | slot in s.sh.presets :: IsSlot(slot)
  }

  // ── What every step keeps ──

  predicate Ripe(s: State, now: real) {
    now <= s.clock && (s.nextDue.Some? ==> s.nextDue.value <= now)
  }

  predicate PcFits(s: State) {
    match s.pc
    case Asleep => true
    case Woken(_, seconds, _) => seconds >= MIN_INTERVAL
    case Due(now, seconds, slots) => seconds >= MIN_INTERVAL && slots != [] && Ripe(s, now)
    case Free(now, seconds, slots, polled) =>
      && seconds >= MIN_INTERVAL && slots != [] && Ripe(s, now)
      && polled.clock <= s.clock && !InForce(polled)
      && (s.pressed.Some? ==> polled.clock <= s.pressed.value || s.pressed.value + MOVE_HOLD <= polled.clock)
  }

  /** The command of that moment is not ten seconds old. */
  predicate InForce(m: Moment) {
    m.command.Some? && m.clock < m.command.value + MOVE_HOLD
  }

  /** A turn was polled with no command in force, and a hold it ran into was commanded after that. */
  predicate HoldFits(turn: Turn) {
    && !InForce(turn.polled) && turn.polled.clock <= turn.taken.clock
    && (turn.held <==> InForce(turn.taken) && turn.polled.clock <= turn.taken.command.value)
  }

  /** Turn k took its slot in cyclic order, and unless the schedule was reset, waited for its interval. */
  predicate TurnFits(turns: seq<Turn>, k: nat)
    requires k < |turns|
  {
    var turn := turns[k];
    && turn.seconds >= MIN_INTERVAL && turn.slots != [] && turn.slot == turn.slots[k % |turn.slots|]
    && (!turn.reset ==> k > 0 && turns[k - 1].at + turns[k - 1].seconds as real <= turn.at)
    && HoldFits(turn)
  }

  predicate ScheduleFits(s: State) {
    && s.sh.interval >= MIN_INTERVAL && PcFits(s) && s.idx == |s.turns|
    && (s.nextDue.Some? ==>
          |s.turns| > 0 && var last := s.turns[|s.turns| - 1]; s.nextDue.value == last.at + last.seconds as real)
  }

  predicate HoldKept(s: State) {
    && 0.0 <= s.clock && (s.pressed.Some? ==> s.pressed.value <= s.clock)
    && s.sh.movingUntil == (if s.pressed.Some? then s.pressed.value + MOVE_HOLD else 0.0)
  }

  ghost predicate Inv(s: State) {
    ScheduleFits(s) && HoldKept(s) && forall k | 0 <= k < |s.turns| :: TurnFits(s.turns, k)
  }

  /** A step of patrol_loop. */
  predicate OfTheLoop(step: Step) {
    step.Wake? || step.Consider? || step.Poll? || step.Go?
  }

  lemma LoopKeepsSchedule(s: State, step: Step)
    requires ScheduleFits(s) && HoldKept(s) && Enabled(s, step) && OfTheLoop(step)
    ensures ScheduleFits(After(s, step))
  {
  }

  lemma HandlersKeepSchedule(s: State, step: Step)
    requires ScheduleFits(s) && HoldKept(s) && Enabled(s, step) && !OfTheLoop(step)
    ensures ScheduleFits(After(s, step))
  {
  }

  lemma StepKeepsHold(s: State, step: Step)
    requires HoldKept(s) && Enabled(s, step)
    ensures HoldKept(After(s, step))
  {
  }

  lemma GoFits(s: State)
    requires ScheduleFits(s) && HoldKept(s) && Enabled(s, Go)
    ensures TurnFits(Gone(s).turns, |s.turns|)
  {
  }

  lemma EarlierTurnFits(turns: seq<Turn>, more: seq<Turn>, k: nat)
    requires k < |turns| && TurnFits(turns, k) && turns <= more
    ensures TurnFits(more, k)
  {
  }

  lemma StepKeepsInv(s: State, step: Step)
    requires Inv(s) && Enabled(s, step)
    ensures Inv(After(s, step))
  {
    StepKeepsHold(s, step);
    if OfTheLoop(step) {
      LoopKeepsSchedule(s, step);
    } else {
      HandlersKeepSchedule(s, step);
    }
    if step.Go? {
      GoFits(s);
      var turns := Gone(s).turns;
      forall k | 0 <= k < |turns| ensures TurnFits(turns, k) {
        if k < |s.turns| {
          EarlierTurnFits(s.turns, turns, k);
        }
      }
    }
  }

  lemma InitKeepsInv(z: State)
    requires Init(z)
    ensures Inv(z) && UpToDate(z)
  {
  }

  lemma {:induction false} RunKeepsInv(s: State, steps: seq<Step>, t: State)
    requires Inv(s) && Run(s, steps, t)
    ensures Inv(t)
    decreases |steps|
  {
    if steps == [] {
    } else {
      StepKeepsInv(s, steps[0]);
      RunKeepsInv(After(s, steps[0]), steps[1..], t);
    }
  }

  // ── Spacing and holds ──

  /** Two turns in a row are an interval apart, and never less than five seconds, unless the schedule was reset. */
  lemma TurnsAreSpaced(z: State, steps: seq<Step>, t: State, k: nat)
    requires Init(z) && Run(z, steps, t) && k + 1 < |t.turns| && !t.turns[k + 1].reset
    ensures t.turns[k].at + t.turns[k].seconds as real <= t.turns[k + 1].at
    ensures t.turns[k].at + MIN_INTERVAL as real <= t.turns[k + 1].at
  {
    InitKeepsInv(z);
    RunKeepsInv(z, steps, t);
    assert TurnFits(t.turns, k) && TurnFits(t.turns, k + 1);
  }

  /** The patrol is on, and so it stays; the same goes for the target and for having presets. */
  predicate LeftOn(s: State) {
    s.sh.enabled && s.sh.configured && Slots(s.sh.presets) != [] && (s.pc.Woken? ==> s.pc.on && s.pc.slots != [])
  }

  predicate SwitchesOff(step: Step) {
    (step.SetPatrol? && !step.on) || step.ClearConfig? || step.LoadPresets?
  }

  /** While it is left on after a first turn, the schedule is never reset. */
  lemma NoResetWhileLeftOn(z: State, before: seq<Step>, s: State, steps: seq<Step>, t: State, k: nat)
    requires Init(z) && Run(z, before, s) && Run(s, steps, t) && LeftOn(s) && s.nextDue.Some?
    requires forall step | step in steps :: !SwitchesOff(step)
    ensures |s.turns| <= k < |t.turns| ==> !t.turns[k].reset
  {
    RunKeepsInv(z, before, s);
    LeftOnRun(s, steps, t, k);
  }

  lemma {:induction false} LeftOnRun(s: State, steps: seq<Step>, t: State, k: nat)
    requires Inv(s) && Run(s, steps, t) && LeftOn(s) && s.nextDue.Some?
    requires forall step | step in steps :: !SwitchesOff(step)
    ensures |s.turns| <= |t.turns| && t.nextDue.Some?
    ensures |s.turns| <= k < |t.turns| ==> !t.turns[k].reset
    ensures k < |s.turns| ==> t.turns[k] == s.turns[k]
    decreases |steps|
  {
    if steps == [] {
    } else {
      assert steps[0] in steps;
      StepKeepsInv(s, steps[0]);
      StaysOn(s, steps[0]);
      LeftOnRun(After(s, steps[0]), steps[1..], t, k);
    }
  }

  lemma StaysOn(s: State, step: Step)
    requires Inv(s) && Enabled(s, step) && LeftOn(s) && s.nextDue.Some? && !SwitchesOff(step)
    ensures LeftOn(After(s, step)) && After(s, step).nextDue.Some?
    ensures After(s, step).turns == s.turns
            || exists turn: Turn | !turn.reset :: After(s, step).turns == s.turns + [turn]
  {
    if step.SavePreset? {
      SlotsAreThePresets(s.sh.presets);
      SlotsAreThePresets(After(s, step).sh.presets);
      assert step.slot in Slots(After(s, step).sh.presets);
    }
    if step.Go? {
      var turns := After(s, step).turns;
      assert !turns[|s.turns|].reset;
    }
  }

  /** The interval last asked for, read off the steps alone; five seconds is the least. */
  function LastInterval(steps: seq<Step>, interval: int): int {
    if steps == [] then interval
    else
      var last := steps[|steps| - 1];
      if last.SetPatrol? && last.seconds.Some? then (if last.seconds.value < 5 then 5 else last.seconds.value)
      else LastInterval(steps[..|steps| - 1], interval)
  }

  lemma {:induction false} IntervalIsTheLast(s: State, steps: seq<Step>, t: State)
    requires Run(s, steps, t)
    ensures t.sh.interval == LastInterval(steps, s.sh.interval)
    decreases |steps|
  {
    if steps == [] {
    } else {
      IntervalIsTheLast(After(s, steps[0]), steps[1..], t);
      LastAfterFirst(steps, s.sh.interval);
    }
  }

  lemma {:induction false} LastAfterFirst(steps: seq<Step>, interval: int)
    requires steps != []
    ensures LastInterval(steps, interval) == LastInterval(steps[1..], LastInterval([steps[0]], interval))
    decreases |steps|
  {
    if |steps| == 1 {
    } else {
      var n := |steps| - 1;
      LastAfterFirst(steps[..n], interval);
      assert steps[..n][1..] == steps[1..][..n - 1];
    }
  }

  /** The move to u took a turn, chosen from these slots and followed by this many seconds. */
  predicate Took(t: State, u: State, seconds: int, slots: seq<nat>) {
    && |u.turns| == |t.turns| + 1
    && u.turns[|t.turns|].seconds == seconds && u.turns[|t.turns|].slots == slots
    && u.nextDue == Some(u.turns[|t.turns|].at + seconds as real)
  }

  /** A turn is followed by the interval last asked for when its tick woke, whatever is asked for meanwhile. */
  lemma TurnWaitsAsAsked(z: State, before: seq<Step>, s: State, between: seq<Step>, t: State)
    requires Run(z, before, s) && Enabled(s, Wake) && Run(After(s, Wake), between, t)
    requires Wake !in between && Go !in between && Enabled(t, Go)
    ensures Took(t, After(t, Go), LastInterval(before, z.sh.interval), Slots(s.sh.presets))
  {
    IntervalIsTheLast(z, before, s);
    TurnIsOfItsTick(s, between, t);
  }

  lemma TurnIsOfItsTick(s: State, between: seq<Step>, t: State)
    requires Enabled(s, Wake) && Run(After(s, Wake), between, t)
    requires Wake !in between && Go !in between && Enabled(t, Go)
    ensures Took(t, After(t, Go), s.sh.interval, Slots(s.sh.presets))
  {
    var seconds, slots := s.sh.interval, Slots(s.sh.presets);
    TickKeepsWhatItRead(After(s, Wake), between, t, seconds, slots);
    GoTakesWhatItRead(t, seconds, slots);
  }

  lemma GoTakesWhatItRead(s: State, seconds: int, slots: seq<nat>)
    requires Enabled(s, Go) && HasRead(s.pc, seconds, slots)
    ensures Took(s, After(s, Go), seconds, slots)
  {
  }

  predicate HasRead(pc: Pc, seconds: int, slots: seq<nat>) {
    !pc.Asleep? ==> pc.seconds == seconds && pc.slots == slots
  }

  lemma {:induction false} TickKeepsWhatItRead(s: State, steps: seq<Step>, t: State, seconds: int, slots: seq<nat>)
    requires Run(s, steps, t) && Wake !in steps && HasRead(s.pc, seconds, slots)
    ensures HasRead(t.pc, seconds, slots)
    decreases |steps|
  {
    if steps == [] {
    } else {
      assert steps[0] in steps;
      TickKeepsWhatItRead(After(s, steps[0]), steps[1..], t, seconds, slots);
    }
  }

  /** The last move command not released again, read off the steps alone. */
  function LastCommand(steps: seq<Step>, clock: real, command: Option<real>): Option<real> {
    if steps == [] then command
    else
      match steps[0]
      case Pass(time) => LastCommand(steps[1..], clock + time, command)
      case SetMoving(moving) => LastCommand(steps[1..], clock, if moving then Some(clock) else None)
      case ClearConfig => LastCommand(steps[1..], clock, None)
      case _ => LastCommand(steps[1..], clock, command)
  }

  lemma {:induction false} PressedIsTheLastCommand(s: State, steps: seq<Step>, t: State)
    requires Run(s, steps, t)
    ensures t.pressed == LastCommand(steps, s.clock, s.pressed) && s.clock <= t.clock
    decreases |steps|
  {
    if steps == [] {
    } else {
      PressedIsTheLastCommand(After(s, steps[0]), steps[1..], t);
    }
  }

  /** An earlier command matters only where the steps contain none and release none. */
  lemma {:induction false} EarlierCommand(steps: seq<Step>, clock: real, command: Option<real>)
    ensures var last, without := LastCommand(steps, clock, command), LastCommand(steps, clock, None);
            last == without || (last == command && without == None)
    decreases |steps|
  {
    if steps == [] {
    } else {
      match steps[0]
      case Pass(time) => EarlierCommand(steps[1..], clock + time, command);
      case SetMoving(_) =>
      case ClearConfig =>
      case _ => EarlierCommand(steps[1..], clock, command);
    }
  }

  /**
   A manual move is held exactly from the last command in the run until ten seconds later, or a
   stop or a disconnection before that.
   */
  lemma HoldLastsTenSeconds(z: State, steps: seq<Step>, t: State)
    requires Init(z) && Run(z, steps, t)
    ensures Held(t.sh, t.clock) <==> InForce(Moment(t.clock, LastCommand(steps, z.clock, None)))
  {
    RunKeepsInv(z, steps, t);
    PressedIsTheLastCommand(z, steps, t);
  }

  /**
   Every turn of a run was polled with nothing held; and one is issued during a hold if and only
   if a move command in force by then came after its poll.
   */
  lemma TurnsArePolledFree(z: State, steps: seq<Step>, t: State, k: nat)
    requires Init(z) && Run(z, steps, t) && k < |t.turns|
    ensures !InForce(t.turns[k].polled)
    ensures t.turns[k].held <==>
            InForce(t.turns[k].taken) && t.turns[k].polled.clock <= t.turns[k].taken.command.value
  {
    RunKeepsInv(z, steps, t);
    assert TurnFits(t.turns, k);
  }

  /** Which commands those are: of the steps between the poll and the move, and of no others. */
  lemma TurnDuringAHoldIff(z: State, before: seq<Step>, s: State, between: seq<Step>, t: State)
    requires Init(z) && Run(z, before, s) && Enabled(s, Poll) && After(s, Poll).pc.Free?
    requires Run(After(s, Poll), between, t) && Go !in between && Enabled(t, Go)
    ensures After(t, Go).turns[|t.turns|].held <==> InForce(Moment(t.clock, LastCommand(between, s.clock, None)))
  {
    RunKeepsInv(z, before, s);
    StepKeepsInv(s, Poll);
    RunKeepsInv(After(s, Poll), between, t);
    PressedIsTheLastCommand(After(s, Poll), between, t);
    EarlierCommand(between, s.clock, s.pressed);
  }

  lemma FirstSlot(presets: map<nat, Position>, slot: nat)
    requires IsSlot(slot) && slot in presets
    ensures Slots(presets) != [] && Slots(presets)[0] in presets
  {
    SlotsAreThePresets(presets);
    assert slot in Slots(presets) && Slots(presets)[0] in Slots(presets);
  }

  /** A first tick has polled and is about to move the camera. */
  lemma FirstTickPolls(s: State) returns (steps: seq<Step>, t: State)
    requires s.pc.Asleep? && s.sh.enabled && s.sh.configured && Slots(s.sh.presets) != []
    requires !Held(s.sh, s.clock) && (s.nextDue.Some? ==> s.nextDue.value <= s.clock)
    ensures Run(s, steps, t) && t.pc.Free? && t.pc.slots == Slots(s.sh.presets) && t == s.(pc := t.pc)
  {
    var woken := After(s, Wake);
    var due := After(woken, Consider);
    t := After(due, Poll);
    RunOne(due, Poll, [], t);
    RunOne(woken, Consider, [Poll], t);
    steps := [Wake] + ([Consider] + [Poll]);
    RunOne(s, Wake, [Consider] + [Poll], t);
  }

  /** A move command after the poll does not stop the turn. */
  lemma CommandAfterThePoll(s: State) returns (steps: seq<Step>, t: State)
    requires s.pc.Free? && s.pc.slots != [] && s.pc.slots[s.idx % |s.pc.slots|] in s.sh.presets
    ensures Run(s, steps, t) && t.turns != []
    ensures t.turns[|t.turns| - 1].held && t.turns[|t.turns| - 1].to.Some?
  {
    var moving := After(s, SetMoving(true));
    t := After(moving, Go);
    RunOne(moving, Go, [], t);
    steps := [SetMoving(true)] + ([Go] + []);
    RunOne(s, SetMoving(true), [Go] + [], t);
  }

  /** A run in which the patrol moves the camera during a manual move. */
  lemma PatrolOverridesAManualMove() returns (z: State, steps: seq<Step>, t: State)
    ensures Init(z) && Run(z, steps, t) && t.turns != []
    ensures t.turns[|t.turns| - 1].held && t.turns[|t.turns| - 1].to.Some?
  {
    var presets: map<nat, Position> := map[1 := (0.5, 0.5)];
    z := Initial(true, 30, presets, 0.0);
    FirstSlot(presets, 1);
    var polling, free := FirstTickPolls(After(z, Configure));
    RunOne(z, Configure, polling, free);
    steps, t := CommandAfterThePoll(free);
    RunsCompose(z, [Configure] + polling, free, steps, t);
    steps := [Configure] + polling + steps;
  }

  predicate Releases(step: Step) {
    (step.SetMoving? && !step.moving) || step.ClearConfig?
  }

  /** However many ticks come while a move is held, none that begins then takes a turn or costs a slot its turn. */
  lemma NothingIsDecidedWhileHeld(z: State, before: seq<Step>, s: State, steps: seq<Step>, t: State)
    requires Init(z) && Run(z, before, s) && !s.pc.Free? && s.pressed.Some?
    requires Run(s, steps, t) && t.clock < s.pressed.value + MOVE_HOLD
    requires forall step | step in steps :: !Releases(step)
    ensures t.turns == s.turns && t.idx == s.idx
  {
    RunKeepsInv(z, before, s);
    HeldRun(s, steps, t);
  }

  lemma {:induction false} HeldRun(s: State, steps: seq<Step>, t: State)
    requires Inv(s) && !s.pc.Free? && s.pressed.Some?
    requires Run(s, steps, t) && t.clock < s.pressed.value + MOVE_HOLD
    requires forall step | step in steps :: !Releases(step)
    ensures t.turns == s.turns && t.idx == s.idx
    decreases |steps|
  {
    if steps == [] {
    } else {
      assert steps[0] in steps;
      StepKeepsInv(s, steps[0]);
      PressedIsTheLastCommand(s, steps, t);
      HeldRun(After(s, steps[0]), steps[1..], t);
    }
  }

  /** A turn is due and nothing is in its way. */
  predicate TakesATurn(s: State) {
    && s.sh.enabled && s.sh.configured && Slots(s.sh.presets) != []
    && (s.nextDue.None? || s.nextDue.value <= s.clock)
    && !Held(s.sh, s.clock)
  }

  /** The preset whose turn it is next. */
  function NextSlot(s: State): nat
    requires Slots(s.sh.presets) != []
  {
    var slots := Slots(s.sh.presets);
    slots[s.idx % |slots|]
  }

  /**
   A tick during which nothing else happens. If a turn is due the next preset in order is displayed
   and moved to, and an interval begins. If none is, the schedule goes when the patrol is off, has
   no target or nowhere to go, in which last case the display goes blank; nothing else changes.
   */
  lemma UndisturbedTick(s: State) returns (steps: seq<Step>, t: State)
    requires s.pc.Asleep?
    ensures Run(s, steps, t)
    ensures TakesATurn(s) ==>
              var slot := NextSlot(s);
              && slot in s.sh.presets && |t.turns| == |s.turns| + 1 && t.turns[..|s.turns|] == s.turns
              && t == s.(sh := s.sh.(slot := Some(slot)), idx := s.idx + 1, turns := t.turns,
                         nextDue := Some(s.clock + s.sh.interval as real), sent := Some(s.sh.presets[slot]))
              && t.turns[|s.turns|].slot == slot && t.turns[|s.turns|].to == t.sent
              && t.turns[|s.turns|].at == s.clock && t.turns[|s.turns|].seconds == s.sh.interval
    ensures !TakesATurn(s) ==>
              var lives := s.sh.enabled && s.sh.configured && Slots(s.sh.presets) != [];
              && t == s.(sh := t.sh, nextDue := if lives then s.nextDue else None)
              && t.sh == s.sh.(slot := if Slots(s.sh.presets) == [] then None else s.sh.slot)
  {
    var woken := After(s, Wake);
    var considered := After(woken, Consider);
    var rest;
    if considered.pc.Due? {
      rest, t := FinishedTick(considered);
    } else {
      rest, t := [], considered;
    }
    RunOne(woken, Consider, rest, t);
    RunOne(s, Wake, [Consider] + rest, t);
    steps := [Wake] + ([Consider] + rest);
  }

  lemma FinishedTick(s: State) returns (steps: seq<Step>, t: State)
    requires s.pc.Due? && s.pc.slots != [] && s.pc.slots == Slots(s.sh.presets)
    ensures Run(s, steps, t)
    ensures Held(s.sh, s.clock) ==> t == s.(pc := Asleep)
    ensures !Held(s.sh, s.clock) ==> Moved(s, t)
  {
    var polled := After(s, Poll);
    if polled.pc.Free? {
      SlotsAreThePresets(s.sh.presets);
      assert NextSlot(s) in s.pc.slots;
      t := MoveToTheNext(polled);
      MovedAllTheSame(s, polled, t);
      RunOne(s, Poll, [Go], t);
      steps := [Poll] + [Go];
    } else {
      t := polled;
      RunOne(s, Poll, [], t);
      steps := [Poll];
    }
  }

  lemma MoveToTheNext(s: State) returns (t: State)
    requires Enabled(s, Go) && s.pc.slots == Slots(s.sh.presets) && NextSlot(s) in s.sh.presets
    ensures t == After(s, Go) && Moved(s, t) && Run(s, [Go], t)
  {
    t := After(s, Go);
    RunOne(s, Go, [], t);
    assert [Go] + [] == [Go];
  }

  lemma MovedAllTheSame(s: State, polled: State, t: State)
    requires s.pc.Due? && Slots(s.sh.presets) != [] && polled.pc.Free?
    requires polled == s.(pc := Free(s.pc.now, s.pc.seconds, s.pc.slots, polled.pc.polled))
    requires Moved(polled, t)
    ensures Moved(s, t)
  {
  }

  /** The move of a tick that has decided: to the next preset, for as long as it has read. */
  predicate Moved(s: State, t: State)
    requires !s.pc.Asleep? && !s.pc.Woken? && Slots(s.sh.presets) != []
  {
    var slot := NextSlot(s);
    && slot in s.sh.presets && |t.turns| == |s.turns| + 1 && t.turns[..|s.turns|] == s.turns
    && t == s.(pc := Asleep, sh := s.sh.(slot := Some(slot)), idx := s.idx + 1, turns := t.turns,
               nextDue := Some(s.pc.now + s.pc.seconds as real), sent := Some(s.sh.presets[slot]))
    && t.turns[|s.turns|].slot == slot && t.turns[|s.turns|].to == t.sent
    && t.turns[|s.turns|].at == s.pc.now && t.turns[|s.turns|].seconds == s.pc.seconds
  }

  lemma RunOne(s: State, step: Step, steps: seq<Step>, t: State)
    requires Enabled(s, step) && Run(After(s, step), steps, t)
    ensures Run(s, [step] + steps, t)
  {
    assert ([step] + steps)[1..] == steps;
  }

  // ── The slot that is displayed ──

  /** Where the last turn that moved the camera went. */
  function LastMoved(turns: seq<Turn>): Option<nat> {
    if turns == [] then None
    else if turns[|turns| - 1].to.Some? then Some(turns[|turns| - 1].slot)
    else LastMoved(turns[..|turns| - 1])
  }

  /** Unless the patrol is turned off, the slot displayed is the one last moved to, or none. */
  lemma DisplayFollowsTheTurns(z: State, steps: seq<Step>, t: State)
    requires Init(z) && Run(z, steps, t) && forall step | step in steps :: !(step.SetPatrol? && !step.on)
    ensures t.sh.slot.None? || t.sh.slot == LastMoved(t.turns)
  {
    DisplayRun(z, steps, t);
  }

  lemma {:induction false} DisplayRun(s: State, steps: seq<Step>, t: State)
    requires Run(s, steps, t) && (s.sh.slot.None? || s.sh.slot == LastMoved(s.turns)) && s.homing.NotHoming?
    requires forall step | step in steps :: !(step.SetPatrol? && !step.on)
    ensures t.sh.slot.None? || t.sh.slot == LastMoved(t.turns)
    decreases |steps|
  {
    if steps == [] {
    } else {
      assert steps[0] in steps;
      var mid := After(s, steps[0]);
      if steps[0].Go? {
        assert mid.turns[..|mid.turns| - 1] == s.turns;
      }
      DisplayRun(mid, steps[1..], t);
    }
  }

  /**
   A request that nothing comes between: the flag and the interval are those asked for, five
   seconds being the least, and turning the patrol off sends the camera to preset 1, if there is one.
   */
  lemma SetPatrolInSteps(s: State, on: bool, seconds: Option<int>) returns (steps: seq<Step>, t: State)
    requires s.homing.NotHoming?
    ensures Run(s, steps, t) && t.sh == PatrolSet(s.sh, on, seconds)
    ensures t == s.(sh := t.sh, sent := t.sent)
    ensures t.sh == s.sh.(enabled := on, interval := t.sh.interval, slot := t.sh.slot)
    ensures t.sh.interval == if seconds.None? then s.sh.interval else if seconds.value < 5 then 5 else seconds.value
    ensures !s.sh.enabled || on ==> t.sh.slot == s.sh.slot && t.sent == s.sent
    ensures s.sh.enabled && !on && 1 in s.sh.presets ==> t.sh.slot == Some(1) && t.sent == Some(s.sh.presets[1])
    ensures s.sh.enabled && !on && 1 !in s.sh.presets ==> t.sh.slot.None? && t.sent == s.sent
  {
    var flagged := After(s, SetPatrol(on, seconds));
    if s.sh.enabled && !on {
      var looked := After(flagged, Look);
      t := After(looked, Home);
      RunOne(looked, Home, [], t);
      RunOne(flagged, Look, [Home], t);
      steps := [SetPatrol(on, seconds)] + ([Look] + [Home]);
      RunOne(s, SetPatrol(on, seconds), [Look] + [Home], t);
    } else {
      t := flagged;
      steps := [SetPatrol(on, seconds)];
      RunOne(s, SetPatrol(on, seconds), [], t);
    }
  }

  // ── After the patrol is turned off ──

  /** Turned off, and the handler that did it is through. */
  predicate Off(s: State) {
    !s.sh.enabled && s.homing.NotHoming?
  }

  /** A tick has read the patrol as on, with presets to visit, and has not moved the camera yet. */
  predicate MidTick(s: State) {
    s.pc.Free? || s.pc.Due? || (s.pc.Woken? && s.pc.on && s.pc.slots != [])
  }

  predicate TurnsOn(step: Step) {
    step.SetPatrol? && step.on
  }

  /** Until it is turned on again there is no further turn, and the slot stays as it is or goes blank. */
  ghost predicate StaysQuiet(s: State) {
    forall steps, t | Run(s, steps, t) && (forall step | step in steps :: !TurnsOn(step)) ::
      t.turns == s.turns && (t.sh.slot == s.sh.slot || t.sh.slot.None?) && t.sent == s.sent
  }

  lemma OffStepStaysQuiet(s: State, step: Step)
    requires Off(s) && !MidTick(s) && Enabled(s, step) && !TurnsOn(step)
    ensures var t := After(s, step);
            && Off(t) && !MidTick(t) && t.turns == s.turns && t.sent == s.sent
            && (t.sh.slot == s.sh.slot || t.sh.slot.None?)
  {
  }

  lemma {:induction false} OffRunStaysQuiet(s: State, steps: seq<Step>, t: State)
    requires Off(s) && !MidTick(s) && Run(s, steps, t) && forall step | step in steps :: !TurnsOn(step)
    ensures t.turns == s.turns && (t.sh.slot == s.sh.slot || t.sh.slot.None?) && t.sent == s.sent
    decreases |steps|
  {
    if steps == [] {
    } else {
      assert steps[0] in steps;
      OffStepStaysQuiet(s, steps[0]);
      OffRunStaysQuiet(After(s, steps[0]), steps[1..], t);
    }
  }

  /** A tick that is due goes on to its move, if it is let. */
  lemma DueTickMoves(s: State) returns (steps: seq<Step>, t: State)
    requires Inv(s) && (s.pc.Due? || s.pc.Free?)
    ensures Run(s, steps, t) && |t.turns| == |s.turns| + 1 && forall step | step in steps :: !step.SetPatrol?
  {
    if s.pc.Free? {
      t := After(s, Go);
      RunOne(s, Go, [], t);
      steps := [Go];
    } else {
      var released := After(s, SetMoving(false));
      var free := After(released, Poll);
      t := After(free, Go);
      RunOne(free, Go, [], t);
      RunOne(released, Poll, [Go], t);
      RunOne(s, SetMoving(false), [Poll] + [Go], t);
      steps := [SetMoving(false)] + ([Poll] + [Go]);
    }
  }

  lemma MidTickMoves(s: State) returns (steps: seq<Step>, t: State)
    requires Inv(s) && MidTick(s)
    ensures Run(s, steps, t) && |t.turns| == |s.turns| + 1 && forall step | step in steps :: !step.SetPatrol?
  {
    if s.pc.Woken? {
      var wait := if s.nextDue.Some? && s.clock < s.nextDue.value then s.nextDue.value - s.clock else 1.0;
      var ready := After(s, Configure);
      var later := After(ready, Pass(wait));
      var due := After(later, Consider);
      StepKeepsInv(s, Configure);
      StepKeepsInv(ready, Pass(wait));
      StepKeepsInv(later, Consider);
      var rest;
      rest, t := DueTickMoves(due);
      RunOne(later, Consider, rest, t);
      RunOne(ready, Pass(wait), [Consider] + rest, t);
      RunOne(s, Configure, [Pass(wait)] + ([Consider] + rest), t);
      steps := [Configure] + ([Pass(wait)] + ([Consider] + rest));
    } else {
      steps, t := DueTickMoves(s);
    }
  }

  /**
   Turned off, the patrol stays quiet until it is turned on again if and only if no tick had
   already read it as on and is between that and its move.
   */
  lemma OffStaysQuietIff(z: State, before: seq<Step>, s: State)
    requires Init(z) && Run(z, before, s) && Off(s)
    ensures StaysQuiet(s) <==> !MidTick(s)
  {
    RunKeepsInv(z, before, s);
    if MidTick(s) {
      var steps, t := MidTickMoves(s);
    } else {
      forall steps, t | Run(s, steps, t) && (forall step | step in steps :: !TurnsOn(step))
        ensures t.turns == s.turns && (t.sh.slot == s.sh.slot || t.sh.slot.None?) && t.sent == s.sent
      {
        OffRunStaysQuiet(s, steps, t);
      }
    }
  }

  /** One whole turn on and connected, and a second tick that has polled. */
  lemma SecondTickPolls(z: State) returns (steps: seq<Step>, t: State)
    requires Init(z) && z.sh.enabled && Slots(z.sh.presets) == [1, 2]
    ensures Run(z, steps, t) && Inv(t) && t.pc.Free? && t.pc.slots == [1, 2] && t.idx == 1
    ensures t.sh.presets == z.sh.presets && t.sh.enabled && t.homing.NotHoming?
  {
    var ready := After(z, Configure);
    var first, gone := TickTurns(ready);
    RunOne(z, Configure, first, gone);
    steps := [Configure] + first;
    RunKeepsInv(z, steps, gone);
    var wait := if gone.nextDue.value <= gone.clock then 1.0 else gone.nextDue.value - gone.clock;
    var later := After(gone, Pass(wait));
    var second;
    second, t := FirstTickPolls(later);
    RunOne(gone, Pass(wait), second, t);
    RunsCompose(z, steps, gone, [Pass(wait)] + second, t);
    steps := steps + ([Pass(wait)] + second);
    RunKeepsInv(z, steps, t);
  }

  /** A tick that nothing stands in the way of, to its end. */
  lemma TickTurns(s: State) returns (steps: seq<Step>, t: State)
    requires s.pc.Asleep? && s.sh.enabled && s.sh.configured && Slots(s.sh.presets) != []
    requires !Held(s.sh, s.clock) && (s.nextDue.Some? ==> s.nextDue.value <= s.clock)
    ensures Run(s, steps, t) && t.pc.Asleep? && t.nextDue.Some? && t.idx == s.idx + 1 && t.homing == s.homing
    ensures t.sh == s.sh.(slot := t.sh.slot) && t.clock == s.clock
  {
    var free;
    steps, free := FirstTickPolls(s);
    t := After(free, Go);
    RunOne(free, Go, [], t);
    RunsCompose(s, steps, free, [Go] + [], t);
    steps := steps + ([Go] + []);
  }

  /** A run in which the camera goes to preset 2, and preset 2 is displayed, after the patrol was turned off. */
  lemma TurnAfterTurningOff() returns (z: State, steps: seq<Step>, off: State, t: State)
    ensures Init(z) && Run(z, steps, off) && Off(off) && off.sh.slot == Some(1) && off.sent == Some((0.1, 0.1))
    ensures Run(off, [Go], t) && !t.sh.enabled && t.sh.slot == Some(2) && t.sent == Some((0.2, 0.2))
  {
    var presets: map<nat, Position> := map[1 := (0.1, 0.1), 2 := (0.2, 0.2)];
    z := Initial(true, 30, presets, 0.0);
    TwoSlots(presets);
    var ticks, free := SecondTickPolls(z);
    steps, off := SetPatrolInSteps(free, false, None);
    RunsCompose(z, ticks, free, steps, off);
    steps := ticks + steps;
    t := SecondSlotIsNext(off);
  }

  lemma SecondSlotIsNext(s: State) returns (t: State)
    requires s.pc.Free? && s.pc.slots == [1, 2] && s.idx == 1 && 2 in s.sh.presets
    ensures Run(s, [Go], t) && t.sh == s.sh.(slot := Some(2)) && t.sent == Some(s.sh.presets[2])
  {
    assert s.pc.slots[s.idx % |s.pc.slots|] == 2;
    t := After(s, Go);
    RunOne(s, Go, [], t);
    assert [Go] + [] == [Go];
  }

  lemma TwoSlots(presets: map<nat, Position>)
    requires presets.Keys == {1, 2}
    ensures Slots(presets) == [1, 2]
  {
    assert SlotsFrom(presets, 5) == [] && SlotsFrom(presets, 4) == [] && SlotsFrom(presets, 3) == [];
    assert SlotsFrom(presets, 2) == [2];
  }

  // ── Fairness ──

  lemma {:induction false} SlotIsListed(presets: map<nat, Position>, from: nat, slot: nat)
    requires 1 <= from <= 5
    ensures slot in SlotsFrom(presets, from) <==> from <= slot <= 4 && slot in presets
    decreases 5 - from
  {
    if from > 4 {
    } else {
      SlotIsListed(presets, from + 1, slot);
    }
  }

  lemma {:induction false} SlotsAscend(presets: map<nat, Position>, from: nat)
    requires 1 <= from <= 5
    ensures |SlotsFrom(presets, from)| <= 5 - from && Ascending(SlotsFrom(presets, from))
    decreases 5 - from
  {
    if from > 4 {
    } else {
      SlotsAscend(presets, from + 1);
      if from in presets {
        var rest := SlotsFrom(presets, from + 1);
        forall slot | slot in rest ensures from < slot {
          SlotIsListed(presets, from + 1, slot);
        }
        AscendingCons(from, rest);
      }
    }
  }

  predicate Ascending(slots: seq<nat>) {
    forall i, j | 0 <= i < j < |slots| :: slots[i] < slots[j]
  }

  lemma AscendingCons(first: nat, rest: seq<nat>)
    requires Ascending(rest) && forall slot | slot in rest :: first < slot
    ensures Ascending([first] + rest)
  {
    forall i | 0 <= i < |rest| ensures first < rest[i] {
      assert rest[i] in rest;
    }
  }

  /** The slots visited are the saved ones, each once, in ascending order. */
  lemma SlotsAreThePresets(presets: map<nat, Position>)
    ensures var slots := Slots(presets);
            && (forall slot :: slot in slots <==> IsSlot(slot) && slot in presets) && |slots| <= 4
            && Ascending(slots)
  {
    SlotsAscend(presets, 1);
    forall slot: nat ensures slot in Slots(presets) <==> IsSlot(slot) && slot in presets {
      SlotIsListed(presets, 1, slot);
    }
  }

  predicate ChangesPresets(step: Step) {
    step.SavePreset? || step.LoadPresets?
  }

  /** The iteration under way has read the presets there are. */
  predicate UpToDate(s: State) {
    !s.pc.Asleep? ==> s.pc.slots == Slots(s.sh.presets)
  }

  /** The first turn that will choose from the presets there are now. */
  function FirstFresh(s: State): nat {
    |s.turns| + if UpToDate(s) then 0 else 1
  }

  predicate Visits(turn: Turn, presets: map<nat, Position>) {
    && turn.slots == Slots(presets)
    && turn.slot in presets && turn.to == Some(presets[turn.slot])
  }

  lemma TurnUsesThePresets(s: State, step: Step)
    requires Inv(s) && Enabled(s, step) && !ChangesPresets(step)
    ensures var t := After(s, step);
            && t.sh.presets == s.sh.presets && (UpToDate(s) ==> UpToDate(t))
            && (t.turns == s.turns || (|t.turns| == |s.turns| + 1 && t.turns[..|s.turns|] == s.turns && UpToDate(t)))
            && (|t.turns| > |s.turns| && UpToDate(s) ==> Visits(t.turns[|s.turns|], s.sh.presets))
  {
    if step.Go? && UpToDate(s) {
      GoVisits(s);
    }
  }

  lemma GoVisits(s: State)
    requires Enabled(s, Go) && UpToDate(s)
    ensures Visits(Gone(s).turns[|s.turns|], s.sh.presets)
  {
    SlotsAreThePresets(s.sh.presets);
    assert s.pc.slots[s.idx % |s.pc.slots|] in s.pc.slots;
  }

  /** While the presets stay, every turn chooses from all of them and moves the camera to the one chosen. */
  lemma {:induction false} TurnsUseThePresets(s: State, steps: seq<Step>, t: State, k: nat)
    requires Inv(s) && Run(s, steps, t) && forall step | step in steps :: !ChangesPresets(step)
    ensures |s.turns| <= |t.turns| && t.sh.presets == s.sh.presets
    ensures FirstFresh(s) <= k < |t.turns| ==> Visits(t.turns[k], s.sh.presets)
    ensures k < |s.turns| ==> t.turns[k] == s.turns[k]
    decreases |steps|
  {
    if steps == [] {
    } else {
      assert steps[0] in steps;
      StepKeepsInv(s, steps[0]);
      TurnUsesThePresets(s, steps[0]);
      TurnsUseThePresets(After(s, steps[0]), steps[1..], t, k);
      if k < |s.turns| {
        assert After(s, steps[0]).turns[k] == After(s, steps[0]).turns[..|s.turns|][k];
      }
    }
  }

  /**
   Patrol fairness: while the presets stay, any n turns in a row, n being the number of presets,
   visit each saved slot exactly once, however the patrol is toggled, held or disconnected.
   */
  lemma EachSlotOnce(z: State, before: seq<Step>, s: State, steps: seq<Step>, t: State, k: nat, slot: nat)
      returns (j: nat)
    requires Init(z) && Run(z, before, s)
    requires Run(s, steps, t) && forall step | step in steps :: !ChangesPresets(step)
    requires IsSlot(slot) && slot in s.sh.presets
    requires FirstFresh(s) <= k && k + |Slots(s.sh.presets)| <= |t.turns|
    ensures k <= j < k + |Slots(s.sh.presets)| && t.turns[j].slot == slot
    ensures t.turns[j].to == Some(s.sh.presets[slot])
    ensures forall i | k <= i < k + |Slots(s.sh.presets)| && t.turns[i].slot == slot :: i == j
  {
    var slots := Slots(s.sh.presets);
    var n := |slots|;
    SlotsAreThePresets(s.sh.presets);
    var r :| 0 <= r < n && slots[r] == slot;
    RunKeepsInv(z, before, s);
    RunKeepsInv(s, steps, t);
    j := NextCongruent(k, n, r);
    SlotOfTurn(s, steps, t, j);
    forall i | k <= i < k + n && t.turns[i].slot == slot ensures i == j {
      SlotOfTurn(s, steps, t, i);
      SameSlotSameTurn(slots, i, j);
    }
  }

  lemma SlotOfTurn(s: State, steps: seq<Step>, t: State, i: nat)
    requires Inv(s) && Run(s, steps, t) && forall step | step in steps :: !ChangesPresets(step)
    requires FirstFresh(s) <= i < |t.turns|
    ensures var slots := Slots(s.sh.presets);
            && slots != [] && t.turns[i].slot == slots[i % |slots|]
            && t.turns[i].slot in s.sh.presets && t.turns[i].to == Some(s.sh.presets[t.turns[i].slot])
  {
    RunKeepsInv(s, steps, t);
    TurnsUseThePresets(s, steps, t, i);
    assert TurnFits(t.turns, i);
  }

  lemma SameSlotSameTurn(slots: seq<nat>, i: nat, j: nat)
    requires Ascending(slots) && 0 < |slots| <= 4 && slots[i % |slots|] == slots[j % |slots|]
    requires i < j + |slots| && j < i + |slots|
    ensures i == j
  {
    SameResidue(i, j, |slots|);
  }

  /** A preset just saved is visited once in every round from the next tick on, at the position saved. */
  lemma SavedPresetIsVisited(
    z: State, before: seq<Step>, s: State, slot: nat, at: Position, steps: seq<Step>, t: State, k: nat)
      returns (j: nat)
    requires Init(z) && Run(z, before, s) && Enabled(s, SavePreset(slot, at))
    requires Run(After(s, SavePreset(slot, at)), steps, t) && forall step | step in steps :: !ChangesPresets(step)
    requires |s.turns| < k && k + |Slots(t.sh.presets)| <= |t.turns|
    ensures k <= j < k + |Slots(t.sh.presets)| && t.turns[j].slot == slot && t.turns[j].to == Some(at)
  {
    var saved := After(s, SavePreset(slot, at));
    assert Run(saved, [], saved);
    RunOne(s, SavePreset(slot, at), [], saved);
    RunsCompose(z, before, s, [SavePreset(slot, at)], saved);
    RunKeepsInv(z, before + [SavePreset(slot, at)], saved);
    TurnsUseThePresets(saved, steps, t, k);
    j := EachSlotOnce(z, before + [SavePreset(slot, at)], saved, steps, t, k, slot);
  }

  /** So is every slot of presets just loaded, as when another camera is connected. */
  lemma LoadedPresetIsVisited(
    z: State, before: seq<Step>, s: State, presets: map<nat, Position>, slot: nat, steps: seq<Step>, t: State, k: nat)
      returns (j: nat)
    requires Init(z) && Run(z, before, s) && Enabled(s, LoadPresets(presets)) && slot in presets
    requires Run(After(s, LoadPresets(presets)), steps, t) && forall step | step in steps :: !ChangesPresets(step)
    requires |s.turns| < k && k + |Slots(t.sh.presets)| <= |t.turns|
    ensures k <= j < k + |Slots(t.sh.presets)| && t.turns[j].slot == slot && t.turns[j].to == Some(presets[slot])
  {
    var loaded := After(s, LoadPresets(presets));
    assert Run(loaded, [], loaded);
    RunOne(s, LoadPresets(presets), [], loaded);
    RunsCompose(z, before, s, [LoadPresets(presets)], loaded);
    RunKeepsInv(z, before + [LoadPresets(presets)], loaded);
    TurnsUseThePresets(loaded, steps, t, k);
    j := EachSlotOnce(z, before + [LoadPresets(presets)], loaded, steps, t, k, slot);
  }

  lemma {:induction false} RunsCompose(s: State, first: seq<Step>, mid: State, second: seq<Step>, t: State)
    requires Run(s, first, mid) && Run(mid, second, t)
    ensures Run(s, first + second, t)
    decreases |first|
  {
    if first == [] {
      assert first + second == second;
    } else {
      RunsCompose(After(s, first[0]), first[1..], mid, second, t);
      assert (first + second)[1..] == first[1..] + second;
    }
  }

  /** The one number from k to k + n - 1 that leaves remainder r. */
  lemma NextCongruent(k: nat, n: nat, r: nat) returns (j: nat)
    requires r < n <= 4
    ensures k <= j < k + n && j % n == r
  {
    match n
    case 1 => j := k;
    case 2 => j := NextOfTwo(k, r);
    case 3 => j := NextOfThree(k, r);
    case _ => j := NextOfFour(k, r);
  }

  lemma NextOfTwo(k: nat, r: nat) returns (j: nat)
    requires r < 2
    ensures k <= j < k + 2 && j % 2 == r
  {
    var q := k / 2;
    j := if 2 * q + r >= k then 2 * q + r else 2 * q + 2 + r;
  }

  lemma NextOfThree(k: nat, r: nat) returns (j: nat)
    requires r < 3
    ensures k <= j < k + 3 && j % 3 == r
  {
    var q := k / 3;
    j := if 3 * q + r >= k then 3 * q + r else 3 * q + 3 + r;
  }

  lemma NextOfFour(k: nat, r: nat) returns (j: nat)
    requires r < 4
    ensures k <= j < k + 4 && j % 4 == r
  {
    var q := k / 4;
    j := if 4 * q + r >= k then 4 * q + r else 4 * q + 4 + r;
  }

  lemma SameResidue(i: nat, j: nat, n: nat)
    requires 0 < n <= 4 && i % n == j % n && i < j + n && j < i + n
    ensures i == j
  {
    match n
    case 1 =>
    case 2 => SameOfTwo(i, j);
    case 3 => SameOfThree(i, j);
    case _ => SameOfFour(i, j);
  }

  lemma SameOfTwo(i: nat, j: nat)
    ensures i % 2 == j % 2 && i < j + 2 && j < i + 2 ==> i == j
  {
  }

  lemma SameOfThree(i: nat, j: nat)
    ensures i % 3 == j % 3 && i < j + 3 && j < i + 3 ==> i == j
  {
  }

  lemma SameOfFour(i: nat, j: nat)
    ensures i % 4 == j % 4 && i < j + 4 && j < i + 4 ==> i == j
  {
  }
}
