/**
 The registry of WHEP media sessions (router/main.py). Media bypasses the router, so a
 session whose login was replaced must be closed by an explicit DELETE upstream.

 Openers register a session after setting it up and then recheck the account's epoch;
 whoever bumped an epoch sweeps the account's rows and closes what it swept. _whep_lock
 makes one registration, one unregistration and one sweep atomic; nothing else is.
 */
module Whep {
  import opened Accounts

  type Path = nat
  type Task = nat

  const WHEP_SESSION_MAX_AGE := 24 * 3600

  /** The account and epoch of the access token that opened a media session. */
  datatype Media = Media(user: Name, epoch: nat)

  datatype Entry = Entry(user: Name, createdAt: int)

  datatype Pc =
    | Opening(media: Media)
    | Created(media: Media, path: Path)
    | Registered(media: Media, path: Path)
    | MustSweep(user: Name)
    | Leaving(user: Name, path: Path)
    | Closing(paths: seq<Path>)

  // `live` is the upstream server's own table. Two history sets excuse what cannot be kept:
  // `leaked` are sessions whose close failed, was cut off, or whose row was aged out, and
  // `deferred` are registered sessions whose sweeper died and which the next sweep will close.
  datatype State = State(
    epochs: map<Name, nat>,
    live: map<Path, Media>,
    rows: map<Path, Entry>,
    tasks: map<Task, Pc>,
    now: int,
    paths: set<Path>,
    leaked: set<Path>,
    deferred: set<Path>)

  datatype Step =
    | Tick(to: int)
    | Open(task: Task, media: Media)            // require_auth accepted the token
    | Create(task: Task, path: Path)            // upstream answered 201 with a Location
    | CreateUnknown(task: Task, path: Path)     // upstream set it up, the answer was lost
    | Refuse(task: Task)
    | Register(task: Task)
    | Recheck(task: Task)
    | Bump(task: Task, user: Name)              // a login, logout or password change
    | Sweep(task: Task)
    | Leave(task: Task, user: Name, path: Path) // a client asks to close a path
    | Unregister(task: Task)
    | Close(task: Task)                         // DELETE answered, 404 included
    | CloseFails(task: Task)
    | Finish(task: Task)
    | MediaEnds(path: Path)                     // ICE timeout upstream
    | AgeOut
    | Die(task: Task)

  function RowsOf(rows: map<Path, Entry>, u: Name): set<Path> {
    set p | p in rows && rows[p].user == u
  }

  function Aged(rows: map<Path, Entry>, now: int): set<Path> {
    set p | p in rows && rows[p].createdAt < now - WHEP_SESSION_MAX_AGE
  }

  /** Some order of the swept rows; the closing loop does not depend on which. */
  ghost function Listing(paths: set<Path>): (list: seq<Path>)
    ensures forall p :: p in list <==> p in paths
  {
    if paths == {} then [] else var p :| p in paths; [p] + Listing(paths - {p})
  }

  predicate Enabled(s: State, step: Step) {
    match step
    case Tick(to) => s.now <= to
    case Open(k, m) => k !in s.tasks && m.user in s.epochs && s.epochs[m.user] == m.epoch
    case Create(k, p) => k in s.tasks && s.tasks[k].Opening? && p !in s.paths
    case CreateUnknown(k, p) => k in s.tasks && s.tasks[k].Opening? && p !in s.paths
    case Refuse(k) => k in s.tasks && s.tasks[k].Opening?
    case Register(k) => k in s.tasks && s.tasks[k].Created?
    case Recheck(k) => k in s.tasks && s.tasks[k].Registered?
    case Bump(k, u) => k !in s.tasks && u in s.epochs
    case Sweep(k) => k in s.tasks && s.tasks[k].MustSweep?
    case Leave(k, u, p) => k !in s.tasks
    case Unregister(k) => k in s.tasks && s.tasks[k].Leaving?
    case Close(k) => k in s.tasks && s.tasks[k].Closing? && s.tasks[k].paths != []
    case CloseFails(k) => k in s.tasks && s.tasks[k].Closing? && s.tasks[k].paths != []
    case Finish(k) => k in s.tasks && s.tasks[k] == Closing([])
    case MediaEnds(p) => p in s.live
    case AgeOut => true
    case Die(k) => k in s.tasks
  }

  ghost function After(s: State, step: Step): State
    requires Enabled(s, step)
  {
    match step
    case Tick(to) => s.(now := to)
    case Open(k, m) => s.(tasks := s.tasks[k := Opening(m)])
    case Create(k, p) =>
      var m := s.tasks[k].media;
      s.(live := s.live[p := m], paths := s.paths + {p}, tasks := s.tasks[k := Created(m, p)])
    case CreateUnknown(k, p) =>
      s.(live := s.live[p := s.tasks[k].media], paths := s.paths + {p}, leaked := s.leaked + {p},
         tasks := s.tasks - {k})
    case Refuse(k) => s.(tasks := s.tasks - {k})
    case Register(k) =>
      var m, p := s.tasks[k].media, s.tasks[k].path;
      s.(rows := s.rows[p := Entry(m.user, s.now)], tasks := s.tasks[k := Registered(m, p)])
    case Recheck(k) =>
      var m := s.tasks[k].media;
      if m.user in s.epochs && s.epochs[m.user] == m.epoch then s.(tasks := s.tasks - {k})
      else s.(tasks := s.tasks[k := MustSweep(m.user)])
    case Bump(k, u) => s.(epochs := s.epochs[u := s.epochs[u] + 1], tasks := s.tasks[k := MustSweep(u)])
    case Sweep(k) =>
      var swept := RowsOf(s.rows, s.tasks[k].user);
      s.(rows := s.rows - swept, tasks := s.tasks[k := Closing(Listing(swept))])
    case Leave(k, u, p) => s.(tasks := s.tasks[k := Leaving(u, p)])
    case Unregister(k) =>
      var u, p := s.tasks[k].user, s.tasks[k].path;
      s.(rows := if p in s.rows && s.rows[p].user == u then s.rows - {p} else s.rows,
         tasks := s.tasks[k := Closing([p])])
    case Close(k) =>
      s.(live := s.live - {s.tasks[k].paths[0]}, tasks := s.tasks[k := Closing(s.tasks[k].paths[1..])])
    case CloseFails(k) =>
      s.(leaked := s.leaked + {s.tasks[k].paths[0]}, tasks := s.tasks[k := Closing(s.tasks[k].paths[1..])])
    case Finish(k) => s.(tasks := s.tasks - {k})
    case MediaEnds(p) => s.(live := s.live - {p})
    case AgeOut =>
      s.(rows := s.rows - Aged(s.rows, s.now), leaked := s.leaked + Aged(s.rows, s.now) * s.live.Keys)
    case Die(k) => AfterDeath(s, k)
  }

  /** What a dying task held is leaked; what it only still had to look at is deferred. */
  function AfterDeath(s: State, k: Task): State
    requires k in s.tasks
  {
    var t := s.(tasks := s.tasks - {k});
    match s.tasks[k]
    case Created(_, p) => t.(leaked := s.leaked + {p})
    case Closing(ps) => t.(leaked := s.leaked + set p | p in ps)
    case Registered(_, p) => t.(deferred := s.deferred + {p})
    case MustSweep(u) => t.(deferred := s.deferred + RowsOf(s.rows, u))
    case _ => t
  }

  // ── Who answers for a live session ──

  predicate Stale(s: State, p: Path)
    requires p in s.live
  {
    s.live[p].user !in s.epochs || s.epochs[s.live[p].user] != s.live[p].epoch
  }

  predicate HasRow(s: State, p: Path)
    requires p in s.live
  {
    p in s.rows && s.rows[p].user == s.live[p].user
  }

  /** Task k has p in hand: it set p up and has not registered it, or it is about to close it. */
  predicate Holds(s: State, k: Task, p: Path) {
    && k in s.tasks
    && ((s.tasks[k].Created? && s.tasks[k].path == p) || (s.tasks[k].Closing? && p in s.tasks[k].paths))
  }

  /** Task k still has to compare p's epoch, or to sweep the rows of p's account. */
  predicate Owes(s: State, k: Task, p: Path)
    requires p in s.live
  {
    && k in s.tasks
    && ((s.tasks[k].Registered? && s.tasks[k].path == p) || (s.tasks[k] == MustSweep(s.live[p].user) && HasRow(s, p)))
  }

  ghost predicate Covered(s: State, p: Path)
    requires p in s.live
  {
    p in s.leaked || HasRow(s, p) || exists k :: Holds(s, k, p)
  }

  ghost predicate Answered(s: State, p: Path)
    requires p in s.live
  {
    || p in s.leaked
    || (p in s.deferred && HasRow(s, p))
    || (exists k :: Holds(s, k, p))
    || (exists k :: Owes(s, k, p))
  }

  ghost predicate Bookkeeping(s: State) {
    EpochsKnown(s) && PathsMatch(s)
  }

  /** No session and no opening is ahead of its account's epoch. */
  ghost predicate EpochsKnown(s: State) {
    && (forall p | p in s.live :: s.live[p].user in s.epochs && s.live[p].epoch <= s.epochs[s.live[p].user])
    && (forall k | k in s.tasks && s.tasks[k].Opening? ::
          s.tasks[k].media.user in s.epochs && s.tasks[k].media.epoch <= s.epochs[s.tasks[k].media.user])
  }

  /** Paths are never given out twice, so a task's path is its own session's. */
  ghost predicate PathsMatch(s: State) {
    && s.live.Keys <= s.paths
    && (forall k | k in s.tasks && (s.tasks[k].Created? || s.tasks[k].Registered?) ::
          s.tasks[k].path in s.paths && (s.tasks[k].path in s.live ==> s.live[s.tasks[k].path] == s.tasks[k].media))
  }

  ghost predicate Inv(s: State) {
    && Bookkeeping(s)
    && (forall p | p in s.live :: Covered(s, p))
    && (forall p | p in s.live && Stale(s, p) :: Answered(s, p))
  }

  ghost predicate Init(s: State) {
    s.live == map[] && s.rows == map[] && s.tasks == map[] && s.leaked == {} && s.deferred == {}
  }

  // ── Every step passes the responsibility on ──

  /** A session in hand stays in hand, is closed, is leaked, or has just been registered. */
  lemma HoldSurvives(s: State, step: Step, k: Task, p: Path)
    requires Inv(s) && Enabled(s, step) && p in s.live && p in After(s, step).live && Holds(s, k, p)
    ensures var t := After(s, step);
      Holds(t, k, p) || p in t.leaked || (HasRow(t, p) && Owes(t, k, p))
  {
    var t := After(s, step);
    if k in t.tasks && t.tasks[k] == s.tasks[k] {
      assert Holds(t, k, p);
    } else {
      MoverIsAffected(s, step, k);
    }
  }

  /** A task changes only by a step of its own. */
  lemma MoverIsAffected(s: State, step: Step, k: Task)
    requires Enabled(s, step) && k in s.tasks
    requires k !in After(s, step).tasks || After(s, step).tasks[k] != s.tasks[k]
    ensures !step.Tick? && !step.MediaEnds? && !step.AgeOut? && step.task == k
  {
  }

  /** A row disappears only into somebody's hands, or by ageing. */
  lemma RowSurvives(s: State, step: Step, p: Path)
    requires Inv(s) && Enabled(s, step) && p in s.live && p in After(s, step).live && HasRow(s, p)
    ensures var t := After(s, step);
      HasRow(t, p) || p in t.leaked || ((step.Sweep? || step.Unregister?) && Holds(t, step.task, p))
  {
  }

  lemma CoverSurvives(s: State, step: Step, p: Path)
    requires Inv(s) && Enabled(s, step) && p in After(s, step).live
    ensures Covered(After(s, step), p)
  {
    var t := After(s, step);
    if p !in s.live {
      assert step.Create? ==> Holds(t, step.task, p);
    } else {
      assert Covered(s, p);
      if k :| Holds(s, k, p) {
        HoldSurvives(s, step, k, p);
      } else if HasRow(s, p) {
        RowSurvives(s, step, p);
      }
    }
  }

  /** A debt on p is still owed, or p has passed into somebody's hands. */
  lemma DebtSurvives(s: State, step: Step, k: Task, p: Path)
    requires Inv(s) && Enabled(s, step) && p in s.live && p in After(s, step).live && Stale(s, p) && Owes(s, k, p)
    ensures Answered(After(s, step), p)
  {
    var t := After(s, step);
    CoverSurvives(s, step, p);
    if j :| Holds(t, j, p) {
    } else if p !in t.leaked {
      assert HasRow(t, p);
      assert step == Die(k) || Owes(t, k, p);
    }
  }

  lemma AnswerSurvives(s: State, step: Step, p: Path)
    requires Inv(s) && Enabled(s, step) && p in After(s, step).live && Stale(After(s, step), p)
    ensures Answered(After(s, step), p)
  {
    var t := After(s, step);
    CoverSurvives(s, step, p);
    if p in s.live && Stale(s, p) {
      assert Answered(s, p);
      if k :| Holds(s, k, p) {
        HoldSurvives(s, step, k, p);
      } else if k :| Owes(s, k, p) {
        DebtSurvives(s, step, k, p);
      } else if p in s.deferred && HasRow(s, p) {
        RowSurvives(s, step, p);
      }
    } else if p in s.live {
      assert step.Bump? && step.user == s.live[p].user;
      assert Covered(t, p);
      assert HasRow(t, p) ==> Owes(t, step.task, p);
    } else {
      assert step.Create? ==> Holds(t, step.task, p);
    }
  }

  lemma StepKeepsEpochsKnown(s: State, step: Step)
    requires Bookkeeping(s) && Enabled(s, step)
    ensures EpochsKnown(After(s, step))
  {
  }

  lemma StepKeepsPathsMatch(s: State, step: Step)
    requires Bookkeeping(s) && Enabled(s, step)
    ensures PathsMatch(After(s, step))
  {
  }

  lemma StepKeepsInv(s: State, step: Step)
    requires Inv(s) && Enabled(s, step)
    ensures Inv(After(s, step))
  {
    var t := After(s, step);
    StepKeepsEpochsKnown(s, step);
    StepKeepsPathsMatch(s, step);
    forall p | p in t.live ensures Covered(t, p) {
      CoverSurvives(s, step, p);
    }
    forall p | p in t.live && Stale(t, p) ensures Answered(t, p) {
      AnswerSurvives(s, step, p);
    }
  }

  // ── Whole runs ──

  ghost predicate Run(s: State, steps: seq<Step>, t: State)
    decreases |steps|
  {
    if steps == [] then s == t else Enabled(s, steps[0]) && Run(After(s, steps[0]), steps[1..], t)
  }

  lemma {:induction false} RunKeepsInv(s: State, steps: seq<Step>, t: State)
    requires Inv(s) && Run(s, steps, t)
    ensures Inv(t)
    decreases |steps|
  {
    if steps == [] {
    } else {
      StepKeepsInv(s, steps[0]);
      RunKeepsInv(After(s, steps[0]), steps[1..], t);
    }
  }

  /** What the registry cannot make up for. */
  predicate Fault(s: State, step: Step) {
    step.CreateUnknown? || step.CloseFails? || step.Die? || (step.AgeOut? && Aged(s.rows, s.now) * s.live.Keys != {})
  }

  ghost predicate Faultless(s: State, steps: seq<Step>)
    decreases |steps|
  {
    steps == [] ||
    (Enabled(s, steps[0]) && !Fault(s, steps[0]) && Faultless(After(s, steps[0]), steps[1..]))
  }

  lemma {:induction false} FaultlessExcusesNothing(s: State, steps: seq<Step>, t: State)
    requires Run(s, steps, t) && Faultless(s, steps)
    ensures t.leaked == s.leaked && t.deferred == s.deferred
    decreases |steps|
  {
    if steps == [] {
    } else {
      FaultlessExcusesNothing(After(s, steps[0]), steps[1..], t);
    }
  }

  /** With no request in flight, a live session is registered under its account, or leaked. */
  lemma QuietSessionsAreRegistered(s: State, p: Path)
    requires Inv(s) && s.tasks == map[] && p in s.live
    ensures p in s.leaked || HasRow(s, p)
    ensures Stale(s, p) ==> p in s.leaked || p in s.deferred
  {
    assert Covered(s, p);
    assert Stale(s, p) ==> Answered(s, p);
  }

  /** In a run without faults nothing is excused: once quiet, only current sessions are live. */
  lemma NoStaleSessionLeft(s: State, steps: seq<Step>, t: State)
    requires Init(s) && Run(s, steps, t) && Faultless(s, steps) && t.tasks == map[]
    ensures forall p | p in t.live :: HasRow(t, p) && !Stale(t, p)
  {
    RunKeepsInv(s, steps, t);
    FaultlessExcusesNothing(s, steps, t);
    forall p | p in t.live ensures HasRow(t, p) && !Stale(t, p) {
      QuietSessionsAreRegistered(t, p);
    }
  }

  /** The other side: an opening whose account is not replaced meanwhile stays live and registered. */
  lemma UndisturbedOpening(s: State, k: Task, m: Media, p: Path) returns (steps: seq<Step>, t: State)
    requires Inv(s) && s.tasks == map[] && p !in s.paths && m.user in s.epochs && s.epochs[m.user] == m.epoch
    ensures Run(s, steps, t) && t.tasks == map[]
    ensures t.live == s.live[p := m] && HasRow(t, p) && !Stale(t, p) && t.epochs == s.epochs
    ensures t.rows == s.rows[p := Entry(m.user, s.now)]
  {
    var begun := After(s, Open(k, m));
    var created := After(begun, Create(k, p));
    var registered := After(created, Register(k));
    t := After(registered, Recheck(k));
    RunCons(registered, Recheck(k), [], t);
    RunCons(created, Register(k), [Recheck(k)], t);
    RunCons(begun, Create(k, p), [Register(k), Recheck(k)], t);
    RunCons(s, Open(k, m), [Create(k, p), Register(k), Recheck(k)], t);
    steps := [Open(k, m)] + [Create(k, p), Register(k), Recheck(k)];
  }

  /** A client's close, undisturbed: the session is gone, its row too if it was the client's, and nothing else. */
  lemma UndisturbedClose(s: State, k: Task, u: Name, p: Path) returns (steps: seq<Step>, t: State)
    requires s.tasks == map[]
    ensures Run(s, steps, t) && t.tasks == map[] && steps != [] && steps[0] == Leave(k, u, p)
    ensures t.live == s.live - {p} && t.epochs == s.epochs && t.leaked == s.leaked && t.deferred == s.deferred
    ensures t.rows == if p in s.rows && s.rows[p].user == u then s.rows - {p} else s.rows
  {
    var leaving := After(s, Leave(k, u, p));
    var closing := After(leaving, Unregister(k));
    var rest;
    rest, t := SweptAreClosed(closing, k, [p]);
    RunCons(leaving, Unregister(k), rest, t);
    RunCons(s, Leave(k, u, p), [Unregister(k)] + rest, t);
    steps := [Leave(k, u, p)] + ([Unregister(k)] + rest);
    assert t.tasks == map[];
    assert (set q | q in [p]) == {p};
  }

  /**
   An opening that was overtaken by a replacement of its session, already swept, closes what it set
   up together with everything else of the account that is registered by then.
   */
  lemma OvertakenOpeningCloses(s: State, k: Task) returns (steps: seq<Step>, t: State)
    requires k in s.tasks && s.tasks[k].Created? && s.tasks[k].path !in s.leaked
    requires var m := s.tasks[k].media; m.user in s.epochs && s.epochs[m.user] != m.epoch
    ensures Run(s, steps, t) && t.tasks == s.tasks - {k} && t.epochs == s.epochs && t.leaked == s.leaked
    ensures var u, p := s.tasks[k].media.user, s.tasks[k].path;
            && p !in t.live && p !in t.rows
            && (forall q | q != p :: q in t.live <==> q in s.live && !(q in s.rows && s.rows[q].user == u))
            && (forall q | q != p :: q in t.rows <==> q in s.rows && s.rows[q].user != u)
    ensures forall q | q in t.live :: q in s.live && t.live[q] == s.live[q]
  {
    var u := s.tasks[k].media.user;
    var registered := After(s, Register(k));
    var owing := After(registered, Recheck(k));
    var rest;
    rest, t := SweepCloses(owing, k, u);
    RunCons(registered, Recheck(k), rest, t);
    RunCons(s, Register(k), [Recheck(k)] + rest, t);
    steps := [Register(k)] + ([Recheck(k)] + rest);
    assert t.tasks == s.tasks - {k};
  }

  /** A sweep and its deletes: exactly the registered sessions of the account go, and their rows. */
  lemma SweepCloses(s: State, k: Task, u: Name) returns (steps: seq<Step>, t: State)
    requires k in s.tasks && s.tasks[k] == MustSweep(u)
    ensures Run(s, steps, t) && t == s.(live := t.live, rows := t.rows, tasks := s.tasks - {k})
    ensures |steps| > 1 && steps[0] == Sweep(k)
    ensures forall q :: q in t.live <==> q in s.live && !(q in s.rows && s.rows[q].user == u)
    ensures forall q :: q in t.rows <==> q in s.rows && s.rows[q].user != u
    ensures forall q | q in t.live :: t.live[q] == s.live[q]
    ensures forall q | q in t.rows :: t.rows[q] == s.rows[q]
  {
    var begun := After(s, Sweep(k));
    var rest;
    rest, t := SweptAreClosed(begun, k, begun.tasks[k].paths);
    RunCons(s, Sweep(k), rest, t);
    steps := [Sweep(k)] + rest;
    assert t.tasks == s.tasks - {k};
  }

  lemma SweptAreClosed(s: State, k: Task, list: seq<Path>) returns (steps: seq<Step>, t: State)
    requires k in s.tasks && s.tasks[k] == Closing(list)
    ensures Run(s, steps, t) && t == s.(live := s.live - (set p | p in list), tasks := t.tasks)
    ensures t.tasks == s.tasks - {k} && steps != []
  {
    var closed := s.(live := s.live - (set p | p in list), tasks := s.tasks[k := Closing([])]);
    ClosingLoop(s, k, list);
    t := After(closed, Finish(k));
    RunCons(closed, Finish(k), [], t);
    RunsCompose(s, Closes(k, |list|), closed, [Finish(k)] + [], t);
    steps := Closes(k, |list|) + ([Finish(k)] + []);
    assert t.tasks == s.tasks - {k};
  }

  /** Ageing at a later time forgets the rows older than a day by then and no others, and closes nothing. */
  lemma AgeingForgetsTheOld(s: State, to: int) returns (t: State)
    requires s.now <= to
    ensures Run(s, [Tick(to), AgeOut], t)
    ensures t.live == s.live && t.tasks == s.tasks && t.epochs == s.epochs
    ensures forall p :: p in t.rows <==> p in s.rows && to - s.rows[p].createdAt <= 24 * 3600
    ensures forall p | p in t.rows :: t.rows[p] == s.rows[p]
  {
    var later := After(s, Tick(to));
    t := After(later, AgeOut);
    RunCons(later, AgeOut, [], t);
    RunCons(s, Tick(to), [AgeOut] + [], t);
    assert [Tick(to)] + ([AgeOut] + []) == [Tick(to), AgeOut];
  }

  /** An opening that the upstream server refuses leaves everything as it was. */
  lemma RefusedOpeningLeavesNothing(s: State, k: Task, m: Media) returns (t: State)
    requires Enabled(s, Open(k, m))
    ensures Run(s, [Open(k, m), Refuse(k)], t) && t == s
  {
    var begun := After(s, Open(k, m));
    t := After(begun, Refuse(k));
    assert t.tasks == s.tasks;
    RunCons(begun, Refuse(k), [], t);
    RunCons(s, Open(k, m), [Refuse(k)] + [], t);
    assert [Open(k, m)] + ([Refuse(k)] + []) == [Open(k, m), Refuse(k)];
  }

  /** A session that has ended upstream stays ended: its path is not given out again. */
  lemma EndedSessionsStayEnded(s: State, p: Path, steps: seq<Step>, t: State)
    requires Inv(s) && p in s.live && Run(After(s, MediaEnds(p)), steps, t)
    ensures p !in t.live
  {
    StepKeepsInv(s, MediaEnds(p));
    GoneForGood(After(s, MediaEnds(p)), p, steps, t);
  }

  lemma {:induction false} GoneForGood(s: State, p: Path, steps: seq<Step>, t: State)
    requires Bookkeeping(s) && p in s.paths && p !in s.live && Run(s, steps, t)
    ensures p !in t.live
    decreases |steps|
  {
    if steps == [] {
    } else {
      StepKeepsEpochsKnown(s, steps[0]);
      StepKeepsPathsMatch(s, steps[0]);
      GoneForGood(After(s, steps[0]), p, steps[1..], t);
    }
  }

  lemma RunCons(s: State, step: Step, rest: seq<Step>, t: State)
    requires Enabled(s, step) && Run(After(s, step), rest, t)
    ensures Run(s, [step] + rest, t)
  {
    assert ([step] + rest)[1..] == rest;
  }

  // ── A replacement closes what a restart left behind ──

  ghost function Closes(k: Task, n: nat): (steps: seq<Step>)
    ensures |steps| == n
  {
    if n == 0 then [] else [Close(k)] + Closes(k, n - 1)
  }

  lemma {:induction false} ClosingLoop(s: State, k: Task, ps: seq<Path>)
    requires k in s.tasks && s.tasks[k] == Closing(ps)
    ensures var t := s.(live := s.live - (set p | p in ps), tasks := s.tasks[k := Closing([])]);
      Run(s, Closes(k, |ps|), t)
    decreases |ps|
  {
    var t := s.(live := s.live - (set p | p in ps), tasks := s.tasks[k := Closing([])]);
    if ps == [] {
      assert t == s;
    } else {
      var mid := After(s, Close(k));
      ClosingLoop(mid, k, ps[1..]);
      assert mid.live - (set p | p in ps[1..]) == s.live - (set p | p in ps);
      assert mid.tasks[k := Closing([])] == s.tasks[k := Closing([])];
      var steps := Closes(k, |ps|);
      assert steps[0] == Close(k) && steps[1..] == Closes(k, |ps| - 1);
    }
  }

  lemma {:induction false} RunsCompose(s: State, first: seq<Step>, m: State, second: seq<Step>, t: State)
    requires Run(s, first, m) && Run(m, second, t)
    ensures Run(s, first + second, t)
    decreases |first|
  {
    if first == [] {
      assert first + second == second;
    } else {
      RunsCompose(After(s, first[0]), first[1..], m, second, t);
      assert (first + second)[1..] == first[1..] + second;
    }
  }

  /**
   From any quiet reachable state, deferred sessions of earlier deaths included, one undisturbed
   replacement of u's session leaves no live session of u but leaked ones, and everyone else's alone.
   */
  lemma ReplacementClosesTheAccount(s: State, k: Task, u: Name) returns (steps: seq<Step>, t: State)
    requires Inv(s) && s.tasks == map[] && u in s.epochs
    ensures Run(s, steps, t) && t.tasks == map[] && |steps| > 2 && steps[0] == Bump(k, u) && steps[1] == Sweep(k)
    ensures forall p | p in t.live && t.live[p].user == u :: p in s.leaked
    ensures forall p | p in s.live && s.live[p].user != u && HasRow(s, p) :: p in t.live && t.live[p] == s.live[p]
    ensures t.epochs == s.epochs[u := s.epochs[u] + 1]
  {
    var bumped := After(s, Bump(k, u));
    var rest;
    rest, t := SweepCloses(bumped, k, u);
    RunCons(s, Bump(k, u), rest, t);
    steps := [Bump(k, u)] + rest;
    assert t.tasks == map[];
    forall p | p in t.live && t.live[p].user == u ensures p in s.leaked {
      QuietSessionsAreRegistered(s, p);
    }
  }
}
