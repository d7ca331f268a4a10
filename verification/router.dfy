/**
 The router as a whole: account requests (module Sessions) and media requests (module Whep)
 interleaving over one account database. They meet in the epochs: an account step that moves
 an epoch leaves a task that must sweep, and opening a stream takes a token the accounts accept.
 */
module Router {
  import S = Sessions
  import W = Whep

  datatype State = State(accounts: S.State, media: W.State)

  datatype Step =
    | Account(step: S.Step, sweeper: W.Task)     // sweeper: the request's own task after a bump
    | OpenStream(task: W.Task, mint: S.Mint)
    | Stream(part: W.Step)

  /** The account step moves the epoch of an existing account. */
  predicate Bumps(s: S.State, step: S.Step)
    requires S.Enabled(s, step)
  {
    step.Act? && step.action.Bump? && S.BumpTarget(s.agents[step.agent]) in s.ledger.epochs
  }

  predicate Enabled(s: State, step: Step) {
    match step
    case Account(st, k) => S.Enabled(s.accounts, st) && k !in s.media.tasks
    case OpenStream(k, m) =>
      && m in s.accounts.ledger.minted && S.AcceptsAccess(s.accounts.ledger, m.token, s.accounts.now)
      && W.Enabled(s.media, W.Open(k, W.Media(m.token.user, m.token.epoch)))
    case Stream(st) => !st.Open? && !st.Bump? && W.Enabled(s.media, st)
  }

  /** One table of epochs: whoever moves an epoch in the accounts moves it for the streams. */
  ghost function After(s: State, step: Step): State
    requires Enabled(s, step)
  {
    match step
    case Account(st, k) =>
      var media :=
        if Bumps(s.accounts, st) && W.Enabled(s.media, W.Bump(k, S.BumpTarget(s.accounts.agents[st.agent])))
        then W.After(s.media, W.Bump(k, S.BumpTarget(s.accounts.agents[st.agent])))
        else s.media;
      State(S.After(s.accounts, st), media)
    case OpenStream(k, m) => s.(media := W.After(s.media, W.Open(k, W.Media(m.token.user, m.token.epoch))))
    case Stream(st) => s.(media := W.After(s.media, st))
  }

  /** Some login minted the token that opened this stream. */
  ghost predicate Opened(d: S.Ledger, m: W.Media) {
    exists mint :: mint in d.minted && mint.token.user == m.user && mint.token.epoch == m.epoch
  }

  ghost predicate Provenance(s: State) {
    && (forall p | p in s.media.live :: Opened(s.accounts.ledger, s.media.live[p]))
    && (forall k | k in s.media.tasks && s.media.tasks[k].Opening? :: Opened(s.accounts.ledger, s.media.tasks[k].media))
  }

  ghost predicate Inv(s: State) {
    && S.Inv(s.accounts) && W.Inv(s.media)
    && s.media.epochs == s.accounts.ledger.epochs
    && Provenance(s)
  }

  ghost predicate Init(s: State) {
    S.Init(s.accounts) && W.Init(s.media) && s.media.epochs == s.accounts.ledger.epochs
  }

  lemma EffectOnEpochs(d: S.Ledger, now: real, a: S.Agent, pc: S.Pc, action: S.Action)
    requires S.CanAct(d, pc, action)
    ensures var d' := S.Effect(d, now, a, pc, action).0;
      && d.minted <= d'.minted
      && d'.epochs == (if action.Bump? then S.BumpedEpochs(d.epochs, S.BumpTarget(pc)) else d.epochs)
  {
  }

  lemma EpochsMoveTogether(s: S.State, step: S.Step)
    requires S.Enabled(s, step)
    ensures S.After(s, step).ledger.epochs ==
      if Bumps(s, step) then S.BumpedEpochs(s.ledger.epochs, S.BumpTarget(s.agents[step.agent]))
      else s.ledger.epochs
    ensures s.ledger.minted <= S.After(s, step).ledger.minted
  {
    if step.Act? {
      EffectOnEpochs(s.ledger, s.now, step.agent, s.agents[step.agent], step.action);
    }
  }

  lemma OpenedIsKept(d: S.Ledger, d': S.Ledger, m: W.Media)
    requires d.minted <= d'.minted && Opened(d, m)
    ensures Opened(d', m)
  {
    var mint :| mint in d.minted && mint.token.user == m.user && mint.token.epoch == m.epoch;
    assert mint in d'.minted;
  }

  /** A stream opens only through a task that authenticated. */
  lemma MediaKeepsProvenance(s: W.State, step: W.Step, d: S.Ledger)
    requires W.Enabled(s, step) && !step.Open?
    requires forall p | p in s.live :: Opened(d, s.live[p])
    requires forall k | k in s.tasks && s.tasks[k].Opening? :: Opened(d, s.tasks[k].media)
    ensures var t := W.After(s, step);
      && (forall p | p in t.live :: Opened(d, t.live[p]))
      && (forall k | k in t.tasks && t.tasks[k].Opening? :: Opened(d, t.tasks[k].media))
      && (!step.Bump? ==> t.epochs == s.epochs)
  {
    var t := W.After(s, step);
    forall p | p in t.live ensures Opened(d, t.live[p]) {
      SessionsComeFromOpenings(s, step, p);
    }
    forall k | k in t.tasks && t.tasks[k].Opening? ensures Opened(d, t.tasks[k].media) {
      OnlyOpenOpens(s, step, k);
    }
  }

  lemma SessionsComeFromOpenings(s: W.State, step: W.Step, p: W.Path)
    requires W.Enabled(s, step) && p in W.After(s, step).live
    ensures (p in s.live && W.After(s, step).live[p] == s.live[p])
            || ((step.Create? || step.CreateUnknown?) && W.After(s, step).live[p] == s.tasks[step.task].media)
  {
  }

  lemma OnlyOpenOpens(s: W.State, step: W.Step, k: W.Task)
    requires W.Enabled(s, step) && !step.Open? && k in W.After(s, step).tasks && W.After(s, step).tasks[k].Opening?
    ensures k in s.tasks && s.tasks[k] == W.After(s, step).tasks[k]
  {
  }

  lemma AccountStepKeepsInv(s: State, st: S.Step, k: W.Task)
    requires Inv(s) && Enabled(s, Account(st, k))
    ensures Inv(After(s, Account(st, k)))
  {
    S.StepKeepsInv(s.accounts, st);
    EpochsMoveTogether(s.accounts, st);
    var t := After(s, Account(st, k));
    var d, d' := s.accounts.ledger, t.accounts.ledger;
    if Bumps(s.accounts, st) {
      var bump := W.Bump(k, S.BumpTarget(s.accounts.agents[st.agent]));
      W.StepKeepsInv(s.media, bump);
      MediaKeepsProvenance(s.media, bump, d);
    }
    forall p | p in t.media.live ensures Opened(d', t.media.live[p]) {
      OpenedIsKept(d, d', t.media.live[p]);
    }
    forall j | j in t.media.tasks && t.media.tasks[j].Opening? ensures Opened(d', t.media.tasks[j].media) {
      OpenedIsKept(d, d', t.media.tasks[j].media);
    }
  }

  lemma StepKeepsInv(s: State, step: Step)
    requires Inv(s) && Enabled(s, step)
    ensures Inv(After(s, step))
  {
    match step
    case Account(st, k) => AccountStepKeepsInv(s, st, k);
    case OpenStream(k, m) =>
      W.StepKeepsInv(s.media, W.Open(k, W.Media(m.token.user, m.token.epoch)));
      assert Opened(s.accounts.ledger, W.Media(m.token.user, m.token.epoch));
    case Stream(st) =>
      W.StepKeepsInv(s.media, st);
      MediaKeepsProvenance(s.media, st, s.accounts.ledger);
  }

  ghost predicate Run(s: State, steps: seq<Step>, t: State)
    decreases |steps|
  {
    if steps == [] then s == t else Enabled(s, steps[0]) && Run(After(s, steps[0]), steps[1..], t)
  }

  lemma {:induction false} RunKeepsInv(s: State, steps: seq<Step>, t: State)
    requires Inv(s) && Run(s, steps, t)
    ensures Inv(t)
    decreases |steps|
  {
    if steps == [] {
    } else {
      StepKeepsInv(s, steps[0]);
      RunKeepsInv(After(s, steps[0]), steps[1..], t);
    }
  }

  // ── What either side sees ──

  /** What a step of the router is to the accounts, and to the streams. */
  function AccountPart(step: Step): seq<S.Step> {
    if step.Account? then [step.step] else []
  }

  function MediaPart(s: State, step: Step): seq<W.Step>
    requires Enabled(s, step)
  {
    match step
    case Account(st, k) =>
      if Bumps(s.accounts, st) then [W.Bump(k, S.BumpTarget(s.accounts.agents[st.agent]))] else []
    case OpenStream(k, m) => [W.Open(k, W.Media(m.token.user, m.token.epoch))]
    case Stream(st) => [st]
  }

  function AccountParts(steps: seq<Step>): seq<S.Step> {
    if steps == [] then [] else AccountPart(steps[0]) + AccountParts(steps[1..])
  }

  ghost function MediaParts(s: State, steps: seq<Step>): seq<W.Step>
    decreases |steps|
  {
    if steps == [] || !Enabled(s, steps[0]) then []
    else MediaPart(s, steps[0]) + MediaParts(After(s, steps[0]), steps[1..])
  }

  /**
   Seen from either side, a run of the router is a run of that protocol alone, so that all that is
   proved of those holds; every epoch that an account step moves reaches the streams as a bump.
   */
  lemma {:induction false} RunsProject(s: State, steps: seq<Step>, t: State)
    requires Inv(s) && Run(s, steps, t)
    ensures S.Path(s.accounts, AccountParts(steps), t.accounts)
    ensures W.Run(s.media, MediaParts(s, steps), t.media)
    decreases |steps|
  {
    if steps == [] {
    } else {
      var mid := After(s, steps[0]);
      StepKeepsInv(s, steps[0]);
      RunsProject(mid, steps[1..], t);
      AccountPartRuns(s, steps[0], AccountParts(steps[1..]), t.accounts);
      MediaPartRuns(s, steps[0], MediaParts(mid, steps[1..]), t.media);
    }
  }

  lemma AccountPartRuns(s: State, step: Step, rest: seq<S.Step>, t: S.State)
    requires Enabled(s, step) && S.Path(After(s, step).accounts, rest, t)
    ensures S.Path(s.accounts, AccountPart(step) + rest, t)
  {
    if step.Account? {
      assert ([step.step] + rest)[1..] == rest;
    } else {
      assert [] + rest == rest;
    }
  }

  lemma MediaPartRuns(s: State, step: Step, rest: seq<W.Step>, t: W.State)
    requires Inv(s) && Enabled(s, step) && W.Run(After(s, step).media, rest, t)
    ensures W.Run(s.media, MediaPart(s, step) + rest, t)
  {
    var part := MediaPart(s, step);
    if part == [] {
      assert [] + rest == rest;
    } else {
      W.RunCons(s.media, part[0], rest, t);
      assert part == [part[0]];
    }
  }

  /** In every reachable state somebody answers for each live stream of a replaced session. */
  lemma ReplacedStreamsAreAnswered(s: State, steps: seq<Step>, t: State, p: W.Path)
    requires Init(s) && Run(s, steps, t)
    requires p in t.media.live && W.Stale(t.media, p)
    ensures W.Answered(t.media, p)
  {
    RunKeepsInv(s, steps, t);
  }

  /**
   With no media request in flight, a live stream belongs to the latest login of its account and
   is registered, so that the next replacement can close it, unless a fault excuses it.
   */
  lemma LiveStreamsBelongToTheLatestLogin(s: State, steps: seq<Step>, t: State, p: W.Path, mint: S.Mint)
    requires Init(s) && Run(s, steps, t) && t.media.tasks == map[]
    requires p in t.media.live && p !in t.media.leaked && p !in t.media.deferred
    requires mint in t.accounts.ledger.minted
    requires mint.token.user == t.media.live[p].user && mint.token.epoch == t.media.live[p].epoch
    ensures W.HasRow(t.media, p)
    ensures mint.token.user in t.accounts.ledger.latest && t.accounts.ledger.latest[mint.token.user] == mint.login
  {
    RunKeepsInv(s, steps, t);
    W.QuietSessionsAreRegistered(t.media, p);
  }

  /** Every live stream does descend from a login: the theorem above is never about nothing. */
  lemma EveryStreamHasALogin(s: State, steps: seq<Step>, t: State, p: W.Path) returns (mint: S.Mint)
    requires Init(s) && Run(s, steps, t) && p in t.media.live
    ensures mint in t.accounts.ledger.minted
    ensures mint.token.user == t.media.live[p].user && mint.token.epoch == t.media.live[p].epoch
  {
    RunKeepsInv(s, steps, t);
    assert Opened(t.accounts.ledger, t.media.live[p]);
    mint :| mint in t.accounts.ledger.minted
      && mint.token.user == t.media.live[p].user && mint.token.epoch == t.media.live[p].epoch;
  }
}
