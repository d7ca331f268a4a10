/**
 Sessions of an account under concurrent requests (router/auth.py, router/main.py).

 Every request is an agent; each of its committed statement groups is one step, and any
 number of agents interleave. SESSION_LOCK covers the groups between Acquire and Release;
 password checks, the writing of a new password, and the purge a login starts with, happen outside it. An agent may die
 anywhere (an exception or a restart of the process), which frees the lock.
 */
module Sessions {
  import opened Options
  import opened Accounts

  type Agent = nat

  datatype Job =
    | SignIn(user: Name, password: string, remember: bool)
    | Renew(token: Token)
    | SignOut(presented: Option<Token>, bearer: Option<Access>)
    | NewPassword(user: Name, current: string, next: string)

  datatype Phase =
    | Verified    // a password change that has checked the current password and not yet written
    | Waiting
    | Held
    | Revoked
    | Bumped
    | Minted
    | Purged
    | Selected(user: Name)
    | Swapped(user: Name, login: Agent)
    | Unnamed
    | Named(user: Name)
    | Done

  datatype Pc = Pc(job: Job, phase: Phase)

  /** An access token together with the login it descends from. */
  datatype Mint = Mint(token: Access, login: Agent)

  /** One login of an account and its refresh tokens in order of issue. */
  datatype Session = Session(user: Name, tokens: seq<Token>)

  /**
   The passwords on file. The rest is history: the password each login was verified with, the one
   on file when it took the account over, the accounts whose password was written and neither
   bumped nor taken over since, and those for which that is so because the change died.
   */
  datatype Keys = Keys(
    passwords: map<Name, string>, verified: map<Agent, string>, found: map<Agent, string>,
    dirty: set<Name>, broken: set<Name>)

  // Epochs, rows and passwords are the tables. The rest is history (who minted what, and which login
  // moved an account's epoch last), written by the steps; random tokens are new to it.
  datatype Ledger = Ledger(
    epochs: map<Name, nat>,
    rows: RefreshTable,
    minted: set<Mint>,
    owner: map<Token, Agent>,
    logins: map<Agent, Session>,
    latest: map<Name, Agent>,
    keys: Keys)

  datatype State = State(ledger: Ledger, now: real, lock: Option<Agent>, agents: map<Agent, Pc>, seen: set<Agent>)

  /** The statement groups an agent runs while it holds the lock. */
  datatype Action =
    | RevokeSession
    | Bump
    | MintLogin
    | IssueFirst(issued: Token)
    | SkipIssue
    | PurgeInside
    | Select
    | Swap(issued: Token)
    | MintRenewed
    | RevokePresented
    | Identify

  datatype Step =
    | Tick(to: real)
    | PurgeOutside
    | Ask(agent: Agent, job: Job)
    | Write(agent: Agent)      // change_password commits the new hash
    | Acquire(agent: Agent)
    | Act(agent: Agent, action: Action)
    | Release(agent: Agent)
    | Die(agent: Agent)

  // ── What the tables accept ──

  /** What `require_auth` and the logout's bearer check compare. */
  predicate AcceptsAccess(d: Ledger, token: Access, now: real) {
    token.exp as real >= now && token.user in d.epochs && d.epochs[token.user] == token.epoch
  }

  /** What a rotation accepts: an unrevoked, unexpired row. */
  predicate AcceptsRenewal(d: Ledger, t: Token, now: real) {
    Active(d.rows, t) && d.rows[t].expiresAt >= now.Floor
  }

  // ── Steps ──

  function BumpedEpochs(epochs: map<Name, nat>, u: Name): map<Name, nat> {
    if u in epochs then epochs[u := epochs[u] + 1] else epochs
  }

  /** A login's bump also makes it the account's latest login. */
  function BeginLogin(d: Ledger, u: Name, a: Agent): Ledger {
    d.(epochs := BumpedEpochs(d.epochs, u), latest := d.latest[u := a], logins := d.logins[a := Session(u, [])])
  }

  function MintFor(d: Ledger, u: Name, l: Agent, now: real): Ledger {
    var epoch := if u in d.epochs then d.epochs[u] else 0;
    d.(minted := d.minted + {Mint(Access(u, epoch, now.Floor + JWT_EXPIRY), l)})
  }

  function IssueTo(d: Ledger, t: Token, u: Name, l: Agent, now: real): Ledger {
    d.(rows := Issue(d.rows, t, u, now.Floor), owner := d.owner[t := l],
       logins := if l in d.logins then d.logins[l := d.logins[l].(tokens := d.logins[l].tokens + [t])] else d.logins)
  }

  function OnFile(k: Keys, u: Name): string {
    if u in k.passwords then k.passwords[u] else ""
  }

  function Written(k: Keys, u: Name, next: string): Keys {
    k.(passwords := k.passwords[u := next], dirty := k.dirty + {u})
  }

  function TakenOver(k: Keys, u: Name, a: Agent, password: string): Keys {
    Settled(k, u).(verified := k.verified[a := password], found := k.found[a := OnFile(k, u)])
  }

  function Settled(k: Keys, u: Name): Keys {
    k.(dirty := k.dirty - {u}, broken := k.broken - {u})
  }

  predicate CanAct(d: Ledger, pc: Pc, action: Action) {
    match action
    case RevokeSession => pc.phase.Held? && (pc.job.SignIn? || pc.job.NewPassword?)
    case Bump => (pc.phase.Revoked? && (pc.job.SignIn? || pc.job.NewPassword?)) || (pc.phase.Named? && pc.job.SignOut?)
    case MintLogin => pc.phase.Bumped? && pc.job.SignIn?
    case IssueFirst(t) => pc.phase.Minted? && pc.job.SignIn? && pc.job.remember && t !in d.owner
    case SkipIssue => pc.phase.Minted? && pc.job.SignIn? && !pc.job.remember
    case PurgeInside => pc.phase.Held? && pc.job.Renew?
    case Select => pc.phase.Purged? && pc.job.Renew?
    case Swap(t) => pc.phase.Selected? && pc.job.Renew? && t !in d.owner && t != pc.job.token
    case MintRenewed => pc.phase.Swapped? && pc.job.Renew?
    case RevokePresented => pc.phase.Held? && pc.job.SignOut?
    case Identify => pc.phase.Unnamed? && pc.job.SignOut?
  }

  /** The tables, and the agent's own position, after one statement group. */
  function Effect(d: Ledger, now: real, a: Agent, pc: Pc, action: Action): (Ledger, Phase)
    requires CanAct(d, pc, action)
  {
    match action
    case RevokeSession => (d.(rows := RevokeAll(d.rows, pc.job.user)), Revoked)
    case Bump =>
      if pc.job.SignIn? then
        (BeginLogin(d, pc.job.user, a).(keys := TakenOver(d.keys, pc.job.user, a, pc.job.password)), Bumped)
      else
        var keys := if pc.job.NewPassword? then Settled(d.keys, pc.job.user) else d.keys;
        (d.(epochs := BumpedEpochs(d.epochs, BumpTarget(pc)), keys := keys), Done)
    case MintLogin => (MintFor(d, pc.job.user, a, now), Minted)
    case IssueFirst(t) => (IssueTo(d, t, pc.job.user, a, now), Done)
    case SkipIssue => (d, Done)
    case PurgeInside => (d.(rows := Purge(d.rows, now.Floor)), Purged)
    case Select =>
      (d, if AcceptsRenewal(d, pc.job.token, now) then Selected(d.rows[pc.job.token].user) else Done)
    case Swap(t) =>
      // The conditional UPDATE decides again: a purge outside the lock may have removed the row.
      if Active(d.rows, pc.job.token) then
        var u, l := pc.phase.user, if pc.job.token in d.owner then d.owner[pc.job.token] else a;
        (IssueTo(d.(rows := RevokeOne(d.rows, pc.job.token)), t, u, l, now), Swapped(u, l))
      else
        (d, Done)
    case MintRenewed => (MintFor(d, pc.phase.user, pc.phase.login, now), Done)
    case RevokePresented =>
      if pc.job.presented.Some? && Active(d.rows, pc.job.presented.value) then
        var t := pc.job.presented.value;
        (d.(rows := RevokeOne(d.rows, t)), Named(d.rows[t].user))
      else
        (d, Unnamed)
    case Identify =>
      var bearer := pc.job.bearer;
      (d, if bearer.Some? && AcceptsAccess(d, bearer.value, now) then Named(bearer.value.user) else Done)
  }

  /** Whose epoch a Bump moves. */
  function BumpTarget(pc: Pc): Name
    requires pc.job.SignIn? || pc.job.NewPassword? || pc.phase.Named?
  {
    if pc.job.SignIn? || pc.job.NewPassword? then pc.job.user else pc.phase.user
  }

  /** Logins and changes begin with a password that is on file then. */
  predicate Verifies(d: Ledger, job: Job) {
    match job
    case SignIn(u, password, _) => u in d.epochs && u in d.keys.passwords && d.keys.passwords[u] == password
    case NewPassword(u, current, _) => u in d.epochs && u in d.keys.passwords && d.keys.passwords[u] == current
    case _ => true
  }

  predicate Enabled(s: State, step: Step) {
    match step
    case Tick(to) => s.now <= to
    case PurgeOutside => true
    case Ask(a, job) => a !in s.seen && Verifies(s.ledger, job)
    case Write(a) => a in s.agents && s.agents[a].phase.Verified? && s.agents[a].job.NewPassword?
    case Acquire(a) => a in s.agents && s.agents[a].phase.Waiting? && s.lock == None
    case Act(a, action) => a in s.agents && CanAct(s.ledger, s.agents[a], action)
    case Release(a) => a in s.agents && s.agents[a].phase.Done?
    case Die(a) => a in s.agents
  }

  function MoveTo(s: State, a: Agent, d: Ledger, phase: Phase): State
    requires a in s.agents
  {
    s.(ledger := d, agents := s.agents[a := s.agents[a].(phase := phase)])
  }

  function Drop(s: State, a: Agent): State {
    s.(agents := s.agents - {a}, lock := if s.lock == Some(a) then None else s.lock)
  }

  function After(s: State, step: Step): State
    requires Enabled(s, step)
  {
    match step
    case Tick(to) => s.(now := to)
    case PurgeOutside => s.(ledger := s.ledger.(rows := Purge(s.ledger.rows, s.now.Floor)))
    case Ask(a, job) =>
      s.(agents := s.agents[a := Pc(job, if job.NewPassword? then Verified else Waiting)], seen := s.seen + {a})
    case Write(a) =>
      var job := s.agents[a].job;
      MoveTo(s, a, s.ledger.(keys := Written(s.ledger.keys, job.user, job.next)), Waiting)
    case Acquire(a) => MoveTo(s, a, s.ledger, Held).(lock := Some(a))
    case Act(a, action) =>
      var (d, phase) := Effect(s.ledger, s.now, a, s.agents[a], action);
      MoveTo(s, a, d, phase)
    case Release(a) => Drop(s, a)
    case Die(a) => Drop(s, a).(ledger := s.ledger.(keys := CutOff(s.ledger.keys, s.agents[a])))
  }

  /** A change that dies after writing leaves the old sessions in place. */
  function CutOff(k: Keys, pc: Pc): Keys {
    if Changing(pc) then k.(broken := k.broken + {pc.job.user}) else k
  }

  /** A change that has written its password and not bumped the epoch. */
  predicate Changing(pc: Pc) {
    pc.job.NewPassword? && (pc.phase.Waiting? || pc.phase.Held? || pc.phase.Revoked?)
  }

  // ── The invariant ──

  /** Every access token ever minted is at most at the current epoch, and at it only for the latest login. */
  ghost predicate AccessInv(d: Ledger) {
    forall m | m in d.minted ::
      && m.token.user in d.epochs && m.token.epoch <= d.epochs[m.token.user]
      && (m.token.epoch == d.epochs[m.token.user] ==>
            m.token.user in d.latest && d.latest[m.token.user] == m.login)
  }

  /** An unrevoked refresh token is the newest one of its account's latest login. */
  ghost predicate RenewalInv(d: Ledger) {
    && d.rows.Keys <= d.owner.Keys
    && forall t | Active(d.rows, t) ::
      var u := d.rows[t].user;
      && u in d.epochs && u in d.latest && d.owner[t] == d.latest[u]
      && d.latest[u] in d.logins && d.logins[d.latest[u]].user == u
      && d.logins[d.latest[u]].tokens != [] && Last(d.logins[d.latest[u]].tokens) == t
  }

  function Last<T>(q: seq<T>): T
    requires q != []
  {
    q[|q| - 1]
  }

  /** Tokens are never issued twice: a login's chain has no repeats and chains share nothing. */
  ghost predicate ChainInv(d: Ledger) {
    forall l, i | l in d.logins && 0 <= i < |d.logins[l].tokens| ::
      && d.logins[l].tokens[i] in d.owner && d.owner[d.logins[l].tokens[i]] == l
      && forall j | 0 <= j < i :: d.logins[l].tokens[j] != d.logins[l].tokens[i]
  }

  ghost predicate LedgerInv(d: Ledger) {
    AccessInv(d) && RenewalInv(d) && ChainInv(d)
  }

  ghost predicate NoneActive(d: Ledger, u: Name) {
    forall t | Active(d.rows, t) :: d.rows[t].user != u
  }

  /** What an agent may rely on at its position. */
  ghost predicate PhaseInv(d: Ledger, a: Agent, pc: Pc) {
    && (pc.job.SignIn? || pc.job.NewPassword? ==> pc.job.user in d.epochs)
    && match pc.phase
       case Verified => pc.job.NewPassword? && a !in d.logins
       case Waiting => a !in d.logins
       case Held => a !in d.logins
       case Revoked => (pc.job.SignIn? || pc.job.NewPassword?) && NoneActive(d, pc.job.user) && a !in d.logins
       case Bumped => pc.job.SignIn? && Begun(d, a, pc.job.user)
       case Minted => pc.job.SignIn? && Begun(d, a, pc.job.user)
       case Selected(u) =>
         pc.job.Renew? && pc.job.token in d.owner && (Active(d.rows, pc.job.token) ==> d.rows[pc.job.token].user == u)
       case Swapped(u, l) => pc.job.Renew? && u in d.epochs && u in d.latest && d.latest[u] == l
       case Named(u) => pc.job.SignOut?
       case _ => true
  }

  /** Not in the lock yet. */
  predicate Outside(phase: Phase) {
    phase.Verified? || phase.Waiting?
  }

  /** The latest login of u has begun and has no refresh token yet. */
  ghost predicate Begun(d: Ledger, a: Agent, u: Name) {
    NoneActive(d, u) && u in d.latest && d.latest[u] == a && a in d.logins && d.logins[a] == Session(u, [])
  }

  ghost predicate Inv(s: State) {
    && LedgerInv(s.ledger)
    && (forall a | a in s.agents :: (!Outside(s.agents[a].phase) <==> s.lock == Some(a)))
    && (s.lock.Some? ==> s.lock.value in s.agents)
    && s.agents.Keys <= s.seen && s.ledger.logins.Keys <= s.seen
    && forall a | a in s.agents :: PhaseInv(s.ledger, a, s.agents[a])
  }

  ghost predicate Init(s: State) {
    && s.ledger.rows == map[] && s.ledger.minted == {} && s.ledger.owner == map[]
    && s.ledger.logins == map[] && s.ledger.latest == map[]
    && s.lock == None && s.agents == map[]
    && s.ledger.keys == Keys(s.ledger.keys.passwords, map[], map[], {}, {})
  }

  // ── Every step keeps it ──

  /** Rows may only be dropped or revoked. */
  ghost predicate Shrunk(rows: RefreshTable, rows': RefreshTable) {
    && rows'.Keys <= rows.Keys
    && forall t | Active(rows', t) :: Active(rows, t) && rows'[t] == rows[t]
  }

  lemma ShrinkingKeepsLedger(d: Ledger, rows: RefreshTable)
    requires LedgerInv(d) && Shrunk(d.rows, rows)
    ensures LedgerInv(d.(rows := rows))
  {
    forall t | Active(rows, t) ensures Active(d.rows, t) && rows[t] == d.rows[t] {}
  }

  lemma BumpKeepsLedger(d: Ledger, u: Name)
    requires LedgerInv(d)
    ensures LedgerInv(d.(epochs := BumpedEpochs(d.epochs, u)))
  {
  }

  lemma BeginKeepsLedger(d: Ledger, u: Name, a: Agent)
    requires LedgerInv(d) && NoneActive(d, u) && u in d.epochs && a !in d.logins
    ensures LedgerInv(BeginLogin(d, u, a))
  {
  }

  lemma MintKeepsLedger(d: Ledger, u: Name, l: Agent, now: real)
    requires LedgerInv(d) && u in d.epochs && u in d.latest && d.latest[u] == l
    ensures LedgerInv(MintFor(d, u, l, now))
  {
  }

  lemma IssueKeepsLedger(d: Ledger, t: Token, u: Name, l: Agent, now: real)
    requires LedgerInv(d) && NoneActive(d, u) && t !in d.owner
    requires u in d.epochs && u in d.latest && d.latest[u] == l && l in d.logins && d.logins[l].user == u
    ensures LedgerInv(IssueTo(d, t, u, l, now))
  {
  }

  /** The lock holder's move disturbs nobody: every other agent is still waiting. */
  lemma HolderMoveKeepsInv(s: State, a: Agent, d: Ledger, phase: Phase)
    requires Inv(s) && a in s.agents && s.lock == Some(a) && !Outside(phase)
    requires LedgerInv(d) && PhaseInv(d, a, s.agents[a].(phase := phase))
    requires s.ledger.epochs.Keys <= d.epochs.Keys && d.logins.Keys <= s.ledger.logins.Keys + {a}
    ensures Inv(MoveTo(s, a, d, phase))
  {
    forall b | b in s.agents && b != a ensures PhaseInv(d, b, s.agents[b]) {
      assert Outside(s.agents[b].phase);
      assert PhaseInv(s.ledger, b, s.agents[b]);
    }
  }

  /** Exchanging the one active token of an account leaves one active token, one place further in the chain. */
  lemma SwapKeepsLedger(d: Ledger, t: Token, issued: Token, now: real)
    requires LedgerInv(d) && Active(d.rows, t) && issued !in d.owner
    ensures LedgerInv(IssueTo(d.(rows := RevokeOne(d.rows, t)), issued, d.rows[t].user, d.owner[t], now))
  {
    var u := d.rows[t].user;
    var mid := d.(rows := RevokeOne(d.rows, t));
    ShrinkingKeepsLedger(d, mid.rows);
    assert NoneActive(mid, u);
    IssueKeepsLedger(mid, issued, u, d.owner[t], now);
  }

  lemma EffectKeepsLedger(d: Ledger, now: real, a: Agent, pc: Pc, action: Action)
    requires LedgerInv(d) && PhaseInv(d, a, pc) && CanAct(d, pc, action)
    ensures LedgerInv(Effect(d, now, a, pc, action).0)
  {
    var d' := Effect(d, now, a, pc, action).0;
    match action {
      case Bump =>
        if pc.job.SignIn? {
          BeginKeepsLedger(d, pc.job.user, a);
        } else {
          BumpKeepsLedger(d, BumpTarget(pc));
        }
      case MintLogin => MintKeepsLedger(d, pc.job.user, a, now);
      case IssueFirst(t) => IssueKeepsLedger(d, t, pc.job.user, a, now);
      case Swap(t) => if Active(d.rows, pc.job.token) { SwapKeepsLedger(d, pc.job.token, t, now); }
      case MintRenewed => MintKeepsLedger(d, pc.phase.user, pc.phase.login, now);
      case RevokeSession => ShrinkingKeepsLedger(d, d'.rows);
      case PurgeInside => ShrinkingKeepsLedger(d, d'.rows);
      case RevokePresented => ShrinkingKeepsLedger(d, d'.rows);
      case _ =>
    }
  }

  lemma EffectKeepsPhase(d: Ledger, now: real, a: Agent, pc: Pc, action: Action)
    requires LedgerInv(d) && PhaseInv(d, a, pc) && CanAct(d, pc, action)
    ensures var (d', phase) := Effect(d, now, a, pc, action);
      && PhaseInv(d', a, pc.(phase := phase)) && !Outside(phase)
      && d.epochs.Keys == d'.epochs.Keys && d'.logins.Keys <= d.logins.Keys + {a}
  {
  }

  /** The password columns have no part in the protocol. */
  lemma KeysDoNotMatter(d: Ledger, keys: Keys)
    requires LedgerInv(d)
    ensures LedgerInv(d.(keys := keys))
    ensures forall a, pc | PhaseInv(d, a, pc) :: PhaseInv(d.(keys := keys), a, pc)
  {
  }

  lemma PurgeOutsideKeepsInv(s: State)
    requires Inv(s)
    ensures Inv(After(s, PurgeOutside))
  {
    var rows := Purge(s.ledger.rows, s.now.Floor);
    ShrinkingKeepsLedger(s.ledger, rows);
    forall a | a in s.agents ensures PhaseInv(s.ledger.(rows := rows), a, s.agents[a]) {
      assert PhaseInv(s.ledger, a, s.agents[a]);
    }
  }

  lemma WriteKeepsInv(s: State, a: Agent)
    requires Inv(s) && Enabled(s, Write(a))
    ensures Inv(After(s, Write(a)))
  {
    KeysDoNotMatter(s.ledger, After(s, Write(a)).ledger.keys);
  }

  lemma DeathKeepsInv(s: State, a: Agent)
    requires Inv(s) && Enabled(s, Die(a))
    ensures Inv(After(s, Die(a)))
  {
    KeysDoNotMatter(s.ledger, After(s, Die(a)).ledger.keys);
  }

  lemma StepKeepsInv(s: State, step: Step)
    requires Inv(s) && Enabled(s, step)
    ensures Inv(After(s, step))
  {
    match step
    case Act(a, action) =>
      var (d, phase) := Effect(s.ledger, s.now, a, s.agents[a], action);
      EffectKeepsLedger(s.ledger, s.now, a, s.agents[a], action);
      EffectKeepsPhase(s.ledger, s.now, a, s.agents[a], action);
      HolderMoveKeepsInv(s, a, d, phase);
    case PurgeOutside => PurgeOutsideKeepsInv(s);
    case Write(a) => WriteKeepsInv(s, a);
    case Die(a) => DeathKeepsInv(s, a);
    case _ =>
  }

  // ── Whole runs ──

  ghost predicate Path(s: State, steps: seq<Step>, t: State)
    decreases |steps|
  {
    if steps == [] then s == t else Enabled(s, steps[0]) && Path(After(s, steps[0]), steps[1..], t)
  }

  lemma {:induction false} PathKeepsInv(s: State, steps: seq<Step>, t: State)
    requires Inv(s) && Path(s, steps, t)
    ensures Inv(t)
    decreases |steps|
  {
    if steps == [] {
    } else {
      StepKeepsInv(s, steps[0]);
      PathKeepsInv(After(s, steps[0]), steps[1..], t);
    }
  }

  /**
   One login per account: in every reachable state, whatever the tables would accept descends
   from the account's latest login, and there is at most one refresh token to accept.
   */
  lemma OneLoginPerAccount(s: State, steps: seq<Step>, t: State)
    requires Init(s) && Path(s, steps, t)
    ensures forall m | m in t.ledger.minted && AcceptsAccess(t.ledger, m.token, t.now) ::
      m.token.user in t.ledger.latest && t.ledger.latest[m.token.user] == m.login
    ensures forall m | m in t.ledger.minted ::
      m.token.user in t.ledger.epochs && m.token.epoch <= t.ledger.epochs[m.token.user]
    ensures forall r | Active(t.ledger.rows, r) ::
      r in t.ledger.owner && t.ledger.rows[r].user in t.ledger.latest
      && t.ledger.owner[r] == t.ledger.latest[t.ledger.rows[r].user]
    ensures forall r, q | Active(t.ledger.rows, r) && Active(t.ledger.rows, q)
      && t.ledger.rows[r].user == t.ledger.rows[q].user :: r == q
  {
    PathKeepsInv(s, steps, t);
  }

  /** A login's refresh tokens form a chain without repeats, of which only the last can still be exchanged. */
  lemma RenewalsFormAChain(s: State, steps: seq<Step>, t: State, l: Agent)
    requires Init(s) && Path(s, steps, t) && l in t.ledger.logins
    ensures forall i, j | 0 <= j < i < |t.ledger.logins[l].tokens| ::
      t.ledger.logins[l].tokens[j] != t.ledger.logins[l].tokens[i]
    ensures forall i | 0 <= i < |t.ledger.logins[l].tokens| - 1 :: !Active(t.ledger.rows, t.ledger.logins[l].tokens[i])
    ensures forall m, i | m in t.ledger.logins && m != l && 0 <= i < |t.ledger.logins[m].tokens| ::
      t.ledger.logins[m].tokens[i] !in t.ledger.logins[l].tokens
  {
    PathKeepsInv(s, steps, t);
  }

  // ── Dead credentials ──

  ghost predicate DeadAccess(s: State, token: Access) {
    || token.exp as real < s.now
    || (token.user in s.ledger.epochs && token.epoch < s.ledger.epochs[token.user])
  }

  /** Issued once, and since then revoked or purged. */
  ghost predicate DeadRenewal(s: State, r: Token) {
    r in s.ledger.owner && !Active(s.ledger.rows, r)
  }

  /** Time, epochs and the set of tokens ever issued only grow, and no token is reactivated. */
  ghost predicate Advances(s: State, t: State) {
    && s.now <= t.now && s.seen <= t.seen
    && (forall u | u in s.ledger.epochs :: u in t.ledger.epochs && s.ledger.epochs[u] <= t.ledger.epochs[u])
    && s.ledger.owner.Keys <= t.ledger.owner.Keys
    && (forall r | r in s.ledger.owner && Active(t.ledger.rows, r) :: Active(s.ledger.rows, r))
  }

  lemma EffectAdvances(d: Ledger, now: real, a: Agent, pc: Pc, action: Action)
    requires CanAct(d, pc, action)
    ensures var d' := Effect(d, now, a, pc, action).0;
      && (forall u | u in d.epochs :: u in d'.epochs && d.epochs[u] <= d'.epochs[u])
      && d.owner.Keys <= d'.owner.Keys
      && (forall r | r in d.owner && Active(d'.rows, r) :: Active(d.rows, r))
  {
  }

  lemma StepAdvances(s: State, step: Step)
    requires Enabled(s, step)
    ensures Advances(s, After(s, step))
  {
    if step.Act? {
      EffectAdvances(s.ledger, s.now, step.agent, s.agents[step.agent], step.action);
    }
  }

  lemma {:induction false} PathAdvances(s: State, steps: seq<Step>, t: State)
    requires Path(s, steps, t)
    ensures Advances(s, t)
    decreases |steps|
  {
    if steps == [] {
    } else {
      StepAdvances(s, steps[0]);
      PathAdvances(After(s, steps[0]), steps[1..], t);
    }
  }

  /** Whatever happens later, a dead credential is never accepted again. */
  lemma DeadStaysDead(s: State, steps: seq<Step>, t: State)
    requires Path(s, steps, t)
    ensures forall token | DeadAccess(s, token) :: DeadAccess(t, token) && !AcceptsAccess(t.ledger, token, t.now)
    ensures forall r | DeadRenewal(s, r) :: DeadRenewal(t, r) && !AcceptsRenewal(t.ledger, r, t.now)
  {
    PathAdvances(s, steps, t);
  }

  /** A refresh token that was exchanged is never exchanged again, by anyone. */
  lemma ExchangedAtMostOnce(s: State, a: Agent, issued: Token, steps: seq<Step>, t: State, b: Agent, again: Token)
    requires Inv(s) && Enabled(s, Act(a, Swap(issued)))
    requires Effect(s.ledger, s.now, a, s.agents[a], Swap(issued)).1.Swapped?
    requires Path(After(s, Act(a, Swap(issued))), steps, t)
    requires Enabled(t, Act(b, Swap(again))) && t.agents[b].job.token == s.agents[a].job.token
    ensures Effect(t.ledger, t.now, b, t.agents[b], Swap(again)) == (t.ledger, Done)
  {
    var mid := After(s, Act(a, Swap(issued)));
    assert DeadRenewal(mid, s.agents[a].job.token);
    DeadStaysDead(mid, steps, t);
  }

  /** A request that can present nothing but dead credentials. */
  ghost predicate PresentsDead(s: State, job: Job) {
    match job
    case Renew(r) => DeadRenewal(s, r)
    case SignOut(r, bearer) =>
      (r.Some? ==> DeadRenewal(s, r.value)) && (bearer.Some? ==> DeadAccess(s, bearer.value))
    case _ => false
  }

  ghost predicate Powerless(s: State, a: Agent) {
    && a in s.seen
    && (a in s.agents ==>
          && PresentsDead(s, s.agents[a].job)
          && (s.agents[a].phase.Waiting? || s.agents[a].phase.Held? || s.agents[a].phase.Purged?
              || s.agents[a].phase.Unnamed? || s.agents[a].phase.Done?))
  }

  lemma StepKeepsPowerless(s: State, step: Step, a: Agent)
    requires Enabled(s, step) && Powerless(s, a)
    ensures Powerless(After(s, step), a)
  {
    StepAdvances(s, step);
    var t := After(s, step);
    if a in s.agents {
      assert PresentsDead(t, s.agents[a].job);
    }
  }

  /** What an observer of the accounts can tell apart. */
  ghost predicate SameAcceptance(s: State, t: State) {
    && s.ledger.epochs == t.ledger.epochs
    && (forall token :: AcceptsAccess(s.ledger, token, s.now) <==> AcceptsAccess(t.ledger, token, t.now))
    && (forall r :: AcceptsRenewal(s.ledger, r, s.now) <==> AcceptsRenewal(t.ledger, r, t.now))
  }

  /**
   A logout or refresh that presents only dead credentials is inert: interleaved with anything,
   no step of it moves an epoch or changes what any credential is worth.
   */
  lemma {:induction false} DeadCredentialsAreInert(s: State, steps: seq<Step>, t: State, a: Agent, step: Step)
    requires Powerless(s, a) && Path(s, steps, t) && Enabled(t, step)
    requires (step.Act? || step.Acquire? || step.Release? || step.Die?) && step.agent == a
    ensures SameAcceptance(t, After(t, step))
    decreases |steps|
  {
    if steps == [] {
    } else {
      StepKeepsPowerless(s, steps[0], a);
      DeadCredentialsAreInert(After(s, steps[0]), steps[1..], t, a, step);
    }
  }

  /** The other side: the token a login mints is accepted, and nothing minted for the account before it is. */
  lemma LoginTakesOver(s: State, a: Agent)
    requires Inv(s) && Enabled(s, Act(a, MintLogin))
    ensures var t, u := After(s, Act(a, MintLogin)), s.agents[a].job.user;
      && u in t.ledger.epochs
      && Mint(Access(u, t.ledger.epochs[u], t.now.Floor + JWT_EXPIRY), a) in t.ledger.minted
      && AcceptsAccess(t.ledger, Access(u, t.ledger.epochs[u], t.now.Floor + JWT_EXPIRY), t.now)
      && (forall m | m in t.ledger.minted && m.token.user == u && m.login != a ::
            !AcceptsAccess(t.ledger, m.token, t.now))
      && (forall r | Active(t.ledger.rows, r) :: t.ledger.rows[r].user != u)
  {
    assert PhaseInv(s.ledger, a, s.agents[a]);
    StepKeepsInv(s, Act(a, MintLogin));
  }

  /** Whoever moves an account's epoch leaves no token of it that was minted before. */
  lemma BumpEndsAccess(s: State, a: Agent)
    requires Inv(s) && Enabled(s, Act(a, Bump))
    ensures var t, u := After(s, Act(a, Bump)), BumpTarget(s.agents[a]);
      && (forall m | m in t.ledger.minted && m.token.user == u :: DeadAccess(t, m.token))
      && (s.agents[a].job.NewPassword? || s.agents[a].job.SignIn? ==> NoneActive(t.ledger, u))
  {
    assert PhaseInv(s.ledger, a, s.agents[a]);
  }

  /** The agent has found out whose logout it is: by the refresh token, or else by the access token. */
  function Identified(s: State, a: Agent): State
    requires Enabled(s, Act(a, RevokePresented))
  {
    var first := After(s, Act(a, RevokePresented));
    if first.agents[a].phase.Unnamed? then After(first, Act(a, Identify)) else first
  }

  /**
   A logout ends every access token of the account it identifies, and its refresh token too exactly
   when that token (or none at all being active) was what it presented.
   */
  lemma LogoutEndsTheSessionIff(s: State, a: Agent, u: Name)
    requires Inv(s) && Enabled(s, Act(a, RevokePresented)) && Identified(s, a).agents[a].phase == Named(u)
    ensures var t := After(Identified(s, a), Act(a, Bump));
      && (forall m | m in t.ledger.minted && m.token.user == u :: DeadAccess(t, m.token))
      && (NoneActive(t.ledger, u)
          <==> forall r | Active(s.ledger.rows, r) && s.ledger.rows[r].user == u ::
                 s.agents[a].job.presented == Some(r))
  {
    var first := After(s, Act(a, RevokePresented));
    StepKeepsInv(s, Act(a, RevokePresented));
    if first.agents[a].phase.Unnamed? {
      StepKeepsInv(first, Act(a, Identify));
    }
    var named := Identified(s, a);
    BumpEndsAccess(named, a);
    var presented := s.agents[a].job.presented;
    forall r: Token ensures Active(named.ledger.rows, r) <==> Active(s.ledger.rows, r) && presented != Some(r) {
    }
  }
}
