/**
 Whose password a session stands for (router/auth.py): passwords are checked, and new ones
 written, outside SESSION_LOCK, so that a login may take an account over with a password that
 has been replaced meanwhile.
 */
module Passwords {
  import opened Options
  import opened Accounts
  import opened Sessions
  import opened Requests

  /** Login l found the password that is on file now, unless a change of it is still to be bumped. */
  ghost predicate Timely(d: Ledger, u: Name, l: Agent) {
    u in d.keys.dirty || (l in d.keys.found && d.keys.found[l] == OnFile(d.keys, u))
  }

  /** Some token of u would be accepted, or could be exchanged if its time has not passed. */
  ghost predicate Usable(d: Ledger, u: Name) {
    (exists t :: Held(d, t, u)) || (exists m :: Current(d, m, u))
  }

  predicate Held(d: Ledger, t: Token, u: Name) {
    Active(d.rows, t) && d.rows[t].user == u
  }

  predicate Current(d: Ledger, m: Mint, u: Name) {
    m in d.minted && m.token.user == u && u in d.epochs && m.token.epoch == d.epochs[u]
  }

  ghost predicate KeyInv(d: Ledger) {
    && d.keys.verified.Keys == d.keys.found.Keys
    && (forall u | u in d.latest :: d.latest[u] in d.logins && d.logins[d.latest[u]].user == u)
    && (forall u | u in d.latest && Usable(d, u) :: Timely(d, u, d.latest[u]))
  }

  ghost predicate KeyPhase(d: Ledger, a: Agent, pc: Pc) {
    match pc.phase
    case Bumped => pc.job.SignIn? && Timely(d, pc.job.user, a)
    case Minted => pc.job.SignIn? && Timely(d, pc.job.user, a)
    case Swapped(u, l) => Timely(d, u, l)
    case _ => true
  }

  /** A password written and not bumped belongs to a change under way, or to one that died. */
  ghost predicate PendingInv(s: State) {
    forall u | u in s.ledger.keys.dirty :: u in s.ledger.keys.broken || exists a :: Changes(s, a, u)
  }

  predicate Changes(s: State, a: Agent, u: Name) {
    a in s.agents && Changing(s.agents[a]) && s.agents[a].job.user == u
  }

  ghost predicate KeysInv(s: State) {
    && KeyInv(s.ledger) && PendingInv(s)
    && forall a | a in s.agents :: KeyPhase(s.ledger, a, s.agents[a])
  }

  // ── Every step keeps it ──

  /** The account that the agent is about to make usable, if any. */
  predicate Makes(pc: Pc, u: Name) {
    || ((pc.phase.Bumped? || pc.phase.Minted?) && pc.job.SignIn? && pc.job.user == u)
    || (pc.phase.Swapped? && pc.phase.user == u)
  }

  lemma HeldComesFrom(d: Ledger, now: real, a: Agent, pc: Pc, action: Action, t: Token, u: Name)
    requires LedgerInv(d) && PhaseInv(d, a, pc) && CanAct(d, pc, action)
    requires Held(Effect(d, now, a, pc, action).0, t, u)
    ensures Held(d, t, u) || Makes(pc, u) || (action.Swap? && Held(d, pc.job.token, u))
    ensures action.Bump? && !pc.job.SignOut? ==> BumpTarget(pc) != u
  {
  }

  lemma CurrentComesFrom(d: Ledger, now: real, a: Agent, pc: Pc, action: Action, m: Mint, u: Name)
    requires LedgerInv(d) && PhaseInv(d, a, pc) && CanAct(d, pc, action)
    requires Current(Effect(d, now, a, pc, action).0, m, u)
    ensures Current(d, m, u) || Makes(pc, u)
    ensures action.Bump? ==> BumpTarget(pc) != u
  {
    if m in d.minted {
      assert m.token.epoch <= d.epochs[u];
    }
  }

  lemma UsableComesFrom(d: Ledger, now: real, a: Agent, pc: Pc, action: Action, u: Name)
    requires LedgerInv(d) && PhaseInv(d, a, pc) && CanAct(d, pc, action)
    requires Usable(Effect(d, now, a, pc, action).0, u)
    ensures Usable(d, u) || Makes(pc, u)
    ensures action.Bump? && !pc.job.SignOut? ==> BumpTarget(pc) != u
  {
    var d' := Effect(d, now, a, pc, action).0;
    if t :| Held(d', t, u) {
      HeldComesFrom(d, now, a, pc, action, t, u);
    } else {
      var m :| Current(d', m, u);
      CurrentComesFrom(d, now, a, pc, action, m, u);
    }
  }

  /** An effect leaves an account's latest login and what it found alone, except for the one it takes over. */
  lemma EffectOnTimely(d: Ledger, now: real, a: Agent, pc: Pc, action: Action, u: Name)
    requires LedgerInv(d) && PhaseInv(d, a, pc) && CanAct(d, pc, action) && KeyInv(d)
    requires action.Bump? && !pc.job.SignOut? ==> BumpTarget(pc) != u
    ensures var d' := Effect(d, now, a, pc, action).0;
      && (u in d.latest <==> u in d'.latest) && (u in d.latest ==> d'.latest[u] == d.latest[u])
      && (u in d.latest && Timely(d, u, d.latest[u]) ==> Timely(d', u, d.latest[u]))
  {
  }

  lemma EffectKeepsKeyInv(d: Ledger, now: real, a: Agent, pc: Pc, action: Action)
    requires LedgerInv(d) && PhaseInv(d, a, pc) && CanAct(d, pc, action)
    requires KeyInv(d) && KeyPhase(d, a, pc)
    ensures KeyInv(Effect(d, now, a, pc, action).0)
  {
    var d' := Effect(d, now, a, pc, action).0;
    forall u | u in d'.latest && Usable(d', u) ensures Timely(d', u, d'.latest[u]) {
      UsableComesFrom(d, now, a, pc, action, u);
      EffectOnTimely(d, now, a, pc, action, u);
    }
  }

  lemma EffectKeepsKeyPhase(d: Ledger, now: real, a: Agent, pc: Pc, action: Action)
    requires LedgerInv(d) && PhaseInv(d, a, pc) && CanAct(d, pc, action)
    requires KeyInv(d) && KeyPhase(d, a, pc)
    ensures var (d', phase) := Effect(d, now, a, pc, action); KeyPhase(d', a, pc.(phase := phase))
  {
    if action.Swap? && Active(d.rows, pc.job.token) {
      assert Held(d, pc.job.token, d.rows[pc.job.token].user);
      assert Timely(d, d.rows[pc.job.token].user, d.owner[pc.job.token]);
    }
  }

  /** Whoever is outside the lock has nothing at stake. */
  lemma ActKeepsKeys(s: State, a: Agent, action: Action)
    requires Inv(s) && KeysInv(s) && Enabled(s, Act(a, action))
    ensures KeysInv(After(s, Act(a, action)))
  {
    var d, pc := s.ledger, s.agents[a];
    var t := After(s, Act(a, action));
    assert PhaseInv(d, a, pc) && KeyPhase(d, a, pc);
    EffectKeepsKeyInv(d, s.now, a, pc, action);
    EffectKeepsKeyPhase(d, s.now, a, pc, action);
    forall u | u in t.ledger.keys.dirty && u !in t.ledger.keys.broken ensures exists b :: Changes(t, b, u) {
      assert u in d.keys.dirty && u !in d.keys.broken;
      var b :| Changes(s, b, u);
      assert Changes(t, b, u);
    }
  }

  lemma WriteKeepsKeys(s: State, a: Agent)
    requires Inv(s) && KeysInv(s) && Enabled(s, Write(a))
    ensures KeysInv(After(s, Write(a)))
  {
    var t := After(s, Write(a));
    assert Changes(t, a, s.agents[a].job.user);
    KeepPending(s, t, a);
    UsableStays(s.ledger, t.ledger);
  }

  lemma DeathKeepsKeys(s: State, a: Agent)
    requires Inv(s) && KeysInv(s) && Enabled(s, Die(a))
    ensures KeysInv(After(s, Die(a)))
  {
    var t := After(s, Die(a));
    KeepPending(s, t, a);
    UsableStays(s.ledger, t.ledger);
  }

  /** Purging, and whatever leaves rows, tokens and epochs alone, makes nobody usable. */
  lemma UsableStays(d: Ledger, d': Ledger)
    requires d'.minted == d.minted && d'.epochs == d.epochs && Shrunk(d.rows, d'.rows)
    ensures forall u | Usable(d', u) :: Usable(d, u)
  {
    forall u | Usable(d', u) ensures Usable(d, u) {
      if t :| Held(d', t, u) {
        assert Held(d, t, u);
      } else {
        var m :| Current(d', m, u);
        assert Current(d, m, u);
      }
    }
  }

  /** The changes of all agents but a go on. */
  lemma KeepPending(s: State, t: State, a: Agent)
    requires PendingInv(s) && s.ledger.keys.broken <= t.ledger.keys.broken
    requires forall b | b in s.agents && b != a :: b in t.agents && t.agents[b] == s.agents[b]
    requires forall u | u in t.ledger.keys.dirty && (u !in s.ledger.keys.dirty || Changes(s, a, u)) ::
               u in t.ledger.keys.broken || Changes(t, a, u)
    ensures PendingInv(t)
  {
    forall u | u in t.ledger.keys.dirty ensures u in t.ledger.keys.broken || exists b :: Changes(t, b, u) {
      if u in s.ledger.keys.dirty && u !in s.ledger.keys.broken && !Changes(s, a, u) {
        var b :| Changes(s, b, u);
        assert Changes(t, b, u);
      }
    }
  }

  lemma OtherStepKeepsKeys(s: State, step: Step)
    requires Inv(s) && KeysInv(s) && Enabled(s, step) && !step.Act? && !step.Write? && !step.Die?
    ensures KeysInv(After(s, step))
  {
    var t := After(s, step);
    UsableStays(s.ledger, t.ledger);
    if step.Tick? || step.PurgeOutside? {
      assert forall a, u :: Changes(t, a, u) <==> Changes(s, a, u);
    } else {
      KeepPending(s, t, step.agent);
    }
  }

  lemma StepKeepsKeys(s: State, step: Step)
    requires Inv(s) && KeysInv(s) && Enabled(s, step)
    ensures KeysInv(After(s, step))
  {
    match step
    case Act(a, action) => ActKeepsKeys(s, a, action);
    case Write(a) => WriteKeepsKeys(s, a);
    case Die(a) => DeathKeepsKeys(s, a);
    case _ => OtherStepKeepsKeys(s, step);
  }

  lemma {:induction false} PathKeepsKeys(s: State, steps: seq<Step>, t: State)
    requires Inv(s) && KeysInv(s) && Path(s, steps, t)
    ensures Inv(t) && KeysInv(t)
    decreases |steps|
  {
    if steps == [] {
    } else {
      StepKeepsInv(s, steps[0]);
      StepKeepsKeys(s, steps[0]);
      PathKeepsKeys(After(s, steps[0]), steps[1..], t);
    }
  }

  // ── Main results ──

  /**
   As long as no change of the password is half done, an accepted access token descends from a
   login with the password now on file if and only if that login, when it took the account over,
   found on file the very password it had verified before.
   */
  lemma AcceptedPasswordIff(s: State, steps: seq<Step>, t: State, m: Mint)
    requires Init(s) && Path(s, steps, t)
    requires m in t.ledger.minted && AcceptsAccess(t.ledger, m.token, t.now)
    requires m.token.user !in t.ledger.keys.broken && forall a :: !Changes(t, a, m.token.user)
    ensures var keys := t.ledger.keys;
      && m.login in keys.verified && m.login in keys.found
      && (keys.verified[m.login] == OnFile(keys, m.token.user) <==> keys.verified[m.login] == keys.found[m.login])
  {
    PathKeepsKeys(s, steps, t);
    assert Current(t.ledger, m, m.token.user);
  }

  /** The same for a refresh token: whom it would renew. */
  lemma RenewablePasswordIff(s: State, steps: seq<Step>, t: State, r: Token)
    requires Init(s) && Path(s, steps, t) && Active(t.ledger.rows, r)
    requires var u := t.ledger.rows[r].user; u !in t.ledger.keys.broken && forall a :: !Changes(t, a, u)
    ensures var keys, u := t.ledger.keys, t.ledger.rows[r].user;
      && r in t.ledger.owner && t.ledger.owner[r] in keys.verified && t.ledger.owner[r] in keys.found
      && (keys.verified[t.ledger.owner[r]] == OnFile(keys, u)
          <==> keys.verified[t.ledger.owner[r]] == keys.found[t.ledger.owner[r]])
  {
    PathKeepsKeys(s, steps, t);
    assert Held(t.ledger, r, t.ledger.rows[r].user);
  }

  // ── Runs in which the old password stays good ──

  /** A login that verified the old password and got the lock after the change: it is the session there is. */
  lemma LateLoginKeepsTheOldPassword(z: State, u: Name, next: string)
      returns (steps: seq<Step>, t: State, m: Mint)
    requires Init(z) && z.seen == {} && u in z.ledger.epochs && u in z.ledger.keys.passwords
    requires next != z.ledger.keys.passwords[u]
    ensures Path(z, steps, t) && t.agents == map[] && t.ledger.keys.dirty == {} && t.ledger.keys.broken == {}
    ensures m in t.ledger.minted && m.token.user == u && AcceptsAccess(t.ledger, m.token, t.now)
    ensures m.login in t.ledger.keys.verified && t.ledger.keys.verified[m.login] == z.ledger.keys.passwords[u]
    ensures OnFile(t.ledger.keys, u) == next
  {
    var password := z.ledger.keys.passwords[u];
    var asked := After(z, Ask(0, SignIn(u, password, false)));
    steps, t := Then(z, [], z, Ask(0, SignIn(u, password, false)));
    var change, changed := UndisturbedChange(asked, 1, u, next);
    PathsCompose(z, steps, asked, change, changed);
    PathKeepsInv(z, steps + change, changed);
    var login;
    login, t := UndisturbedLogin(changed, 0, u, password, false, 0);
    PathsCompose(z, steps + change, changed, login, t);
    steps := steps + change + login;
    m := Mint(Access(u, t.ledger.epochs[u], t.now.Floor + JWT_EXPIRY), 0);
  }

  /** A change that dies between its two commits: the session of the old password is accepted still. */
  lemma CutOffChangeKeepsTheOldSession(z: State, u: Name, next: string)
      returns (steps: seq<Step>, t: State, m: Mint)
    requires Init(z) && z.seen == {} && u in z.ledger.epochs && u in z.ledger.keys.passwords
    requires next != z.ledger.keys.passwords[u]
    ensures Path(z, steps, t) && t.agents == map[] && t.ledger.keys.broken == {u}
    ensures m in t.ledger.minted && m.token.user == u && AcceptsAccess(t.ledger, m.token, t.now)
    ensures m.login in t.ledger.keys.verified && t.ledger.keys.verified[m.login] == z.ledger.keys.passwords[u]
    ensures OnFile(t.ledger.keys, u) == next
  {
    var password := z.ledger.keys.passwords[u];
    var asked := After(z, Ask(0, SignIn(u, password, false)));
    steps, t := Then(z, [], z, Ask(0, SignIn(u, password, false)));
    PathKeepsInv(z, steps, asked);
    var login, mine := UndisturbedLogin(asked, 0, u, password, false, 0);
    PathsCompose(z, steps, asked, login, mine);
    m := Mint(Access(u, mine.ledger.epochs[u], mine.now.Floor + JWT_EXPIRY), 0);
    steps, t := Then(z, steps + login, mine, Ask(1, NewPassword(u, password, next)));
    steps, t := Then(z, steps, t, Write(1));
    steps, t := Then(z, steps, t, Die(1));
  }
}
