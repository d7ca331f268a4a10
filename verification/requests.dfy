/**
 What each account request comes to when no other request comes between its steps (login, refresh,
 logout and api_change_password in router/main.py): the whole new state, in terms of the tables
 alone. The concurrent protocol of module Sessions lets any number of such requests interleave.
 */
module Requests {
  import opened Options
  import opened Accounts
  import opened Sessions

  lemma {:induction false} PathsCompose(s: State, first: seq<Step>, mid: State, second: seq<Step>, t: State)
    requires Path(s, first, mid) && Path(mid, second, t)
    ensures Path(s, first + second, t)
    decreases |first|
  {
    if first == [] {
      assert first + second == second;
    } else {
      PathsCompose(After(s, first[0]), first[1..], mid, second, t);
      assert (first + second)[1..] == first[1..] + second;
    }
  }

  lemma Then(s: State, steps: seq<Step>, mid: State, step: Step) returns (longer: seq<Step>, t: State)
    requires Path(s, steps, mid) && Enabled(mid, step)
    ensures longer == steps + [step] && t == After(mid, step) && Path(s, longer, t)
  {
    longer, t := steps + [step], After(mid, step);
    assert [step][1..] == [];
    PathsCompose(s, steps, mid, [step], t);
  }

  /** The request is through: its agent has gone and the lock is free, and no time has passed. */
  predicate Through(s: State, t: State, a: Agent) {
    t.lock == None && t.agents == s.agents - {a} && t.now == s.now && t.seen == s.seen
  }

  /** The refresh tokens of other accounts than u are as they were. */
  predicate OthersKeepRows(s: State, t: State, u: Name) {
    forall r | r in s.ledger.rows && s.ledger.rows[r].user != u ::
      r in t.ledger.rows && t.ledger.rows[r] == s.ledger.rows[r]
  }

  // ── Login ──

  /**
   A login takes the account over: one epoch further, one access token that is accepted, every
   refresh token of the account revoked, a new one if it asked to be kept, and nobody else touched.
   */
  lemma UndisturbedLogin(s: State, a: Agent, u: Name, password: string, remember: bool, issued: Token)
      returns (steps: seq<Step>, t: State)
    requires Inv(s) && s.lock == None && a in s.agents && s.agents[a] == Pc(SignIn(u, password, remember), Waiting)
    requires u in s.ledger.epochs && issued !in s.ledger.owner
    ensures Path(s, steps, t) && Through(s, t, a)
    ensures t.ledger.epochs == s.ledger.epochs[u := s.ledger.epochs[u] + 1]
    ensures var token := Access(u, s.ledger.epochs[u] + 1, s.now.Floor + JWT_EXPIRY);
            t.ledger.minted == s.ledger.minted + {Mint(token, a)} && AcceptsAccess(t.ledger, token, t.now)
    ensures t.ledger.rows.Keys == s.ledger.rows.Keys + if remember then {issued} else {}
    ensures forall r | r in s.ledger.rows && s.ledger.rows[r].user == u :: t.ledger.rows[r].revoked
    ensures remember ==> t.ledger.rows[issued] == Row(u, s.now.Floor + REFRESH_EXPIRY, false)
    ensures OthersKeepRows(s, t, u)
    ensures t.ledger.latest == s.ledger.latest[u := a]
    ensures t.ledger.logins == s.ledger.logins[a := Session(u, if remember then [issued] else [])]
    ensures t.ledger.keys.passwords == s.ledger.keys.passwords
    ensures t.ledger.keys.verified == s.ledger.keys.verified[a := password]
    ensures u in s.ledger.keys.passwords ==>
              t.ledger.keys.found == s.ledger.keys.found[a := s.ledger.keys.passwords[u]]
    ensures t.ledger.keys.dirty == s.ledger.keys.dirty - {u} && t.ledger.keys.broken == s.ledger.keys.broken - {u}
  {
    steps, t := LoginRuns(s, a, u, password, remember, issued);
    assert issued !in s.ledger.rows;
    RowsTakenOver(s.ledger.rows, u);
  }

  lemma RowsTakenOver(rows: RefreshTable, u: Name)
    ensures RevokeAll(rows, u).Keys == rows.Keys
    ensures forall r | r in rows :: RevokeAll(rows, u)[r] == rows[r].(revoked := rows[r].revoked || rows[r].user == u)
  {
  }

  lemma LoginRuns(s: State, a: Agent, u: Name, password: string, remember: bool, issued: Token)
      returns (steps: seq<Step>, t: State)
    requires s.lock == None && a in s.agents && s.agents[a] == Pc(SignIn(u, password, remember), Waiting)
    requires u in s.ledger.epochs && issued !in s.ledger.owner
    ensures Path(s, steps, t) && Through(s, t, a)
    ensures t.ledger.epochs == s.ledger.epochs[u := s.ledger.epochs[u] + 1]
    ensures t.ledger.minted
            == s.ledger.minted + {Mint(Access(u, s.ledger.epochs[u] + 1, s.now.Floor + JWT_EXPIRY), a)}
    ensures var revoked := RevokeAll(s.ledger.rows, u);
            t.ledger.rows
            == if remember then revoked[issued := Row(u, s.now.Floor + REFRESH_EXPIRY, false)] else revoked
    ensures t.ledger.latest == s.ledger.latest[u := a]
    ensures t.ledger.logins == s.ledger.logins[a := Session(u, if remember then [issued] else [])]
    ensures t.ledger.keys == TakenOver(s.ledger.keys, u, a, password)
  {
    var taking, taken := LoginTakesAccount(s, a, u, password, remember);
    steps, t := LoginMints(taken, a, u, password, remember, issued);
    PathsCompose(s, taking, taken, steps, t);
    steps := taking + steps;
    assert t.agents == s.agents - {a};
    var session := Session(u, if remember then [issued] else []);
    assert t.ledger.logins == s.ledger.logins[a := Session(u, [])][a := session] == s.ledger.logins[a := session];
  }

  lemma LoginTakesAccount(s: State, a: Agent, u: Name, password: string, remember: bool)
      returns (steps: seq<Step>, t: State)
    requires s.lock == None && a in s.agents && s.agents[a] == Pc(SignIn(u, password, remember), Waiting)
    requires u in s.ledger.epochs
    ensures Path(s, steps, t) && t.lock == Some(a) && t.now == s.now && t.seen == s.seen
    ensures t.agents == s.agents[a := Pc(SignIn(u, password, remember), Bumped)]
    ensures t.ledger == s.ledger.(
                        rows := RevokeAll(s.ledger.rows, u), epochs := s.ledger.epochs[u := s.ledger.epochs[u] + 1],
                        latest := s.ledger.latest[u := a], logins := s.ledger.logins[a := Session(u, [])],
                        keys := TakenOver(s.ledger.keys, u, a, password))
  {
    steps, t := Then(s, [], s, Acquire(a));
    steps, t := Then(s, steps, t, Act(a, RevokeSession));
    steps, t := Then(s, steps, t, Act(a, Bump));
  }

  lemma LoginMints(s: State, a: Agent, u: Name, password: string, remember: bool, issued: Token)
      returns (steps: seq<Step>, t: State)
    requires a in s.agents && s.agents[a] == Pc(SignIn(u, password, remember), Bumped) && s.lock == Some(a)
    requires u in s.ledger.epochs && issued !in s.ledger.owner
    requires a in s.ledger.logins && s.ledger.logins[a] == Session(u, [])
    ensures Path(s, steps, t) && Through(s, t, a)
    ensures t.ledger.epochs == s.ledger.epochs && t.ledger.keys == s.ledger.keys && t.ledger.latest == s.ledger.latest
    ensures t.ledger.logins == s.ledger.logins[a := Session(u, if remember then [issued] else [])]
    ensures t.ledger.minted == s.ledger.minted + {Mint(Access(u, s.ledger.epochs[u], s.now.Floor + JWT_EXPIRY), a)}
    ensures t.ledger.rows
            == if remember then s.ledger.rows[issued := Row(u, s.now.Floor + REFRESH_EXPIRY, false)] else s.ledger.rows
  {
    assert s.ledger.logins[a].tokens + [issued] == [issued];
    assert s.ledger.logins[a := Session(u, [])] == s.ledger.logins;
    steps, t := Then(s, [], s, Act(a, MintLogin));
    steps, t := Then(s, steps, t, Act(a, if remember then IssueFirst(issued) else SkipIssue));
    steps, t := Then(s, steps, t, Release(a));
  }

  /** A login that has all done, and not yet answered, has a refresh token just when it asked to be kept. */
  ghost predicate AsAsked(s: State) {
    forall a | a in s.agents && s.agents[a].job.SignIn? && s.agents[a].phase.Done? ::
      a in s.ledger.logins && (s.ledger.logins[a].tokens != [] <==> s.agents[a].job.remember)
  }

  lemma StepKeepsAsAsked(s: State, step: Step)
    requires Inv(s) && AsAsked(s) && Enabled(s, step)
    ensures AsAsked(After(s, step))
  {
    var t := After(s, step);
    forall a | a in t.agents && t.agents[a].job.SignIn? && t.agents[a].phase.Done?
      ensures a in t.ledger.logins && (t.ledger.logins[a].tokens != [] <==> t.agents[a].job.remember)
    {
      if step.Act? && step.agent == a {
        assert PhaseInv(s.ledger, a, s.agents[a]);
        assert step.action.IssueFirst? || step.action.SkipIssue?;
      }
    }
  }

  /** Whatever else goes on, no login ends with a refresh token it did not ask for, or without one it did. */
  lemma TokensAsAsked(z: State, steps: seq<Step>, t: State, a: Agent)
    requires Init(z) && Path(z, steps, t)
    requires a in t.agents && t.agents[a].job.SignIn? && t.agents[a].phase.Done?
    ensures a in t.ledger.logins && (t.ledger.logins[a].tokens != [] <==> t.agents[a].job.remember)
  {
    AsAskedRun(z, steps, t);
  }

  lemma {:induction false} AsAskedRun(s: State, steps: seq<Step>, t: State)
    requires Inv(s) && AsAsked(s) && Path(s, steps, t)
    ensures AsAsked(t)
    decreases |steps|
  {
    if steps == [] {
    } else {
      StepKeepsInv(s, steps[0]);
      StepKeepsAsAsked(s, steps[0]);
      AsAskedRun(After(s, steps[0]), steps[1..], t);
    }
  }

  // ── Refresh ──

  /**
   A refresh with an exchangeable token: that one is spent, the new one can be exchanged by the
   same account, an access token of the same login is accepted, the login's chain is one longer,
   and no other refresh token is worth more or less than before.
   */
  lemma UndisturbedRefresh(s: State, a: Agent, r: Token, issued: Token) returns (steps: seq<Step>, t: State)
    requires Inv(s) && s.lock == None && a in s.agents && s.agents[a] == Pc(Renew(r), Waiting)
    requires AcceptsRenewal(s.ledger, r, s.now) && issued !in s.ledger.owner
    ensures Path(s, steps, t) && Through(s, t, a)
    ensures t.ledger.epochs == s.ledger.epochs && t.ledger.keys == s.ledger.keys
    ensures issued in t.ledger.rows && AcceptsRenewal(t.ledger, issued, t.now)
    ensures t.ledger.rows[issued] == Row(s.ledger.rows[r].user, s.now.Floor + REFRESH_EXPIRY, false)
    ensures r in t.ledger.rows && t.ledger.rows[r].revoked
    ensures forall q | q != r && q != issued ::
              AcceptsRenewal(t.ledger, q, t.now) <==> AcceptsRenewal(s.ledger, q, s.now)
    ensures forall q | q != r && AcceptsRenewal(s.ledger, q, s.now) ::
              q in t.ledger.rows && t.ledger.rows[q] == s.ledger.rows[q]
    ensures r in s.ledger.owner && s.ledger.owner[r] in s.ledger.logins && s.ledger.rows[r].user in s.ledger.epochs
    ensures var l, u := s.ledger.owner[r], s.ledger.rows[r].user;
            && l in t.ledger.logins && t.ledger.logins[l].user == u
            && t.ledger.logins[l].tokens == s.ledger.logins[l].tokens + [issued]
            && issued in t.ledger.owner && t.ledger.owner[issued] == l
            && var token := Access(u, s.ledger.epochs[u], s.now.Floor + JWT_EXPIRY);
               t.ledger.minted == s.ledger.minted + {Mint(token, l)} && AcceptsAccess(t.ledger, token, t.now)
  {
    TokenHasALogin(s.ledger, r);
    var purged;
    steps, t, purged := RefreshRuns(s, a, r, issued, s.ledger.rows[r].user, s.ledger.owner[r]);
    RefreshedRows(s.ledger, purged, t.ledger, r, issued, s.ledger.rows[r].user, s.now);
  }

  lemma TokenHasALogin(d: Ledger, r: Token)
    requires LedgerInv(d) && Active(d.rows, r)
    ensures r in d.owner && d.owner[r] in d.logins && d.rows[r].user in d.epochs
    ensures d.logins[d.owner[r]].user == d.rows[r].user && d.rows.Keys <= d.owner.Keys
  {
  }

  lemma RefreshRuns(s: State, a: Agent, r: Token, issued: Token, u: Name, l: Agent)
      returns (steps: seq<Step>, t: State, purged: RefreshTable)
    requires s.lock == None && a in s.agents && s.agents[a] == Pc(Renew(r), Waiting)
    requires AcceptsRenewal(s.ledger, r, s.now) && issued !in s.ledger.owner && s.ledger.rows[r].user == u
    requires r in s.ledger.owner && s.ledger.owner[r] == l && l in s.ledger.logins && u in s.ledger.epochs
    ensures Path(s, steps, t) && Through(s, t, a)
    ensures t.ledger.epochs == s.ledger.epochs && t.ledger.keys == s.ledger.keys
    ensures forall q ::
              q in purged
              <==> q in s.ledger.rows && !s.ledger.rows[q].revoked && s.ledger.rows[q].expiresAt >= s.now.Floor
    ensures forall q | q in purged :: purged[q] == s.ledger.rows[q]
    ensures var spent := purged[r := purged[r].(revoked := true)];
            t.ledger.rows == spent[issued := Row(u, s.now.Floor + REFRESH_EXPIRY, false)]
    ensures t.ledger.owner == s.ledger.owner[issued := l]
    ensures t.ledger.logins
            == s.ledger.logins[l := s.ledger.logins[l].(tokens := s.ledger.logins[l].tokens + [issued])]
    ensures t.ledger.minted == s.ledger.minted + {Mint(Access(u, s.ledger.epochs[u], s.now.Floor + JWT_EXPIRY), l)}
  {
    var selecting, selected := RefreshSelects(s, a, r);
    purged := selected.ledger.rows;
    steps, t := RefreshSwaps(selected, a, r, issued, u, l);
    PathsCompose(s, selecting, selected, steps, t);
    steps := selecting + steps;
  }

  /** What an exchange on top of a purge does to the worth of the refresh tokens. */
  lemma RefreshedRows(
    d: Ledger, purged: RefreshTable, d': Ledger, r: Token, issued: Token, u: Name, now: real)
    requires AcceptsRenewal(d, r, now) && issued !in d.rows
    requires forall q :: q in purged <==> q in d.rows && !d.rows[q].revoked && d.rows[q].expiresAt >= now.Floor
    requires forall q | q in purged :: purged[q] == d.rows[q]
    requires d'.rows == purged[r := purged[r].(revoked := true)][issued := Row(u, now.Floor + REFRESH_EXPIRY, false)]
    ensures AcceptsRenewal(d', issued, now) && d'.rows[issued] == Row(u, now.Floor + REFRESH_EXPIRY, false)
    ensures r in d'.rows && d'.rows[r].revoked
    ensures forall q | q != r && q != issued :: AcceptsRenewal(d', q, now) <==> AcceptsRenewal(d, q, now)
    ensures forall q | q != r && AcceptsRenewal(d, q, now) :: q in d'.rows && d'.rows[q] == d.rows[q]
  {
  }

  /** Up to the look at the token; expired and revoked rows are gone. */
  lemma RefreshSelects(s: State, a: Agent, r: Token) returns (steps: seq<Step>, t: State)
    requires s.lock == None && a in s.agents && s.agents[a] == Pc(Renew(r), Waiting)
    ensures Path(s, steps, t) && t.lock == Some(a) && t.now == s.now && t.seen == s.seen
    ensures t.ledger == s.ledger.(rows := t.ledger.rows)
    ensures forall q ::
              q in t.ledger.rows
              <==> q in s.ledger.rows && !s.ledger.rows[q].revoked && s.ledger.rows[q].expiresAt >= s.now.Floor
    ensures forall q | q in t.ledger.rows :: t.ledger.rows[q] == s.ledger.rows[q]
    ensures var phase := if AcceptsRenewal(s.ledger, r, s.now) then Selected(s.ledger.rows[r].user) else Done;
            t.agents == s.agents[a := Pc(Renew(r), phase)]
  {
    steps, t := Then(s, [], s, Acquire(a));
    steps, t := Then(s, steps, t, Act(a, PurgeInside));
    steps, t := Then(s, steps, t, Act(a, Select));
  }

  lemma RefreshSwaps(s: State, a: Agent, r: Token, issued: Token, u: Name, l: Agent)
      returns (steps: seq<Step>, t: State)
    requires a in s.agents && s.agents[a] == Pc(Renew(r), Selected(u)) && s.lock == Some(a)
    requires Active(s.ledger.rows, r) && issued !in s.ledger.owner && issued != r && u in s.ledger.epochs
    requires r in s.ledger.owner && s.ledger.owner[r] == l && l in s.ledger.logins
    ensures Path(s, steps, t) && Through(s, t, a)
    ensures t.ledger.epochs == s.ledger.epochs && t.ledger.keys == s.ledger.keys
    ensures var spent := s.ledger.rows[r := s.ledger.rows[r].(revoked := true)];
            t.ledger.rows == spent[issued := Row(u, s.now.Floor + REFRESH_EXPIRY, false)]
    ensures t.ledger.owner == s.ledger.owner[issued := l]
    ensures t.ledger.logins
            == s.ledger.logins[l := s.ledger.logins[l].(tokens := s.ledger.logins[l].tokens + [issued])]
    ensures t.ledger.minted == s.ledger.minted + {Mint(Access(u, s.ledger.epochs[u], s.now.Floor + JWT_EXPIRY), l)}
  {
    steps, t := Then(s, [], s, Act(a, Swap(issued)));
    steps, t := Then(s, steps, t, Act(a, MintRenewed));
    steps, t := Then(s, steps, t, Release(a));
  }

  /** A refresh with any other token answers nothing and changes nothing that is worth anything. */
  lemma RefusedRefresh(s: State, a: Agent, r: Token) returns (steps: seq<Step>, t: State)
    requires s.lock == None && a in s.agents && s.agents[a] == Pc(Renew(r), Waiting)
    requires !AcceptsRenewal(s.ledger, r, s.now)
    ensures Path(s, steps, t) && Through(s, t, a)
    ensures t.ledger == s.ledger.(rows := t.ledger.rows) && SameAcceptance(s, t)
  {
    steps, t := RefreshSelects(s, a, r);
    steps, t := Then(s, steps, t, Release(a));
  }

  /** Nor is a token exchanged that expires while its request is under way. */
  lemma LateRefresh(s: State, a: Agent, r: Token, to: real) returns (t: State)
    requires s.lock == None && a in s.agents && s.agents[a] == Pc(Renew(r), Waiting) && s.now <= to
    requires !AcceptsRenewal(s.ledger, r, to)
    ensures Path(s, [Acquire(a), Act(a, PurgeInside), Tick(to), Act(a, Select), Release(a)], t)
    ensures t.lock == None && t.agents == s.agents - {a} && t.now == to
    ensures t.ledger == s.ledger.(rows := t.ledger.rows)
    ensures forall q | q in t.ledger.rows :: q in s.ledger.rows && t.ledger.rows[q] == s.ledger.rows[q]
  {
    var steps;
    steps, t := Then(s, [], s, Acquire(a));
    steps, t := Then(s, steps, t, Act(a, PurgeInside));
    steps, t := Then(s, steps, t, Tick(to));
    steps, t := Then(s, steps, t, Act(a, Select));
    steps, t := Then(s, steps, t, Release(a));
    assert steps == [Acquire(a), Act(a, PurgeInside), Tick(to), Act(a, Select), Release(a)];
  }

  /** Time alone ends credentials: those whose expiry it passes, and no others. */
  lemma TimeEndsCredentials(s: State, to: real)
    requires Enabled(s, Tick(to))
    ensures var t := After(s, Tick(to));
            && (forall token :: AcceptsAccess(t.ledger, token, t.now)
                                <==> AcceptsAccess(s.ledger, token, s.now) && to <= token.exp as real)
            && (forall r :: AcceptsRenewal(t.ledger, r, t.now)
                            <==> AcceptsRenewal(s.ledger, r, s.now) && to.Floor <= s.ledger.rows[r].expiresAt)
  {
  }

  /** The purge that every login and refresh starts with, and that others may do at any time, is not to be noticed. */
  lemma PurgeGoesUnnoticed(s: State)
    ensures var t := After(s, PurgeOutside);
            && t == s.(ledger := s.ledger.(rows := t.ledger.rows)) && SameAcceptance(s, t)
            && (forall r | r in t.ledger.rows :: !t.ledger.rows[r].revoked && t.ledger.rows[r].expiresAt >= s.now.Floor)
            && (forall r | AcceptsRenewal(s.ledger, r, s.now) ::
                  r in t.ledger.rows && t.ledger.rows[r] == s.ledger.rows[r])
  {
  }

  // ── Logout ──

  /** Whom a logout identifies: by an unrevoked refresh token, expired or not, or else by an accepted access token. */
  function NamedBy(s: State, presented: Option<Token>, bearer: Option<Access>): Option<Name> {
    if presented.Some? && presented.value in s.ledger.rows && !s.ledger.rows[presented.value].revoked then
      Some(s.ledger.rows[presented.value].user)
    else if bearer.Some? && AcceptsAccess(s.ledger, bearer.value, s.now) then Some(bearer.value.user)
    else None
  }

  /** The identified account is one epoch further; the refresh token presented is revoked; nothing else changes. */
  lemma UndisturbedLogout(s: State, a: Agent, presented: Option<Token>, bearer: Option<Access>)
      returns (steps: seq<Step>, t: State)
    requires Inv(s) && s.lock == None && a in s.agents && s.agents[a] == Pc(SignOut(presented, bearer), Waiting)
    ensures Path(s, steps, t) && Through(s, t, a) && t.ledger.epochs.Keys == s.ledger.epochs.Keys
    ensures forall u | u in s.ledger.epochs ::
              t.ledger.epochs[u] == s.ledger.epochs[u] + if NamedBy(s, presented, bearer) == Some(u) then 1 else 0
    ensures t.ledger.rows.Keys == s.ledger.rows.Keys
    ensures forall r | r in s.ledger.rows && presented != Some(r) :: t.ledger.rows[r] == s.ledger.rows[r]
    ensures presented.Some? && presented.value in s.ledger.rows ==> t.ledger.rows[presented.value].revoked
    ensures t.ledger.minted == s.ledger.minted && t.ledger.keys == s.ledger.keys
  {
    var naming, named := LogoutNames(s, a, presented, bearer);
    if named.agents[a].phase.Named? {
      steps, t := Then(s, naming, named, Act(a, Bump));
      steps, t := Then(s, steps, t, Release(a));
    } else {
      steps, t := Then(s, naming, named, Release(a));
    }
  }

  lemma LogoutNames(s: State, a: Agent, presented: Option<Token>, bearer: Option<Access>)
      returns (steps: seq<Step>, t: State)
    requires s.lock == None && a in s.agents && s.agents[a] == Pc(SignOut(presented, bearer), Waiting)
    ensures Path(s, steps, t) && t.lock == Some(a) && t.now == s.now && t.seen == s.seen
    ensures t.ledger == s.ledger.(rows := t.ledger.rows) && t.ledger.rows.Keys == s.ledger.rows.Keys
    ensures forall r | r in s.ledger.rows && presented != Some(r) :: t.ledger.rows[r] == s.ledger.rows[r]
    ensures presented.Some? && presented.value in s.ledger.rows ==> t.ledger.rows[presented.value].revoked
    ensures var who := NamedBy(s, presented, bearer);
            t.agents == s.agents[a := Pc(SignOut(presented, bearer), if who.Some? then Named(who.value) else Done)]
  {
    steps, t := Then(s, [], s, Acquire(a));
    steps, t := Then(s, steps, t, Act(a, RevokePresented));
    if t.agents[a].phase.Unnamed? {
      steps, t := Then(s, steps, t, Act(a, Identify));
    }
  }

  // ── Password change ──

  /** The new password is on file, the account is one epoch further without a refresh token, nobody else is touched. */
  lemma UndisturbedChange(s: State, a: Agent, u: Name, next: string) returns (steps: seq<Step>, t: State)
    requires a !in s.seen && a !in s.agents && s.lock == None && u in s.ledger.epochs && u in s.ledger.keys.passwords
    ensures Path(s, steps, t) && t.agents == s.agents && t.lock == None && t.now == s.now
    ensures t.ledger.epochs == s.ledger.epochs[u := s.ledger.epochs[u] + 1]
    ensures t.ledger.rows.Keys == s.ledger.rows.Keys && OthersKeepRows(s, t, u)
    ensures forall r | r in s.ledger.rows && s.ledger.rows[r].user == u :: t.ledger.rows[r].revoked
    ensures t.ledger.minted == s.ledger.minted && t.ledger.owner == s.ledger.owner
    ensures t.ledger.keys.passwords == s.ledger.keys.passwords[u := next]
    ensures t.ledger.keys.verified == s.ledger.keys.verified && t.ledger.keys.found == s.ledger.keys.found
    ensures t.ledger.keys.dirty == s.ledger.keys.dirty - {u} && t.ledger.keys.broken == s.ledger.keys.broken - {u}
  {
    var job := NewPassword(u, s.ledger.keys.passwords[u], next);
    var asking, asked := Then(s, [], s, Ask(a, job));
    var writing, written := Then(s, asking, asked, Write(a));
    assert written.ledger == s.ledger.(keys := Written(s.ledger.keys, u, next));
    steps, t := ChangeBumps(written, a, job);
    PathsCompose(s, writing, written, steps, t);
    steps := writing + steps;
    assert t.agents == s.agents;
  }

  lemma ChangeBumps(s: State, a: Agent, job: Job) returns (steps: seq<Step>, t: State)
    requires a in s.agents && s.agents[a] == Pc(job, Waiting) && job.NewPassword? && s.lock == None
    requires job.user in s.ledger.epochs
    ensures Path(s, steps, t) && t.agents == s.agents - {a} && t.lock == None && t.now == s.now
    ensures t.ledger == s.ledger.(
                        rows := RevokeAll(s.ledger.rows, job.user), keys := Settled(s.ledger.keys, job.user),
                        epochs := s.ledger.epochs[job.user := s.ledger.epochs[job.user] + 1])
  {
    steps, t := Then(s, [], s, Acquire(a));
    steps, t := Then(s, steps, t, Act(a, RevokeSession));
    steps, t := Then(s, steps, t, Act(a, Bump));
    steps, t := Then(s, steps, t, Release(a));
  }
}
