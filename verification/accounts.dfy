/**
 The router's account tables and the statement groups that change them
 (router/auth.py, and the credential endpoints of router/main.py run alone).

 A refresh token stands for its own hash, and an access token for the claims the
 signature protects. Table contents are values, so that the concurrent protocol of
 module Sessions is built from the very functions the methods below are proved against.
 */
module Accounts {
  import opened Options

  type Name = string
  type Token = nat

  // Seconds: the defaults of the three expiry settings and of the login limiter.
  const JWT_EXPIRY := 600
  const REFRESH_EXPIRY := 60 * 60 * 24 * 30
  const LOCKOUT_THRESHOLD := 10
  const LOCKOUT_SECONDS := 1800.0

  datatype Access = Access(user: Name, epoch: nat, exp: int)

  datatype User = User(password: string, changed: bool, epoch: nat, failed: nat, lockedUntil: real)

  datatype Row = Row(user: Name, expiresAt: int, revoked: bool)

  type RefreshTable = map<Token, Row>

  datatype Login =
    | Granted(token: Access, mustChange: bool, refresh: Option<Token>)
    | Rejected
    | LockedOut(seconds: int)

  // ── Table functions ──

  function RevokeAll(rows: RefreshTable, u: Name): RefreshTable {
    map t | t in rows :: if rows[t].user == u then rows[t].(revoked := true) else rows[t]
  }

  function RevokeOne(rows: RefreshTable, t: Token): RefreshTable {
    if t in rows then rows[t := rows[t].(revoked := true)] else rows
  }

  /** What survives the lazy deletion of expired and revoked rows. */
  function Purge(rows: RefreshTable, now: int): RefreshTable {
    map t | t in rows && rows[t].expiresAt >= now && !rows[t].revoked :: rows[t]
  }

  function Issue(rows: RefreshTable, t: Token, u: Name, now: int): RefreshTable {
    rows[t := Row(u, now + REFRESH_EXPIRY, false)]
  }

  predicate Active(rows: RefreshTable, t: Token) {
    t in rows && !rows[t].revoked
  }

  /** The unrevoked refresh tokens of one account. */
  function ActiveOf(rows: RefreshTable, u: Name): set<Token> {
    set t | t in rows && !rows[t].revoked && rows[t].user == u
  }

  // ── Login limiter ──

  /** Whole seconds left of a lockout, rounded up past the boundary; 0 when there is none. */
  function Lockout(user: User, now: real): (seconds: int)
    ensures seconds > 0 <==> now < user.lockedUntil
    ensures seconds > 0 ==> (seconds - 1) as real <= user.lockedUntil - now < seconds as real
  {
    var remaining := user.lockedUntil - now;
    if remaining > 0.0 then remaining.Floor + 1 else 0
  }

  function Failed(user: User, now: real): User {
    if user.failed + 1 >= LOCKOUT_THRESHOLD
    then user.(failed := 0, lockedUntil := now + LOCKOUT_SECONDS)
    else user.(failed := user.failed + 1)
  }

  // ── The database ──

  class Database {
    var users: map<Name, User>
    var refresh: RefreshTable

    /** `require_auth`: signature aside, an unexpired token of the account's current epoch. */
    predicate Accepts(token: Access, now: real)
      reads this
    {
      token.exp as real >= now && token.user in users && users[token.user].epoch == token.epoch
    }

    /** `_record_failure`: the lockout length when this failure reached the threshold. */
    method RecordFailure(u: Name, now: real) returns (lockedFor: int)
      modifies this`users
      ensures u !in old(users) ==> users == old(users) && lockedFor == 0
      ensures u in old(users) ==> users == old(users)[u := Failed(old(users)[u], now)]
      ensures u in old(users) && old(users)[u].failed < 9 ==>
        users[u] == old(users)[u].(failed := old(users)[u].failed + 1) && lockedFor == 0
      ensures u in old(users) && old(users)[u].failed >= 9 ==>
        users[u] == old(users)[u].(failed := 0, lockedUntil := now + 1800.0) && lockedFor == 1800
      // The lockout lasts as long as was answered, and a second question rounds it up.
      ensures lockedFor > 0 ==> Lockout(users[u], now) == lockedFor + 1
    {
      lockedFor := 0;
      if u in users {
        var count := users[u].failed + 1;
        if count >= LOCKOUT_THRESHOLD {
          users := users[u := users[u].(failed := 0, lockedUntil := now + LOCKOUT_SECONDS)];
          lockedFor := 1800;
        } else {
          users := users[u := users[u].(failed := count)];
        }
      }
    }

    method BumpEpoch(u: Name)
      modifies this`users
      ensures users.Keys == old(users).Keys
      ensures u in users ==> users == old(users)[u := old(users)[u].(epoch := old(users)[u].epoch + 1)]
      ensures u !in users ==> users == old(users)
    {
      if u in users {
        users := users[u := users[u].(epoch := users[u].epoch + 1)];
      }
    }

    /** `authenticate`, uninterrupted. A success replaces the account's existing session. */
    method Authenticate(u: Name, password: string, remember: bool, issued: Token, now: real)
        returns (login: Login)
      requires issued !in refresh
      modifies this
      ensures login.Granted? <==>
        u in old(users) && Lockout(old(users)[u], now) == 0 && old(users)[u].password == password
      ensures login.LockedOut? <==>
        && u in old(users)
        && (Lockout(old(users)[u], now) > 0
            || (old(users)[u].password != password && old(users)[u].failed + 1 >= LOCKOUT_THRESHOLD))
      ensures login.LockedOut? ==>
        login.seconds == if Lockout(old(users)[u], now) > 0 then Lockout(old(users)[u], now) else 1800
      // Nobody else is touched, and a refused login only counts a checked failure.
      ensures users.Keys == old(users).Keys && forall v | v in users && v != u :: users[v] == old(users)[v]
      ensures u in users && !login.Granted? ==>
        users[u] == if Lockout(old(users)[u], now) > 0 then old(users)[u]
                    else if old(users)[u].failed < 9 then old(users)[u].(failed := old(users)[u].failed + 1)
                    else old(users)[u].(failed := 0, lockedUntil := now + 1800.0)
      ensures !login.Granted? ==> refresh == Purge(old(refresh), now.Floor)
      // A granted login leaves exactly one session: its own.
      ensures login.Granted? ==>
        && users[u] == old(users)[u].(epoch := old(users)[u].epoch + 1, failed := 0, lockedUntil := 0.0)
        && login.mustChange == !users[u].changed
        && login.token == Access(u, users[u].epoch, now.Floor + JWT_EXPIRY)
        && login.refresh == (if remember then Some(issued) else None)
        && ActiveOf(refresh, u) == (if remember then {issued} else {})
        && (remember ==> issued in refresh && refresh[issued] == Row(u, now.Floor + REFRESH_EXPIRY, false))
        && (forall v | v != u :: ActiveOf(refresh, v) == ActiveOf(Purge(old(refresh), now.Floor), v))
        && Accepts(login.token, now)
        && (forall earlier: Access | earlier.user == u && earlier.epoch <= old(users)[u].epoch
              :: !Accepts(earlier, now))
    {
      refresh := Purge(refresh, now.Floor);
      if u in users && Lockout(users[u], now) > 0 {
        return LockedOut(Lockout(users[u], now));
      }
      if u !in users || users[u].password != password {
        var lockedFor := RecordFailure(u, now);
        return if lockedFor > 0 then LockedOut(lockedFor) else Rejected;
      }
      var mustChange := !users[u].changed;
      users := users[u := users[u].(failed := 0, lockedUntil := 0.0)];
      var token := ReplaceSession(u, remember, issued, now);
      login := Granted(token, mustChange, if remember then Some(issued) else None);
    }

    /** What `authenticate` does under SESSION_LOCK: the account's sessions end, and one begins. */
    method ReplaceSession(u: Name, remember: bool, issued: Token, now: real) returns (token: Access)
      requires u in users && issued !in refresh
      modifies this
      ensures users == old(users)[u := old(users)[u].(epoch := old(users)[u].epoch + 1)]
      ensures token == Access(u, users[u].epoch, now.Floor + JWT_EXPIRY) && Accepts(token, now)
      ensures forall earlier: Access | earlier.user == u && earlier.epoch <= old(users)[u].epoch ::
                !Accepts(earlier, now)
      ensures ActiveOf(refresh, u) == if remember then {issued} else {}
      ensures remember ==> issued in refresh && refresh[issued] == Row(u, now.Floor + REFRESH_EXPIRY, false)
      ensures forall v | v != u :: ActiveOf(refresh, v) == ActiveOf(old(refresh), v)
    {
      refresh := RevokeAll(refresh, u);
      BumpEpoch(u);
      token := Access(u, users[u].epoch, now.Floor + JWT_EXPIRY);
      if remember {
        refresh := Issue(refresh, issued, u, now.Floor);
      }
    }

    /** `rotate_refresh_token` and the minting around it (`refresh`), uninterrupted. */
    method Refresh(t: Token, issued: Token, now: real) returns (pair: Option<(Access, Token)>)
      requires issued !in refresh && issued != t
      modifies this`refresh
      ensures pair.Some? <==> Active(old(refresh), t) && old(refresh)[t].expiresAt >= now.Floor
      ensures pair.None? ==> refresh == Purge(old(refresh), now.Floor)
      // One token out, one token in, for the same account and no other.
      ensures pair.Some? ==>
        var u := old(refresh)[t].user;
        && pair.value.1 == issued
        && issued in refresh && refresh[issued] == Row(u, now.Floor + REFRESH_EXPIRY, false)
        && pair.value.0 == Access(u, if u in users then users[u].epoch else 0, now.Floor + JWT_EXPIRY)
        && !Active(refresh, t)
        && ActiveOf(refresh, u) == ActiveOf(Purge(old(refresh), now.Floor), u) - {t} + {issued}
        && (forall v | v != u :: ActiveOf(refresh, v) == ActiveOf(Purge(old(refresh), now.Floor), v))
    {
      refresh := Purge(refresh, now.Floor);
      if t !in refresh || refresh[t].revoked || refresh[t].expiresAt < now.Floor {
        return None;
      }
      var u := refresh[t].user;
      refresh := Issue(RevokeOne(refresh, t), issued, u, now.Floor);
      var epoch := if u in users then users[u].epoch else 0;
      pair := Some((Access(u, epoch, now.Floor + JWT_EXPIRY), issued));
    }

    /** `logout`: the account comes from an active refresh token, else from a current access token. */
    method Logout(t: Option<Token>, bearer: Option<Access>, now: real) returns (who: Option<Name>)
      modifies this
      ensures t.Some? && Active(old(refresh), t.value) ==> who == Some(old(refresh)[t.value].user)
      ensures !(t.Some? && Active(old(refresh), t.value)) ==>
        who == if bearer.Some? && old(Accepts(bearer.value, now)) then Some(bearer.value.user) else None
      // The epoch moves exactly for the identified account.
      ensures users.Keys == old(users).Keys
      ensures forall v | v in users ::
        users[v] == (if who == Some(v) then old(users)[v].(epoch := old(users)[v].epoch + 1) else old(users)[v])
      ensures refresh == if t.Some? then RevokeOne(old(refresh), t.value) else old(refresh)
    {
      who := None;
      if t.Some? {
        if Active(refresh, t.value) {
          who := Some(refresh[t.value].user);
        }
        refresh := RevokeOne(refresh, t.value);
      }
      if who.None? && bearer.Some? && Accepts(bearer.value, now) {
        who := Some(bearer.value.user);
      }
      if who.Some? {
        BumpEpoch(who.value);
      }
    }

    /** `change_password`, uninterrupted. */
    method ChangePassword(u: Name, current: string, next: string) returns (ok: bool)
      modifies this
      ensures ok <==> u in old(users) && old(users)[u].password == current
      ensures !ok ==> users == old(users) && refresh == old(refresh)
      ensures ok ==>
        && users == old(users)[u := old(users)[u].(password := next, changed := true,
                                                   epoch := old(users)[u].epoch + 1)]
        && ActiveOf(refresh, u) == {}
        && (forall v | v != u :: ActiveOf(refresh, v) == ActiveOf(old(refresh), v))
        && (forall token: Access, now: real | token.user == u && token.epoch <= old(users)[u].epoch
              :: !Accepts(token, now))
    {
      if u !in users || users[u].password != current {
        return false;
      }
      users := users[u := users[u].(password := next, changed := true)];
      refresh := RevokeAll(refresh, u);
      BumpEpoch(u);
      ok := true;
    }
  }
}
