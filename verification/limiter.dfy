/**
 What the login limiter bounds (router/auth.py, `_check_lockout` and `_record_failure`):
 any sequential run of attempts against one account without a success.
 */
module Limiter {
  import opened Accounts

  /** One login attempt: when it came, and whether its password was the right one. */
  datatype Attempt = Attempt(at: real, correct: bool)

  /** A correct password outside a lockout: what ends a losing streak. */
  predicate Succeeds(user: User, a: Attempt) {
    a.correct && Lockout(user, a.at) == 0
  }

  /** A password that was checked and was wrong. An attempt inside a lockout is not checked at all. */
  predicate Fails(user: User, a: Attempt) {
    !a.correct && Lockout(user, a.at) == 0
  }

  function Next(user: User, a: Attempt): User {
    if Fails(user, a) then Failed(user, a.at) else user
  }

  /** Attempts in time order, none of which succeeds. */
  predicate LosingRun(user: User, since: real, run: seq<Attempt>)
    decreases |run|
  {
    run == [] || (since <= run[0].at && !Succeeds(user, run[0]) && LosingRun(Next(user, run[0]), run[0].at, run[1..]))
  }

  /** The times at which a password was checked and found wrong. */
  function FailureTimes(user: User, run: seq<Attempt>): seq<real>
    decreases |run|
  {
    if run == [] then []
    else (if Fails(user, run[0]) then [run[0].at] else []) + FailureTimes(Next(user, run[0]), run[1..])
  }

  function Final(user: User, run: seq<Attempt>): User
    decreases |run|
  {
    if run == [] then user else Final(Next(user, run[0]), run[1..])
  }

  /** Failures come in order, and each one that fills the counter is followed by a full lockout. */
  ghost predicate Spaced(times: seq<real>, count: nat) {
    && (forall i, j | 0 <= i <= j < |times| :: times[i] <= times[j])
    && (forall i, j | 0 <= i < j < |times| && (count + i + 1) % LOCKOUT_THRESHOLD == 0 ::
          times[i] + LOCKOUT_SECONDS <= times[j])
  }

  lemma NextResidue(count: nat, next: nat, i: nat)
    requires next == (if count == 9 then 0 else count + 1) && i > 0 && (count + i + 1) % 10 == 0
    ensures (next + (i - 1) + 1) % 10 == 0
  {
    if count == 9 {
      var tens := (count + i + 1) / 10;
      assert next + (i - 1) + 1 == 10 * (tens - 1);
    } else {
      assert next + (i - 1) + 1 == count + i + 1;
    }
  }

  lemma SpacedCons(time: real, rest: seq<real>, count: nat, next: nat)
    requires count < LOCKOUT_THRESHOLD && next == (if count + 1 >= LOCKOUT_THRESHOLD then 0 else count + 1)
    requires Spaced(rest, next) && forall t | t in rest :: time <= t
    requires next == 0 ==> forall t | t in rest :: time + LOCKOUT_SECONDS <= t
    ensures Spaced([time] + rest, count)
  {
    var times := [time] + rest;
    forall i, j | 0 <= i < j < |times| && (count + i + 1) % LOCKOUT_THRESHOLD == 0
      ensures times[i] + LOCKOUT_SECONDS <= times[j]
    {
      assert times[j] == rest[j - 1] && rest[j - 1] in rest;
      if i == 0 {
        assert next == 0;
      } else {
        assert times[i] == rest[i - 1];
        NextResidue(count, next, i);
      }
    }
    forall i, j | 0 <= i <= j < |times| ensures times[i] <= times[j] {
      if j > 0 {
        assert times[j] == rest[j - 1] && rest[j - 1] in rest;
        assert i > 0 ==> times[i] == rest[i - 1];
      }
    }
  }

  lemma {:induction false} RunIsSpaced(user: User, since: real, run: seq<Attempt>)
    requires user.failed < LOCKOUT_THRESHOLD && LosingRun(user, since, run)
    ensures Final(user, run).failed < LOCKOUT_THRESHOLD
    ensures Spaced(FailureTimes(user, run), user.failed)
    ensures forall t | t in FailureTimes(user, run) :: since <= t && user.lockedUntil <= t
    decreases |run|
  {
    if run == [] {
    } else {
      var next := Next(user, run[0]);
      RunIsSpaced(next, run[0].at, run[1..]);
      if Fails(user, run[0]) {
        SpacedCons(run[0].at, FailureTimes(next, run[1..]), user.failed, next.failed);
      } else {
        assert FailureTimes(user, run) == FailureTimes(next, run[1..]);
      }
    }
  }

  /**
   Checked failures are counted one by one, and the one that makes ten starts a lockout of half an
   hour from its own time and clears the count; unchecked attempts change nothing.
   */
  lemma {:induction false} FailuresAreCounted(user: User, since: real, run: seq<Attempt>)
    requires user.failed < 10 && LosingRun(user, since, run)
    requires |FailureTimes(user, run)| <= 10 - user.failed
    ensures var times := FailureTimes(user, run);
            Final(user, run) == if |times| < 10 - user.failed then user.(failed := user.failed + |times|)
                                else user.(failed := 0, lockedUntil := times[|times| - 1] + 1800.0)
    decreases |run|
  {
    if run == [] {
    } else if !Fails(user, run[0]) {
      FailuresAreCounted(user, run[0].at, run[1..]);
      assert FailureTimes(user, run) == FailureTimes(user, run[1..]);
    } else {
      var next := Next(user, run[0]);
      var rest := FailureTimes(next, run[1..]);
      assert FailureTimes(user, run) == [run[0].at] + rest;
      if user.failed < 9 {
        FailuresAreCounted(next, run[0].at, run[1..]);
        assert rest != [] ==> ([run[0].at] + rest)[|rest|] == rest[|rest| - 1];
      } else {
        NothingChecked(next, run[0].at, run[1..]);
      }
    }
  }

  lemma {:induction false} NothingChecked(user: User, since: real, run: seq<Attempt>)
    requires LosingRun(user, since, run) && FailureTimes(user, run) == []
    ensures Final(user, run) == user
    decreases |run|
  {
    if run == [] {
    } else {
      assert !Fails(user, run[0]);
      NothingChecked(user, run[0].at, run[1..]);
    }
  }

  /** Ten failures in a row span a lockout, hence 10k of them span k lockouts. */
  lemma {:induction false} TenPerLockout(times: seq<real>, count: nat, i: nat, k: nat)
    requires Spaced(times, count) && i + 10 * k < |times|
    ensures times[i] + LOCKOUT_SECONDS * k as real <= times[i + 10 * k]
    decreases k
  {
    if k == 0 {
    } else {
      TenPerLockout(times, count, i, k - 1);
      TenSpanOne(times, count, i + 10 * (k - 1));
      assert LOCKOUT_SECONDS * k as real == LOCKOUT_SECONDS * (k - 1) as real + LOCKOUT_SECONDS;
    }
  }

  lemma TenSpanOne(times: seq<real>, count: nat, b: nat)
    requires Spaced(times, count) && b + 10 < |times|
    ensures times[b] + LOCKOUT_SECONDS <= times[b + 10]
  {
    var full := b + 9 - (count + b) % 10;
    assert (count + full + 1) % LOCKOUT_THRESHOLD == 0;
    assert times[b] <= times[full] && times[full] + LOCKOUT_SECONDS <= times[full + 1];
    assert times[full + 1] <= times[b + 10];
  }

  function InWindow(times: seq<real>, from: real, length: real): set<nat> {
    set i: nat | i < |times| && from <= times[i] < from + length
  }

  lemma {:induction false} RangeCardinality(s: set<nat>, lo: nat, n: nat)
    requires forall i | i in s :: lo <= i < lo + n
    ensures |s| <= n
    decreases n
  {
    if n == 0 {
      assert s == {};
    } else {
      RangeCardinality(s - {lo + n - 1}, lo, n - 1);
      assert |s| <= |s - {lo + n - 1}| + 1;
    }
  }

  lemma {:induction false} Least(s: set<nat>, x: nat) returns (m: nat)
    requires x in s
    ensures m in s && forall i | i in s :: m <= i
    decreases x
  {
    if i :| i in s && i < x {
      m := Least(s, i);
    } else {
      m := x;
    }
  }

  /**
   However the attempts are timed, and wherever the window starts: a window of k lockout
   lengths holds at most 10k checked failures, and the stored counter stays below the threshold.
   */
  lemma WindowBound(user: User, since: real, run: seq<Attempt>, from: real, k: nat)
    requires user.failed < LOCKOUT_THRESHOLD && LosingRun(user, since, run)
    ensures |InWindow(FailureTimes(user, run), from, LOCKOUT_SECONDS * k as real)| <= 10 * k
    ensures Final(user, run).failed < LOCKOUT_THRESHOLD
  {
    RunIsSpaced(user, since, run);
    var times := FailureTimes(user, run);
    var hits := InWindow(times, from, LOCKOUT_SECONDS * k as real);
    if hits != {} {
      var some :| some in hits;
      var first := Least(hits, some);
      forall i | i in hits ensures first <= i < first + 10 * k {
        if i >= first + 10 * k {
          TenPerLockout(times, user.failed, first, k);
          assert false;
        }
      }
      RangeCardinality(hits, first, 10 * k);
    }
  }
}
