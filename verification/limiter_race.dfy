/**
 The login limiter under concurrent attempts (router/auth.py, `authenticate`): an attempt passes the
 lockout check, verifies its password for a while, then reads the counter and writes it back
 in two statements. Wrong passwords for one account only.
 */
module LimiterRace {
  import opened Options
  import opened Accounts
  import Limiter

  /** An attempt in flight: when it passed the check, after how many recorded failures, and the count it read. */
  datatype Try = Try(passed: real, since: nat, count: Option<nat>)

  /** A recorded failure; `locks` if it set a lockout. */
  datatype Failure = Failure(id: nat, at: real, passed: real, since: nat, locks: bool)

  /** `failures` in the order recorded, and who was in flight right after each, are history. */
  datatype State = State(
    user: User, clock: real, born: nat, tries: map<nat, Try>, failures: seq<Failure>, flight: seq<set<nat>>)

  datatype Step =
    | Pass(time: real)
    | Check            // one more attempt that is not locked out
    | Look(id: nat)    // SELECT failed_count
    | Write(id: nat)   // UPDATE with what was read plus one, or the lockout
    | Die(id: nat)

  predicate Enabled(s: State, step: Step) {
    match step
    case Pass(time) => time > 0.0
    case Check => Lockout(s.user, s.clock) == 0
    case Look(id) => id in s.tries && s.tries[id].count.None?
    case Write(id) => id in s.tries && s.tries[id].count.Some?
    case Die(id) => id in s.tries
  }

  function Written(s: State, id: nat): State
    requires id in s.tries && s.tries[id].count.Some?
  {
    var entry, rest := s.tries[id], s.tries - {id};
    var counted := Failed(s.user.(failed := entry.count.value), s.clock);
    var locks := entry.count.value + 1 >= LOCKOUT_THRESHOLD;
    s.(user := counted, tries := rest, flight := s.flight + [rest.Keys],
       failures := s.failures + [Failure(id, s.clock, entry.passed, entry.since, locks)])
  }

  function After(s: State, step: Step): State
    requires Enabled(s, step)
  {
    match step
    case Pass(time) => s.(clock := s.clock + time)
    case Check => s.(born := s.born + 1, tries := s.tries[s.born := Try(s.clock, |s.failures|, None)])
    case Look(id) => s.(tries := s.tries[id := s.tries[id].(count := Some(s.user.failed))])
    case Write(id) => Written(s, id)
    case Die(id) => s.(tries := s.tries - {id})
  }

  ghost predicate Run(s: State, steps: seq<Step>, t: State)
    decreases |steps|
  {
    if steps == [] then s == t else Enabled(s, steps[0]) && Run(After(s, steps[0]), steps[1..], t)
  }

  /** The write finds the count it read: nobody has recorded a failure in between. */
  predicate InTime(s: State, step: Step) {
    step.Write? && step.id in s.tries && s.tries[step.id].count.Some? ==> s.tries[step.id].count.value == s.user.failed
  }

  /** At most m attempts are ever in flight, and no update is lost. */
  ghost predicate Orderly(s: State, steps: seq<Step>, m: nat)
    decreases |steps|
  {
    && |s.tries| <= m
    && (steps == []
        || (Enabled(s, steps[0]) && InTime(s, steps[0]) && Orderly(After(s, steps[0]), steps[1..], m)))
  }

  predicate Init(s: State) {
    s.user.failed < LOCKOUT_THRESHOLD && s.tries == map[] && s.failures == [] && s.flight == []
  }

  // ── What an orderly run keeps ──

  ghost predicate TriesFit(s: State) {
    forall id | id in s.tries :: id < s.born && TryFits(s, id)
  }

  /** It is known to every failure recorded since its check, and was checked after every lockout before. */
  ghost predicate TryFits(s: State, id: nat)
    requires id in s.tries
  {
    var entry := s.tries[id];
    && entry.passed <= s.clock && entry.since <= |s.failures| && |s.flight| == |s.failures|
    && (forall i | entry.since <= i < |s.failures| :: id in s.flight[i])
    && (forall i | 0 <= i < entry.since && s.failures[i].locks :: s.failures[i].at + LOCKOUT_SECONDS <= entry.passed)
  }

  ghost predicate FailuresFit(s: State) {
    && |s.flight| == |s.failures|
    && forall j | 0 <= j < |s.failures| :: FailureFits(s, j)
  }

  ghost predicate FailureFits(s: State, j: nat)
    requires j < |s.failures| == |s.flight|
  {
    var f := s.failures[j];
    && f.passed <= f.at <= s.clock && f.since <= j && f.id < s.born && f.id !in s.tries
    && (forall i | 0 <= i < j :: s.failures[i].at <= f.at && s.failures[i].id != f.id)
    && (forall i | f.since <= i < j :: f.id in s.flight[i])
    && (forall i | 0 <= i < f.since && s.failures[i].locks :: s.failures[i].at + LOCKOUT_SECONDS <= f.passed)
  }

  ghost predicate LocksFit(s: State, start: nat) {
    && s.user.failed == (start + |s.failures|) % LOCKOUT_THRESHOLD
    && (forall i | 0 <= i < |s.failures| :: s.failures[i].locks <==> (start + i + 1) % LOCKOUT_THRESHOLD == 0)
    && (forall i | 0 <= i < |s.failures| && s.failures[i].locks ::
          s.failures[i].at + LOCKOUT_SECONDS <= s.user.lockedUntil)
  }

  ghost predicate FlightFits(s: State, m: nat) {
    forall i | 0 <= i < |s.flight| :: |s.flight[i]| < m
  }

  ghost predicate Inv(s: State, start: nat, m: nat) {
    TriesFit(s) && FailuresFit(s) && LocksFit(s, start) && FlightFits(s, m)
  }

  lemma StepKeepsTries(s: State, step: Step, start: nat)
    requires TriesFit(s) && FailuresFit(s) && LocksFit(s, start) && Enabled(s, step)
    ensures TriesFit(After(s, step))
  {
    var t := After(s, step);
    forall id | id in t.tries ensures id < t.born && TryFits(t, id) {
      if id in s.tries {
        assert TryFits(s, id);
      }
    }
  }

  lemma WrittenFits(s: State, id: nat)
    requires TriesFit(s) && FailuresFit(s) && Enabled(s, Write(id))
    ensures |Written(s, id).flight| == |Written(s, id).failures| && FailureFits(Written(s, id), |s.failures|)
  {
    assert TryFits(s, id);
    forall i | 0 <= i < |s.failures| ensures s.failures[i].at <= s.clock && s.failures[i].id != id {
      assert FailureFits(s, i);
    }
  }

  lemma StepKeepsFailures(s: State, step: Step)
    requires TriesFit(s) && FailuresFit(s) && Enabled(s, step)
    ensures FailuresFit(After(s, step))
  {
    var t := After(s, step);
    forall j | 0 <= j < |t.failures| ensures FailureFits(t, j) {
      if j < |s.failures| {
        assert FailureFits(s, j);
      } else {
        WrittenFits(s, step.id);
      }
    }
  }

  lemma StepKeepsLocks(s: State, step: Step, start: nat)
    requires FailuresFit(s) && LocksFit(s, start) && Enabled(s, step) && InTime(s, step)
    requires forall i | 0 <= i < |s.failures| :: s.failures[i].at <= s.clock
    ensures LocksFit(After(s, step), start)
  {
  }

  lemma StepKeepsFlight(s: State, step: Step, m: nat)
    requires FlightFits(s, m) && Enabled(s, step) && |s.tries| <= m
    ensures FlightFits(After(s, step), m)
  {
    if step.Write? {
      var rest := (s.tries - {step.id}).Keys;
      assert s.tries.Keys == rest + {step.id};
    }
  }

  lemma {:induction false} RunKeepsInv(s: State, steps: seq<Step>, t: State, start: nat, m: nat)
    requires Inv(s, start, m) && Run(s, steps, t) && Orderly(s, steps, m)
    ensures Inv(t, start, m)
    decreases |steps|
  {
    if steps == [] {
    } else {
      StepKeepsTries(s, steps[0], start);
      StepKeepsFailures(s, steps[0]);
      forall i | 0 <= i < |s.failures| ensures s.failures[i].at <= s.clock {
        assert FailureFits(s, i);
      }
      StepKeepsLocks(s, steps[0], start);
      StepKeepsFlight(s, steps[0], m);
      RunKeepsInv(After(s, steps[0]), steps[1..], t, start, m);
    }
  }

  // ── The bound ──

  function Ids(failures: seq<Failure>, lo: nat, hi: nat): set<nat>
    requires lo <= hi <= |failures|
  {
    set j | lo <= j < hi :: failures[j].id
  }

  lemma {:induction false} IdsCount(s: State, lo: nat, hi: nat)
    requires FailuresFit(s) && lo <= hi <= |s.failures|
    ensures |Ids(s.failures, lo, hi)| == hi - lo
    decreases hi - lo
  {
    if lo == hi {
      assert Ids(s.failures, lo, hi) == {};
    } else {
      IdsCount(s, lo, hi - 1);
      assert FailureFits(s, hi - 1);
      assert Ids(s.failures, lo, hi) == Ids(s.failures, lo, hi - 1) + {s.failures[hi - 1].id};
    }
  }

  /** Of the m failures after a lockout at least one had been checked after it, and so after its end. */
  lemma LateFailure(s: State, start: nat, m: nat, i: nat) returns (j: nat)
    requires Inv(s, start, m) && i + m < |s.failures| && m > 0
    ensures i < j <= i + m && i < s.failures[j].since
  {
    IdsCount(s, i + 1, i + m + 1);
    if forall j | i < j <= i + m :: s.failures[j].since <= i {
      forall id | id in Ids(s.failures, i + 1, i + m + 1) ensures id in s.flight[i] {
        var j :| i + 1 <= j < i + m + 1 && s.failures[j].id == id;
        assert FailureFits(s, j);
      }
      Smaller(Ids(s.failures, i + 1, i + m + 1), s.flight[i]);
      assert false;
    }
    j :| i < j <= i + m && i < s.failures[j].since;
  }

  lemma Smaller(a: set<nat>, b: set<nat>)
    requires a <= b
    ensures |a| <= |b|
  {
    assert b == a + (b - a);
  }

  /** Failures come in order; and the m-th after one that locks comes a lockout later. */
  lemma FailuresAreSpaced(s: State, start: nat, m: nat, i: nat, j: nat)
    requires Inv(s, start, m) && m > 0 && i <= j < |s.failures|
    ensures s.failures[i].at <= s.failures[j].at
    ensures s.failures[i].locks && i + m <= j ==> s.failures[i].at + LOCKOUT_SECONDS <= s.failures[j].at
  {
    assert FailureFits(s, j);
    if s.failures[i].locks && i + m <= j {
      var late := LateFailure(s, start, m, i);
      assert FailureFits(s, late);
    }
  }

  /** Nine failures and then m more span a lockout, wherever they begin. */
  lemma OneLockout(s: State, start: nat, m: nat, i: nat)
    requires Inv(s, start, m) && m > 0 && i + 9 + m < |s.failures|
    ensures s.failures[i].at + LOCKOUT_SECONDS <= s.failures[i + 9 + m].at
  {
    var full := i + 9 - (start + i) % 10;
    assert (start + full + 1) % LOCKOUT_THRESHOLD == 0;
    assert s.failures[full].locks;
    FailuresAreSpaced(s, start, m, i, full);
    FailuresAreSpaced(s, start, m, full, i + 9 + m);
  }

  lemma {:induction false} PerLockout(s: State, start: nat, m: nat, i: nat, k: nat, n: nat)
    requires Inv(s, start, m) && m > 0 && n == (9 + m) * k && i + n < |s.failures|
    ensures s.failures[i].at + LOCKOUT_SECONDS * k as real <= s.failures[i + n].at
    decreases k
  {
    if k == 0 {
    } else {
      OneMoreRound(m, k);
      PerLockout(s, start, m, i, k - 1, n - 9 - m);
      OneLockout(s, start, m, i + n - 9 - m);
    }
  }

  lemma OneMoreRound(m: nat, k: nat)
    requires k > 0
    ensures (9 + m) * k == (9 + m) * (k - 1) + 9 + m
    ensures LOCKOUT_SECONDS * k as real == LOCKOUT_SECONDS * (k - 1) as real + LOCKOUT_SECONDS
  {
  }

  function Times(failures: seq<Failure>): seq<real> {
    seq(|failures|, i requires 0 <= i < |failures| => failures[i].at)
  }

  /**
   With at most m attempts ever in flight and no update lost, a window of k lockout lengths holds
   at most k times nine plus m failures, wherever it starts; one at a time, that is ten.
   */
  lemma ConcurrentWindowBound(z: State, steps: seq<Step>, t: State, m: nat, from: real, k: nat)
    requires Init(z) && Run(z, steps, t) && Orderly(z, steps, m) && m > 0
    ensures |Limiter.InWindow(Times(t.failures), from, LOCKOUT_SECONDS * k as real)| <= (9 + m) * k
    ensures t.user.failed < LOCKOUT_THRESHOLD
  {
    InvHolds(z, steps, t, m);
    StateWindow(t, z.user.failed, m, from, k, (9 + m) * k, LOCKOUT_SECONDS * k as real);
  }

  lemma InvHolds(z: State, steps: seq<Step>, t: State, m: nat)
    requires Init(z) && Run(z, steps, t) && Orderly(z, steps, m)
    ensures Inv(t, z.user.failed, m) && t.user.failed < LOCKOUT_THRESHOLD
  {
    InitFits(z, m);
    RunKeepsInv(z, steps, t, z.user.failed, m);
    CountFits(t, z.user.failed);
  }

  lemma InitFits(z: State, m: nat)
    requires Init(z)
    ensures Inv(z, z.user.failed, m)
  {
    assert z.user.failed % LOCKOUT_THRESHOLD == z.user.failed;
  }

  lemma CountFits(s: State, start: nat)
    requires LocksFit(s, start)
    ensures s.user.failed < LOCKOUT_THRESHOLD
  {
  }

  lemma WithinRounds(s: State, start: nat, m: nat, first: nat, i: nat, k: nat, n: nat, length: real)
    requires Inv(s, start, m) && m > 0 && n == (9 + m) * k && length == LOCKOUT_SECONDS * k as real
    requires first < |s.failures| && i < |s.failures| && s.failures[i].at < s.failures[first].at + length
    ensures i < first + n
  {
    if first + n <= i {
      PerLockout(s, start, m, first, k, n);
      FailuresAreSpaced(s, start, m, first + n, i);
    }
  }

  lemma StateWindow(s: State, start: nat, m: nat, from: real, k: nat, n: nat, length: real)
    requires Inv(s, start, m) && m > 0 && n == (9 + m) * k && length == LOCKOUT_SECONDS * k as real
    ensures |Limiter.InWindow(Times(s.failures), from, length)| <= n
  {
    var hits := Limiter.InWindow(Times(s.failures), from, length);
    if hits != {} {
      var some :| some in hits;
      var first := Limiter.Least(hits, some);
      forall i | i in hits ensures first <= i < first + n {
        WithinRounds(s, start, m, first, i, k, n, length);
      }
      Limiter.RangeCardinality(hits, first, n);
    }
  }

  // ── Lost updates ──

  lemma {:induction false} RunsCompose(s: State, first: seq<Step>, mid: State, second: seq<Step>, t: State)
    requires Run(s, first, mid) && Run(mid, second, t)
    ensures Run(s, first + second, t)
    decreases |first|
  {
    if first == [] {
      assert first + second == second;
    } else {
      RunsCompose(After(s, first[0]), first[1..], mid, second, t);
      assert (first + second)[1..] == first[1..] + second;
    }
  }

  lemma Then(s: State, steps: seq<Step>, mid: State, step: Step) returns (longer: seq<Step>, t: State)
    requires Run(s, steps, mid) && Enabled(mid, step)
    ensures longer == steps + [step] && t == After(mid, step) && Run(s, longer, t)
  {
    longer, t := steps + [step], After(mid, step);
    assert [step][1..] == [];
    RunsCompose(s, steps, mid, [step], t);
  }

  /**
   An attempt that nothing comes between counts one failure, and the tenth sets a lockout of half
   an hour from then.
   */
  lemma UndisturbedAttempt(s: State) returns (steps: seq<Step>, t: State)
    requires s.born !in s.tries && Lockout(s.user, s.clock) == 0
    ensures Run(s, steps, t) && t.tries == s.tries && t.clock == s.clock && |t.failures| == |s.failures| + 1
    ensures s.user.failed < 9 ==> t.user == s.user.(failed := s.user.failed + 1)
    ensures s.user.failed >= 9 ==> t.user == s.user.(failed := 0, lockedUntil := s.clock + 1800.0)
    ensures t.failures[..|s.failures|] == s.failures && t.failures[|s.failures|].at == s.clock
    ensures t.failures[|s.failures|].locks <==> s.user.failed >= 9
  {
    steps, t := Then(s, [], s, Check);
    steps, t := Then(s, steps, t, Look(s.born));
    steps, t := Then(s, steps, t, Write(s.born));
    assert t.tries == s.tries;
  }

  /** After any wait, passwords are checked again if and only if the lockout has run out by then. */
  lemma LockoutRunsOut(s: State, time: real) returns (t: State)
    requires time > 0.0
    ensures Run(s, [Pass(time)], t) && t == s.(clock := t.clock)
    ensures Enabled(t, Check) <==> s.user.lockedUntil <= s.clock + time
  {
    t := After(s, Pass(time));
    assert [Pass(time)][1..] == [];
  }

  /** An attempt that dies is not counted. */
  lemma DeadAttemptIsNotCounted(s: State) returns (t: State)
    requires s.born !in s.tries && Lockout(s.user, s.clock) == 0
    ensures Run(s, [Check, Die(s.born)], t) && t == s.(born := s.born + 1)
  {
    var steps;
    steps, t := Then(s, [], s, Check);
    steps, t := Then(s, steps, t, Die(s.born));
    assert steps == [Check, Die(s.born)] && t.tries == s.tries;
  }

  /** Two attempts that read the count before either writes it are counted as one. */
  lemma PairCountsOnce(s: State) returns (steps: seq<Step>, t: State)
    requires s.tries == map[] && s.user.failed < 9 && Lockout(s.user, s.clock) == 0
    ensures Run(s, steps, t) && t.tries == map[] && t.clock == s.clock
    ensures t.user == s.user.(failed := s.user.failed + 1) && |t.failures| == |s.failures| + 2
  {
    var a, b := s.born, s.born + 1;
    steps, t := Then(s, [], s, Check);
    steps, t := Then(s, steps, t, Check);
    steps, t := Then(s, steps, t, Look(a));
    steps, t := Then(s, steps, t, Look(b));
    assert t.tries[a].count == t.tries[b].count == Some(s.user.failed);
    steps, t := Then(s, steps, t, Write(a));
    steps, t := Then(s, steps, t, Write(b));
    assert t.tries == map[];
  }

  /** So eighteen wrong passwords at one moment, never more than two in flight, lock nothing. */
  lemma {:induction false} PairsEscape(s: State, n: nat) returns (steps: seq<Step>, t: State)
    requires s.tries == map[] && s.user.failed + n <= 9 && Lockout(s.user, s.clock) == 0
    ensures Run(s, steps, t) && t.tries == map[] && t.clock == s.clock && Lockout(t.user, t.clock) == 0
    ensures |t.failures| == |s.failures| + 2 * n && t.user.failed == s.user.failed + n
    decreases n
  {
    if n == 0 {
      steps, t := [], s;
    } else {
      var pair, counted := PairCountsOnce(s);
      steps, t := PairsEscape(counted, n - 1);
      RunsCompose(s, pair, counted, steps, t);
      steps := pair + steps;
    }
  }
}
