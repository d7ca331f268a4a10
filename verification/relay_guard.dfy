/**
 Relayed streams end when their session is replaced (`_epoch_guarded` in router/main.py and the
 `stop_when` loop of `relay_stream` in router/proxy.py): the account's epoch is compared at most
 once per interval, between two chunks.
 */
module RelayGuard {
  import opened Options
  import Accounts
  import S = Sessions

  /** One upstream chunk, when it arrived, and when the epoch would be read for it. */
  datatype Chunk = Chunk(bytes: string, at: real, readAt: real)

  /** The inner stream: chunks still to come, and whether it was closed. */
  class Source {
    var ahead: seq<Chunk>
    var closed: bool

    constructor (chunks: seq<Chunk>)
      ensures ahead == chunks && !closed
    {
      ahead := chunks;
      closed := false;
    }

    method Read() returns (chunk: Option<Chunk>)
      modifies this`ahead
      ensures old(ahead) == [] ==> chunk == None && ahead == []
      ensures old(ahead) != [] ==> chunk == Some(old(ahead)[0]) && ahead == old(ahead)[1..]
    {
      if ahead == [] {
        chunk := None;
      } else {
        chunk := Some(ahead[0]);
        ahead := ahead[1..];
      }
    }

    method Close()
      modifies this`closed
      ensures closed
    {
      closed := true;
    }
  }

  /** Where the relay cuts, given when it last compared epochs. */
  function Passed(chunks: seq<Chunk>, matches: real -> bool, lastCheck: real, interval: real): nat {
    if chunks == [] then 0
    else if chunks[0].at - lastCheck >= interval then
      if matches(chunks[0].readAt) then 1 + Passed(chunks[1..], matches, chunks[0].at, interval) else 0
    else
      1 + Passed(chunks[1..], matches, lastCheck, interval)
  }

  /**
   The relay loop. The consumer takes at most `wanted` chunks and then drops the relay; however
   the loop ends, the inner stream is closed.
   */
  method Relay(inner: Source, matches: real -> bool, start: real, interval: real, wanted: nat)
      returns (out: seq<Chunk>)
    modifies inner
    ensures |out| <= wanted && out <= old(inner.ahead)
    ensures |out| < wanted ==> |out| == Passed(old(inner.ahead), matches, start, interval)
    ensures |out| <= Passed(old(inner.ahead), matches, start, interval)
    ensures inner.closed
  {
    out := [];
    var lastCheck := start;
    ghost var all := inner.ahead;
    while |out| < wanted
      invariant |out| <= wanted && all == out + inner.ahead
      invariant Passed(all, matches, start, interval)
                == |out| + Passed(inner.ahead, matches, lastCheck, interval)
      decreases |inner.ahead|
    {
      var next := inner.Read();
      if next.None? {
        break;
      }
      var chunk := next.value;
      if chunk.at - lastCheck >= interval {
        lastCheck := chunk.at;
        if !matches(chunk.readAt) {
          break;
        }
      }
      out := out + [chunk];
    }
    inner.Close();
  }

  /** Chunks arrive in order, none before the relay starts, and an epoch read follows its chunk. */
  ghost predicate InOrder(chunks: seq<Chunk>, start: real) {
    forall i | 0 <= i < |chunks| ::
      start <= chunks[i].at <= chunks[i].readAt && forall j | 0 <= j < i :: chunks[j].at <= chunks[i].at
  }

  /** After the bump, the account's epoch never again equals the stream's. */
  ghost predicate PassedAt(matches: real -> bool, bump: real) {
    forall t: real :: bump < t ==> !matches(t)
  }

  lemma {:induction false} NothingPassesAfterTheInterval(
    chunks: seq<Chunk>, matches: real -> bool, start: real, lastCheck: real, bump: real, interval: real, i: nat)
    requires 0.0 < interval && start <= lastCheck && (lastCheck == start || lastCheck <= bump)
    requires InOrder(chunks, lastCheck) && PassedAt(matches, bump)
    requires i < Passed(chunks, matches, lastCheck, interval)
    ensures i < |chunks| && chunks[i].at < (if bump < start then start else bump) + interval
    decreases |chunks|
  {
    if chunks[0].at - lastCheck >= interval {
      assert matches(chunks[0].readAt);
      if i > 0 {
        NothingPassesAfterTheInterval(chunks[1..], matches, start, chunks[0].at, bump, interval, i - 1);
      }
    } else if i > 0 {
      NothingPassesAfterTheInterval(chunks[1..], matches, start, lastCheck, bump, interval, i - 1);
    }
  }

  // ── Along a run of the accounts ──

  /** The states a run of the account protocol goes through, one step at a time. */
  ghost predicate IsTrace(trace: seq<S.State>) {
    forall i | 0 <= i < |trace| - 1 :: NextState(trace[i], trace[i + 1])
  }

  ghost predicate NextState(s: S.State, t: S.State) {
    exists step :: S.Enabled(s, step) && t == S.After(s, step)
  }

  predicate Matches(s: S.State, user: Accounts.Name, epoch: nat) {
    user in s.ledger.epochs && s.ledger.epochs[user] == epoch
  }

  /** A comparison succeeds only if some state of the run at that time had the stream's epoch. */
  ghost predicate ReadsOf(matches: real -> bool, trace: seq<S.State>, user: Accounts.Name, epoch: nat) {
    forall time | matches(time) :: exists i | 0 <= i < |trace| :: trace[i].now == time && Matches(trace[i], user, epoch)
  }

  lemma {:induction false} TraceAdvances(trace: seq<S.State>, i: nat, j: nat)
    requires IsTrace(trace) && i <= j < |trace|
    ensures S.Advances(trace[i], trace[j])
    decreases j - i
  {
    if i == j {
    } else {
      TraceAdvances(trace, i, j - 1);
      assert NextState(trace[j - 1], trace[j - 1 + 1]);
      NextAdvances(trace[j - 1], trace[j]);
      AdvancesFurther(trace[i], trace[j - 1], trace[j]);
    }
  }

  lemma NextAdvances(s: S.State, t: S.State)
    requires NextState(s, t)
    ensures S.Advances(s, t)
  {
    var step :| S.Enabled(s, step) && t == S.After(s, step);
    S.StepAdvances(s, step);
  }

  lemma AdvancesFurther(s: S.State, t: S.State, u: S.State)
    requires S.Advances(s, t) && S.Advances(t, u)
    ensures S.Advances(s, u)
  {
  }

  lemma EpochStaysPassed(trace: seq<S.State>, bumped: nat, user: Accounts.Name, epoch: nat, i: nat)
    requires IsTrace(trace) && bumped < |trace| && i < |trace|
    requires user in trace[bumped].ledger.epochs && epoch < trace[bumped].ledger.epochs[user]
    requires trace[bumped].now < trace[i].now
    ensures !Matches(trace[i], user, epoch)
  {
    if i < bumped {
      TraceAdvances(trace, i, bumped);
    } else {
      TraceAdvances(trace, bumped, i);
    }
  }

  /**
   Revocation latency: once the account protocol has moved an account's epoch past a stream's,
   nothing of it is relayed an interval or more after that (or after the start, for a stream that
   starts stale), whatever else the accounts do.
   */
  lemma RevocationLatency(
    trace: seq<S.State>, bumped: nat, user: Accounts.Name, epoch: nat,
    chunks: seq<Chunk>, matches: real -> bool, start: real, interval: real, i: nat)
    requires IsTrace(trace) && bumped < |trace| && ReadsOf(matches, trace, user, epoch)
    requires user in trace[bumped].ledger.epochs && epoch < trace[bumped].ledger.epochs[user]
    requires 0.0 < interval && InOrder(chunks, start) && i < Passed(chunks, matches, start, interval)
    ensures var bump := trace[bumped].now;
            i < |chunks| && chunks[i].at < (if bump < start then start else bump) + interval
  {
    var bump := trace[bumped].now;
    forall time: real | bump < time ensures !matches(time) {
      if matches(time) {
        var j :| 0 <= j < |trace| && trace[j].now == time && Matches(trace[j], user, epoch);
        EpochStaysPassed(trace, bumped, user, epoch, j);
      }
    }
    NothingPassesAfterTheInterval(chunks, matches, start, start, bump, interval, i);
  }

  /** The guard cuts for no other reason: where it stops short, the epoch it read was not the stream's. */
  lemma {:induction false} CutsOnlyReplacedSessions(
    chunks: seq<Chunk>, matches: real -> bool, lastCheck: real, interval: real)
    ensures Passed(chunks, matches, lastCheck, interval) <= |chunks|
    ensures Passed(chunks, matches, lastCheck, interval) < |chunks| ==>
      !matches(chunks[Passed(chunks, matches, lastCheck, interval)].readAt)
    decreases |chunks|
  {
    if chunks == [] {
    } else {
      CutsOnlyReplacedSessions(chunks[1..], matches, chunks[0].at, interval);
      CutsOnlyReplacedSessions(chunks[1..], matches, lastCheck, interval);
    }
  }

  /**
   When it compares: the relay cuts at the first chunk an interval or more past the last comparison
   that succeeded, which was for an earlier chunk, or past the start.
   */
  lemma {:induction false} CutsAnIntervalLater(
    chunks: seq<Chunk>, matches: real -> bool, lastCheck: real, interval: real) returns (since: int)
    ensures var n := Passed(chunks, matches, lastCheck, interval);
            n < |chunks| ==>
              && -1 <= since < n && (since >= 0 ==> matches(chunks[since].readAt))
              && var compared := if since < 0 then lastCheck else chunks[since].at;
                 && chunks[n].at - compared >= interval
                 && forall j | since < j < n :: chunks[j].at - compared < interval
    decreases |chunks|
  {
    if chunks == [] {
      since := -1;
    } else if chunks[0].at - lastCheck >= interval {
      if matches(chunks[0].readAt) {
        var later := CutsAnIntervalLater(chunks[1..], matches, chunks[0].at, interval);
        since := later + 1;
      } else {
        since := -1;
      }
    } else {
      var later := CutsAnIntervalLater(chunks[1..], matches, lastCheck, interval);
      since := if later < 0 then -1 else later + 1;
    }
  }
}
