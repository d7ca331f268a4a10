/**
 Rolling segments (recorder/rollover.py): which segments an event window takes, and which ones
 the encoder purges meanwhile. A segment ends where the next one starts; the last one is bounded
 by the retention horizon.
 */
module Rollover {
  import opened Options

  const SEGMENT_TIME := 1.0

  /** A file of the segment directory; `start` is what its name parses to, if it parses. */
  datatype File = File(name: string, start: Option<real>)

  datatype Segment = Segment(name: string, start: real)

  /** The whole seconds a segment is kept: pre-event span, post-event span, two segments of slack. */
  function Retention(pre: real, post: real): int {
    -((-(pre + post + 2.0 * SEGMENT_TIME)).Floor)
  }

  /** The listing's parsable files, in listing order. */
  function Segments(files: seq<File>): seq<Segment> {
    if files == [] then []
    else (if files[0].start.Some? then [Segment(files[0].name, files[0].start.value)] else []) + Segments(files[1..])
  }

  /** The measured end of segment i. */
  function EndOf(segments: seq<Segment>, i: nat, now: real, retention: int): real
    requires i < |segments|
  {
    if i + 1 < |segments| then segments[i + 1].start
    else if now < segments[i].start + retention as real then now
    else segments[i].start + retention as real
  }

  predicate Overlaps(segments: seq<Segment>, i: nat, from: real, to: real, now: real, retention: int)
    requires i < |segments|
  {
    from < EndOf(segments, i, now, retention) && segments[i].start < to
  }

  /** The segments from i on that overlap the window, in order. */
  function Selection(segments: seq<Segment>, i: nat, from: real, to: real, now: real, retention: int): seq<Segment>
    requires i <= |segments|
    decreases |segments| - i
  {
    if i == |segments| then []
    else (if Overlaps(segments, i, from, to, now, retention) then [segments[i]] else [])
         + Selection(segments, i + 1, from, to, now, retention)
  }

  /** What a purge leaves: younger files, foreign files, and files that could not be removed. */
  function Kept(files: seq<File>, retainSince: real, stuck: set<string>): seq<File> {
    if files == [] then []
    else (if Purgeable(files[0], retainSince) && files[0].name !in stuck then [] else [files[0]])
         + Kept(files[1..], retainSince, stuck)
  }

  predicate Purgeable(file: File, retainSince: real) {
    file.start.Some? && file.start.value < retainSince
  }

  /** The segment directory; `stuck` are the files the file system refuses to unlink. */
  class SegmentDir {
    var files: seq<File>
    const stuck: set<string>

    constructor (files: seq<File>, stuck: set<string>)
      ensures this.files == files && this.stuck == stuck
    {
      this.files, this.stuck := files, stuck;
    }

    method SelectForWindow(from: real, to: real, now: real, retention: int) returns (selected: seq<Segment>)
      ensures selected == Selection(Segments(files), 0, from, to, now, retention)
    {
      var entries := Parse();
      selected := [];
      for i := 0 to |entries|
        invariant selected + Selection(entries, i, from, to, now, retention)
                  == Selection(entries, 0, from, to, now, retention)
      {
        var ended;
        if i + 1 < |entries| {
          ended := entries[i + 1].start;
        } else {
          var bound := entries[i].start + retention as real;
          ended := if now < bound then now else bound;
        }
        if ended <= from || entries[i].start >= to {
          continue;
        }
        selected := selected + [entries[i]];
      }
    }

    method Parse() returns (entries: seq<Segment>)
      ensures entries == Segments(files)
    {
      entries := [];
      for i := 0 to |files|
        invariant entries == Segments(files[..i])
      {
        assert files[..i + 1] == files[..i] + [files[i]];
        SegmentsConcat(files[..i], [files[i]]);
        if files[i].start.Some? {
          entries := entries + [Segment(files[i].name, files[i].start.value)];
        }
      }
      assert files[..|files|] == files;
    }

    method Purge(retainSince: real) returns (removed: nat)
      modifies this`files
      ensures files == Kept(old(files), retainSince, stuck)
      ensures |old(files)| == |files| + removed
    {
      removed := 0;
      var listing := files;
      var kept: seq<File> := [];
      for i := 0 to |listing|
        invariant kept + Kept(listing[i..], retainSince, stuck) == Kept(listing, retainSince, stuck)
        invariant files == kept + listing[i..] && |kept| + removed == i
      {
        PurgeStep(kept, listing, i, retainSince, stuck);
        if Purgeable(listing[i], retainSince) && listing[i].name !in stuck {
          files := kept + listing[i + 1..];
          removed := removed + 1;
        } else {
          kept := kept + [listing[i]];
        }
      }
    }
  }

  lemma PurgeStep(kept: seq<File>, listing: seq<File>, i: nat, retainSince: real, stuck: set<string>)
    requires i < |listing|
    ensures kept + listing[i..] == kept + [listing[i]] + listing[i + 1..]
    ensures kept + Kept(listing[i..], retainSince, stuck)
            == (if Purgeable(listing[i], retainSince) && listing[i].name !in stuck then kept else kept + [listing[i]])
               + Kept(listing[i + 1..], retainSince, stuck)
  {
    assert listing[i..] == [listing[i]] + listing[i + 1..];
    Assoc(kept, [listing[i]], listing[i + 1..]);
    Assoc(kept, [listing[i]], Kept(listing[i + 1..], retainSince, stuck));
    assert [] + Kept(listing[i + 1..], retainSince, stuck) == Kept(listing[i + 1..], retainSince, stuck);
  }

  lemma Assoc<T>(a: seq<T>, b: seq<T>, c: seq<T>)
    ensures a + (b + c) == a + b + c
  {
  }

  lemma {:induction false} SegmentsConcat(a: seq<File>, b: seq<File>)
    ensures Segments(a + b) == Segments(a) + Segments(b)
    decreases |a|
  {
    if a == [] {
      assert a + b == b;
    } else {
      assert (a + b)[0] == a[0] && (a + b)[1..] == a[1..] + b;
      SegmentsConcat(a[1..], b);
      var first: seq<Segment> := if a[0].start.Some? then [Segment(a[0].name, a[0].start.value)] else [];
      assert Segments(a + b) == first + Segments(a[1..] + b);
      assert Segments(a) == first + Segments(a[1..]);
      assert first + (Segments(a[1..]) + Segments(b)) == first + Segments(a[1..]) + Segments(b);
    }
  }

  // ── What a selection is ──

  /** File names sort as their start times do. */
  ghost predicate InOrder(segments: seq<Segment>) {
    segments == [] || (AllAfter(segments[0].start, segments[1..]) && InOrder(segments[1..]))
  }

  ghost predicate AllAfter(start: real, segments: seq<Segment>) {
    forall s | s in segments :: start < s.start
  }

  lemma {:induction false} OrderAt(segments: seq<Segment>, i: nat, j: nat)
    requires InOrder(segments) && i <= j < |segments|
    ensures segments[i].start <= segments[j].start
    decreases i
  {
    if i == 0 {
      assert j > 0 ==> segments[j] in segments[1..];
    } else {
      OrderAt(segments[1..], i - 1, j - 1);
    }
  }

  lemma NextOverlaps(segments: seq<Segment>, i: nat, k: nat, from: real, to: real, now: real, retention: int)
    requires InOrder(segments) && i < k < |segments|
    requires Overlaps(segments, i, from, to, now, retention) && Overlaps(segments, k, from, to, now, retention)
    ensures Overlaps(segments, i + 1, from, to, now, retention)
  {
    if i + 1 < k {
      OrderAt(segments, i + 1, k);
      OrderAt(segments, i + 1, i + 2);
      assert EndOf(segments, i, now, retention) == segments[i + 1].start;
      assert EndOf(segments, i + 1, now, retention) == segments[i + 2].start;
    }
  }

  lemma {:induction false} SkipTo(
    segments: seq<Segment>, i: nat, lo: nat, from: real, to: real, now: real, retention: int)
    requires i <= lo <= |segments|
    requires forall k | i <= k < lo :: !Overlaps(segments, k, from, to, now, retention)
    ensures Selection(segments, i, from, to, now, retention) == Selection(segments, lo, from, to, now, retention)
    decreases lo - i
  {
    if i == lo {
    } else {
      SkipTo(segments, i + 1, lo, from, to, now, retention);
    }
  }

  lemma {:induction false} TakeTo(
    segments: seq<Segment>, lo: nat, hi: nat, from: real, to: real, now: real, retention: int)
    requires lo <= hi <= |segments|
    requires forall k | lo <= k < hi :: Overlaps(segments, k, from, to, now, retention)
    ensures Selection(segments, lo, from, to, now, retention)
            == segments[lo..hi] + Selection(segments, hi, from, to, now, retention)
    decreases hi - lo
  {
    if lo == hi {
    } else {
      TakeTo(segments, lo + 1, hi, from, to, now, retention);
      assert segments[lo..hi] == [segments[lo]] + segments[lo + 1..hi];
      Assoc([segments[lo]], segments[lo + 1..hi], Selection(segments, hi, from, to, now, retention));
    }
  }

  /** A selection is one contiguous run of the listing: lo and hi mark it. */
  lemma SelectionIsARun(
    segments: seq<Segment>, i: nat, from: real, to: real, now: real, retention: int) returns (lo: nat, hi: nat)
    requires InOrder(segments) && i <= |segments|
    ensures i <= lo <= hi <= |segments|
    ensures Selection(segments, i, from, to, now, retention) == segments[lo..hi]
    ensures forall k | i <= k < |segments| :: lo <= k < hi <==> Overlaps(segments, k, from, to, now, retention)
    ensures i < |segments| && Overlaps(segments, i, from, to, now, retention) ==> lo == i
  {
    lo, hi := RunBounds(segments, i, from, to, now, retention);
    forall k | hi <= k < |segments| ensures !Overlaps(segments, k, from, to, now, retention) {
      if lo < hi < k && Overlaps(segments, k, from, to, now, retention) {
        NextOverlaps(segments, hi - 1, k, from, to, now, retention);
      }
    }
    SkipTo(segments, i, lo, from, to, now, retention);
    TakeTo(segments, lo, hi, from, to, now, retention);
    SkipTo(segments, hi, |segments|, from, to, now, retention);
  }

  /** The first stretch of overlapping segments from i on, empty only where there is none at all. */
  lemma RunBounds(
    segments: seq<Segment>, i: nat, from: real, to: real, now: real, retention: int) returns (lo: nat, hi: nat)
    requires i <= |segments|
    ensures i <= lo <= hi <= |segments| && (lo == hi ==> lo == |segments|)
    ensures forall k | i <= k < lo :: !Overlaps(segments, k, from, to, now, retention)
    ensures forall k | lo <= k < hi :: Overlaps(segments, k, from, to, now, retention)
    ensures hi < |segments| ==> !Overlaps(segments, hi, from, to, now, retention)
  {
    lo := i;
    while lo < |segments| && !Overlaps(segments, lo, from, to, now, retention)
      invariant i <= lo <= |segments|
      invariant forall k | i <= k < lo :: !Overlaps(segments, k, from, to, now, retention)
    {
      lo := lo + 1;
    }
    hi := lo;
    while hi < |segments| && Overlaps(segments, hi, from, to, now, retention)
      invariant lo <= hi <= |segments|
      invariant forall k | lo <= k < hi :: Overlaps(segments, k, from, to, now, retention)
    {
      hi := hi + 1;
    }
  }

  /**
   Exactly the segments that start before the window's end and are measured to end after its start
   are selected, as one run of the listing. A segment ends where the next one starts, and the last
   one now, or a retention after its start if that is earlier.
   */
  lemma SelectedIff(segments: seq<Segment>, from: real, to: real, now: real, retention: int) returns (lo: nat, hi: nat)
    requires InOrder(segments)
    ensures lo <= hi <= |segments| && Selection(segments, 0, from, to, now, retention) == segments[lo..hi]
    ensures forall k | 0 <= k < |segments| - 1 ::
              lo <= k < hi <==> segments[k].start < to && from < segments[k + 1].start
    ensures segments != [] ==>
              var last := |segments| - 1;
              (lo <= last < hi
               <==> segments[last].start < to && from < now && from < segments[last].start + retention as real)
  {
    lo, hi := SelectionIsARun(segments, 0, from, to, now, retention);
    forall k | 0 <= k < |segments| - 1
      ensures lo <= k < hi <==> segments[k].start < to && from < segments[k + 1].start
    {
      assert Overlaps(segments, k, from, to, now, retention)
             <==> segments[k].start < to && from < segments[k + 1].start;
    }
    if segments != [] {
      var last := |segments| - 1;
      assert Overlaps(segments, last, from, to, now, retention)
             <==> segments[last].start < to && from < now && from < segments[last].start + retention as real;
    }
  }

  /** With SegmentsConcat: the segments are the files whose names parse, one by one in listing order. */
  lemma SegmentsOfOne(file: File)
    ensures file.start.Some? ==> Segments([file]) == [Segment(file.name, file.start.value)]
    ensures file.start.None? ==> Segments([file]) == []
  {
    assert [file][1..] == [];
  }

  /** What a purge leaves stays in listing order. */
  lemma {:induction false} KeptConcat(a: seq<File>, b: seq<File>, retainSince: real, stuck: set<string>)
    ensures Kept(a + b, retainSince, stuck) == Kept(a, retainSince, stuck) + Kept(b, retainSince, stuck)
    decreases |a|
  {
    if a == [] {
      assert a + b == b;
    } else {
      assert (a + b)[0] == a[0] && (a + b)[1..] == a[1..] + b;
      KeptConcat(a[1..], b, retainSince, stuck);
      var first := if Purgeable(a[0], retainSince) && a[0].name !in stuck then [] else [a[0]];
      Assoc(first, Kept(a[1..], retainSince, stuck), Kept(b, retainSince, stuck));
    }
  }

  /** A purge leaves exactly the files that do not parse, are young enough, or cannot be unlinked. */
  lemma {:induction false} KeptIff(files: seq<File>, retainSince: real, stuck: set<string>, file: File)
    ensures file in Kept(files, retainSince, stuck)
            <==> file in files && (file.start.None? || retainSince <= file.start.value || file.name in stuck)
    decreases |files|
  {
    if files == [] {
    } else {
      KeptIff(files[1..], retainSince, stuck, file);
      assert files == [files[0]] + files[1..];
    }
  }

  /** Every recorded instant of the window lies in the measured span of a selected segment. */
  lemma WindowIsCovered(segments: seq<Segment>, from: real, to: real, now: real, retention: int, instant: real)
      returns (k: nat)
    requires InOrder(segments) && segments != [] && from <= instant < to
    requires segments[0].start <= instant < EndOf(segments, |segments| - 1, now, retention)
    ensures k < |segments| && segments[k].start <= instant < EndOf(segments, k, now, retention)
    ensures segments[k] in Selection(segments, 0, from, to, now, retention)
  {
    k := 0;
    while k + 1 < |segments| && segments[k + 1].start <= instant
      invariant k < |segments| && segments[k].start <= instant
    {
      k := k + 1;
    }
    var lo, hi := SelectionIsARun(segments, 0, from, to, now, retention);
    assert Overlaps(segments, k, from, to, now, retention);
    assert segments[lo..hi][k - lo] == segments[k];
  }

  // ── Purging meanwhile ──

  /** Segments that end before the window starts do not matter to the selection. */
  lemma {:induction false} LeadIsIgnored(
    lead: seq<Segment>, rest: seq<Segment>, i: nat, from: real, to: real, now: real, retention: int)
    requires InOrder(lead + rest) && rest != [] && rest[0].start <= from && i <= |lead|
    ensures Selection(lead + rest, i, from, to, now, retention) == Selection(rest, 0, from, to, now, retention)
    decreases |lead| - i
  {
    var all := lead + rest;
    if i == |lead| {
      SelectionShift(lead, rest, 0, from, to, now, retention);
    } else {
      assert all[|lead|] == rest[0];
      OrderAt(all, i + 1, |lead|);
      LeadIsIgnored(lead, rest, i + 1, from, to, now, retention);
    }
  }

  lemma {:induction false} SelectionShift(
    lead: seq<Segment>, rest: seq<Segment>, i: nat, from: real, to: real, now: real, retention: int)
    requires i <= |rest|
    ensures Selection(lead + rest, |lead| + i, from, to, now, retention) == Selection(rest, i, from, to, now, retention)
    decreases |rest| - i
  {
    if i == |rest| {
    } else {
      assert (lead + rest)[|lead| + i] == rest[i];
      assert i + 1 < |rest| ==> (lead + rest)[|lead| + i + 1] == rest[i + 1];
      SelectionShift(lead, rest, i + 1, from, to, now, retention);
    }
  }

  /** The purge as the selection sees it. */
  function Left(segments: seq<Segment>, retainSince: real, stuck: set<string>): seq<Segment> {
    if segments == [] then []
    else (if segments[0].start < retainSince && segments[0].name !in stuck then [] else [segments[0]])
         + Left(segments[1..], retainSince, stuck)
  }

  lemma {:induction false} KeptIsLeft(files: seq<File>, retainSince: real, stuck: set<string>)
    ensures Segments(Kept(files, retainSince, stuck)) == Left(Segments(files), retainSince, stuck)
    decreases |files|
  {
    if files == [] {
    } else {
      var rest := Kept(files[1..], retainSince, stuck);
      KeptIsLeft(files[1..], retainSince, stuck);
      assert ([files[0]] + rest)[1..] == rest;
      if files[0].start.Some? {
        assert Segments(files)[1..] == Segments(files[1..]);
        assert Segments([files[0]] + rest)[1..] == Segments(rest);
      } else {
        assert Segments(files) == Segments(files[1..]);
        assert Segments([files[0]] + rest) == Segments(rest);
      }
      assert Kept(files, retainSince, stuck) == [files[0]] + rest || Kept(files, retainSince, stuck) == rest;
    }
  }

  lemma {:induction false} LeftIsFrom(segments: seq<Segment>, retainSince: real, stuck: set<string>)
    ensures forall s | s in Left(segments, retainSince, stuck) :: s in segments
    decreases |segments|
  {
    if segments == [] {
    } else {
      LeftIsFrom(segments[1..], retainSince, stuck);
    }
  }

  lemma {:induction false} LeftInOrder(segments: seq<Segment>, retainSince: real, stuck: set<string>)
    requires InOrder(segments)
    ensures InOrder(Left(segments, retainSince, stuck))
    decreases |segments|
  {
    if segments == [] {
    } else {
      var rest := Left(segments[1..], retainSince, stuck);
      LeftInOrder(segments[1..], retainSince, stuck);
      LeftIsFrom(segments[1..], retainSince, stuck);
      var all := [segments[0]] + rest;
      assert all[0] == segments[0] && all[1..] == rest && AllAfter(segments[0].start, rest);
      assert InOrder(all);
      assert Left(segments, retainSince, stuck) == all || Left(segments, retainSince, stuck) == rest;
    }
  }

  /** A purge cuts the listing at the horizon: the younger part stays, of the older only what is stuck. */
  lemma {:induction false} PurgeSplits(segments: seq<Segment>, retainSince: real, stuck: set<string>)
      returns (n: nat, left: seq<Segment>)
    requires InOrder(segments)
    ensures n <= |segments| && Left(segments, retainSince, stuck) == left + segments[n..]
    ensures (forall i | 0 <= i < n :: segments[i].start < retainSince)
    ensures (forall i | n <= i < |segments| :: retainSince <= segments[i].start)
    ensures n == 0 || stuck == {} ==> left == []
    decreases |segments|
  {
    if segments == [] {
      n, left := 0, [];
    } else if segments[0].start < retainSince {
      var m, older := PurgeSplits(segments[1..], retainSince, stuck);
      n, left := m + 1, (if segments[0].name in stuck then [segments[0]] else []) + older;
      LeftCons(segments, retainSince, stuck, m, older);
      assert forall i | 1 <= i < |segments| :: segments[i] == segments[1..][i - 1];
    } else {
      n, left := 0, [];
      forall i | 0 <= i < |segments| ensures retainSince <= segments[i].start {
        OrderAt(segments, 0, i);
      }
      LeftOfKept(segments, retainSince, stuck);
      assert left + segments[0..] == segments;
    }
  }

  lemma LeftCons(segments: seq<Segment>, retainSince: real, stuck: set<string>, m: nat, older: seq<Segment>)
    requires segments != [] && segments[0].start < retainSince && m < |segments|
    requires Left(segments[1..], retainSince, stuck) == older + segments[1..][m..]
    ensures var stays := if segments[0].name in stuck then [segments[0]] else [];
            Left(segments, retainSince, stuck) == stays + older + segments[m + 1..]
  {
    assert segments[1..][m..] == segments[m + 1..];
  }

  lemma {:induction false} SelectionIsFrom(
    segments: seq<Segment>, i: nat, from: real, to: real, now: real, retention: int)
    requires i <= |segments|
    ensures forall s | s in Selection(segments, i, from, to, now, retention) :: s in segments[i..]
    ensures forall k | i <= k < |segments| && Overlaps(segments, k, from, to, now, retention) ::
      segments[k] in Selection(segments, i, from, to, now, retention)
    decreases |segments| - i
  {
    if i == |segments| {
    } else {
      SelectionIsFrom(segments, i + 1, from, to, now, retention);
    }
  }

  /** What a purge at this horizon unlinks. */
  predicate Unlinked(s: Segment, retainSince: real, stuck: set<string>) {
    s.start < retainSince && s.name !in stuck
  }

  lemma {:induction false} LeftMember(segments: seq<Segment>, retainSince: real, stuck: set<string>, s: Segment)
    ensures s in Left(segments, retainSince, stuck) <==> s in segments && !Unlinked(s, retainSince, stuck)
    decreases |segments|
  {
    if segments == [] {
    } else {
      LeftMember(segments[1..], retainSince, stuck, s);
    }
  }

  /** Every segment that a purge at this horizon unlinks had ended by the window's start. */
  ghost predicate EndedBy(
    all: seq<Segment>, retainSince: real, stuck: set<string>, from: real, now: real, retention: int)
  {
    forall i | 0 <= i < |all| && Unlinked(all[i], retainSince, stuck) :: EndOf(all, i, now, retention) <= from
  }

  /**
   Exactly when does a purge leave a selection alone, whatever it could not unlink? With the horizon
   before the window's end: when all that it did unlink had ended by the window's start.
   */
  lemma PurgeCommutesIff(
    files: seq<File>, retainSince: real, stuck: set<string>, from: real, to: real, now: real, retention: nat)
    requires InOrder(Segments(files)) && retainSince <= to
    requires forall s | s in Segments(files) :: s.start <= now
    ensures Selection(Segments(Kept(files, retainSince, stuck)), 0, from, to, now, retention)
            == Selection(Segments(files), 0, from, to, now, retention)
            <==> EndedBy(Segments(files), retainSince, stuck, from, now, retention)
  {
    var all := Segments(files);
    KeptIsLeft(files, retainSince, stuck);
    if EndedBy(all, retainSince, stuck, from, now, retention) {
      EndedDoNotMatter(all, retainSince, stuck, from, to, now, retention);
    } else {
      var i :| 0 <= i < |all| && Unlinked(all[i], retainSince, stuck) && from < EndOf(all, i, now, retention);
      OverlappingIsMissed(all, i, retainSince, stuck, from, to, now, retention);
    }
  }

  lemma OverlappingIsMissed(
    all: seq<Segment>, i: nat, retainSince: real, stuck: set<string>, from: real, to: real, now: real, retention: int)
    requires i < |all| && retainSince <= to && Unlinked(all[i], retainSince, stuck)
    requires from < EndOf(all, i, now, retention)
    ensures all[i] in Selection(all, 0, from, to, now, retention)
    ensures all[i] !in Selection(Left(all, retainSince, stuck), 0, from, to, now, retention)
  {
    assert Overlaps(all, i, from, to, now, retention);
    SelectionIsFrom(all, 0, from, to, now, retention);
    var left := Left(all, retainSince, stuck);
    SelectionIsFrom(left, 0, from, to, now, retention);
    assert left[0..] == left;
    LeftMember(all, retainSince, stuck, all[i]);
  }

  /** The position after the last segment unlinked, 0 if there is none. */
  lemma LastUnlinked(all: seq<Segment>, retainSince: real, stuck: set<string>) returns (n: nat)
    ensures n <= |all| && (n > 0 ==> Unlinked(all[n - 1], retainSince, stuck))
    ensures forall i | n <= i < |all| :: !Unlinked(all[i], retainSince, stuck)
  {
    n := |all|;
    while n > 0 && !Unlinked(all[n - 1], retainSince, stuck)
      invariant n <= |all| && forall i | n <= i < |all| :: !Unlinked(all[i], retainSince, stuck)
    {
      n := n - 1;
    }
  }

  lemma {:induction false} LeftConcat(a: seq<Segment>, b: seq<Segment>, retainSince: real, stuck: set<string>)
    ensures Left(a + b, retainSince, stuck) == Left(a, retainSince, stuck) + Left(b, retainSince, stuck)
    decreases |a|
  {
    if a == [] {
      assert a + b == b;
    } else {
      var stays := if Unlinked(a[0], retainSince, stuck) then [] else [a[0]];
      assert (a + b)[0] == a[0] && (a + b)[1..] == a[1..] + b;
      LeftConcat(a[1..], b, retainSince, stuck);
      Assoc(stays, Left(a[1..], retainSince, stuck), Left(b, retainSince, stuck));
    }
  }

  lemma {:induction false} LeftOfKept(segments: seq<Segment>, retainSince: real, stuck: set<string>)
    requires forall i | 0 <= i < |segments| :: !Unlinked(segments[i], retainSince, stuck)
    ensures Left(segments, retainSince, stuck) == segments
    decreases |segments|
  {
    if segments == [] {
    } else {
      LeftOfKept(segments[1..], retainSince, stuck);
    }
  }

  lemma EndedDoNotMatter(
    all: seq<Segment>, retainSince: real, stuck: set<string>, from: real, to: real, now: real, retention: nat)
    requires InOrder(all) && EndedBy(all, retainSince, stuck, from, now, retention)
    requires forall s | s in all :: s.start <= now
    ensures Selection(Left(all, retainSince, stuck), 0, from, to, now, retention)
            == Selection(all, 0, from, to, now, retention)
  {
    var n, older := LeftSplits(all, retainSince, stuck);
    LeftInOrder(all, retainSince, stuck);
    if n == 0 {
      assert older + all[n..] == all;
    } else if n < |all| {
      assert EndOf(all, n - 1, now, retention) == all[n].start;
      SameAfterTheCut(all, n, older, from, to, now, retention);
    } else {
      assert older + all[n..] == older;
      EndedAltogether(all, older, from, to, now, retention);
    }
  }

  /** What stays is the rest after the last segment unlinked, and of what came before a part. */
  lemma LeftSplits(all: seq<Segment>, retainSince: real, stuck: set<string>) returns (n: nat, older: seq<Segment>)
    ensures n <= |all| && Left(all, retainSince, stuck) == older + all[n..]
    ensures n == 0 ==> older == []
    ensures n > 0 ==> Unlinked(all[n - 1], retainSince, stuck)
    ensures forall s | s in older :: s in all
  {
    n := LastUnlinked(all, retainSince, stuck);
    older := Left(all[..n], retainSince, stuck);
    LeftOfKept(all[n..], retainSince, stuck);
    LeftConcat(all[..n], all[n..], retainSince, stuck);
    LeftIsFrom(all[..n], retainSince, stuck);
    assert all[..n] + all[n..] == all;
  }

  /** Nothing reaches into the window before, and nothing of what stays does. */
  lemma EndedAltogether(
    all: seq<Segment>, older: seq<Segment>, from: real, to: real, now: real, retention: nat)
    requires InOrder(all) && InOrder(older) && all != [] && forall s | s in older :: s in all
    requires EndOf(all, |all| - 1, now, retention) <= from && forall s | s in all :: s.start <= now
    ensures Selection(older, 0, from, to, now, retention) == [] == Selection(all, 0, from, to, now, retention)
  {
    NothingOverlaps(all, 0, from, to, now, retention);
    if older != [] {
      OlderEndsEarlier(all, older[|older| - 1], now, retention);
      NothingOverlaps(older, 0, from, to, now, retention);
    }
  }

  /** As the last of a listing, no earlier segment would end later than the last one does. */
  lemma OlderEndsEarlier(all: seq<Segment>, s: Segment, now: real, retention: int)
    requires InOrder(all) && s in all
    ensures (if now < s.start + retention as real then now else s.start + retention as real)
            <= EndOf(all, |all| - 1, now, retention)
  {
    var k :| 0 <= k < |all| && all[k] == s;
    OrderAt(all, k, |all| - 1);
  }

  lemma {:induction false} NothingOverlaps(
    segments: seq<Segment>, i: nat, from: real, to: real, now: real, retention: nat)
    requires InOrder(segments) && i < |segments| && segments[|segments| - 1].start <= now
    requires EndOf(segments, |segments| - 1, now, retention) <= from
    ensures Selection(segments, i, from, to, now, retention) == []
    decreases |segments| - i
  {
    if i + 1 == |segments| {
    } else {
      OrderAt(segments, i + 1, |segments| - 1);
      assert segments[i + 1].start <= from;
      assert !Overlaps(segments, i, from, to, now, retention);
      NothingOverlaps(segments, i + 1, from, to, now, retention);
    }
  }

  /** The encoder kept its cadence: no segment spans more than the nominal time. */
  ghost predicate Regular(segments: seq<Segment>) {
    forall i | 0 <= i < |segments| - 1 :: segments[i + 1].start - segments[i].start <= SEGMENT_TIME
  }

  /**
   With the retention the settings derive from the window, for all pre- and post-event spans: as
   long as segments are regular and the newest is kept, a purge up to one segment past the window's
   end, even one that could not remove everything it should, leaves the selection exactly as it was.
   */
  lemma PurgeCommutesWithSelection(
    files: seq<File>, stuck: set<string>, anchor: real, pre: real, post: real, purgedAt: real, now: real,
    retention: int)
    requires InOrder(Segments(files)) && Regular(Segments(files)) && retention == Retention(pre, post)
    requires purgedAt <= anchor + post + SEGMENT_TIME
    requires Segments(files) != [] ==>
               purgedAt - retention as real <= Segments(files)[|Segments(files)| - 1].start
    ensures var from, to := anchor - pre, anchor + post;
            Selection(Segments(Purged(files, purgedAt, retention, stuck)), 0, from, to, now, retention)
            == Selection(Segments(files), 0, from, to, now, retention)
  {
    HorizonIsEarly(anchor, pre, post, purgedAt);
    KeptCommutes(files, stuck, purgedAt - retention as real, anchor - pre, anchor + post, now, retention);
  }

  lemma HorizonIsEarly(anchor: real, pre: real, post: real, purgedAt: real)
    requires purgedAt <= anchor + post + SEGMENT_TIME
    ensures purgedAt - Retention(pre, post) as real + SEGMENT_TIME <= anchor - pre
  {
    RetentionCovers(pre, post);
  }

  lemma KeptCommutes(
    files: seq<File>, stuck: set<string>, since: real, from: real, to: real, now: real, retention: int)
    requires InOrder(Segments(files)) && Regular(Segments(files)) && since + SEGMENT_TIME <= from
    requires Segments(files) != [] ==> since <= Segments(files)[|Segments(files)| - 1].start
    ensures Selection(Segments(Kept(files, since, stuck)), 0, from, to, now, retention)
            == Selection(Segments(files), 0, from, to, now, retention)
  {
    KeptIsLeft(files, since, stuck);
    LeftCommutes(Segments(files), since, stuck, from, to, now, retention);
  }

  /** A horizon one segment before the window is early enough for regular segments. */
  lemma LeftCommutes(
    all: seq<Segment>, since: real, stuck: set<string>, from: real, to: real, now: real, retention: int)
    requires InOrder(all) && Regular(all) && since + SEGMENT_TIME <= from
    requires all != [] ==> since <= all[|all| - 1].start
    ensures Selection(Left(all, since, stuck), 0, from, to, now, retention)
            == Selection(all, 0, from, to, now, retention)
  {
    var n, left := PurgeSplits(all, since, stuck);
    LeftInOrder(all, since, stuck);
    if n == 0 {
      assert left + all[0..] == all;
    } else {
      assert n < |all| && all[n].start - all[n - 1].start <= SEGMENT_TIME;
      SameAfterTheCut(all, n, left, from, to, now, retention);
    }
  }

  lemma SameAfterTheCut(
    all: seq<Segment>, n: nat, left: seq<Segment>, from: real, to: real, now: real, retention: int)
    requires InOrder(all) && n < |all| && all[n].start <= from && InOrder(left + all[n..])
    ensures Selection(left + all[n..], 0, from, to, now, retention) == Selection(all, 0, from, to, now, retention)
  {
    assert all[..n] + all[n..] == all;
    LeadIsIgnored(all[..n], all[n..], 0, from, to, now, retention);
    LeadIsIgnored(left, all[n..], 0, from, to, now, retention);
  }

  // ── Purging while the selection is read ──

  function Purged(files: seq<File>, time: real, retention: int, stuck: set<string>): seq<File> {
    Kept(files, time - retention as real, stuck)
  }

  /** The directory after purges at these times, by the settings' retention. */
  function AfterPurges(files: seq<File>, times: seq<real>, retention: int, stuck: set<string>): seq<File>
    decreases |times|
  {
    if times == [] then files
    else AfterPurges(Purged(files, times[0], retention, stuck), times[1..], retention, stuck)
  }

  predicate AllBy(times: seq<real>, limit: real) {
    forall i | 0 <= i < |times| :: times[i] <= limit
  }

  lemma PurgeMember(files: seq<File>, since: real, stuck: set<string>, s: Segment)
    ensures s in Segments(Kept(files, since, stuck)) <==> s in Segments(files) && !Unlinked(s, since, stuck)
  {
    KeptIsLeft(files, since, stuck);
    LeftMember(Segments(files), since, stuck, s);
  }

  lemma {:induction false} StaysUntil(
    files: seq<File>, times: seq<real>, retention: int, stuck: set<string>, s: Segment)
    requires s in Segments(files)
    ensures s in Segments(AfterPurges(files, times, retention, stuck))
            <==> s.name in stuck || AllBy(times, s.start + retention as real)
    decreases |times|
  {
    if times == [] {
    } else {
      var since := times[0] - retention as real;
      var kept := Purged(files, times[0], retention, stuck);
      var rest := times[1..];
      assert times == [times[0]] + rest;
      PurgeMember(files, since, stuck, s);
      if Unlinked(s, since, stuck) {
        NeverComesBack(kept, rest, retention, stuck, s);
      } else {
        StaysUntil(kept, rest, retention, stuck, s);
      }
    }
  }

  lemma {:induction false} NeverComesBack(
    files: seq<File>, times: seq<real>, retention: int, stuck: set<string>, s: Segment)
    requires s !in Segments(files)
    ensures s !in Segments(AfterPurges(files, times, retention, stuck))
    decreases |times|
  {
    if times == [] {
    } else {
      var kept := Purged(files, times[0], retention, stuck);
      PurgeMember(files, times[0] - retention as real, stuck, s);
      assert AfterPurges(files, times, retention, stuck) == AfterPurges(kept, times[1..], retention, stuck);
      NeverComesBack(kept, times[1..], retention, stuck, s);
    }
  }

  /** The first selected segment starts first. */
  lemma FirstSelected(segments: seq<Segment>, from: real, to: real, now: real, retention: int, s: Segment)
    requires InOrder(segments) && s in Selection(segments, 0, from, to, now, retention)
    ensures s in segments && Selection(segments, 0, from, to, now, retention)[0].start <= s.start
  {
    var lo, hi := SelectionIsARun(segments, 0, from, to, now, retention);
    var k :| lo <= k < hi && segments[k] == s;
    OrderAt(segments, lo, k);
  }

  /**
   ffmpeg reads the selected files while the recorder goes on purging. They are all on disk still
   exactly as long as no purge came later than a retention after the start of any that can be
   unlinked; and where all can, that is after the start of the first.
   */
  lemma SelectedStayIff(
    files: seq<File>, from: real, to: real, now: real, retention: int, stuck: set<string>, times: seq<real>,
    selected: seq<Segment>)
    requires InOrder(Segments(files)) && selected != []
    requires selected == Selection(Segments(files), 0, from, to, now, retention)
    ensures (forall s | s in selected :: s in Segments(AfterPurges(files, times, retention, stuck)))
            <==> forall s | s in selected && s.name !in stuck :: AllBy(times, s.start + retention as real)
    ensures selected[0].name !in stuck ==>
              ((forall s | s in selected && s.name !in stuck :: AllBy(times, s.start + retention as real))
               <==> AllBy(times, selected[0].start + retention as real))
  {
    forall s | s in selected
      ensures selected[0].start <= s.start
      ensures s in Segments(AfterPurges(files, times, retention, stuck))
              <==> s.name in stuck || AllBy(times, s.start + retention as real)
    {
      FirstSelected(Segments(files), from, to, now, retention, s);
      StaysUntil(files, times, retention, stuck, s);
    }
    assert selected[0] in selected;
    if AllBy(times, selected[0].start + retention as real) {
      forall s | s in selected ensures AllBy(times, s.start + retention as real) {
        Later(times, selected[0].start + retention as real, s.start + retention as real);
      }
    }
  }

  /** A segment that is not the last and reaches into the window starts at most a segment time before it. */
  lemma RegularStart(all: seq<Segment>, from: real, to: real, now: real, retention: int, selected: seq<Segment>)
    requires InOrder(all) && Regular(all) && selected == Selection(all, 0, from, to, now, retention)
    requires selected != [] && selected[0] != all[|all| - 1]
    ensures from - SEGMENT_TIME < selected[0].start
  {
    var lo, hi := SelectionIsARun(all, 0, from, to, now, retention);
    assert Overlaps(all, lo, from, to, now, retention);
    assert all[lo + 1].start - all[lo].start <= SEGMENT_TIME;
  }

  lemma RetentionCovers(pre: real, post: real)
    ensures pre + post + 2.0 * SEGMENT_TIME <= Retention(pre, post) as real
  {
  }

  lemma Later(times: seq<real>, limit: real, later: real)
    requires AllBy(times, limit) && limit <= later
    ensures AllBy(times, later)
  {
  }

  /** Purges up to a retention after the start of the first take nothing. */
  lemma SelectedStay(
    files: seq<File>, from: real, to: real, now: real, retention: int, stuck: set<string>, times: seq<real>,
    selected: seq<Segment>, limit: real)
    requires InOrder(Segments(files)) && selected != []
    requires selected == Selection(Segments(files), 0, from, to, now, retention)
    requires AllBy(times, limit) && limit <= selected[0].start + retention as real
    ensures forall s | s in selected :: s in Segments(AfterPurges(files, times, retention, stuck))
  {
    forall s | s in selected ensures s in Segments(AfterPurges(files, times, retention, stuck)) {
      FirstSelected(Segments(files), from, to, now, retention, s);
      Later(times, limit, s.start + retention as real);
      StaysUntil(files, times, retention, stuck, s);
    }
  }

  /** With the derived retention and regular segments that leaves ffmpeg more than one segment time. */
  lemma OneSegmentTimeToRead(
    files: seq<File>, anchor: real, pre: real, post: real, now: real, stuck: set<string>, times: seq<real>,
    selected: seq<Segment>)
    requires InOrder(Segments(files)) && Regular(Segments(files)) && selected != []
    requires selected == Selection(Segments(files), 0, anchor - pre, anchor + post, now, Retention(pre, post))
    requires selected[0] != Segments(files)[|Segments(files)| - 1]
    requires AllBy(times, anchor + post + SEGMENT_TIME)
    ensures forall s | s in selected :: s in Segments(AfterPurges(files, times, Retention(pre, post), stuck))
  {
    RetentionCovers(pre, post);
    OneSegmentLeft(files, anchor - pre, anchor + post, now, Retention(pre, post), stuck, times, selected);
  }

  lemma OneSegmentLeft(
    files: seq<File>, from: real, to: real, now: real, retention: int, stuck: set<string>, times: seq<real>,
    selected: seq<Segment>)
    requires InOrder(Segments(files)) && Regular(Segments(files)) && selected != []
    requires selected == Selection(Segments(files), 0, from, to, now, retention)
    requires selected[0] != Segments(files)[|Segments(files)| - 1]
    requires to - from + 2.0 * SEGMENT_TIME <= retention as real && AllBy(times, to + SEGMENT_TIME)
    ensures forall s | s in selected :: s in Segments(AfterPurges(files, times, retention, stuck))
  {
    RegularStart(Segments(files), from, to, now, retention, selected);
    SelectedStay(files, from, to, now, retention, stuck, times, selected, to + SEGMENT_TIME);
  }

  /** And it leaves hardly more: two seconds after the window's end a purge takes a file ffmpeg may be reading. */
  lemma SlowReadLosesASegment()
    ensures var a, b := Segment("a", 8.0), Segment("b", 9.0);
            var files := [File("a", Some(8.0)), File("b", Some(9.0))];
            && Segments(files) == [a, b]
            && a in Selection([a, b], 0, 8.5, 15.5, 15.5, Retention(2.0, 5.0))
            && a !in Segments(AfterPurges(files, [17.5], Retention(2.0, 5.0), {}))
  {
    var files := [File("a", Some(8.0)), File("b", Some(9.0))];
    var a, b := Segment("a", 8.0), Segment("b", 9.0);
    assert Retention(2.0, 5.0) == 9;
    assert files[1..] == [File("b", Some(9.0))] && files[1..][1..] == [];
    assert Segments(files[1..]) == [b];
    assert Segments(files) == [a, b];
    assert Overlaps([a, b], 0, 8.5, 15.5, 15.5, 9);
    SelectionIsFrom([a, b], 0, 8.5, 15.5, 15.5, 9);
    StaysUntil(files, [17.5], 9, {}, a);
    assert [17.5][0] > 8.0 + 9.0;
  }

  /** Regularity is needed: a segment stretched by a slow camera is purged although the window needs it. */
  lemma StretchedSegmentIsLost()
    ensures var files := [File("a", Some(7.0)), File("b", Some(11.0))];
      var retention := Retention(2.0, 5.0);
      var since := 17.0 - retention as real;
      && Segment("a", 7.0) in Selection(Segments(files), 0, 10.0, 17.0, 17.0, retention)
      && Segment("a", 7.0) !in Selection(Segments(Kept(files, since, {})), 0, 10.0, 17.0, 17.0, retention)
  {
    var a, b := File("a", Some(7.0)), File("b", Some(11.0));
    var files := [a, b];
    assert Retention(2.0, 5.0) == 9;
    assert Segments([b]) == [Segment("b", 11.0)] by { assert [b][1..] == []; }
    assert files[1..] == [b];
    assert Segments(files) == [Segment("a", 7.0), Segment("b", 11.0)];
    assert Kept([b], 8.0, {}) == [b] by { assert [b][1..] == []; }
    assert Kept(files, 8.0, {}) == [b];
  }
}
