/**
 Capacity pruning of the clip store (recorder/clip_storage.py) and of the event history that
 names the pruned clips (recorder/finalize.py, recorder/events_db.py), run alone.
 */
module ClipStorage {
  import opened Options

  const MIN_CLIP_SIZE := 10240

  /** Where a clip lives; its sidecar has the same place and stem. */
  datatype Path = Path(dir: string, name: string)

  datatype Clip = Clip(size: nat, mtime: int)

  datatype Event = Event(id: nat, clip: Option<string>)

  datatype Policy = Policy(minFree: nat, targetFree: nat)

  datatype Reason = Enough | PrunedOldClips | LowDiskSpace

  datatype Outcome = Outcome(ok: bool, reason: Reason, freeBytes: nat, deletedFiles: nat, deletedBytes: nat)

  type Clips = map<Path, Clip>
  type Sidecars = map<Path, nat>

  /** `list_clip_files`: every clip once, oldest first; clips of equal age in any order. */
  ghost predicate IsListing(listing: seq<Path>, clips: Clips) {
    && (forall p :: p in listing <==> p in clips)
    && Distinct(listing)
    && (forall i, j | 0 <= i < j < |listing| :: clips[listing[i]].mtime <= clips[listing[j]].mtime)
  }

  ghost predicate Distinct(paths: seq<Path>) {
    forall i, j | 0 <= i < j < |paths| :: paths[i] != paths[j]
  }

  /** Bytes a clip and its sidecar take. */
  function PairBytes(p: Path, clips: Clips, sidecars: Sidecars): nat {
    (if p in clips then clips[p].size else 0) + (if p in sidecars then sidecars[p] else 0)
  }

  function TotalBytes(paths: seq<Path>, clips: Clips, sidecars: Sidecars): nat {
    if paths == [] then 0
    else TotalBytes(paths[..|paths| - 1], clips, sidecars) + PairBytes(paths[|paths| - 1], clips, sidecars)
  }

  /** The local time of an event as strftime and the milliseconds write it: year, month and what follows. */
  datatype Stamp = Stamp(year: string, month: string, rest: string)

  /** `_event_base_name`: the directory is year and month, and the name starts with the same two. */
  ghost predicate Recorded(p: Path) {
    exists stamp: Stamp ::
      && |stamp.year| == 4 && |stamp.month| == 2
      && IsPathOf(p, stamp)
  }

  ghost predicate AllRecorded(paths: set<Path>) {
    forall p | p in paths :: Recorded(p)
  }

  predicate IsPathOf(p: Path, stamp: Stamp) {
    p == Path(stamp.year + "/" + stamp.month, stamp.year + stamp.month + stamp.rest + ".mp4")
  }

  function SetOf(paths: seq<Path>): set<Path> {
    set p | p in paths
  }

  function Names(paths: set<Path>): set<string> {
    set p | p in paths :: p.name
  }

  /**
   n is the number of clips a pruning has to delete: the listing is used up or the target is
   reached, and no shorter non-empty prefix reaches it.
   */
  ghost predicate IsPruneLength(
    n: nat, listing: seq<Path>, clips: Clips, sidecars: Sidecars, free: nat, target: nat)
  {
    && n <= |listing| && (listing != [] ==> n > 0)
    && (n == |listing| || free + TotalBytes(listing[..n], clips, sidecars) >= target)
    && forall m | 0 < m < n :: free + TotalBytes(listing[..m], clips, sidecars) < target
  }

  /** The counter after a removal: damaged clips do not count, and it never goes below zero. */
  function Discounted(count: nat, size: nat): nat {
    if size < MIN_CLIP_SIZE || count == 0 then count else count - 1
  }

  /** The rows left by deleting those that name one of the clips. */
  function WithoutRows(events: seq<Event>, names: set<string>): seq<Event> {
    if events == [] then []
    else (if events[0].clip.Some? && events[0].clip.value in names then [] else [events[0]])
         + WithoutRows(events[1..], names)
  }

  class ClipStore {
    var clips: Clips
    var sidecars: Sidecars
    var free: nat
    var count: nat
    var events: seq<Event>

    constructor (clips: Clips, sidecars: Sidecars, free: nat, count: nat, events: seq<Event>)
      ensures this.clips == clips && this.sidecars == sidecars && this.free == free
      ensures this.count == count && this.events == events
    {
      this.clips, this.sidecars, this.free, this.count, this.events := clips, sidecars, free, count, events;
    }

    /** `delete_clip_pair`: whatever of the pair exists goes, and its bytes become free. */
    method DeletePair(path: Path) returns (bytes: nat)
      modifies this`clips, this`sidecars, this`free, this`count
      ensures clips == old(clips) - {path} && sidecars == old(sidecars) - {path}
      ensures bytes == PairBytes(path, old(clips), old(sidecars)) && free == old(free) + bytes
      ensures bytes == (if path in old(clips) then old(clips)[path].size else 0)
                       + (if path in old(sidecars) then old(sidecars)[path] else 0)
      ensures path in old(clips) && old(clips)[path].size >= 10240 && old(count) > 0 ==> count == old(count) - 1
      ensures path !in old(clips) || old(clips)[path].size < 10240 || old(count) == 0 ==> count == old(count)
      ensures count == if path in old(clips) then Discounted(old(count), old(clips)[path].size) else old(count)
    {
      bytes := 0;
      if path in clips {
        bytes := clips[path].size;
        if clips[path].size >= MIN_CLIP_SIZE {
          count := if count == 0 then 0 else count - 1;
        }
        clips := clips - {path};
      }
      if path in sidecars {
        bytes := bytes + sidecars[path];
        sidecars := sidecars - {path};
      }
      free := free + bytes;
    }

    /** `ensure_clip_capacity`. */
    method EnsureCapacity(listing: seq<Path>, policy: Policy) returns (result: Outcome)
      requires IsListing(listing, clips)
      modifies this`clips, this`sidecars, this`free, this`count
      // Enough space: nothing happens.
      ensures old(free) >= policy.minFree ==>
        && result == Outcome(true, Enough, old(free), 0, 0)
        && clips == old(clips) && sidecars == old(sidecars) && count == old(count)
      // Otherwise exactly the shortest oldest-first prefix that reaches the target goes.
      ensures old(free) < policy.minFree ==>
        var target := if policy.minFree < policy.targetFree then policy.targetFree else policy.minFree;
        && IsPruneLength(result.deletedFiles, listing, old(clips), old(sidecars), old(free), target)
        && var gone := listing[..result.deletedFiles];
           && clips == old(clips) - SetOf(gone) && sidecars == old(sidecars) - SetOf(gone)
           && result.deletedBytes == TotalBytes(gone, old(clips), old(sidecars))
      ensures result.deletedFiles <= |listing| && clips == old(clips) - SetOf(listing[..result.deletedFiles])
      ensures free == old(free) + result.deletedBytes && result.freeBytes == free
      ensures result.ok <==> free >= policy.minFree
      ensures !result.ok ==> clips == map[] && result.reason == LowDiskSpace
    {
      if free >= policy.minFree {
        assert SetOf(listing[..0]) == {};
        return Outcome(true, Enough, free, 0, 0);
      }
      var target := if policy.minFree < policy.targetFree then policy.targetFree else policy.minFree;
      ghost var clips0 := clips;
      var files, bytes := PruneUntil(listing, target);
      if files == |listing| {
        AllGone(listing, clips0);
      }
      result := if free >= policy.minFree
        then Outcome(true, if files > 0 then PrunedOldClips else Enough, free, files, bytes)
        else Outcome(false, LowDiskSpace, free, files, bytes);
    }

    /** The pruning loop of `ensure_clip_capacity`: oldest first, until the target or the end of the listing. */
    method PruneUntil(listing: seq<Path>, target: nat) returns (files: nat, bytes: nat)
      requires Distinct(listing)
      modifies this`clips, this`sidecars, this`free, this`count
      ensures IsPruneLength(files, listing, old(clips), old(sidecars), old(free), target)
      ensures clips == old(clips) - SetOf(listing[..files]) && sidecars == old(sidecars) - SetOf(listing[..files])
      ensures bytes == TotalBytes(listing[..files], old(clips), old(sidecars)) && free == old(free) + bytes
    {
      files, bytes := 0, 0;
      assert SetOf(listing[..0]) == {};
      while files < |listing|
        invariant files <= |listing| && free == old(free) + bytes
        invariant clips == old(clips) - SetOf(listing[..files])
        invariant sidecars == old(sidecars) - SetOf(listing[..files])
        invariant bytes == TotalBytes(listing[..files], old(clips), old(sidecars))
        invariant forall m | 0 < m <= files :: old(free) + TotalBytes(listing[..m], old(clips), old(sidecars)) < target
        decreases |listing| - files
      {
        PrefixGrows(listing, files, old(clips), old(sidecars));
        var more := DeletePair(listing[files]);
        files, bytes := files + 1, bytes + more;
        if free >= target {
          break;
        }
      }
    }

    /** `delete_events_for_clips`. */
    method DeleteEvents(names: set<string>) returns (deleted: nat)
      modifies this`events
      ensures events == WithoutRows(old(events), names) && |old(events)| == |events| + deleted
    {
      var kept: seq<Event> := [];
      for i := 0 to |events|
        invariant events == old(events)
        invariant kept + WithoutRows(events[i..], names) == WithoutRows(events, names)
        invariant |kept| <= i
      {
        assert events[i..][0] == events[i] && events[i..][1..] == events[i + 1..];
        if !(events[i].clip.Some? && events[i].clip.value in names) {
          assert kept + ([events[i]] + WithoutRows(events[i + 1..], names))
              == kept + [events[i]] + WithoutRows(events[i + 1..], names);
          kept := kept + [events[i]];
        }
      }
      deleted := |events| - |kept|;
      events := kept;
    }

    /** `_prune_with_history`: the names gone from the listing are the names gone from the history. */
    method PruneWithHistory(listing: seq<Path>, policy: Policy) returns (result: Outcome)
      requires IsListing(listing, clips)
      modifies this
      ensures clips.Keys <= old(clips).Keys && forall p | p in clips :: clips[p] == old(clips)[p]
      ensures |old(clips)| == |clips| + result.deletedFiles
      ensures events == WithoutRows(old(events), Names(old(clips).Keys) - Names(clips.Keys))
      // With no foreign clip about, the rows lost are exactly those that name a pruned clip.
      ensures AllRecorded(old(clips).Keys) ==>
                events == WithoutRows(old(events), Names(old(clips).Keys - clips.Keys))
      ensures forall p, q | p in old(clips) && p !in clips && q in clips :: old(clips)[p].mtime <= clips[q].mtime
      ensures result.ok <==> free >= policy.minFree
      ensures !result.ok ==> clips == map[]
      ensures free == old(free) + result.deletedBytes
    {
      var before := Names(clips.Keys);
      ghost var clips0 := clips;
      result := PruneClips(listing, policy);
      if result.deletedFiles > 0 {
        var rows := DeleteEvents(before - Names(clips.Keys));
      } else {
        NothingPruned(clips, events);
      }
      RecordedLossIsExact(clips0.Keys, clips.Keys);
    }

    /** What a pruning means for the directory as a whole. */
    method PruneClips(listing: seq<Path>, policy: Policy) returns (result: Outcome)
      requires IsListing(listing, clips)
      modifies this`clips, this`sidecars, this`free, this`count
      ensures clips.Keys <= old(clips).Keys && forall p | p in clips :: clips[p] == old(clips)[p]
      ensures |old(clips)| == |clips| + result.deletedFiles && (result.deletedFiles == 0 ==> clips == old(clips))
      ensures forall p, q | p in old(clips) && p !in clips && q in clips :: old(clips)[p].mtime <= clips[q].mtime
      ensures result.ok <==> free >= policy.minFree
      ensures !result.ok ==> clips == map[]
      ensures free == old(free) + result.deletedBytes
    {
      ghost var clips0 := clips;
      result := EnsureCapacity(listing, policy);
      PrunedAreOldest(listing, clips0, result.deletedFiles);
      PrunedAreCounted(listing, clips0, result.deletedFiles);
      assert SetOf(listing[..0]) == {};
    }
  }

  lemma NothingPruned(clips: Clips, events: seq<Event>)
    ensures WithoutRows(events, Names(clips.Keys) - Names(clips.Keys)) == events
  {
    assert Names(clips.Keys) - Names(clips.Keys) == {};
    NoRowsToDelete(events);
  }

  /** One more clip off the front of the listing: the pair is still whole, and the rest adds up. */
  lemma PrefixGrows(listing: seq<Path>, n: nat, clips: Clips, sidecars: Sidecars)
    requires n < |listing| && Distinct(listing)
    ensures var gone, more := SetOf(listing[..n]), SetOf(listing[..n + 1]);
      && clips - gone - {listing[n]} == clips - more && sidecars - gone - {listing[n]} == sidecars - more
      && PairBytes(listing[n], clips - gone, sidecars - gone) == PairBytes(listing[n], clips, sidecars)
    ensures TotalBytes(listing[..n + 1], clips, sidecars)
            == TotalBytes(listing[..n], clips, sidecars) + PairBytes(listing[n], clips, sidecars)
  {
    assert listing[..n + 1][..n] == listing[..n];
    assert listing[..n + 1] == listing[..n] + [listing[n]];
    assert SetOf(listing[..n + 1]) == SetOf(listing[..n]) + {listing[n]};
    assert listing[n] !in listing[..n];
  }

  lemma AllGone(listing: seq<Path>, clips: Clips)
    requires IsListing(listing, clips)
    ensures clips - SetOf(listing[..|listing|]) == map[]
  {
    assert listing[..|listing|] == listing;
  }

  lemma {:induction false} NoRowsToDelete(events: seq<Event>)
    ensures WithoutRows(events, {}) == events
    decreases |events|
  {
    if events == [] {
    } else {
      NoRowsToDelete(events[1..]);
    }
  }

  lemma PrunedAreOldest(listing: seq<Path>, clips: Clips, n: nat)
    requires IsListing(listing, clips) && n <= |listing|
    ensures var left := clips - SetOf(listing[..n]);
      forall p, q | p in clips && p !in left && q in left :: clips[p].mtime <= left[q].mtime
  {
    var left := clips - SetOf(listing[..n]);
    forall p, q | p in clips && p !in left && q in left ensures clips[p].mtime <= left[q].mtime {
      assert p in listing[..n] && q in listing && q !in listing[..n];
      var i :| 0 <= i < n && listing[i] == p;
      var j :| 0 <= j < |listing| && listing[j] == q;
    }
  }

  lemma PrunedAreCounted(listing: seq<Path>, clips: Clips, n: nat)
    requires IsListing(listing, clips) && n <= |listing|
    ensures |clips| == |clips - SetOf(listing[..n])| + n
  {
    var gone := SetOf(listing[..n]);
    DistinctCardinality(listing[..n]);
    forall p | p in gone ensures p in clips {
      assert p in listing;
    }
    KeysSplit(clips, gone);
  }

  lemma KeysSplit(clips: Clips, gone: set<Path>)
    requires gone <= clips.Keys
    ensures |clips| == |clips - gone| + |gone|
  {
    assert clips.Keys == (clips - gone).Keys + gone && (clips - gone).Keys !! gone;
  }

  lemma {:induction false} DistinctCardinality(paths: seq<Path>)
    requires Distinct(paths)
    ensures |SetOf(paths)| == |paths|
    decreases |paths|
  {
    if paths == [] {
    } else {
      var n := |paths| - 1;
      DistinctCardinality(paths[..n]);
      assert paths == paths[..n] + [paths[n]];
      assert SetOf(paths) == SetOf(paths[..n]) + {paths[n]};
    }
  }

  /** There is only one such prefix, so the pruning is determined by sizes, target and age order. */
  lemma PruneLengthIsUnique(
    n: nat, m: nat, listing: seq<Path>, clips: Clips, sidecars: Sidecars, free: nat, target: nat)
    requires IsPruneLength(n, listing, clips, sidecars, free, target)
    requires IsPruneLength(m, listing, clips, sidecars, free, target)
    ensures n == m
  {
  }

  /** What deleting rows by name leaves: in order, the rows that name none of the clips. */
  lemma {:induction false} RowsLeft(events: seq<Event>, names: set<string>)
    ensures forall e ::
              e in WithoutRows(events, names) <==> e in events && !(e.clip.Some? && e.clip.value in names)
    decreases |events|
  {
    if events == [] {
    } else {
      RowsLeft(events[1..], names);
      assert events == [events[0]] + events[1..];
    }
  }

  /** Row by row: each stays or goes for itself, and what stays keeps its order. */
  lemma {:induction false} RowsAreJudgedSingly(first: seq<Event>, row: Event, rest: seq<Event>, names: set<string>)
    ensures WithoutRows(first + [row] + rest, names)
            == WithoutRows(first, names)
               + (if row.clip.Some? && row.clip.value in names then [] else [row])
               + WithoutRows(rest, names)
    decreases |first|
  {
    var all := first + [row] + rest;
    var here: seq<Event> := if row.clip.Some? && row.clip.value in names then [] else [row];
    if first == [] {
      assert all[0] == row && all[1..] == rest;
      assert [] + here + WithoutRows(rest, names) == here + WithoutRows(rest, names);
    } else {
      RowsAreJudgedSingly(first[1..], row, rest, names);
      assert all[0] == first[0] && all[1..] == first[1..] + [row] + rest;
      var head: seq<Event> := if first[0].clip.Some? && first[0].clip.value in names then [] else [first[0]];
      Reassociate(head, WithoutRows(first[1..], names), here, WithoutRows(rest, names));
    }
  }

  lemma Reassociate<T>(a: seq<T>, b: seq<T>, c: seq<T>, d: seq<T>)
    ensures a + (b + c + d) == a + b + c + d
  {
  }

  /** A recorder's name determines its directory, so no two of its clips share a name. */
  lemma RecordedNamesAreUnique(p: Path, q: Path)
    requires Recorded(p) && Recorded(q) && p.name == q.name
    ensures p == q
  {
    var a: Stamp :| |a.year| == 4 && |a.month| == 2 && IsPathOf(p, a);
    var b: Stamp :| |b.year| == 4 && |b.month| == 2 && IsPathOf(q, b);
    assert p.name[..4] == a.year && q.name[..4] == b.year;
    assert p.name[4..6] == a.month && q.name[4..6] == b.month;
  }

  lemma RecordedLossIsExact(before: set<Path>, after: set<Path>)
    requires after <= before
    ensures AllRecorded(before) ==> Names(before) - Names(after) == Names(before - after)
  {
    if AllRecorded(before) {
      forall n ensures n in Names(before) - Names(after) <==> n in Names(before - after) {
        if n in Names(before - after) {
          var p :| p in before - after && p.name == n;
          if q :| q in after && q.name == n {
            RecordedNamesAreUnique(p, q);
          }
        } else if p :| p in before && p.name == n {
          assert p !in before - after;
        }
      }
    }
  }

  /**
   With foreign clips about, the history is cleared by name and not by place: it loses exactly the
   rows that name a pruned clip if and only if no surviving clip has the name of a pruned one.
   */
  lemma HistoryLossIsExactIff(before: set<Path>, after: set<Path>)
    requires after <= before
    ensures (forall events ::
              WithoutRows(events, Names(before) - Names(after)) == WithoutRows(events, Names(before - after)))
      <==> Names(before - after) !! Names(after)
  {
    if Names(before - after) !! Names(after) {
      assert Names(before) - Names(after) == Names(before - after) by {
        forall n | n in Names(before) && n !in Names(after) ensures n in Names(before - after) {
          var p :| p in before && p.name == n;
          assert p in before - after;
        }
      }
    } else {
      var n :| n in Names(before - after) && n in Names(after);
      var row := [Event(0, Some(n))];
      assert row[1..] == [];
      assert WithoutRows(row, Names(before) - Names(after)) == row;
      assert WithoutRows(row, Names(before - after)) == [];
    }
  }
}
