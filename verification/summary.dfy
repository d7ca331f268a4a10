/**
 Label counts per hour or day (`summary` in recorder/main.py), in a zone of fixed offset. Times
 are seconds of UTC and days are numbered from the epoch in local time.
 */
module Summary {
  import opened Options

  const HOUR := 3600
  const DAY := 86400

  /** A member of a stored label list; only strings are counted. */
  datatype Label = Text(text: string) | Other

  datatype Labels = Undecodable | Members(members: seq<Label>)

  datatype Row = Row(at: int, labels: Labels)

  datatype Bucket = Bucket(start: int, total: nat, counts: map<string, nat>)

  datatype Fault = BadBucket | BadDate | Backwards

  // ── What is to be counted ──

  function Occurs(members: seq<Label>, text: string): nat {
    if members == [] then 0
    else Occurs(members[..|members| - 1], text) + if members[|members| - 1] == Text(text) then 1 else 0
  }

  function MembersOf(row: Row): seq<Label> {
    if row.labels.Undecodable? then [] else row.labels.members
  }

  /** The rows in [lo, hi). */
  function Total(rows: seq<Row>, lo: int, hi: int): nat {
    if rows == [] then 0
    else Total(rows[..|rows| - 1], lo, hi) + if lo <= rows[|rows| - 1].at < hi then 1 else 0
  }

  /** The occurrences of a label in the rows in [lo, hi). */
  function Tally(rows: seq<Row>, text: string, lo: int, hi: int): nat {
    if rows == [] then 0
    else
      Tally(rows[..|rows| - 1], text, lo, hi)
      + if lo <= rows[|rows| - 1].at < hi then Occurs(MembersOf(rows[|rows| - 1]), text) else 0
  }

  /** The SELECT: both bounds inclusive, the upper one a second before midnight. */
  function Fetched(table: seq<Row>, lo: int, hi: int): seq<Row> {
    if table == [] then []
    else
      var last := table[|table| - 1];
      Fetched(table[..|table| - 1], lo, hi) + if lo <= last.at <= hi - 1 then [last] else []
  }

  /** A bucket's figures are those of the rows in its interval; a label that does not occur has no entry. */
  ghost predicate Tells(b: Bucket, rows: seq<Row>, step: int) {
    && b.total == Total(rows, b.start, b.start + step)
    && forall text :: TellsLabel(b, rows, step, text)
  }

  predicate TellsLabel(b: Bucket, rows: seq<Row>, step: int, text: string) {
    Counts(b.counts, text, Tally(rows, text, b.start, b.start + step))
  }

  predicate Counts(counts: map<string, nat>, text: string, n: nat) {
    (text in counts <==> n > 0) && (text in counts ==> counts[text] == n)
  }

  // ── The counts are cardinalities ──

  function Places(fits: seq<bool>): set<int> {
    set i | 0 <= i < |fits| && fits[i]
  }

  lemma OneMorePlace(fits: seq<bool>, last: bool)
    ensures |Places(fits + [last])| == |Places(fits)| + if last then 1 else 0
  {
    assert Places(fits + [last]) == Places(fits) + if last then {|fits|} else {};
  }

  lemma {:induction false} OccursIs(members: seq<Label>, text: string)
    ensures Occurs(members, text) == |set j | 0 <= j < |members| && members[j] == Text(text)|
    decreases |members|
  {
    var fits := seq(|members|, j requires 0 <= j < |members| => members[j] == Text(text));
    assert Places(fits) == set j | 0 <= j < |members| && members[j] == Text(text);
    if members == [] {
    } else {
      var n := |members| - 1;
      OccursIs(members[..n], text);
      assert Places(fits[..n]) == set j | 0 <= j < n && members[..n][j] == Text(text);
      OneMorePlace(fits[..n], fits[n]);
      assert fits == fits[..n] + [fits[n]];
    }
  }

  lemma {:induction false} TotalIs(rows: seq<Row>, lo: int, hi: int)
    ensures Total(rows, lo, hi) == |set i | 0 <= i < |rows| && lo <= rows[i].at < hi|
    decreases |rows|
  {
    var fits := seq(|rows|, i requires 0 <= i < |rows| => lo <= rows[i].at < hi);
    assert Places(fits) == set i | 0 <= i < |rows| && lo <= rows[i].at < hi;
    if rows == [] {
    } else {
      var n := |rows| - 1;
      TotalIs(rows[..n], lo, hi);
      assert Places(fits[..n]) == set i | 0 <= i < n && lo <= rows[..n][i].at < hi;
      OneMorePlace(fits[..n], fits[n]);
      assert fits == fits[..n] + [fits[n]];
    }
  }

  /** The places at which the text stands among the labels of the rows in [lo, hi); undecodable labels have none. */
  function Mentions(rows: seq<Row>, text: string, lo: int, hi: int): set<(int, int)> {
    set i, j | 0 <= i < |rows| && lo <= rows[i].at < hi && rows[i].labels.Members?
               && 0 <= j < |rows[i].labels.members| && rows[i].labels.members[j] == Text(text) :: (i, j)
  }

  lemma {:induction false} TallyIs(rows: seq<Row>, text: string, lo: int, hi: int)
    ensures Tally(rows, text, lo, hi) == |Mentions(rows, text, lo, hi)|
    decreases |rows|
  {
    if rows == [] {
      assert Mentions(rows, text, lo, hi) == {};
    } else {
      var n := |rows| - 1;
      TallyIs(rows[..n], text, lo, hi);
      var here := if lo <= rows[n].at < hi then MembersOf(rows[n]) else [];
      var fits := seq(|here|, j requires 0 <= j < |here| => here[j] == Text(text));
      var places := set j | 0 <= j < |here| && here[j] == Text(text);
      OccursIs(here, text);
      assert places == Places(fits);
      Paired(fits, n);
      LastMentions(rows, text, lo, hi, places);
    }
  }

  lemma LastMentions(rows: seq<Row>, text: string, lo: int, hi: int, places: set<int>)
    requires rows != []
    requires var last := rows[|rows| - 1];
             var here := if lo <= last.at < hi then MembersOf(last) else [];
             places == set j | 0 <= j < |here| && here[j] == Text(text)
    ensures var n := |rows| - 1;
            && Mentions(rows, text, lo, hi) == Mentions(rows[..n], text, lo, hi) + (set j | j in places :: (n, j))
            && Mentions(rows[..n], text, lo, hi) !! (set j | j in places :: (n, j))
  {
  }

  lemma {:induction false} Paired(fits: seq<bool>, n: int)
    ensures |set j | j in Places(fits) :: (n, j)| == |Places(fits)|
    decreases |fits|
  {
    if fits == [] {
      assert (set j | j in Places(fits) :: (n, j)) == {} && Places(fits) == {};
    } else {
      var last := |fits| - 1;
      var before := fits[..last];
      Paired(before, n);
      assert fits == before + [fits[last]];
      OneMorePlace(before, fits[last]);
      assert (set j | j in Places(fits) :: (n, j))
          == (set j | j in Places(before) :: (n, j)) + if fits[last] then {(n, last)} else {};
    }
  }

  // ── The operation ──

  /** `from` and `to` are None when the query is not a date. */
  method Summarise(table: seq<Row>, from: Option<int>, to: Option<int>, bucket: string, offset: int)
      returns (result: Result<seq<Bucket>, Fault>)
    ensures result == Err(BadBucket) <==> bucket != "hour" && bucket != "day"
    ensures result == Err(BadDate) <==> (bucket == "hour" || bucket == "day") && (from.None? || to.None?)
    ensures result == Err(Backwards) <==>
            (bucket == "hour" || bucket == "day") && from.Some? && to.Some? && from.value > to.value
    ensures result.Ok? ==>
              var step := if bucket == "hour" then 3600 else 86400;
              && from.Some? && to.Some?
              && Tiles(result.result, from.value * 86400 - offset, (to.value + 1) * 86400 - offset, step)
              && forall b | b in result.result :: Tells(b, table, step)
  {
    if bucket != "hour" && bucket != "day" {
      return Err(BadBucket);
    }
    if from.None? || to.None? {
      return Err(BadDate);
    }
    var lo := from.value * DAY - offset;
    var hi := to.value * DAY - offset + DAY;
    if lo >= hi {
      return Err(Backwards);
    }
    var step := if bucket == "hour" then HOUR else DAY;
    var starts := Starts(lo, hi, step, offset);
    var rows := Fetched(table, lo, hi);
    var buckets := Filled(rows, starts, step, offset);
    forall j | 0 <= j < |starts| ensures starts[j] in buckets {
      assert starts[j] in starts;
    }
    var out := Listed(buckets, starts);
    forall b | b in out ensures Tells(b, table, step) {
      NextStart(b.start, hi, step, offset);
      TellsTheTable(b, table, lo, hi, step);
    }
    return Ok(out);
  }

  method Listed(buckets: map<int, Bucket>, starts: seq<int>) returns (out: seq<Bucket>)
    requires forall j | 0 <= j < |starts| :: starts[j] in buckets
    ensures |out| == |starts| && forall j | 0 <= j < |out| :: out[j] == buckets[starts[j]]
    ensures forall b | b in out :: exists s | s in starts && s in buckets :: b == buckets[s]
  {
    out := [];
    for i := 0 to |starts|
      invariant |out| == i && forall j | 0 <= j < i :: out[j] == buckets[starts[j]]
    {
      out := out + [buckets[starts[i]]];
    }
    forall b | b in out ensures exists s | s in starts && s in buckets :: b == buckets[s] {
      var j :| 0 <= j < |out| && out[j] == b;
      var s := starts[j];
      assert s in starts && s in buckets && b == buckets[s];
    }
  }

  /** Adjacent intervals of one length, from lo up to hi. */
  predicate Tiles(buckets: seq<Bucket>, lo: int, hi: int, step: int) {
    && buckets != [] && buckets[0].start == lo && buckets[|buckets| - 1].start + step == hi
    && forall i | 0 <= i < |buckets| - 1 :: buckets[i + 1].start == buckets[i].start + step
  }

  /** A local hour or day starts at s. */
  predicate OnGrid(s: int, step: int, offset: int)
    requires step > 0
  {
    (s + offset) % step == 0
  }

  /** The loop over `cur`: the keys of the dictionary in order of insertion. */
  method Starts(lo: int, hi: int, step: int, offset: int) returns (starts: seq<int>)
    requires lo < hi && (step == HOUR || step == DAY)
    requires (lo + offset) % DAY == 0 && (hi + offset) % DAY == 0
    ensures starts != [] && starts[0] == lo && starts[|starts| - 1] + step == hi
    ensures forall i | 0 <= i < |starts| - 1 :: starts[i + 1] == starts[i] + step
    ensures forall s: int :: s in starts <==> lo <= s < hi && OnGrid(s, step, offset)
  {
    starts := [];
    var cur := lo;
    while cur < hi
      invariant lo <= cur <= hi && OnGrid(cur, step, offset)
      invariant starts == [] <==> cur == lo
      invariant starts != [] ==> starts[0] == lo && starts[|starts| - 1] + step == cur
      invariant forall i | 0 <= i < |starts| - 1 :: starts[i + 1] == starts[i] + step
      invariant forall s: int :: s in starts <==> lo <= s < cur && OnGrid(s, step, offset)
    {
      NextStart(cur, hi, step, offset);
      forall s: int | cur <= s < cur + step && OnGrid(s, step, offset) ensures s == cur {
        BucketOf(s, cur, step, offset);
      }
      starts := starts + [cur];
      cur := cur + step;
    }
  }

  lemma NextStart(cur: int, hi: int, step: int, offset: int)
    requires step == HOUR || step == DAY
    requires OnGrid(cur, step, offset) && (hi + offset) % DAY == 0 && cur < hi
    ensures cur + step <= hi && OnGrid(cur + step, step, offset)
  {
    if step == HOUR {
      NextHour(cur + offset, hi + offset);
    } else {
      NextDay(cur + offset, hi + offset);
    }
  }

  lemma NextHour(local: int, midnight: int)
    requires local % HOUR == 0 && midnight % DAY == 0 && local < midnight
    ensures local + HOUR <= midnight && (local + HOUR) % HOUR == 0
  {
    var days, hours := midnight / DAY, local / HOUR;
    assert midnight == HOUR * (24 * days) && local == HOUR * hours;
  }

  lemma NextDay(local: int, midnight: int)
    requires local % DAY == 0 && midnight % DAY == 0 && local < midnight
    ensures local + DAY <= midnight && (local + DAY) % DAY == 0
  {
  }

  /** A time lies in the bucket that its local hour or day opens, and in no other. */
  lemma BucketOf(at: int, start: int, step: int, offset: int)
    requires (step == HOUR || step == DAY) && OnGrid(start, step, offset)
    ensures start <= at < start + step <==> start == at - (at + offset) % step
  {
    if step == HOUR {
    } else {
    }
  }

  /** The rows loop over the dictionary of buckets. */
  method Filled(rows: seq<Row>, starts: seq<int>, step: int, offset: int) returns (buckets: map<int, Bucket>)
    requires step == HOUR || step == DAY
    requires forall s | s in starts :: OnGrid(s, step, offset)
    ensures forall s | s in starts :: s in buckets && buckets[s].start == s && Tells(buckets[s], rows, step)
  {
    buckets := map s | s in starts :: Bucket(s, 0, map[]);
    for k := 0 to |rows|
      invariant forall s :: s in buckets <==> s in starts
      invariant forall s | s in buckets :: buckets[s].start == s && Tells(buckets[s], rows[..k], step)
    {
      var row := rows[k];
      var start := row.at - (row.at + offset) % step;
      ghost var before := buckets;
      if start in buckets {
        var counts := Added(buckets[start].counts, MembersOf(row));
        buckets := buckets[start := Bucket(start, buckets[start].total + 1, counts)];
      }
      forall s | s in buckets ensures buckets[s].start == s && Tells(buckets[s], rows[..k + 1], step) {
        BucketOf(row.at, s, step, offset);
        OneMore(rows, k, s, s + step);
        assert Tells(before[s], rows[..k], step);
        if s == start {
          RowTells(before[s], buckets[s], rows, k, step);
        } else {
          OtherRowTells(buckets[s], rows, k, step);
        }
      }
    }
    assert rows[..|rows|] == rows;
  }

  lemma OneMore(rows: seq<Row>, k: nat, lo: int, hi: int)
    requires k < |rows|
    ensures Total(rows[..k + 1], lo, hi) == Total(rows[..k], lo, hi) + if lo <= rows[k].at < hi then 1 else 0
    ensures forall text ::
              Tally(rows[..k + 1], text, lo, hi)
              == Tally(rows[..k], text, lo, hi) + if lo <= rows[k].at < hi then Occurs(MembersOf(rows[k]), text) else 0
  {
    assert rows[..k + 1][..k] == rows[..k];
  }

  /** A dictionary of counts has no entry at zero. */
  predicate Proper(counts: map<string, nat>) {
    forall text | text in counts :: counts[text] > 0
  }

  function CountOf(counts: map<string, nat>, text: string): nat {
    if text in counts then counts[text] else 0
  }

  /** The inner loop over one row's labels. */
  method Added(counts: map<string, nat>, members: seq<Label>) returns (more: map<string, nat>)
    ensures Proper(counts) ==> Proper(more)
    ensures forall text :: CountOf(more, text) == CountOf(counts, text) + Occurs(members, text)
  {
    more := counts;
    for i := 0 to |members|
      invariant Proper(counts) ==> Proper(more)
      invariant forall text :: CountOf(more, text) == CountOf(counts, text) + Occurs(members[..i], text)
    {
      OneMember(members, i);
      if members[i].Text? {
        var text := members[i].text;
        more := more[text := 1 + if text in more then more[text] else 0];
      }
    }
    assert members[..|members|] == members;
  }

  lemma OneMember(members: seq<Label>, i: nat)
    requires i < |members|
    ensures forall text ::
              Occurs(members[..i + 1], text) == Occurs(members[..i], text) + if members[i] == Text(text) then 1 else 0
  {
    assert members[..i + 1][..i] == members[..i];
  }

  /** A bucket is none the worse for a row of another's. */
  lemma OtherRowTells(b: Bucket, rows: seq<Row>, k: nat, step: int)
    requires k < |rows| && Tells(b, rows[..k], step) && !(b.start <= rows[k].at < b.start + step)
    ensures Tells(b, rows[..k + 1], step)
  {
    OneMore(rows, k, b.start, b.start + step);
    var upTo := rows[..k + 1];
    forall text ensures TellsLabel(b, upTo, step, text) {
      assert TellsLabel(b, rows[..k], step, text);
    }
  }

  /** A bucket that got one more row tells all labels. */
  lemma RowTells(prior: Bucket, next: Bucket, rows: seq<Row>, k: nat, step: int)
    requires k < |rows| && step > 0 && Tells(prior, rows[..k], step)
    requires next.start == prior.start <= rows[k].at < prior.start + step
    requires next.total == prior.total + 1 && (Proper(prior.counts) ==> Proper(next.counts))
    requires forall text :: CountOf(next.counts, text) == CountOf(prior.counts, text) + Occurs(MembersOf(rows[k]), text)
    ensures Tells(next, rows[..k + 1], step)
  {
    assert Proper(prior.counts) by {
      forall text | text in prior.counts ensures prior.counts[text] > 0 {
        assert TellsLabel(prior, rows[..k], step, text);
      }
    }
    OneMore(rows, k, prior.start, prior.start + step);
    var upTo := rows[..k + 1];
    forall text ensures TellsLabel(next, upTo, step, text) {
      assert TellsLabel(prior, rows[..k], step, text);
    }
  }

  lemma TellsTheTable(b: Bucket, table: seq<Row>, lo: int, hi: int, step: int)
    requires lo <= b.start && b.start + step <= hi && Tells(b, Fetched(table, lo, hi), step)
    ensures Tells(b, table, step)
  {
    SelectLosesNothing(table, lo, hi, b.start, b.start + step);
    forall text ensures TellsLabel(b, table, step, text) {
      assert TellsLabel(b, Fetched(table, lo, hi), step, text);
    }
  }

  lemma {:induction false} SelectLosesNothing(table: seq<Row>, lo: int, hi: int, a: int, b: int)
    requires lo <= a && b <= hi
    ensures Total(Fetched(table, lo, hi), a, b) == Total(table, a, b)
    ensures forall text :: Tally(Fetched(table, lo, hi), text, a, b) == Tally(table, text, a, b)
    decreases |table|
  {
    if table == [] {
    } else {
      var rest := Fetched(table[..|table| - 1], lo, hi);
      SelectLosesNothing(table[..|table| - 1], lo, hi, a, b);
      var last := table[|table| - 1];
      if lo <= last.at <= hi - 1 {
        assert Fetched(table, lo, hi) == rest + [last];
        assert (rest + [last])[..|rest|] == rest;
      } else {
        assert Fetched(table, lo, hi) == rest;
      }
    }
  }

  // ── The figures add up ──

  function SumOfTotals(buckets: seq<Bucket>): nat {
    if buckets == [] then 0 else SumOfTotals(buckets[..|buckets| - 1]) + buckets[|buckets| - 1].total
  }

  function CountIn(b: Bucket, text: string): nat {
    CountOf(b.counts, text)
  }

  function SumOfCounts(buckets: seq<Bucket>, text: string): nat {
    if buckets == [] then 0
    else SumOfCounts(buckets[..|buckets| - 1], text) + CountIn(buckets[|buckets| - 1], text)
  }

  /** Every row asked for is in exactly one bucket: totals and label counts sum to those of the whole range. */
  lemma {:induction false} FiguresAddUp(buckets: seq<Bucket>, rows: seq<Row>, lo: int, hi: int, step: int, text: string)
    requires step > 0 && Tiles(buckets, lo, hi, step)
    requires forall b | b in buckets :: Tells(b, rows, step)
    ensures lo < hi
    ensures SumOfTotals(buckets) == Total(rows, lo, hi)
    ensures SumOfCounts(buckets, text) == Tally(rows, text, lo, hi)
    decreases |buckets|
  {
    var last := buckets[|buckets| - 1];
    var init := buckets[..|buckets| - 1];
    assert last in buckets && Tells(last, rows, step);
    assert TellsLabel(last, rows, step, text);
    if init == [] {
      assert SumOfTotals(init) == 0 && SumOfCounts(init, text) == 0;
    } else {
      assert init[|init| - 1].start + step == last.start;
      FiguresAddUp(init, rows, lo, last.start, step, text);
      RangesAdd(rows, text, lo, last.start, hi);
    }
  }

  lemma {:induction false} RangesAdd(rows: seq<Row>, text: string, a: int, b: int, c: int)
    requires a <= b <= c
    ensures Total(rows, a, c) == Total(rows, a, b) + Total(rows, b, c)
    ensures Tally(rows, text, a, c) == Tally(rows, text, a, b) + Tally(rows, text, b, c)
    decreases |rows|
  {
    if rows == [] {
    } else {
      RangesAdd(rows[..|rows| - 1], text, a, b, c);
    }
  }

  /** The totals sum to the number of rows the query fetched. */
  lemma {:induction false} TotalIsFetched(table: seq<Row>, lo: int, hi: int)
    ensures Total(table, lo, hi) == |Fetched(table, lo, hi)|
    decreases |table|
  {
    if table == [] {
    } else {
      TotalIsFetched(table[..|table| - 1], lo, hi);
    }
  }
}
