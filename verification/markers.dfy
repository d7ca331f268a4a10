/**
 Where a generated text is cut (`_child_run_inference` in analyzer/vlm_worker.py): at every stop
 token and roleplay artifact in turn, and then stripped.
 */
module Markers {
  import opened Options
  import opened Text

  const MARKERS: seq<string> := ["<|im_end|>", "</s>", "<|im_start|>", "###", "assistant:", "user:"]

  predicate OccursAt(text: string, marker: string, i: nat) {
    i + |marker| <= |text| && text[i..i + |marker|] == marker
  }

  /** `str.find`: the first occurrence. */
  method Find(text: string, marker: string) returns (at: Option<nat>)
    ensures at.Some? ==> OccursAt(text, marker, at.value) && forall i | 0 <= i < at.value :: !OccursAt(text, marker, i)
    ensures at.None? ==> forall i: nat :: !OccursAt(text, marker, i)
  {
    var i := 0;
    while i + |marker| <= |text|
      invariant forall k | 0 <= k < i :: !OccursAt(text, marker, k)
    {
      if text[i..i + |marker|] == marker {
        return Some(i);
      }
      i := i + 1;
    }
    return None;
  }

  /** Some marker of the list starts at i. */
  predicate StartsAt(text: string, markers: seq<string>, i: nat) {
    exists marker | marker in markers :: OccursAt(text, marker, i)
  }

  /** n is the earliest start of any marker, or the whole length when there is none. */
  ghost predicate IsCut(text: string, markers: seq<string>, n: nat) {
    && n <= |text| && (n < |text| ==> StartsAt(text, markers, n))
    && forall i | 0 <= i < n :: !StartsAt(text, markers, i)
  }

  /** No marker can start strictly inside an occurrence of another. */
  ghost predicate Apart(markers: seq<string>) {
    forall a, b | a in markers && b in markers && a != b :: !Straddles(a, b)
  }

  /** b starts strictly inside a: some proper tail of a agrees with b as far as both go. */
  predicate Straddles(a: string, b: string) {
    exists i | 0 < i < |a| :: a[i..] <= b || b <= a[i..]
  }

  /** The truncation loop over a list of markers. */
  method Truncate(text: string, markers: seq<string>) returns (cut: string)
    requires Apart(markers) && forall marker | marker in markers :: marker != ""
    ensures cut <= text && IsCut(text, markers, |cut|)
  {
    cut := text;
    for k := 0 to |markers|
      invariant cut <= text && IsCut(text, markers[..k], |cut|)
    {
      assert cut == text[..|cut|];
      var at := Find(cut, markers[k]);
      CutStep(text, markers, k, |cut|, at);
      if at.Some? {
        cut := cut[..at.value];
      }
    }
    assert markers[..|markers|] == markers;
  }

  /** An occurrence that the cut destroyed would have had a marker start strictly inside it. */
  lemma CutStep(text: string, markers: seq<string>, k: nat, n: nat, at: Option<nat>)
    requires k < |markers| && Apart(markers) && (forall marker | marker in markers :: marker != "")
    requires IsCut(text, markers[..k], n)
    requires at.Some? ==> OccursAt(text[..n], markers[k], at.value)
                          && forall i | 0 <= i < at.value :: !OccursAt(text[..n], markers[k], i)
    requires at.None? ==> forall i: nat :: !OccursAt(text[..n], markers[k], i)
    ensures IsCut(text, markers[..k + 1], if at.Some? then at.value else n)
  {
    var m := if at.Some? then at.value else n;
    var more := markers[..k + 1];
    forall i | 0 <= i < m ensures !StartsAt(text, more, i) {
      if marker :| marker in more && OccursAt(text, marker, i) {
        if marker in markers[..k] {
          assert StartsAt(text, markers[..k], i);
          assert false;
        } else {
          assert marker == markers[k];
          if !OccursAt(text[..n], markers[k], i) {
            WholeOrStraddling(text, markers, k, n, i);
          }
          assert false;
        }
      }
    }
    if m < |text| {
      if at.Some? {
        assert OccursAt(text, markers[k], m);
        assert markers[k] in more;
      } else {
        var marker :| marker in markers[..k] && OccursAt(text, marker, n);
        assert marker in more;
      }
    }
  }

  /**
   An occurrence in the text that is no longer whole in the prefix had been cut at the start of
   another marker strictly inside it, or its marker had been searched for before.
   */
  lemma WholeOrStraddling(text: string, markers: seq<string>, k: nat, n: nat, i: nat)
    requires k < |markers| && IsCut(text, markers[..k], n)
    requires i < n && OccursAt(text, markers[k], i) && !OccursAt(text[..n], markers[k], i)
    ensures markers[k] in markers[..k]
            || exists other | other in markers[..k] :: OccursAt(text, other, n) && Straddles(markers[k], other)
  {
    WholeInPrefix(text, markers[k], n, i);
    var other :| other in markers[..k] && OccursAt(text, other, n);
    if other != markers[k] {
      var j := n - i;
      assert markers[k][j..] == text[n..i + |markers[k]|];
      assert other == text[n..n + |other|];
      assert markers[k][j..] <= other || other <= markers[k][j..];
      assert Straddles(markers[k], other);
    }
  }

  lemma WholeInPrefix(text: string, marker: string, n: nat, i: nat)
    requires n <= |text| && OccursAt(text, marker, i)
    ensures i + |marker| <= n ==> OccursAt(text[..n], marker, i)
  {
    if i + |marker| <= n {
      assert text[..n][i..i + |marker|] == text[i..i + |marker|];
    }
  }

  /** Two characters of look-ahead are enough to see that b does not start inside a. */
  lemma TwoCharacters(a: string, b: string)
    requires b != ""
    requires forall i | 0 < i < |a| :: a[i] != b[0] || (i + 1 < |a| && |b| > 1 && a[i + 1] != b[1])
    ensures !Straddles(a, b)
  {
    forall i | 0 < i < |a| ensures !(a[i..] <= b || b <= a[i..]) {
      assert a[i..][0] == a[i];
      if i + 1 < |a| {
        assert a[i..][1] == a[i + 1];
      }
    }
  }

  /** The six markers of the code do keep apart. */
  lemma MarkersAreApart()
    ensures Apart(MARKERS) && forall marker | marker in MARKERS :: marker != ""
  {
    forall a, b | a in MARKERS && b in MARKERS && a != b ensures !Straddles(a, b) {
      TwoCharacters(a, b);
    }
  }

  // ── What the child returns ──

  method CutAndStrip(raw: string) returns (text: string)
    ensures exists n: nat :: IsCut(raw, MARKERS, n) && text == Strip(raw[..n])
  {
    MarkersAreApart();
    var cut := Truncate(raw, MARKERS);
    assert cut == raw[..|cut|];
    text := Strip(cut);
  }

  /** The cut depends on the text and on which markers there are, not on their order. */
  lemma CutIgnoresOrder(text: string, markers: seq<string>, others: seq<string>, n: nat, m: nat)
    requires forall marker :: marker in markers <==> marker in others
    requires IsCut(text, markers, n) && IsCut(text, others, m)
    ensures n == m
  {
    forall i ensures StartsAt(text, markers, i) <==> StartsAt(text, others, i) {
    }
  }

  lemma SliceOfSlice(raw: string, lo: nat, text: string, i: nat, n: nat)
    requires lo + |text| <= |raw| && text == raw[lo..lo + |text|] && i + n <= |text|
    ensures text[i..i + n] == raw[lo + i..lo + i + n]
  {
    var got, want := text[i..i + n], raw[lo + i..lo + i + n];
    forall j | 0 <= j < n ensures got[j] == want[j] {
      assert got[j] == text[i + j] == raw[lo..lo + |text|][i + j];
    }
  }

  /** Whatever the model generated, no marker is left in what the child returns. */
  lemma NoMarkerLeft(raw: string, markers: seq<string>, n: nat)
    requires IsCut(raw, markers, n) && forall marker | marker in markers :: marker != ""
    ensures forall marker, i: nat | marker in markers :: !OccursAt(Strip(raw[..n]), marker, i)
  {
    var lo := StripLeftIsASuffix(raw[..n]);
    StripRightIsAPrefix(StripLeft(raw[..n]));
    var text := Strip(raw[..n]);
    assert text == raw[..n][lo..][..|text|];
    assert text == raw[lo..lo + |text|];
    forall marker, i: nat | marker in markers ensures !OccursAt(text, marker, i) {
      if OccursAt(text, marker, i) {
        assert !StartsAt(raw, markers, lo + i);
        SliceOfSlice(raw, lo, text, i, |marker|);
        assert false;
      }
    }
  }
}
