/** `str.strip` on the six ASCII blanks, for the texts of the analyzer and the profiles of the streamer. */
module Text {

  predicate IsSpace(c: char) {
    c == ' ' || c == '\t' || c == '\n' || c == '\r' || c == 11 as char || c == 12 as char
  }

  function StripLeft(text: string): string {
    if text != "" && IsSpace(text[0]) then StripLeft(text[1..]) else text
  }

  function StripRight(text: string): string {
    if text != "" && IsSpace(text[|text| - 1]) then StripRight(text[..|text| - 1]) else text
  }

  function Strip(text: string): string {
    StripRight(StripLeft(text))
  }

  lemma {:induction false} StripLeftIsASuffix(text: string) returns (lo: nat)
    ensures lo <= |text| && StripLeft(text) == text[lo..] && AllSpace(text[..lo])
    decreases |text|
  {
    if text != "" && IsSpace(text[0]) {
      var l := StripLeftIsASuffix(text[1..]);
      lo := l + 1;
    } else {
      lo := 0;
    }
  }

  predicate AllSpace(text: string) {
    forall c | c in text :: IsSpace(c)
  }

  lemma {:induction false} StripRightIsAPrefix(text: string)
    ensures StripRight(text) <= text && AllSpace(text[|StripRight(text)|..])
    decreases |text|
  {
    if text == "" || !IsSpace(text[|text| - 1]) {
    } else {
      StripRightIsAPrefix(text[..|text| - 1]);
    }
  }

  /** Stripping takes blanks off both ends, all of them and nothing else. */
  lemma StripTakesTheBlanks(text: string) returns (lo: nat, hi: nat)
    ensures lo <= hi <= |text| && Strip(text) == text[lo..hi]
    ensures AllSpace(text[..lo]) && AllSpace(text[hi..])
    ensures Strip(text) != "" ==> !IsSpace(text[lo]) && !IsSpace(text[hi - 1])
  {
    lo := StripLeftIsASuffix(text);
    var left := StripLeft(text);
    StripRightIsAPrefix(left);
    hi := lo + |Strip(text)|;
    LeftIsStripped(text);
    RightIsStripped(left);
    var once := Strip(text);
    assert once == left[..|once|] == text[lo..hi];
    assert text[hi..] == left[|once|..];
    if once != "" {
      assert once[0] == left[0] == text[lo] && once[|once| - 1] == text[hi - 1];
    }
  }

  lemma StripTwice(text: string)
    ensures Strip(Strip(text)) == Strip(text)
  {
    LeftIsStripped(text);
    RightIsStripped(StripLeft(text));
    var once := Strip(text);
    StripRightIsAPrefix(StripLeft(text));
    if once != "" {
      assert once[0] == StripLeft(text)[0];
    }
  }

  lemma {:induction false} LeftIsStripped(text: string)
    ensures var l := StripLeft(text); l != "" ==> !IsSpace(l[0])
    decreases |text|
  {
    if text == "" || !IsSpace(text[0]) {
    } else {
      LeftIsStripped(text[1..]);
    }
  }

  lemma {:induction false} RightIsStripped(text: string)
    ensures var r := StripRight(text); r != "" ==> !IsSpace(r[|r| - 1])
    decreases |text|
  {
    if text == "" || !IsSpace(text[|text| - 1]) {
    } else {
      RightIsStripped(text[..|text| - 1]);
    }
  }
}
