/** The parts of Python's `str` that the repository leans on: whitespace, strip and int(). */
module Text {
  import opened Results

  /** str.isspace for one character, which is also what `\s` matches. */
  predicate IsSpace(c: char) {
    || '\U{9}' <= c <= '\U{D}'
    || '\U{1C}' <= c <= '\U{20}'
    || c in {'\U{85}', '\U{A0}', '\U{1680}', '\U{2028}', '\U{2029}', '\U{202F}', '\U{205F}', '\U{3000}'}
    || '\U{2000}' <= c <= '\U{200A}'
  }

  predicate AllSpace(s: string) {
    forall i :: 0 <= i < |s| ==> IsSpace(s[i])
  }

  function LStrip(s: string): (r: string)
    ensures r == [] || !IsSpace(r[0])
    ensures |r| <= |s| && r == s[|s| - |r|..] && AllSpace(s[..|s| - |r|])
  {
    if s != [] && IsSpace(s[0]) then
      var r := LStrip(s[1..]);
      assert s[..|s| - |r|] == [s[0]] + s[1..][..|s| - 1 - |r|];
      r
    else s
  }

  function RStrip(s: string): (r: string)
    ensures r == [] || !IsSpace(r[|r| - 1])
    ensures |r| <= |s| && r == s[..|r|] && AllSpace(s[|r|..])
  {
    if s != [] && IsSpace(s[|s| - 1]) then
      var r := RStrip(s[..|s| - 1]);
      assert s[|r|..] == s[..|s| - 1][|r|..] + [s[|s| - 1]];
      r
    else s
  }

  /** str.strip. */
  function Strip(s: string): (r: string)
    ensures r == [] || (!IsSpace(r[0]) && !IsSpace(r[|r| - 1]))
    ensures |r| <= |s|
  {
    RStrip(LStrip(s))
  }

  /** int(text): surrounding whitespace, a sign, ASCII digits with single underscores. */
  function ParseInt(s: string): Option<int> {
    var t := Strip(s);
    if t == [] then None
    else if t[0] == '-' then
      var n :- Digits(t[1..]);
      Some(-n)
    else Digits(if t[0] == '+' then t[1..] else t)
  }

  function Digits(s: string): Option<int> {
    if s == [] || !('0' <= s[|s| - 1] <= '9') then None
    else
      var d := s[|s| - 1] as int - '0' as int;
      if |s| == 1 then Some(d)
      else
        var high :- Digits(if s[|s| - 2] == '_' then s[..|s| - 2] else s[..|s| - 1]);
        Some(10 * high + d)
  }

  /** What strip takes away is whitespace at the two ends, all of it. */
  lemma StripCuts(s: string) returns (i: nat, j: nat)
    ensures i <= j <= |s| && Strip(s) == s[i..j] && AllSpace(s[..i]) && AllSpace(s[j..])
    ensures Strip(s) != [] ==> !IsSpace(s[i]) && !IsSpace(s[j - 1])
  {
    hide LStrip, RStrip, IsSpace, AllSpace;
    var l := LStrip(s);
    i := |s| - |l|;
    j := i + |RStrip(l)|;
    assert l == s[i..];
    assert s[j..] == l[|RStrip(l)|..] && s[i..j] == l[..|RStrip(l)|];
  }

  /** Digits, with at most one underscore between two of them. */
  predicate DigitText(s: string) {
    && s != [] && s[0] != '_' && s[|s| - 1] != '_'
    && (forall i :: 0 <= i < |s| ==> '0' <= s[i] <= '9' || s[i] == '_')
    && (forall i :: 0 <= i < |s| - 1 ==> s[i] != '_' || s[i + 1] != '_')
  }

  lemma {:induction false} DigitsIff(s: string)
    ensures Digits(s).Some? <==> DigitText(s)
  {
    if s != [] && '0' <= s[|s| - 1] <= '9' && |s| > 1 {
      var cut := if s[|s| - 2] == '_' then |s| - 2 else |s| - 1;
      var high := s[..cut];
      DigitsIff(high);
      if DigitText(high) {
        assert high[0] == s[0] && high[|high| - 1] == s[cut - 1];
        forall i | 0 <= i < |s| ensures '0' <= s[i] <= '9' || s[i] == '_' {
          assert i < cut ==> high[i] == s[i];
        }
        forall i | 0 <= i < |s| - 1 ensures s[i] != '_' || s[i + 1] != '_' {
          assert i < cut - 1 ==> high[i] == s[i] && high[i + 1] == s[i + 1];
        }
      }
    }
  }

  /** A further digit is worth one, and everything before it ten times as much, underscores or not. */
  lemma DigitsValue(s: string, d: nat)
    requires d <= 9
    ensures var c := ('0' as int + d) as char;
            && Digits([c]) == Some(d)
            && (Digits(s).Some? ==>
                  Digits(s + [c]) == Some(10 * Digits(s).value + d) && Digits(s + "_" + [c]) == Some(10 * Digits(s).value + d))
  {
    var c := ('0' as int + d) as char;
    if Digits(s).Some? {
      assert s[|s| - 1] != '_';
      var plain, parted := s + [c], s + "_" + [c];
      assert |plain| == |s| + 1 && plain[|s|] == c && plain[|s| - 1] == s[|s| - 1] && plain[..|s|] == s;
      assert |parted| == |s| + 2 && parted[|s| + 1] == c && parted[|s|] == '_' && parted[..|s|] == s;
    }
  }

  /** The sign stands before the digits, the whitespace around both. */
  lemma SignedDigits(s: string, text: string)
    requires Digits(s).Some?
    ensures Strip(text) == s ==> ParseInt(text) == Digits(s)
    ensures Strip(text) == "+" + s ==> ParseInt(text) == Digits(s)
    ensures Strip(text) == "-" + s ==> ParseInt(text) == Some(-Digits(s).value)
  {
    DigitsIff(s);
    hide Digits, Strip;
    assert ("+" + s)[1..] == s && ("-" + s)[1..] == s;
  }

  /** str.isspace by code point. */
  lemma SpaceCodes(c: char)
    ensures var n := c as int;
            IsSpace(c) <==> 9 <= n <= 13 || 28 <= n <= 32 || 8192 <= n <= 8202 ||
                            n in [133, 160, 5760, 8232, 8233, 8239, 8287, 12288]
  {
  }
}
