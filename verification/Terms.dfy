/** The lexical terms of a text, and how much of a query a text covers. */
module Terms {

  const STOPWORDS: set<string> := {"a", "an", "and", "are", "do", "does", "for", "how", "i", "in", "is", "it", "me", "my", "of",
                                   "on", "the", "to", "what", "you"}

  /** [a-z0-9] */
  predicate TokenChar(c: char) {
    'a' <= c <= 'z' || '0' <= c <= '9'
  }

  /** str.lower as far as tokens can tell: outside ASCII only the Kelvin sign and the dotted capital I turn into
      text with a token character in it. */
  function LowerChar(c: char): string {
    if 'A' <= c <= 'Z' then [(c as int - 'A' as int + 'a' as int) as char]
    else if c == '\U{212A}' then "k"
    else if c == '\U{130}' then "i\U{307}"
    else [c]
  }

  function Lower(s: string): string {
    if s == [] then [] else LowerChar(s[0]) + Lower(s[1..])
  }

  /** The token characters at the front. */
  function RunLength(s: string): (n: nat)
    ensures n <= |s| && (forall i :: 0 <= i < n ==> TokenChar(s[i])) && (n < |s| ==> !TokenChar(s[n]))
  {
    if s == [] || !TokenChar(s[0]) then 0 else 1 + RunLength(s[1..])
  }

  /** findall of [a-z0-9]+ */
  function Tokens(s: string): seq<string>
    decreases |s|
  {
    if s == [] then []
    else if !TokenChar(s[0]) then Tokens(s[1..])
    else [s[..RunLength(s)]] + Tokens(s[RunLength(s)..])
  }

  /** lexical_terms. */
  function LexicalTerms(value: string): set<string> {
    set t | t in Tokens(Lower(value)) && t !in STOPWORDS && |t| > 1
  }

  /** lexical_score. */
  function LexicalScore(query: set<string>, content: string): real {
    if query == {} then 0.0 else |query * LexicalTerms(content)| as real / |query| as real
  }

  // ---------------------------------------------------------------- what they are

  /** A stretch of token characters that cannot be made longer. */
  predicate MaximalRun(s: string, i: nat, j: nat) {
    && i < j <= |s|
    && (forall k :: i <= k < j ==> TokenChar(s[k]))
    && (i > 0 ==> !TokenChar(s[i - 1]))
    && (j < |s| ==> !TokenChar(s[j]))
  }

  ghost predicate IsToken(s: string, t: string) {
    exists i: nat, j: nat :: MaximalRun(s, i, j) && s[i..j] == t
  }

  lemma ShiftRun(s: string, n: nat, i: nat, j: nat)
    requires n <= |s| && MaximalRun(s[n..], i, j) && (n > 0 && i == 0 ==> !TokenChar(s[n - 1]))
    ensures MaximalRun(s, n + i, n + j) && s[n + i..n + j] == s[n..][i..j]
  {
    hide TokenChar;
    var tail := s[n..];
    assert forall k :: 0 <= k < |tail| ==> tail[k] == s[n + k];
    forall k | n + i <= k < n + j ensures TokenChar(s[k]) {
      assert tail[k - n] == s[k];
    }
    if i > 0 {
      assert s[n + i - 1] == tail[i - 1];
    }
    if n + j < |s| {
      assert s[n + j] == tail[j];
    }
    assert s[n + i..n + j] == tail[i..j];
  }

  lemma UnshiftRun(s: string, n: nat, i: nat, j: nat)
    requires n <= i && MaximalRun(s, i, j)
    ensures MaximalRun(s[n..], i - n, j - n) && s[n..][i - n..j - n] == s[i..j]
  {
  }

  /** The tokens of a text are its maximal runs of token characters. */
  lemma {:induction false} TokenIff(s: string, t: string)
    ensures t in Tokens(s) <==> IsToken(s, t)
    decreases |s|
  {
    hide TokenChar;
    if s == [] {
    } else {
      var n := if TokenChar(s[0]) then RunLength(s) else 1;
      var tail := s[n..];
      TokenIff(tail, t);
      if t in Tokens(tail) {
        var i: nat, j: nat :| MaximalRun(tail, i, j) && tail[i..j] == t;
        ShiftRun(s, n, i, j);
        assert IsToken(s, t);
      }
      if TokenChar(s[0]) {
        assert MaximalRun(s, 0, n) && s[0..n] == s[..n];
      }
      if IsToken(s, t) {
        var i: nat, j: nat :| MaximalRun(s, i, j) && s[i..j] == t;
        FirstRun(s, n, i, j);
        if i >= n {
          UnshiftRun(s, n, i, j);
          assert IsToken(tail, t);
        }
      }
    }
  }

  /** A run starts with the text, or after its first token. */
  lemma FirstRun(s: string, n: nat, i: nat, j: nat)
    requires s != [] && n == (if TokenChar(s[0]) then RunLength(s) else 1) && MaximalRun(s, i, j)
    ensures i >= n || (TokenChar(s[0]) && i == 0 && j == n)
  {
  }

  /** A term is a token of the lower-cased text, of two characters or more, that is no stop word. */
  lemma TermIff(text: string, t: string)
    ensures t in LexicalTerms(text) <==>
            && IsToken(Lower(text), t) && |t| >= 2
            && t !in ["a", "an", "and", "are", "do", "does", "for", "how", "i", "in", "is", "it", "me", "my", "of", "on", "the", "to",
                      "what", "you"]
  {
    TokenIff(Lower(text), t);
  }

  /** Token characters by code point: the small letters and the digits. */
  lemma TokenCodes(c: char)
    ensures TokenChar(c) <==> 97 <= c as int <= 122 || 48 <= c as int <= 57
  {
  }

  lemma {:induction false} LowerConcat(a: string, b: string)
    ensures Lower(a + b) == Lower(a) + Lower(b)
  {
    if a == [] {
      assert a + b == b;
    } else {
      assert (a + b)[0] == a[0] && (a + b)[1..] == a[1..] + b;
      LowerConcat(a[1..], b);
    }
  }

  /** Lower-casing goes character by character: a capital letter becomes the small one, the Kelvin sign a k, the dotted
      capital I an i and a dot, and the rest stays. */
  lemma LowerIs(a: string, c: char, b: string)
    ensures var n := c as int;
            Lower(a + [c] + b) == Lower(a) + (if 65 <= n <= 90 then [(n + 32) as char]
                                              else if n == 8490 then "k"
                                              else if n == 304 then ['i', 775 as char]
                                              else [c]) + Lower(b)
  {
    hide LowerChar;
    LowerConcat(a + [c], b);
    LowerConcat(a, [c]);
    LowerOne(c);
    assert Lower([c]) == LowerChar(c) + Lower([]) == LowerChar(c);
  }

  lemma LowerOne(c: char)
    ensures var n := c as int;
            LowerChar(c) == if 65 <= n <= 90 then [(n + 32) as char]
                            else if n == 8490 then "k"
                            else if n == 304 then ['i', 775 as char]
                            else [c]
  {
  }

  lemma SubsetSize<T>(a: set<T>, b: set<T>)
    requires a <= b
    ensures |a| <= |b| && (|a| == |b| ==> a == b)
  {
    assert b == a + (b - a);
  }

  lemma QuotientRange(a: nat, b: nat)
    requires a <= b && b > 0
    ensures 0.0 <= a as real / b as real <= 1.0
    ensures a as real / b as real == 0.0 <==> a == 0
    ensures a as real / b as real == 1.0 <==> a == b
  {
  }

  /** The score is the covered share of the query: nothing when no term is shared, one when all are. */
  lemma ScoreRange(query: set<string>, content: string)
    ensures 0.0 <= LexicalScore(query, content) <= 1.0
    ensures LexicalScore(query, content) == 0.0 <==> query * LexicalTerms(content) == {}
    ensures LexicalScore(query, content) == 1.0 <==> query != {} && query <= LexicalTerms(content)
    ensures LexicalScore(query, content) * |query| as real == |query * LexicalTerms(content)| as real
  {
    hide LexicalTerms;
    var shared := query * LexicalTerms(content);
    SubsetSize(shared, query);
    assert shared == query <==> query <= LexicalTerms(content);
    if query != {} {
      QuotientRange(|shared|, |query|);
    }
  }

  // ---------------------------------------------------------------- texts with given terms

  function Word(n: nat): (w: string)
    ensures |w| == n && forall i :: 0 <= i < n ==> w[i] == 'b'
  {
    if n == 0 then "" else "b" + Word(n - 1)
  }

  /** Words of n, n + 1, ... letters, one after another. */
  function TextOf(n: nat, count: nat): string
    decreases count
  {
    if count == 0 then "" else Word(n) + " " + TextOf(n + 1, count - 1)
  }

  function Words(n: nat, count: nat): set<string>
    decreases count
  {
    if count == 0 then {} else {Word(n)} + Words(n + 1, count - 1)
  }

  lemma {:induction false} WordsMembers(n: nat, count: nat)
    ensures |Words(n, count)| == count
    ensures forall w :: w in Words(n, count) <==> IsWord(w, n, count)
    decreases count
  {
    hide Word;
    if count > 0 {
      WordsMembers(n + 1, count - 1);
      assert Word(n) !in Words(n + 1, count - 1);
      forall w ensures w in Words(n, count) <==> IsWord(w, n, count) {
        assert w in Words(n, count) <==> w == Word(n) || w in Words(n + 1, count - 1);
      }
    }
  }

  /** One of `count` words from that of n letters on. */
  predicate IsWord(w: string, n: nat, count: nat) {
    n <= |w| < n + count && w == Word(|w|)
  }

  lemma WordsWithin(n: nat, a: nat, b: nat)
    requires a <= b
    ensures Words(n, a) <= Words(n, b)
  {
    hide Words, Word;
    WordsMembers(n, a);
    WordsMembers(n, b);
  }

  predicate Plain(s: string) {
    forall i :: 0 <= i < |s| ==> s[i] == 'b' || s[i] == ' '
  }

  lemma {:induction false} LowerPlain(s: string)
    requires Plain(s)
    ensures Lower(s) == s
  {
    if s != [] {
      assert s[0] == 'b' || s[0] == ' ';
      LowerPlain(s[1..]);
      assert s == [s[0]] + s[1..];
    }
  }

  lemma {:induction false} TextIsPlain(n: nat, count: nat)
    ensures Plain(TextOf(n, count))
    decreases count
  {
    if count > 0 {
      TextIsPlain(n + 1, count - 1);
    }
  }

  lemma {:induction false} WordRun(n: nat, rest: string)
    ensures RunLength(Word(n) + " " + rest) == n
  {
    var s := Word(n) + " " + rest;
    if n == 0 {
      assert s[0] == ' ';
    } else {
      WordRun(n - 1, rest);
      assert s[0] == 'b' && s[1..] == Word(n - 1) + " " + rest;
    }
  }

  lemma FirstWord(n: nat, rest: string)
    requires n > 0
    ensures Tokens(Word(n) + " " + rest) == [Word(n)] + Tokens(rest)
  {
    var s := Word(n) + " " + rest;
    WordRun(n, rest);
    assert s[0] == 'b' && s[..n] == Word(n) && s[n..] == " " + rest;
    assert (" " + rest)[0] == ' ' && (" " + rest)[1..] == rest;
  }

  lemma {:induction false} TextTokens(n: nat, count: nat)
    requires n > 0
    ensures forall w :: w in Tokens(TextOf(n, count)) <==> w in Words(n, count)
    decreases count
  {
    if count > 0 {
      FirstWord(n, TextOf(n + 1, count - 1));
      TextTokens(n + 1, count - 1);
      hide Tokens;
      var rest := Tokens(TextOf(n + 1, count - 1));
      assert Tokens(TextOf(n, count)) == [Word(n)] + rest;
    }
  }

  lemma NotStopword(w: string)
    requires |w| > 1 && w[0] == 'b'
    ensures w !in STOPWORDS
  {
  }

  /** The terms of such a text are its words. */
  lemma TermsOfText(count: nat)
    ensures LexicalTerms(TextOf(2, count)) == Words(2, count)
  {
    hide Tokens, TextOf, Words, Plain, Lower, Word;
    TextIsPlain(2, count);
    LowerPlain(TextOf(2, count));
    TextTokens(2, count);
    WordsMembers(2, count);
    forall w | w in Words(2, count) ensures |w| > 1 && w !in STOPWORDS {
      NotStopword(w);
    }
  }

  /** A query of n words against a text of the first k of them. */
  lemma ScoreOfText(n: nat, k: nat)
    requires 0 < n && k <= n
    ensures LexicalTerms(TextOf(2, n)) != {}
    ensures LexicalScore(LexicalTerms(TextOf(2, n)), TextOf(2, k)) == k as real / n as real
  {
    hide LexicalTerms, TextOf, Words;
    TermsOfText(n);
    TermsOfText(k);
    WordsMembers(2, n);
    WordsMembers(2, k);
    WordsWithin(2, k, n);
    assert Words(2, n) * Words(2, k) == Words(2, k);
  }
}
