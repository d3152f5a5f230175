/** Long contexts cut into bounded replay chunks along blank lines. */
module ContextSplitter {
  import opened Results
  import opened Text

  // ---------------------------------------------------------------- paragraphs

  /** Where the whitespace that starts at i ends. */
  function RunEnd(s: string, i: nat): (j: nat)
    requires i <= |s|
    ensures i <= j <= |s| && AllSpace(s[i..j]) && (j < |s| ==> !IsSpace(s[j]))
    decreases |s| - i
  {
    if i < |s| && IsSpace(s[i]) then
      var j := RunEnd(s, i + 1);
      assert s[i..j] == [s[i]] + s[i + 1..j];
      j
    else i
  }

  /** The last newline of s[i..j], if there is one. */
  function LastNewline(s: string, i: nat, j: nat): (k: Option<nat>)
    requires i <= j <= |s|
    ensures k.Some? ==> i <= k.value < j && s[k.value] == '\n' && forall m :: k.value < m < j ==> s[m] != '\n'
    ensures k.None? ==> forall m :: i <= m < j ==> s[m] != '\n'
    decreases j - i
  {
    if i == j then None
    else if s[j - 1] == '\n' then Some(j - 1)
    else LastNewline(s, i, j - 1)
  }

  /** The regular expression `\n\s*\n`, greedy, at i: where its match ends. */
  function MatchAt(s: string, i: nat): (end: Option<nat>)
    requires i < |s|
    ensures end.Some? ==> i + 2 <= end.value <= |s|
  {
    if s[i] != '\n' then None
    else
      match LastNewline(s, i + 1, RunEnd(s, i + 1))
      case None => None
      case Some(k) => Some(k + 1)
  }

  /** The leftmost match at or after i. */
  function FirstMatch(s: string, i: nat): (m: Option<(nat, nat)>)
    requires i <= |s|
    ensures m.Some? ==> i <= m.value.0 && m.value.0 + 2 <= m.value.1 <= |s| && MatchAt(s, m.value.0) == Some(m.value.1)
    ensures forall j :: i <= j < (if m.Some? then m.value.0 else |s|) ==> MatchAt(s, j).None?
    decreases |s| - i
  {
    if i == |s| then None
    else if MatchAt(s, i).Some? then Some((i, MatchAt(s, i).value))
    else FirstMatch(s, i + 1)
  }

  /** re.split. */
  function Pieces(s: string): seq<string>
    decreases |s|
  {
    var m := FirstMatch(s, 0);
    if m.None? then [s] else [s[..m.value.0]] + Pieces(s[m.value.1..])
  }

  /** The stripped pieces that are not empty. */
  function Stripped(pieces: seq<string>): seq<string> {
    if pieces == [] then []
    else if Strip(pieces[0]) == [] then Stripped(pieces[1..])
    else [Strip(pieces[0])] + Stripped(pieces[1..])
  }

  function Paragraphs(context: string): seq<string> {
    Stripped(Pieces(context))
  }

  // ---------------------------------------------------------------- what paragraphs keep of the context

  /** The text without its whitespace. */
  function NonSpace(s: string): (r: string)
    ensures r == [] <==> AllSpace(s)
  {
    if s == [] then [] else (if IsSpace(s[0]) then [] else [s[0]]) + NonSpace(s[1..])
  }

  function Flat(parts: seq<string>): string {
    if parts == [] then [] else Flat(parts[..|parts| - 1]) + parts[|parts| - 1]
  }

  lemma {:induction false} NonSpaceConcat(a: string, b: string)
    ensures NonSpace(a + b) == NonSpace(a) + NonSpace(b)
  {
    hide IsSpace, AllSpace;
    if a == [] {
      assert a + b == b;
    } else {
      assert (a + b)[0] == a[0] && (a + b)[1..] == a[1..] + b;
      NonSpaceConcat(a[1..], b);
    }
  }

  lemma FlatAppend(parts: seq<string>, part: string)
    ensures Flat(parts + [part]) == Flat(parts) + part
  {
    assert (parts + [part])[..|parts|] == parts;
  }

  lemma {:induction false} FlatConcat(a: seq<string>, b: seq<string>)
    ensures Flat(a + b) == Flat(a) + Flat(b)
    decreases |b|
  {
    if b == [] {
      assert a + b == a;
    } else {
      var n := |b| - 1;
      assert a + b == (a + b[..n]) + [b[n]];
      FlatAppend(a + b[..n], b[n]);
      FlatConcat(a, b[..n]);
    }
  }

  lemma FlatHead(part: string, rest: seq<string>)
    ensures Flat([part] + rest) == part + Flat(rest)
  {
    FlatConcat([part], rest);
    assert [part][..0] == [] && Flat([part]) == part;
  }

  lemma StripKeepsText(s: string)
    ensures NonSpace(Strip(s)) == NonSpace(s)
  {
    hide LStrip, RStrip, IsSpace;
    var l := LStrip(s);
    var r := RStrip(l);
    assert s == s[..|s| - |l|] + l && l == r + l[|r|..];
    NonSpaceConcat(s[..|s| - |l|], l);
    NonSpaceConcat(r, l[|r|..]);
  }

  lemma {:induction false} StrippedKeepsText(pieces: seq<string>)
    ensures NonSpace(Flat(Stripped(pieces))) == NonSpace(Flat(pieces))
  {
    hide NonSpace, Flat, Strip;
    if pieces != [] {
      var head, rest := pieces[0], pieces[1..];
      StrippedKeepsText(rest);
      StripKeepsText(head);
      assert pieces == [head] + rest;
      FlatHead(head, rest);
      NonSpaceConcat(head, Flat(rest));
      FlatHead(Strip(head), Stripped(rest));
      NonSpaceConcat(Strip(head), Flat(Stripped(rest)));
      assert [] + Flat(Stripped(rest)) == Flat(Stripped(rest));
    }
  }

  lemma MatchIsSpace(s: string, i: nat)
    requires i < |s| && MatchAt(s, i).Some?
    ensures AllSpace(s[i..MatchAt(s, i).value])
  {
    var end := MatchAt(s, i).value;
    var j := RunEnd(s, i + 1);
    assert s[i..end] == [s[i]] + s[i + 1..j][..end - i - 1];
  }

  lemma {:induction false} PiecesKeepText(s: string)
    ensures NonSpace(Flat(Pieces(s))) == NonSpace(s)
    ensures Pieces(s) != [] && |Flat(Pieces(s))| + 2 * (|Pieces(s)| - 1) <= |s|
    decreases |s|
  {
    hide MatchAt, NonSpace, Flat;
    var m := FirstMatch(s, 0);
    if m.None? {
      FlatHead(s, []);
      assert [s] + [] == [s] && s + [] == s;
      FlatEmpty();
    } else {
      var (i, j) := m.value;
      var rest := s[j..];
      PiecesKeepText(rest);
      MatchIsSpace(s, i);
      FlatHead(s[..i], Pieces(rest));
      NonSpaceConcat(s[..i], Flat(Pieces(rest)));
      assert s == s[..i] + s[i..j] + rest;
      NonSpaceConcat(s[..i] + s[i..j], rest);
      NonSpaceConcat(s[..i], s[i..j]);
    }
  }

  lemma FlatEmpty()
    ensures Flat([]) == []
  {
  }

  predicate Trimmed(s: string) {
    s != [] && !IsSpace(s[0]) && !IsSpace(s[|s| - 1])
  }

  lemma {:induction false} StrippedShrinks(pieces: seq<string>)
    ensures |Flat(Stripped(pieces))| + 2 * |Stripped(pieces)| <= |Flat(pieces)| + 2 * |pieces|
  {
    hide Flat, Strip, LStrip, RStrip, IsSpace;
    FlatEmpty();
    if pieces != [] {
      var head, rest := pieces[0], pieces[1..];
      StrippedShrinks(rest);
      assert pieces == [head] + rest;
      FlatHead(head, rest);
      FlatHead(Strip(head), Stripped(rest));
    }
  }

  lemma {:induction false} StrippedTrimmed(pieces: seq<string>)
    ensures forall p :: p in Stripped(pieces) ==> Trimmed(p)
  {
    hide Strip, LStrip, RStrip, IsSpace;
    if pieces != [] {
      StrippedTrimmed(pieces[1..]);
    }
  }

  /** The paragraphs hold the text of the context, whitespace aside, and leave room for a blank line
      between any two of them. */
  lemma ParagraphsKeepText(context: string)
    ensures NonSpace(Flat(Paragraphs(context))) == NonSpace(context)
    ensures var ps := Paragraphs(context); |Flat(ps)| + 2 * |ps| <= |context| + 2
    ensures forall p :: p in Paragraphs(context) ==> Trimmed(p)
  {
    hide Pieces, Stripped, NonSpace, Flat, Trimmed;
    PiecesKeepText(context);
    StrippedKeepsText(Pieces(context));
    StrippedShrinks(Pieces(context));
    StrippedTrimmed(Pieces(context));
  }

  /** Two newlines with nothing but whitespace between them. */
  predicate BlankLine(s: string, i: nat, j: nat) {
    i < j < |s| && s[i] == '\n' && s[j] == '\n' && AllSpace(s[i + 1..j])
  }

  lemma BlankLineMatches(s: string, i: nat, j: nat)
    requires BlankLine(s, i, j)
    ensures MatchAt(s, i).Some?
  {
    forall k | i < k <= j ensures IsSpace(s[k]) {
      if k < j {
        assert s[i + 1..j][k - i - 1] == s[k];
      }
    }
    var end := RunEnd(s, i + 1);
    assert j < end;
  }

  /** The expression matches at i exactly when a blank line starts there, and then takes in the longest. */
  lemma MatchIff(s: string, i: nat)
    requires i < |s|
    ensures MatchAt(s, i).None? <==> forall j: nat :: !BlankLine(s, i, j)
    ensures MatchAt(s, i).Some? ==>
              var end := MatchAt(s, i).value;
              end > 0 && BlankLine(s, i, end - 1) && forall j: nat :: end <= j ==> !BlankLine(s, i, j)
  {
    forall j: nat | BlankLine(s, i, j) ensures MatchAt(s, i).Some? && j < MatchAt(s, i).value {
      MatchReaches(s, i, j);
    }
    if MatchAt(s, i).Some? {
      var to := RunEnd(s, i + 1);
      var k := LastNewline(s, i + 1, to).value;
      SpaceBefore(s, i + 1, k, to);
      assert BlankLine(s, i, k);
    }
  }

  lemma SpaceBefore(s: string, i: nat, k: nat, j: nat)
    requires i <= k <= j <= |s| && AllSpace(s[i..j])
    ensures AllSpace(s[i..k])
  {
    assert s[i..k] == s[i..j][..k - i];
  }

  lemma MatchReaches(s: string, i: nat, j: nat)
    requires BlankLine(s, i, j)
    ensures MatchAt(s, i).Some? && j < MatchAt(s, i).value
  {
    BlankLineMatches(s, i, j);
    forall k | i < k <= j ensures IsSpace(s[k]) {
      if k < j {
        assert s[i + 1..j][k - i - 1] == s[k];
      }
    }
    assert j < RunEnd(s, i + 1);
  }

  /** A text without a blank line is one piece; otherwise the first blank line, taken whole, ends the first piece, and the rest
      is split after it. */
  lemma PiecesAre(s: string, i: nat, j: nat)
    ensures (forall a: nat, b: nat :: !BlankLine(s, a, b)) ==> Pieces(s) == [s]
    ensures BlankLine(s, i, j) && (forall a: nat, b: nat :: a < i ==> !BlankLine(s, a, b)) &&
            (forall b: nat :: b > j ==> !BlankLine(s, i, b)) ==>
              Pieces(s) == [s[..i]] + Pieces(s[j + 1..])
  {
    hide MatchAt, BlankLine;
    var m := FirstMatch(s, 0);
    if m.Some? {
      MatchIff(s, m.value.0);
    }
    if BlankLine(s, i, j) {
      InText(s, i, j);
      MatchIff(s, i);
    }
  }

  lemma InText(s: string, i: nat, j: nat)
    requires BlankLine(s, i, j)
    ensures i < j < |s|
  {
  }

  /** No piece contains a blank line. */
  lemma {:induction false} PiecesHaveNoBlankLine(s: string, piece: string, i: nat, j: nat)
    requires piece in Pieces(s)
    ensures !BlankLine(piece, i, j)
    decreases |s|
  {
    hide MatchAt;
    var m := FirstMatch(s, 0);
    if m.None? {
      if BlankLine(piece, i, j) {
        BlankLineMatches(s, i, j);
      }
    } else if piece == s[..m.value.0] {
      if BlankLine(piece, i, j) {
        assert s[i + 1..j] == piece[i + 1..j];
        BlankLineMatches(s, i, j);
      }
    } else {
      PiecesHaveNoBlankLine(s[m.value.1..], piece, i, j);
    }
  }

  // ---------------------------------------------------------------- packing

  /** What a session accepts, within the limit, and never starting with whitespace. */
  predicate Good(chunk: string, max: int) {
    0 < |chunk| <= max && !IsSpace(chunk[0])
  }

  /** Two neighbours that would have fitted, with a blank line between them, do not occur. */
  predicate Apart(a: string, b: string, max: int) {
    |a| + 2 + |b| > max
  }

  ghost predicate Tight(chunks: seq<string>, max: int) {
    forall i :: 0 <= i < |chunks| - 1 ==> Apart(chunks[i], chunks[i + 1], max)
  }

  /** The next text to be placed: the pending chunk, else the rest of the paragraph. */
  function Upcoming(current: string, remaining: string): string {
    if current != [] then current else remaining
  }

  /** The state between two decisions, when the paragraphs `done` have been taken up. */
  ghost predicate Packing(chunks: seq<string>, current: string, remaining: string, done: seq<string>, max: int) {
    && (forall c :: c in chunks ==> Good(c, max))
    && (current != [] ==> Trimmed(current) && |current| <= max)
    && (remaining != [] ==> Trimmed(remaining))
    && Tight(chunks, max)
    && (chunks != [] ==>
          && Upcoming(current, remaining) != []
          && (|chunks[|chunks| - 1]| == max || Apart(chunks[|chunks| - 1], Upcoming(current, remaining), max)))
    && (done != [] ==> current + remaining != [])
    && NonSpace(Flat(chunks) + current + remaining) == NonSpace(Flat(done))
    && |Flat(chunks)| + |current| + |remaining| + (if current != [] && remaining != [] then 2 else 0)
       <= |Flat(done)| + (if done == [] then 0 else 2 * |done| - 2)
  }

  lemma PushKeepsTight(chunks: seq<string>, c: string, max: int)
    requires Tight(chunks, max) && (chunks != [] ==> Apart(chunks[|chunks| - 1], c, max))
    ensures Tight(chunks + [c], max)
  {
  }

  lemma LoadStep(chunks: seq<string>, current: string, done: seq<string>, p: string, max: int)
    requires Packing(chunks, current, [], done, max) && Trimmed(p)
    ensures Packing(chunks, current, p, done + [p], max)
  {
    hide NonSpace, Flat, Tight;
    FlatAppend(done, p);
    assert Flat(chunks) + current + [] == Flat(chunks) + current;
    NonSpaceConcat(Flat(chunks) + current, p);
    NonSpaceConcat(Flat(done), p);
    FlatEmpty();
  }

  /** The pending chunk is full, or the rest does not fit beside it. */
  lemma FlushStep(chunks: seq<string>, current: string, remaining: string, done: seq<string>, max: int)
    requires Packing(chunks, current, remaining, done, max) && current != [] && remaining != []
    requires |remaining| > max - |current| - 2
    ensures Packing(chunks + [current], [], remaining, done, max)
  {
    hide NonSpace, Flat;
    FlatAppend(chunks, current);
    assert Flat(chunks) + current + [] + remaining == Flat(chunks) + current + remaining;
    if chunks != [] {
      assert Apart(chunks[|chunks| - 1], current, max);
    }
    PushKeepsTight(chunks, current, max);
  }

  lemma LStripStep(s: string)
    requires s != [] && IsSpace(s[0])
    ensures LStrip(s) == LStrip(s[1..])
  {
    hide IsSpace;
  }

  lemma LStripNewline(s: string)
    ensures LStrip("\n" + s) == LStrip(s)
  {
    hide LStrip;
    LStripStep("\n" + s);
    assert ("\n" + s)[1..] == s;
  }

  lemma TrimmedStays(s: string)
    requires Trimmed(s)
    ensures LStrip(s) == s && RStrip(s) == s
  {
  }

  lemma StripTrimmed(s: string)
    requires Trimmed(s)
    ensures Strip(s) == s && Strip("\n\n" + s) == s
  {
    hide LStrip, RStrip, Trimmed;
    TrimmedStays(s);
    LStripNewline(s);
    LStripNewline("\n" + s);
    TwoNewlines(s);
  }

  lemma TwoNewlines(s: string)
    ensures "\n\n" + s == "\n" + ("\n" + s)
  {
  }

  /** What `current` becomes when the rest of a paragraph fits: a blank line only between two texts. */
  lemma Joined(current: string, remaining: string)
    requires Trimmed(remaining) && (current != [] ==> Trimmed(current))
    ensures Strip(current + "\n\n" + remaining)
            == if current == [] then remaining else current + "\n\n" + remaining
  {
    hide Strip;
    var whole := current + "\n\n" + remaining;
    if current == [] {
      StripTrimmed(remaining);
      assert whole == "\n\n" + remaining;
    } else {
      StripTrimmed(whole);
    }
  }

  lemma JoinStep(chunks: seq<string>, current: string, remaining: string, done: seq<string>, max: int)
    requires Packing(chunks, current, remaining, done, max) && remaining != []
    requires |remaining| <= max - |current| - (if current != [] then 2 else 0)
    ensures Packing(chunks, Strip(current + "\n\n" + remaining), [], done, max)
  {
    hide NonSpace, Flat, Strip, Tight;
    Joined(current, remaining);
    var joined := Strip(current + "\n\n" + remaining);
    assert Flat(chunks) + joined + [] == Flat(chunks) + joined;
    if current != [] {
      assert Flat(chunks) + joined == Flat(chunks) + current + "\n\n" + remaining;
      NonSpaceConcat(Flat(chunks) + current + "\n\n", remaining);
      NonSpaceConcat(Flat(chunks) + current, "\n\n");
      NonSpaceConcat(Flat(chunks) + current, remaining);
      NewlinesAreSpace();
    } else {
      assert Flat(chunks) + current + remaining == Flat(chunks) + joined;
    }
  }

  lemma NewlinesAreSpace()
    ensures NonSpace("\n\n") == []
  {
  }

  lemma LStripKeepsText(s: string)
    ensures NonSpace(LStrip(s)) == NonSpace(s)
  {
    hide LStrip, IsSpace;
    var l := LStrip(s);
    assert s == s[..|s| - |l|] + l;
    NonSpaceConcat(s[..|s| - |l|], l);
  }

  lemma CutTrimmed(remaining: string, max: int)
    requires Trimmed(remaining) && 0 < max < |remaining|
    ensures Trimmed(LStrip(remaining[max..])) && |LStrip(remaining[max..])| <= |remaining| - max
  {
    hide LStrip;
    var rest := remaining[max..];
    var l := LStrip(rest);
    assert rest[|rest| - 1] == remaining[|remaining| - 1];
    if l != [] {
      assert l[|l| - 1] == rest[|rest| - 1];
    }
  }

  lemma CutKeepsText(flat: string, remaining: string, max: int)
    requires 0 < max < |remaining|
    ensures NonSpace(flat + remaining[..max] + [] + LStrip(remaining[max..])) == NonSpace(flat + [] + remaining)
  {
    hide NonSpace, LStrip;
    var chunk, rest := remaining[..max], LStrip(remaining[max..]);
    assert flat + chunk + [] + rest == flat + chunk + rest;
    assert flat + [] + remaining == flat + chunk + remaining[max..];
    NonSpaceConcat(flat + chunk, rest);
    NonSpaceConcat(flat + chunk, remaining[max..]);
    LStripKeepsText(remaining[max..]);
  }

  /** A rest that is too long for an empty chunk fills one chunk. */
  lemma CutStep(chunks: seq<string>, remaining: string, done: seq<string>, max: int)
    requires Packing(chunks, [], remaining, done, max) && 0 < max < |remaining|
    ensures Packing(chunks + [remaining[..max]], [], LStrip(remaining[max..]), done, max)
  {
    hide NonSpace, Flat, LStrip, Tight;
    var chunk := remaining[..max];
    CutTrimmed(remaining, max);
    FlatAppend(chunks, chunk);
    CutKeepsText(Flat(chunks), remaining, max);
    PushKeepsTight(chunks, chunk, max);
  }

  // ---------------------------------------------------------------- paragraphs that fit are not cut

  predicate HoldsAt(chunk: string, p: string, k: nat) {
    k + |p| <= |chunk| && chunk[k..k + |p|] == p
  }

  ghost predicate Holds(chunk: string, p: string) {
    exists k :: HoldsAt(chunk, p, k)
  }

  ghost predicate Placed(chunks: seq<string>, p: string) {
    exists c :: c in chunks && Holds(c, p)
  }

  /** Every paragraph within the limit lies in one piece in a chunk, or is still to be placed. */
  ghost predicate Whole(chunks: seq<string>, current: string, remaining: string, done: seq<string>, max: int) {
    forall p :: p in done && |p| <= max ==> Placed(chunks + [current], p) || p == remaining
  }

  lemma PlacedStays(chunks: seq<string>, current: string, chunks': seq<string>, current': string, p: string)
    requires Placed(chunks + [current], p)
    requires chunks <= chunks' && (current in chunks' || Holds(current', p) || !Holds(current, p))
    ensures Placed(chunks' + [current'], p)
  {
    var c :| c in chunks + [current] && Holds(c, p);
    var all := chunks' + [current'];
    if c in chunks {
      assert c in chunks' && c in all;
    } else if current in chunks' {
      assert c == current && c in all;
    } else {
      assert all[|chunks'|] == current';
    }
  }

  lemma FlushKeepsWhole(chunks: seq<string>, current: string, remaining: string, done: seq<string>, max: int)
    requires Whole(chunks, current, remaining, done, max)
    ensures Whole(chunks + [current], [], remaining, done, max)
  {
    hide Holds, Placed;
    assert current in chunks + [current];
    forall p | p in done && |p| <= max && p != remaining ensures Placed(chunks + [current] + [[]], p) {
      PlacedStays(chunks, current, chunks + [current], [], p);
    }
  }

  lemma CutKeepsWhole(chunks: seq<string>, remaining: string, rest: string, done: seq<string>, max: int)
    requires Whole(chunks, [], remaining, done, max) && 0 < max < |remaining|
    ensures Whole(chunks + [remaining[..max]], [], rest, done, max)
  {
    hide Holds, Placed;
    var cut := chunks + [remaining[..max]];
    forall p | p in done && |p| <= max ensures Placed(cut + [[]], p) {
      PlacedStays(chunks, [], cut, [], p);
    }
  }

  lemma HeldBeside(left: string, p: string, right: string)
    ensures Holds(left + p + right, p)
  {
    assert HoldsAt(left + p + right, p, |left|);
  }

  lemma HeldDeep(left: string, c: string, right: string, p: string)
    requires Holds(c, p)
    ensures Holds(left + c + right, p)
  {
    var k: nat :| HoldsAt(c, p, k);
    assert (left + c + right)[|left|..|left| + |c|] == c;
    assert HoldsAt(left + c + right, p, |left| + k);
  }

  lemma JoinKeepsWhole(chunks: seq<string>, current: string, remaining: string, done: seq<string>, max: int)
    requires Whole(chunks, current, remaining, done, max)
    requires Trimmed(remaining) && (current != [] ==> Trimmed(current))
    ensures Whole(chunks, Strip(current + "\n\n" + remaining), [], done, max)
  {
    hide Holds, Placed, Strip, Trimmed;
    Joined(current, remaining);
    var joined := Strip(current + "\n\n" + remaining);
    assert joined == (if current == [] then [] else current + "\n\n") + remaining + [];
    HeldBeside(if current == [] then [] else current + "\n\n", remaining, []);
    forall p | p in done && |p| <= max ensures Placed(chunks + [joined], p) {
      if p == remaining {
        PlacedLast(chunks, joined, p);
      } else {
        if Holds(current, p) && current != [] {
          HeldDeep([], current, "\n\n" + remaining, p);
          assert [] + current + ("\n\n" + remaining) == joined;
        }
        if Holds(current, p) && current == [] {
          HeldInNothing(p, joined);
        }
        PlacedStays(chunks, current, chunks, joined, p);
      }
    }
  }

  lemma HeldInNothing(p: string, c: string)
    requires Holds([], p)
    ensures Holds(c, p)
  {
    assert p == [] && HoldsAt(c, p, 0);
  }

  lemma PlacedLast(chunks: seq<string>, c: string, p: string)
    requires Holds(c, p)
    ensures Placed(chunks + [c], p)
  {
    assert (chunks + [c])[|chunks|] == c;
  }

  lemma LoadKeepsWhole(chunks: seq<string>, current: string, done: seq<string>, p: string, max: int)
    requires Whole(chunks, current, [], done, max) && forall q :: q in done ==> q != []
    ensures Whole(chunks, current, p, done + [p], max)
  {
    hide Placed;
  }

  // ---------------------------------------------------------------- what chunks are made of

  function JoinBlank(pieces: seq<string>): string {
    if pieces == [] then ""
    else if |pieces| == 1 then pieces[0]
    else JoinBlank(pieces[..|pieces| - 1]) + "\n\n" + pieces[|pieces| - 1]
  }

  ghost predicate PieceOf(piece: string, paragraphs: seq<string>) {
    exists p :: p in paragraphs && Holds(p, piece)
  }

  ghost predicate Pieced(pieces: seq<string>, chunk: string, paragraphs: seq<string>) {
    pieces != [] && chunk == JoinBlank(pieces) && forall piece :: piece in pieces ==> PieceOf(piece, paragraphs)
  }

  /** Verbatim pieces of paragraphs, with a blank line between any two. */
  ghost predicate Composed(chunk: string, paragraphs: seq<string>) {
    exists pieces :: Pieced(pieces, chunk, paragraphs)
  }

  ghost predicate AllComposed(chunks: seq<string>, current: string, remaining: string, paragraphs: seq<string>) {
    && (forall c :: c in chunks ==> Composed(c, paragraphs))
    && (current != [] ==> Composed(current, paragraphs))
    && (remaining != [] ==> PieceOf(remaining, paragraphs))
  }

  lemma OnePiece(piece: string, paragraphs: seq<string>)
    requires PieceOf(piece, paragraphs)
    ensures Composed(piece, paragraphs)
  {
    hide PieceOf;
    assert Pieced([piece], piece, paragraphs);
  }

  lemma OneMorePiece(current: string, piece: string, paragraphs: seq<string>)
    requires Composed(current, paragraphs) && PieceOf(piece, paragraphs)
    ensures Composed(current + "\n\n" + piece, paragraphs)
  {
    hide PieceOf;
    var pieces :| Pieced(pieces, current, paragraphs);
    assert (pieces + [piece])[..|pieces|] == pieces;
    assert Pieced(pieces + [piece], current + "\n\n" + piece, paragraphs);
  }

  lemma SliceOfSlice(s: string, lo: nat, hi: nat, from: nat, to: nat)
    requires lo <= hi <= |s| && from <= to <= hi - lo
    ensures s[lo..hi][from..to] == s[lo + from..lo + to]
  {
    var a, b := s[lo..hi][from..to], s[lo + from..lo + to];
    forall i | 0 <= i < to - from ensures a[i] == b[i] {
      assert a[i] == s[lo..hi][from + i];
      assert b[i] == s[lo + from + i];
    }
  }

  lemma PartOfPiece(piece: string, from: nat, to: nat, paragraphs: seq<string>)
    requires PieceOf(piece, paragraphs) && from <= to <= |piece|
    ensures PieceOf(piece[from..to], paragraphs)
  {
    var p :| p in paragraphs && Holds(p, piece);
    var k: nat :| HoldsAt(p, piece, k);
    SliceOfSlice(p, k, k + |piece|, from, to);
    assert HoldsAt(p, piece[from..to], k + from);
  }

  lemma LoadComposed(chunks: seq<string>, current: string, paragraphs: seq<string>, i: nat)
    requires AllComposed(chunks, current, [], paragraphs) && i < |paragraphs|
    ensures AllComposed(chunks, current, paragraphs[i], paragraphs)
  {
    hide Composed;
    HeldBeside([], paragraphs[i], []);
    assert [] + paragraphs[i] + [] == paragraphs[i];
  }

  lemma JoinComposed(chunks: seq<string>, current: string, remaining: string, paragraphs: seq<string>)
    requires AllComposed(chunks, current, remaining, paragraphs)
    requires Trimmed(remaining) && (current != [] ==> Trimmed(current))
    ensures AllComposed(chunks, Strip(current + "\n\n" + remaining), [], paragraphs)
  {
    hide Composed, PieceOf, Strip;
    Joined(current, remaining);
    if current == [] {
      OnePiece(remaining, paragraphs);
    } else {
      OneMorePiece(current, remaining, paragraphs);
    }
  }

  lemma FlushComposed(chunks: seq<string>, current: string, remaining: string, paragraphs: seq<string>)
    requires AllComposed(chunks, current, remaining, paragraphs) && current != []
    ensures AllComposed(chunks + [current], [], remaining, paragraphs)
  {
    hide Composed, PieceOf;
  }

  lemma CutComposed(chunks: seq<string>, remaining: string, max: int, paragraphs: seq<string>)
    requires AllComposed(chunks, [], remaining, paragraphs) && 0 < max < |remaining|
    ensures AllComposed(chunks + [remaining[..max]], [], LStrip(remaining[max..]), paragraphs)
  {
    hide Composed, PieceOf, LStrip;
    PartOfPiece(remaining, 0, max, paragraphs);
    assert remaining[0..max] == remaining[..max];
    OnePiece(remaining[..max], paragraphs);
    var rest := remaining[max..];
    var from := |rest| - |LStrip(rest)|;
    PartOfPiece(remaining, max + from, |remaining|, paragraphs);
    assert rest[from..] == remaining[max + from..|remaining|];
  }

  lemma NothingComposed(paragraphs: seq<string>)
    ensures AllComposed([], [], [], paragraphs)
  {
  }

  lemma EndComposed(chunks: seq<string>, current: string, paragraphs: seq<string>)
    requires AllComposed(chunks, current, [], paragraphs)
    ensures forall c :: c in (if current != [] then chunks + [current] else chunks) ==> Composed(c, paragraphs)
  {
    hide Composed;
  }

  // ---------------------------------------------------------------- the splitter

  /** The constructor of a benchmark session: some chunks, none of them blank. */
  predicate SessionAccepts(chunks: seq<string>) {
    chunks != [] && forall c :: c in chunks ==> Strip(c) != []
  }

  lemma GoodIsNotBlank(chunk: string, max: int)
    requires Good(chunk, max)
    ensures Strip(chunk) != [] && NonSpace(chunk) != []
  {
    assert LStrip(chunk) == chunk;
    assert RStrip(chunk) == [] ==> AllSpace(chunk[0..]);
  }

  /** A context is accepted exactly when it has something to say. */
  lemma AcceptedIff(chunks: seq<string>, context: string, max: int)
    requires forall c :: c in chunks ==> Good(c, max)
    requires NonSpace(Flat(chunks)) == NonSpace(context)
    ensures SessionAccepts(chunks) <==> !AllSpace(context)
  {
    hide AllSpace, NonSpace, Strip, Flat, Good;
    forall c | c in chunks ensures Strip(c) != [] {
      GoodIsNotBlank(c, max);
    }
    FlatEmpty();
    NewlinesAreSpace();
    if chunks == [] {
      BlankText(context);
    } else {
      var n := |chunks| - 1;
      assert chunks == chunks[..n] + [chunks[n]];
      FlatAppend(chunks[..n], chunks[n]);
      NonSpaceConcat(Flat(chunks[..n]), chunks[n]);
      GoodIsNotBlank(chunks[n], max);
      assert NonSpace(context) != [];
    }
  }

  lemma BlankText(context: string)
    requires NonSpace(context) == NonSpace([])
    ensures AllSpace(context)
  {
  }

  /** Greedy packing: at most about twice as many chunks as the text needs. */
  lemma {:induction false} ChunkCount(chunks: seq<string>, max: int)
    requires Tight(chunks, max) && max > 0
    ensures (|chunks| - 1) * (max - 1) <= 2 * |Flat(chunks)| - (if chunks == [] then 0 else |chunks[|chunks| - 1]|)
    decreases |chunks|
  {
    if chunks != [] {
      var n := |chunks| - 1;
      ChunkCount(chunks[..n], max);
      if n > 0 {
        assert Apart(chunks[n - 1], chunks[n], max);
        assert n * (max - 1) == (n - 1) * (max - 1) + (max - 1);
      }
    }
  }

  /** split_context. */
  method SplitContext(context: string, maxChars: int) returns (r: Result<seq<string>, string>)
    ensures r.Err? <==> maxChars < 100
    ensures r.Ok? ==> forall c :: c in r.value ==> Good(c, maxChars)
    ensures r.Ok? ==> NonSpace(Flat(r.value)) == NonSpace(context)
    ensures r.Ok? ==> Tight(r.value, maxChars) && |Flat(r.value)| <= |context|
    ensures r.Ok? ==> (|r.value| - 1) * (maxChars - 1) <= 2 * |context|
    ensures r.Ok? ==> (SessionAccepts(r.value) <==> !AllSpace(context))
    ensures r.Ok? ==> forall p :: p in Paragraphs(context) && |p| <= maxChars ==> Placed(r.value, p)
    ensures r.Ok? ==> forall c :: c in r.value ==> Composed(c, Paragraphs(context))
  {
    hide *;
    if maxChars < 100 {
      return Err("context_chunk_chars must be at least 100");
    }
    var paragraphs := Paragraphs(context);
    ParagraphsKeepText(context);
    var chunks: seq<string> := [];
    var current := "";
    assert paragraphs[..0] == [];
    NothingPacked(maxChars);
    NothingComposed(paragraphs);
    for i := 0 to |paragraphs|
      invariant Packing(chunks, current, [], paragraphs[..i], maxChars)
      invariant Whole(chunks, current, [], paragraphs[..i], maxChars)
      invariant AllComposed(chunks, current, [], paragraphs)
    {
      var remaining := paragraphs[i];
      assert paragraphs[..i + 1] == paragraphs[..i] + [remaining];
      LoadStep(chunks, current, paragraphs[..i], remaining, maxChars);
      TrimmedNotEmpty(paragraphs[..i]);
      LoadKeepsWhole(chunks, current, paragraphs[..i], remaining, maxChars);
      LoadComposed(chunks, current, paragraphs, i);
      while remaining != []
        invariant Packing(chunks, current, remaining, paragraphs[..i + 1], maxChars)
        invariant Whole(chunks, current, remaining, paragraphs[..i + 1], maxChars)
        invariant AllComposed(chunks, current, remaining, paragraphs)
        decreases |remaining|, |current|
      {
        var available := maxChars - |current| - (if current != [] then 2 else 0);
        if available <= 0 {
          FlushStep(chunks, current, remaining, paragraphs[..i + 1], maxChars);
          FlushKeepsWhole(chunks, current, remaining, paragraphs[..i + 1], maxChars);
          FlushComposed(chunks, current, remaining, paragraphs);
          chunks := chunks + [current];
          current := "";
        } else if |remaining| <= available {
          PackingTrimmed(chunks, current, remaining, paragraphs[..i + 1], maxChars);
          JoinStep(chunks, current, remaining, paragraphs[..i + 1], maxChars);
          JoinKeepsWhole(chunks, current, remaining, paragraphs[..i + 1], maxChars);
          JoinComposed(chunks, current, remaining, paragraphs);
          current := Strip(current + "\n\n" + remaining);
          remaining := "";
        } else if current != [] {
          FlushStep(chunks, current, remaining, paragraphs[..i + 1], maxChars);
          FlushKeepsWhole(chunks, current, remaining, paragraphs[..i + 1], maxChars);
          FlushComposed(chunks, current, remaining, paragraphs);
          chunks := chunks + [current];
          current := "";
        } else {
          CutStep(chunks, remaining, paragraphs[..i + 1], maxChars);
          CutKeepsWhole(chunks, remaining, LStrip(remaining[maxChars..]), paragraphs[..i + 1], maxChars);
          CutComposed(chunks, remaining, maxChars, paragraphs);
          chunks := chunks + [remaining[..maxChars]];
          remaining := LStrip(remaining[maxChars..]);
        }
      }
    }
    assert paragraphs[..|paragraphs|] == paragraphs;
    Packed(chunks, current, paragraphs, maxChars);
    EndComposed(chunks, current, paragraphs);
    FlatEmpty();
    if current != [] {
      chunks := chunks + [current];
    }
    ChunkCount(chunks, maxChars);
    AcceptedIff(chunks, context, maxChars);
    r := Ok(chunks);
  }

  lemma NothingPacked(max: int)
    ensures Packing([], [], [], [], max) && Whole([], [], [], [], max)
  {
    assert Flat([]) + [] + [] == [];
  }

  lemma TrimmedNotEmpty(ps: seq<string>)
    requires forall p :: p in ps ==> Trimmed(p)
    ensures forall p :: p in ps ==> p != []
  {
  }

  lemma PackingTrimmed(chunks: seq<string>, current: string, remaining: string, done: seq<string>, max: int)
    requires Packing(chunks, current, remaining, done, max) && remaining != []
    ensures Trimmed(remaining) && (current != [] ==> Trimmed(current))
  {
    hide NonSpace, Flat, Tight, Trimmed;
  }

  /** The chunks, with what is pending at the end. */
  lemma Packed(chunks: seq<string>, current: string, done: seq<string>, max: int)
    requires Packing(chunks, current, [], done, max) && Whole(chunks, current, [], done, max)
    requires forall p :: p in done ==> Trimmed(p)
    ensures var all := if current != [] then chunks + [current] else chunks;
            && (forall c :: c in all ==> Good(c, max))
            && NonSpace(Flat(all)) == NonSpace(Flat(done))
            && Tight(all, max)
            && |Flat(all)| <= |Flat(done)| + (if done == [] then 0 else 2 * |done| - 2)
            && forall p :: p in done && |p| <= max ==> Placed(all, p)
  {
    hide NonSpace, Flat, Placed;
    FlatAppend(chunks, current);
    assert Flat(chunks) + current + [] == Flat(chunks) + current;
    if current != [] {
      PushKeepsTight(chunks, current, max);
    }
  }
}
