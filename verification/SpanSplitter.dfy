/** Message spans: overlapping windows of a session, and the pieces of a message too long for one. */
module SpanSplitter {

  datatype StoredMessage = StoredMessage(id: int, role: string, content: string)

  datatype MessageSpan = MessageSpan(startMessageId: int, endMessageId: int, messageCount: nat, content: string,
                                     spanIndex: nat)

  function Prefix(m: StoredMessage): (p: string)
    ensures |p| == |m.role| + 2
  {
    m.role + ": "
  }

  /** format_messages. */
  function Format(ms: seq<StoredMessage>): string {
    if ms == [] then ""
    else if |ms| == 1 then Prefix(ms[0]) + ms[0].content
    else Format(ms[..|ms| - 1]) + "\n" + Prefix(ms[|ms| - 1]) + ms[|ms| - 1].content
  }

  function AtLeast(low: int, x: int): int {
    if x < low then low else x
  }

  function AtMost(high: int, x: int): int {
    if x > high then high else x
  }

  /** truncate_role_message. */
  function TruncateRole(m: StoredMessage, maxChars: int): string {
    Prefix(m) + Take(m.content, AtLeast(1, maxChars - |Prefix(m)|))
  }

  /** s[:n] for a natural n. */
  function Take(s: string, n: nat): (r: string)
    ensures |r| == AtMost(|s|, n) && r <= s
  {
    if n < |s| then s[..n] else s
  }

  // ---------------------------------------------------------------- one oversized message

  /** Characters of the message that one of its pieces can hold. */
  function PayloadLimit(m: StoredMessage, maxChars: int): (n: nat)
    ensures n > 0
  {
    AtLeast(1, maxChars - |Prefix(m)|)
  }

  function Overlap(m: StoredMessage, maxChars: int, overlapChars: int): (n: nat)
    ensures n < PayloadLimit(m, maxChars)
  {
    AtLeast(0, AtMost(PayloadLimit(m, maxChars) - 1, overlapChars))
  }

  function Stride(m: StoredMessage, maxChars: int, overlapChars: int): (n: nat)
    ensures 0 < n && n + Overlap(m, maxChars, overlapChars) == PayloadLimit(m, maxChars)
  {
    PayloadLimit(m, maxChars) - Overlap(m, maxChars, overlapChars)
  }

  function Payload(m: StoredMessage, maxChars: int, offset: nat): (p: string)
    requires offset <= |m.content|
  {
    Take(m.content[offset..], PayloadLimit(m, maxChars))
  }

  /** The payloads from an offset on. */
  function PayloadsFrom(m: StoredMessage, maxChars: int, overlapChars: int, offset: nat): (ps: seq<string>)
    requires offset <= |m.content|
    decreases |m.content| - offset
  {
    if offset == |m.content| then []
    else if offset + PayloadLimit(m, maxChars) >= |m.content| then [Payload(m, maxChars, offset)]
    else [Payload(m, maxChars, offset)] + PayloadsFrom(m, maxChars, overlapChars, offset + Stride(m, maxChars, overlapChars))
  }

  function PieceSpan(m: StoredMessage, payload: string, index: nat): MessageSpan {
    MessageSpan(m.id, m.id, 1, Prefix(m) + payload, index)
  }

  function PieceSpans(m: StoredMessage, payloads: seq<string>, first: nat): (spans: seq<MessageSpan>)
    ensures |spans| == |payloads|
    ensures forall k :: 0 <= k < |spans| ==> spans[k] == PieceSpan(m, payloads[k], first + k)
  {
    seq(|payloads|, k requires 0 <= k < |payloads| => PieceSpan(m, payloads[k], first + k))
  }

  lemma PayloadStep(m: StoredMessage, maxChars: int, overlapChars: int, offset: nat)
    requires offset < |m.content|
    ensures PayloadsFrom(m, maxChars, overlapChars, offset)
            == [Payload(m, maxChars, offset)] +
               if offset + PayloadLimit(m, maxChars) >= |m.content| then []
               else PayloadsFrom(m, maxChars, overlapChars, offset + Stride(m, maxChars, overlapChars))
    ensures PayloadsFrom(m, maxChars, overlapChars, |m.content|) == []
  {
    hide Payload, PayloadLimit, Stride;
  }

  /** After the first pieces; what is left follows from the offset. */
  ghost predicate Emitted(m: StoredMessage, maxChars: int, overlapChars: int, first: nat, spans: seq<MessageSpan>, offset: nat) {
    && offset <= |m.content|
    && exists taken: seq<string> ::
         && spans == PieceSpans(m, taken, first)
         && PayloadsFrom(m, maxChars, overlapChars, 0) == taken + PayloadsFrom(m, maxChars, overlapChars, offset)
  }

  lemma NothingEmitted(m: StoredMessage, maxChars: int, overlapChars: int, first: nat)
    ensures Emitted(m, maxChars, overlapChars, first, [], 0)
  {
    hide PayloadsFrom;
    assert PieceSpans(m, [], first) == [];
    assert [] + PayloadsFrom(m, maxChars, overlapChars, 0) == PayloadsFrom(m, maxChars, overlapChars, 0);
  }

  /** One round of the loop, and the round that breaks it. */
  lemma EmitOne(m: StoredMessage, maxChars: int, overlapChars: int, first: nat, spans: seq<MessageSpan>, offset: nat)
    requires Emitted(m, maxChars, overlapChars, first, spans, offset) && offset < |m.content|
    ensures var more := spans + [PieceSpan(m, Payload(m, maxChars, offset), first + |spans|)];
            if offset + PayloadLimit(m, maxChars) >= |m.content| then Emitted(m, maxChars, overlapChars, first, more, |m.content|)
            else Emitted(m, maxChars, overlapChars, first, more, offset + Stride(m, maxChars, overlapChars))
  {
    hide PayloadsFrom, Payload, PayloadLimit, Stride, PieceSpan;
    var taken: seq<string> :|
      && spans == PieceSpans(m, taken, first)
      && PayloadsFrom(m, maxChars, overlapChars, 0) == taken + PayloadsFrom(m, maxChars, overlapChars, offset);
    PayloadStep(m, maxChars, overlapChars, offset);
    StrideFits(m, maxChars, overlapChars, offset);
    var payload := Payload(m, maxChars, offset);
    var end := if offset + PayloadLimit(m, maxChars) >= |m.content| then |m.content| else offset + Stride(m, maxChars, overlapChars);
    var rest := PayloadsFrom(m, maxChars, overlapChars, end);
    assert taken + ([payload] + rest) == taken + [payload] + rest;
    assert PieceSpans(m, taken + [payload], first) == spans + [PieceSpan(m, payload, first + |spans|)];
  }

  lemma StrideFits(m: StoredMessage, maxChars: int, overlapChars: int, offset: nat)
    ensures offset + PayloadLimit(m, maxChars) < |m.content| ==> offset + Stride(m, maxChars, overlapChars) <= |m.content|
  {
  }

  lemma AllEmitted(m: StoredMessage, maxChars: int, overlapChars: int, first: nat, spans: seq<MessageSpan>)
    requires Emitted(m, maxChars, overlapChars, first, spans, |m.content|)
    ensures spans == PieceSpans(m, PayloadsFrom(m, maxChars, overlapChars, 0), first)
  {
    hide PieceSpans;
    var taken: seq<string> :|
      && spans == PieceSpans(m, taken, first)
      && PayloadsFrom(m, maxChars, overlapChars, 0) == taken + PayloadsFrom(m, maxChars, overlapChars, |m.content|);
    assert taken + [] == taken;
  }

  /** split_oversized_message. */
  method SplitOversized(m: StoredMessage, maxChars: int, firstSpanIndex: nat, overlapChars: int)
      returns (spans: seq<MessageSpan>)
    ensures spans == PieceSpans(m, PayloadsFrom(m, maxChars, overlapChars, 0), firstSpanIndex)
  {
    hide PayloadsFrom, PieceSpans, Take, Emitted;
    var prefix := Prefix(m);
    var payloadLimit: nat := AtLeast(1, maxChars - |prefix|);
    var overlap: nat := AtLeast(0, AtMost(payloadLimit - 1, overlapChars));
    var step: nat := AtLeast(1, payloadLimit - overlap);
    spans := [];
    var offset := 0;
    NothingEmitted(m, maxChars, overlapChars, firstSpanIndex);
    while offset < |m.content|
      invariant offset <= |m.content|
      invariant Emitted(m, maxChars, overlapChars, firstSpanIndex, spans, offset)
    {
      var chunk := Take(m.content[offset..], payloadLimit);
      EmitOne(m, maxChars, overlapChars, firstSpanIndex, spans, offset);
      spans := spans + [MessageSpan(m.id, m.id, 1, prefix + chunk, firstSpanIndex + |spans|)];
      if offset + payloadLimit >= |m.content| {
        AllEmitted(m, maxChars, overlapChars, firstSpanIndex, spans);
        break;
      }
      offset := offset + step;
    }
    if offset == |m.content| {
      AllEmitted(m, maxChars, overlapChars, firstSpanIndex, spans);
    }
  }

  /** The first payload, followed by what each later one adds after the overlap. */
  function Reassemble(payloads: seq<string>, overlap: nat): string {
    if payloads == [] then []
    else if |payloads| == 1 then payloads[0]
    else Reassemble(payloads[..|payloads| - 1], overlap) + Drop(payloads[|payloads| - 1], overlap)
  }

  function Drop(s: string, n: nat): string {
    if n < |s| then s[n..] else []
  }

  /** How many pieces a message of n characters makes. */
  function PieceCount(n: nat, limit: nat, stride: nat): nat
    requires stride > 0
  {
    if n == 0 then 0 else if n <= limit then 1 else 1 + (n - limit + stride - 1) / stride
  }

  /** A piece starts where its predecessors' strides lead, and the last one reaches the end. */
  lemma {:induction false} PayloadsAt(m: StoredMessage, maxChars: int, overlapChars: int, offset: nat, k: nat)
    requires offset <= |m.content| && k < |PayloadsFrom(m, maxChars, overlapChars, offset)|
    ensures var at := offset + k * Stride(m, maxChars, overlapChars);
            var ps := PayloadsFrom(m, maxChars, overlapChars, offset);
            && at < |m.content| && ps[k] == Payload(m, maxChars, at)
            && (k == |ps| - 1 <==> at + PayloadLimit(m, maxChars) >= |m.content|)
    decreases k
  {
    hide Stride, PayloadLimit, Payload;
    var stride := Stride(m, maxChars, overlapChars);
    if k > 0 {
      PayloadsAt(m, maxChars, overlapChars, offset + stride, k - 1);
      NextOffset(offset, stride, k);
    }
  }

  lemma NextOffset(offset: nat, stride: nat, k: nat)
    requires k > 0
    ensures offset + k * stride == offset + stride + (k - 1) * stride
  {
  }

  lemma DivUnique(a: nat, d: nat, q: nat, r: nat)
    requires a == q * d + r && r < d
    ensures a / d == q
  {
    var k := a / d - q;
    assert k * d == r - a % d;
    assert -1 * d < k * d < d;
  }

  lemma CeilStep(x: nat, stride: nat)
    requires stride > 0 && x > 0
    ensures (x + stride - 1) / stride == (if x <= stride then 1 else 1 + (x - stride + stride - 1) / stride)
  {
    if x <= stride {
      DivUnique(x + stride - 1, stride, 1, x - 1);
    } else {
      var q, r := (x - 1) / stride, (x - 1) % stride;
      assert (q + 1) * stride == q * stride + stride;
      DivUnique(x + stride - 1, stride, q + 1, r);
      assert x - stride + stride - 1 == x - 1;
    }
  }

  lemma {:induction false} PayloadCount(m: StoredMessage, maxChars: int, overlapChars: int, offset: nat)
    requires offset <= |m.content|
    ensures |PayloadsFrom(m, maxChars, overlapChars, offset)|
            == PieceCount(|m.content| - offset, PayloadLimit(m, maxChars), Stride(m, maxChars, overlapChars))
    decreases |m.content| - offset
  {
    var stride, limit, n := Stride(m, maxChars, overlapChars), PayloadLimit(m, maxChars), |m.content| - offset;
    if n > limit {
      PayloadCount(m, maxChars, overlapChars, offset + stride);
      CeilStep(n - limit, stride);
    }
  }

  lemma Glue(content: string, at: nat, overlap: nat, limit: nat)
    requires overlap < limit && at + overlap < |content|
    ensures 0 <= AtMost(|content|, at + limit)
    ensures content[..at + overlap] + Drop(Take(content[at..], limit), overlap) == content[..AtMost(|content|, at + limit)]
  {
    var end := AtMost(|content|, at + limit);
    assert Take(content[at..], limit) == content[at..end];
    assert content[at..end][overlap..] == content[at + overlap..end];
  }

  lemma ReassembleStep(ps: seq<string>, k: nat, overlap: nat)
    requires 0 < k < |ps|
    ensures Reassemble(ps[..k + 1], overlap) == Reassemble(ps[..k], overlap) + Drop(ps[k], overlap)
  {
    assert ps[..k + 1][..k] == ps[..k];
  }

  lemma StrideTimes(m: StoredMessage, maxChars: int, overlapChars: int, k: nat)
    requires k > 0
    ensures (k - 1) * Stride(m, maxChars, overlapChars) + PayloadLimit(m, maxChars)
            == k * Stride(m, maxChars, overlapChars) + Overlap(m, maxChars, overlapChars)
  {
    hide Stride, Overlap, PayloadLimit;
    var stride := Stride(m, maxChars, overlapChars);
    assert k * stride == (k - 1) * stride + stride;
  }

  /** Putting the payloads back together gives the text from the start on. */
  lemma {:induction false} ReassemblesPrefix(m: StoredMessage, maxChars: int, overlapChars: int, k: nat)
    requires k < |PayloadsFrom(m, maxChars, overlapChars, 0)|
    ensures var ps := PayloadsFrom(m, maxChars, overlapChars, 0);
            var end := AtMost(|m.content|, k * Stride(m, maxChars, overlapChars) + PayloadLimit(m, maxChars));
            0 <= end && Reassemble(ps[..k + 1], Overlap(m, maxChars, overlapChars)) == m.content[..end]
    decreases k
  {
    hide PayloadsFrom, PayloadLimit, Stride, Overlap, Reassemble, Drop, Take;
    var ps := PayloadsFrom(m, maxChars, overlapChars, 0);
    var stride, overlap := Stride(m, maxChars, overlapChars), Overlap(m, maxChars, overlapChars);
    PayloadsAt(m, maxChars, overlapChars, 0, k);
    if k == 0 {
      ReassembleOne(ps[..1], overlap);
      TakeIs(m.content, PayloadLimit(m, maxChars));
      assert 0 * stride == 0 && m.content[0..] == m.content;
    } else {
      PayloadsAt(m, maxChars, overlapChars, 0, k - 1);
      ReassemblesPrefix(m, maxChars, overlapChars, k - 1);
      ReassembleStep(ps, k, overlap);
      StrideTimes(m, maxChars, overlapChars, k);
      Glue(m.content, k * stride, overlap, PayloadLimit(m, maxChars));
    }
  }

  lemma ReassembleOne(ps: seq<string>, overlap: nat)
    requires |ps| == 1
    ensures Reassemble(ps, overlap) == ps[0]
  {
  }

  lemma TakeIs(s: string, n: nat)
    ensures 0 <= AtMost(|s|, n) && Take(s, n) == s[..AtMost(|s|, n)]
  {
  }

  /** A later payload adds at least one character. */
  lemma EachPieceAdds(m: StoredMessage, maxChars: int, overlapChars: int, k: nat)
    requires 0 < k < |PayloadsFrom(m, maxChars, overlapChars, 0)|
    ensures Drop(PayloadsFrom(m, maxChars, overlapChars, 0)[k], Overlap(m, maxChars, overlapChars)) != []
  {
    var stride, limit := Stride(m, maxChars, overlapChars), PayloadLimit(m, maxChars);
    PayloadsAt(m, maxChars, overlapChars, 0, k - 1);
    PayloadsAt(m, maxChars, overlapChars, 0, k);
    assert k * stride == (k - 1) * stride + stride;
  }

  /** Splitting loses nothing: with the overlaps taken off, the payloads are the message. */
  lemma SplitIsLossless(m: StoredMessage, maxChars: int, overlapChars: int)
    ensures Reassemble(PayloadsFrom(m, maxChars, overlapChars, 0), Overlap(m, maxChars, overlapChars)) == m.content
  {
    var ps := PayloadsFrom(m, maxChars, overlapChars, 0);
    if m.content != [] {
      var k := |ps| - 1;
      PayloadsAt(m, maxChars, overlapChars, 0, k);
      ReassemblesPrefix(m, maxChars, overlapChars, k);
      assert ps[..k + 1] == ps;
    }
  }

  /** A non-empty message stays within the limit in all its pieces exactly when its prefix leaves room
      for one character. */
  lemma PiecesFitIff(m: StoredMessage, maxChars: int, overlapChars: int, first: nat)
    requires m.content != []
    ensures var spans := PieceSpans(m, PayloadsFrom(m, maxChars, overlapChars, 0), first);
            (forall s :: s in spans ==> |s.content| <= maxChars) <==> |Prefix(m)| + 1 <= maxChars
  {
    var ps := PayloadsFrom(m, maxChars, overlapChars, 0);
    var spans := PieceSpans(m, ps, first);
    forall k | 0 <= k < |spans| ensures |spans[k].content| <= |Prefix(m)| + PayloadLimit(m, maxChars) {
      PayloadsAt(m, maxChars, overlapChars, 0, k);
    }
    assert spans[0] in spans && |spans[0].content| > |Prefix(m)|;
  }

  // ---------------------------------------------------------------- windows of a session

  /** The limits after clamping. */
  datatype Limits = Limits(maxMessages: nat, maxChars: nat, overlap: nat)

  function Clamp(maxMessages: int, maxChars: int, overlapMessages: int): (l: Limits)
    ensures l.maxMessages > l.overlap && l.maxChars >= 200
  {
    var m := AtLeast(1, maxMessages);
    Limits(m, AtLeast(200, maxChars), AtLeast(0, AtMost(m - 1, overlapMessages)))
  }

  predicate Oversized(m: StoredMessage, l: Limits) {
    |Format([m])| > l.maxChars
  }

  /** From a window of n messages that fits, the longest window that still fits. */
  function Grow(ms: seq<StoredMessage>, start: nat, n: nat, l: Limits): (r: nat)
    requires 1 <= n && start + n <= |ms|
    ensures n <= r && start + r <= |ms|
    decreases |ms| - start - n
  {
    if n < l.maxMessages && start + n < |ms| && |Format(ms[start..start + n + 1])| <= l.maxChars
    then Grow(ms, start, n + 1, l) else n
  }

  /** A piece of the session: a window of messages, or one oversized message. */
  datatype Piece = Window(start: nat, count: nat) | Split(start: nat)

  function StepOver(piece: Piece, l: Limits): (n: nat)
    ensures n > 0
  {
    match piece
    case Window(_, count) => AtLeast(1, count - l.overlap)
    case Split(_) => 1
  }

  function PieceAt(ms: seq<StoredMessage>, start: nat, l: Limits): (p: Piece)
    requires start < |ms|
    ensures p.start == start
  {
    if Oversized(ms[start], l) then Split(start) else Window(start, Grow(ms, start, 1, l))
  }

  /** The pieces of the session from a message on. */
  function Plan(ms: seq<StoredMessage>, start: nat, l: Limits): seq<Piece>
    decreases |ms| - start
  {
    if start >= |ms| then []
    else
      var p := PieceAt(ms, start, l);
      [p] + Plan(ms, start + StepOver(p, l), l)
  }

  predicate InRange(p: Piece, ms: seq<StoredMessage>) {
    match p
    case Window(start, count) => count > 0 && start + count <= |ms|
    case Split(start) => start < |ms|
  }

  const OVERLAP_CHARS := 150

  function SpansOf(ms: seq<StoredMessage>, p: Piece, l: Limits, first: nat): seq<MessageSpan>
    requires InRange(p, ms)
  {
    match p
    case Window(start, count) =>
      [MessageSpan(ms[start].id, ms[start + count - 1].id, count, Format(ms[start..start + count]), first)]
    case Split(start) => PieceSpans(ms[start], PayloadsFrom(ms[start], l.maxChars, OVERLAP_CHARS, 0), first)
  }

  /** The spans of the pieces, numbered on from `first`. */
  function Render(ms: seq<StoredMessage>, plan: seq<Piece>, l: Limits, first: nat): seq<MessageSpan>
    requires forall p :: p in plan ==> InRange(p, ms)
  {
    if plan == [] then []
    else
      var head := SpansOf(ms, plan[0], l, first);
      head + Render(ms, plan[1..], l, first + |head|)
  }

  lemma {:induction false} PlanInRange(ms: seq<StoredMessage>, start: nat, l: Limits)
    ensures forall p :: p in Plan(ms, start, l) ==> InRange(p, ms)
    decreases |ms| - start
  {
    if start < |ms| {
      PlanInRange(ms, start + StepOver(PieceAt(ms, start, l), l), l);
    }
  }

  /** Both truncations of a window are idle: the text of the window already fits. */
  lemma TruncationIdle(m: StoredMessage, maxChars: nat)
    requires |Format([m])| <= maxChars
    ensures Take(TruncateRole(m, maxChars), maxChars) == Format([m])
  {
  }

  lemma FormatGrows(ms: seq<StoredMessage>, start: nat, n: nat)
    requires 1 <= n && start + n < |ms|
    ensures |Format(ms[start..start + n + 1])| > |Format(ms[start..start + n])|
  {
    assert ms[start..start + n + 1][..n] == ms[start..start + n];
  }

  lemma GrowStep(ms: seq<StoredMessage>, start: nat, n: nat, l: Limits)
    requires 1 <= n && start + n <= |ms|
    ensures var more := n < l.maxMessages && start + n < |ms| && |Format(ms[start..start + n + 1])| <= l.maxChars;
            Grow(ms, start, n, l) == if more then Grow(ms, start, n + 1, l) else n
  {
    hide Format;
  }

  /** One window: messages are taken while the next still fits. */
  method TakeWindow(ms: seq<StoredMessage>, start: nat, l: Limits) returns (window: seq<StoredMessage>)
    requires start < |ms| && !Oversized(ms[start], l) && l.maxMessages > 0
    ensures window == ms[start..start + Grow(ms, start, 1, l)]
  {
    hide Format, Grow;
    window := [];
    ghost var target := Grow(ms, start, 1, l);
    var n := 0;
    while start + n < |ms|
      invariant start + n <= |ms| && window == ms[start..start + n]
      invariant n > 0 ==> Grow(ms, start, n, l) == target && n < l.maxMessages && |Format(window)| < l.maxChars
    {
      var proposed := window + [ms[start + n]];
      assert proposed == ms[start..start + n + 1];
      if n > 0 {
        GrowStep(ms, start, n, l);
      } else {
        assert proposed == [ms[start]];
      }
      if window != [] && (|proposed| > l.maxMessages || |Format(proposed)| > l.maxChars) {
        break;
      }
      window, n := proposed, n + 1;
      if |window| >= l.maxMessages || |Format(proposed)| >= l.maxChars {
        if start + n < |ms| {
          FormatGrows(ms, start, n);
        }
        GrowStep(ms, start, n, l);
        break;
      }
    }
    GrowStep(ms, start, n, l);
  }

  /** The spans of a session. */
  function SessionSpans(ms: seq<StoredMessage>, l: Limits): seq<MessageSpan> {
    PlanInRange(ms, 0, l);
    Render(ms, Plan(ms, 0, l), l, 0)
  }

  lemma PlanStep(ms: seq<StoredMessage>, start: nat, l: Limits, first: nat)
    requires start < |ms|
    ensures var p := PieceAt(ms, start, l);
            && Plan(ms, start, l) == [p] + Plan(ms, start + StepOver(p, l), l)
            && InRange(p, ms)
            && (forall q :: q in Plan(ms, start, l) ==> InRange(q, ms))
            && (forall q :: q in Plan(ms, start + StepOver(p, l), l) ==> InRange(q, ms))
            && Render(ms, Plan(ms, start, l), l, first)
               == SpansOf(ms, p, l, first)
                  + Render(ms, Plan(ms, start + StepOver(p, l), l), l, first + |SpansOf(ms, p, l, first)|)
  {
    hide SpansOf, PieceAt, StepOver, InRange, Plan, Render;
    var p, rest := PieceAt(ms, start, l), Plan(ms, start + StepOver(PieceAt(ms, start, l), l), l);
    PlanInRange(ms, start, l);
    PlanUnfolds(ms, start, l);
    assert p in [p] + rest && forall q :: q in rest ==> q in [p] + rest;
    RenderStep(ms, p, rest, l, first);
  }

  lemma PlanUnfolds(ms: seq<StoredMessage>, start: nat, l: Limits)
    requires start < |ms|
    ensures Plan(ms, start, l) == [PieceAt(ms, start, l)] + Plan(ms, start + StepOver(PieceAt(ms, start, l), l), l)
  {
    hide PieceAt, StepOver;
  }

  lemma RenderStep(ms: seq<StoredMessage>, p: Piece, rest: seq<Piece>, l: Limits, first: nat)
    requires InRange(p, ms) && forall q :: q in rest ==> InRange(q, ms)
    ensures Render(ms, [p] + rest, l, first) == SpansOf(ms, p, l, first) + Render(ms, rest, l, first + |SpansOf(ms, p, l, first)|)
  {
    hide SpansOf, InRange;
    assert ([p] + rest)[1..] == rest;
  }

  /** What the outer loop has emitted when it gets to a message. */
  ghost predicate SoFar(ms: seq<StoredMessage>, l: Limits, spans: seq<MessageSpan>, start: nat) {
    && (forall q :: q in Plan(ms, start, l) ==> InRange(q, ms))
    && SessionSpans(ms, l) == spans + Render(ms, Plan(ms, start, l), l, |spans|)
  }

  lemma NothingSoFar(ms: seq<StoredMessage>, l: Limits)
    ensures SoFar(ms, l, [], 0)
  {
    hide Plan, Render, InRange;
    PlanInRange(ms, 0, l);
    assert [] + SessionSpans(ms, l) == SessionSpans(ms, l);
  }

  lemma NoSession(l: Limits)
    ensures SessionSpans([], l) == []
  {
    EmptyPlan([], 0, l, 0);
  }

  lemma SoFarStep(ms: seq<StoredMessage>, l: Limits, spans: seq<MessageSpan>, start: nat)
    requires SoFar(ms, l, spans, start) && start < |ms|
    ensures InRange(PieceAt(ms, start, l), ms)
    ensures SoFar(ms, l, spans + SpansOf(ms, PieceAt(ms, start, l), l, |spans|), start + StepOver(PieceAt(ms, start, l), l))
  {
    hide Plan, Render, InRange, SpansOf, PieceAt, StepOver, SessionSpans;
    var p, at := PieceAt(ms, start, l), |spans|;
    PlanStep(ms, start, l, at);
    var rest := Render(ms, Plan(ms, start + StepOver(p, l), l), l, at + |SpansOf(ms, p, l, at)|);
    assert spans + (SpansOf(ms, p, l, at) + rest) == spans + SpansOf(ms, p, l, at) + rest;
  }

  lemma AllSoFar(ms: seq<StoredMessage>, l: Limits, spans: seq<MessageSpan>, start: nat)
    requires SoFar(ms, l, spans, start) && start >= |ms|
    ensures spans == SessionSpans(ms, l)
  {
    hide SessionSpans;
    EmptyPlan(ms, start, l, |spans|);
  }

  /** split_session_messages. */
  method SplitSession(ms: seq<StoredMessage>, maxMessages: int, maxChars: int, overlapMessages: int)
      returns (spans: seq<MessageSpan>)
    ensures spans == SessionSpans(ms, Clamp(maxMessages, maxChars, overlapMessages))
  {
    hide Format, Grow, Plan, Render, PieceSpans, PayloadsFrom, TruncateRole, Take, SessionSpans, SoFar;
    if ms == [] {
      NoSession(Clamp(maxMessages, maxChars, overlapMessages));
      return [];
    }
    var l := Clamp(maxMessages, maxChars, overlapMessages);
    spans := [];
    var start := 0;
    NothingSoFar(ms, l);
    while start < |ms|
      invariant SoFar(ms, l, spans, start)
    {
      SoFarStep(ms, l, spans, start);
      if |Format([ms[start]])| > l.maxChars {
        var pieces := SplitOversized(ms[start], l.maxChars, |spans|, OVERLAP_CHARS);
        spans := spans + pieces;
        start := start + 1;
      } else {
        var window := TakeWindow(ms, start, l);
        var content := TruncateRole(window[0], l.maxChars);
        TruncationIdle(window[0], l.maxChars);
        if |window| > 1 {
          content := Format(window);
          WindowFits(ms, start, l);
          TakeAll(content, l.maxChars);
        } else {
          assert window == [window[0]];
        }
        spans := spans + [MessageSpan(window[0].id, window[|window| - 1].id, |window|, Take(content, l.maxChars), |spans|)];
        start := start + AtLeast(1, |window| - l.overlap);
      }
    }
    AllSoFar(ms, l, spans, start);
  }

  lemma EmptyPlan(ms: seq<StoredMessage>, start: nat, l: Limits, first: nat)
    requires start >= |ms|
    ensures Plan(ms, start, l) == [] && Render(ms, [], l, first) == []
  {
  }

  lemma TakeAll(s: string, n: nat)
    requires |s| <= n
    ensures Take(s, n) == s
  {
  }

  /** A window respects both limits, and could not have taken one message more. */
  lemma {:induction false} GrownFits(ms: seq<StoredMessage>, start: nat, n: nat, l: Limits)
    requires 1 <= n <= l.maxMessages && start + n <= |ms| && |Format(ms[start..start + n])| <= l.maxChars
    ensures var r := Grow(ms, start, n, l);
            && r <= l.maxMessages && |Format(ms[start..start + r])| <= l.maxChars
            && (r == l.maxMessages || start + r == |ms| || |Format(ms[start..start + r + 1])| > l.maxChars)
    decreases |ms| - n
  {
    hide Format;
    if n < l.maxMessages && start + n < |ms| && |Format(ms[start..start + n + 1])| <= l.maxChars {
      GrownFits(ms, start, n + 1, l);
    }
  }

  lemma WindowFits(ms: seq<StoredMessage>, start: nat, l: Limits)
    requires start < |ms| && !Oversized(ms[start], l) && l.maxMessages > 0
    ensures var r := Grow(ms, start, 1, l);
            && r <= l.maxMessages && |Format(ms[start..start + r])| <= l.maxChars
            && (r == l.maxMessages || start + r == |ms| || |Format(ms[start..start + r + 1])| > l.maxChars)
  {
    hide Format;
    assert ms[start..start + 1] == [ms[start]];
    GrownFits(ms, start, 1, l);
  }

  // ---------------------------------------------------------------- what the spans are

  /** Spans are numbered in order and hold at least one and at most maxMessages messages. */
  ghost predicate Numbered(spans: seq<MessageSpan>, first: nat, l: Limits) {
    forall k :: 0 <= k < |spans| ==> spans[k].spanIndex == first + k && 1 <= spans[k].messageCount <= l.maxMessages
  }

  ghost predicate Short(spans: seq<MessageSpan>, l: Limits) {
    forall k :: 0 <= k < |spans| ==> |spans[k].content| <= l.maxChars
  }

  /** The roles leave room for at least one character of text. */
  ghost predicate RolesFit(ms: seq<StoredMessage>, l: Limits) {
    forall m :: m in ms ==> |Prefix(m)| < l.maxChars
  }

  lemma PieceNumbered(ms: seq<StoredMessage>, start: nat, l: Limits, first: nat)
    requires start < |ms| && l.maxMessages > 0 && InRange(PieceAt(ms, start, l), ms)
    ensures Numbered(SpansOf(ms, PieceAt(ms, start, l), l, first), first, l)
  {
    hide Format, PayloadsFrom, Grow;
    if !Oversized(ms[start], l) {
      WindowFits(ms, start, l);
    }
  }

  lemma PieceShort(ms: seq<StoredMessage>, start: nat, l: Limits, first: nat)
    requires start < |ms| && l.maxMessages > 0 && RolesFit(ms, l) && InRange(PieceAt(ms, start, l), ms)
    ensures Short(SpansOf(ms, PieceAt(ms, start, l), l, first), l)
  {
    hide Format, PayloadsFrom, Grow;
    if Oversized(ms[start], l) {
      var ps := PayloadsFrom(ms[start], l.maxChars, OVERLAP_CHARS, 0);
      forall k | 0 <= k < |ps| ensures |Prefix(ms[start]) + ps[k]| <= l.maxChars {
        PayloadsAt(ms[start], l.maxChars, OVERLAP_CHARS, 0, k);
      }
    } else {
      WindowFits(ms, start, l);
    }
  }

  lemma {:induction false} RenderBounded(ms: seq<StoredMessage>, start: nat, l: Limits, first: nat)
    requires l.maxMessages > 0
    ensures forall p :: p in Plan(ms, start, l) ==> InRange(p, ms)
    ensures Numbered(Render(ms, Plan(ms, start, l), l, first), first, l)
    ensures RolesFit(ms, l) ==> Short(Render(ms, Plan(ms, start, l), l, first), l)
    decreases |ms| - start
  {
    hide SpansOf, PieceAt, StepOver, RolesFit, InRange, Plan, Render;
    if start >= |ms| {
      EmptyPlan(ms, start, l, first);
    } else {
      var p := PieceAt(ms, start, l);
      PlanStep(ms, start, l, first);
      PieceNumbered(ms, start, l, first);
      if RolesFit(ms, l) {
        PieceShort(ms, start, l, first);
      }
      RenderBounded(ms, start + StepOver(p, l), l, first + |SpansOf(ms, p, l, first)|);
    }
  }

  /** The spans of a session are numbered 0, 1, 2, ..., and hold at most maxMessages messages; they keep
      within maxChars when the roles leave room for text. */
  lemma SessionBounded(ms: seq<StoredMessage>, maxMessages: int, maxChars: int, overlapMessages: int)
    ensures var l := Clamp(maxMessages, maxChars, overlapMessages);
            && Numbered(SessionSpans(ms, l), 0, l)
            && (RolesFit(ms, l) ==> Short(SessionSpans(ms, l), l))
  {
    hide Plan, Render, RolesFit, Numbered, Short;
    RenderBounded(ms, 0, Clamp(maxMessages, maxChars, overlapMessages), 0);
  }

  predicate Covers(p: Piece, j: nat) {
    match p
    case Window(start, count) => start <= j < start + count
    case Split(start) => j == start
  }

  /** Pieces follow each other without a gap. */
  lemma {:induction false} NoGap(ms: seq<StoredMessage>, start: nat, l: Limits, j: nat)
    requires start <= j < |ms|
    ensures exists p :: p in Plan(ms, start, l) && Covers(p, j)
    decreases |ms| - start
  {
    hide Grow, Oversized;
    var p := PieceAt(ms, start, l);
    if Covers(p, j) {
      assert p in Plan(ms, start, l);
    } else {
      NoGap(ms, start + StepOver(p, l), l, j);
      var q :| q in Plan(ms, start + StepOver(p, l), l) && Covers(q, j);
      assert q in Plan(ms, start, l);
    }
  }

  /** A piece of the plan that covers the message has spans, and all of them are in the result. */
  ghost predicate Shown(ms: seq<StoredMessage>, l: Limits, j: nat) {
    exists p, first :: Displays(ms, l, p, first) && Covers(p, j)
  }

  ghost predicate Displays(ms: seq<StoredMessage>, l: Limits, p: Piece, first: nat) {
    && p in Plan(ms, 0, l)
    && InRange(p, ms)
    && SpansOf(ms, p, l, first) != []
    && forall s :: s in SpansOf(ms, p, l, first) ==> s in SessionSpans(ms, l)
  }

  /** Every piece of the plan is rendered. */
  lemma {:induction false} PieceRendered(ms: seq<StoredMessage>, start: nat, l: Limits, first: nat, p: Piece)
      returns (at: nat)
    requires p in Plan(ms, start, l)
    ensures forall q :: q in Plan(ms, start, l) ==> InRange(q, ms)
    ensures forall s :: s in SpansOf(ms, p, l, at) ==> s in Render(ms, Plan(ms, start, l), l, first)
    decreases |ms| - start
  {
    hide SpansOf, PieceAt, StepOver, InRange, Plan, Render;
    if start >= |ms| {
      EmptyPlan(ms, start, l, first);
      assert false;
    }
    var q := PieceAt(ms, start, l);
    PlanStep(ms, start, l, first);
    if p == q {
      at := first;
    } else {
      at := PieceRendered(ms, start + StepOver(q, l), l, first + |SpansOf(ms, q, l, first)|, p);
    }
  }

  lemma {:induction false} FormatContains(ms: seq<StoredMessage>, i: nat)
    requires i < |ms|
    ensures |Format(ms)| >= |Format([ms[i]])|
    decreases |ms|
  {
    if |ms| == 1 {
      assert ms == [ms[i]];
    } else if i < |ms| - 1 {
      FormatContains(ms[..|ms| - 1], i);
    }
  }

  /** Pieces of the plan are windows that fit, or messages that do not. */
  ghost predicate Sound(p: Piece, ms: seq<StoredMessage>, l: Limits) {
    && InRange(p, ms)
    && (p.Window? ==> |Format(ms[p.start..p.start + p.count])| <= l.maxChars)
    && (p.Split? ==> Oversized(ms[p.start], l))
  }

  lemma {:induction false} PlanSound(ms: seq<StoredMessage>, start: nat, l: Limits)
    requires l.maxMessages > 0
    ensures forall p :: p in Plan(ms, start, l) ==> Sound(p, ms, l)
    decreases |ms| - start
  {
    hide Format;
    if start < |ms| {
      if !Oversized(ms[start], l) {
        WindowFits(ms, start, l);
      }
      PlanSound(ms, start + StepOver(PieceAt(ms, start, l), l), l);
    }
  }

  /** A message is shown iff it has text or its role leaves within the limit. */
  lemma ShownIff(ms: seq<StoredMessage>, l: Limits, j: nat)
    requires j < |ms| && l.maxMessages > 0
    ensures Shown(ms, l, j) <==> ms[j].content != [] || |Prefix(ms[j])| <= l.maxChars
  {
    hide Plan, SpansOf, Grow, Format, Render;
    NoGap(ms, 0, l, j);
    PlanSound(ms, 0, l);
    var p :| p in Plan(ms, 0, l) && Covers(p, j);
    var at := PieceRendered(ms, 0, l, 0, p);
    SpansWhen(ms, p, l, j, at);
    assert SpansOf(ms, p, l, at) != [] ==> Displays(ms, l, p, at);
    forall q, first | Displays(ms, l, q, first) && Covers(q, j)
      ensures ms[j].content != [] || |Prefix(ms[j])| <= l.maxChars
    {
      SpansWhen(ms, q, l, j, first);
    }
  }

  /** Every stored message is shown, whatever the limits asked for. */
  lemma EveryMessageShown(ms: seq<StoredMessage>, maxMessages: int, maxChars: int, overlapMessages: int, j: nat)
    requires j < |ms| && forall m :: m in ms ==> m.role in ["system", "user", "assistant"]
    ensures Shown(ms, Clamp(maxMessages, maxChars, overlapMessages), j)
  {
    hide Shown;
    assert ms[j] in ms;
    ShownIff(ms, Clamp(maxMessages, maxChars, overlapMessages), j);
  }

  /** ... in spans that keep within both limits. */
  lemma StoredRolesFit(ms: seq<StoredMessage>, maxMessages: int, maxChars: int, overlapMessages: int)
    requires forall m :: m in ms ==> m.role in ["system", "user", "assistant"]
    ensures var l := Clamp(maxMessages, maxChars, overlapMessages);
            Numbered(SessionSpans(ms, l), 0, l) && Short(SessionSpans(ms, l), l)
  {
    hide SessionSpans, Short, Numbered;
    SessionBounded(ms, maxMessages, maxChars, overlapMessages);
  }

  lemma SpansWhen(ms: seq<StoredMessage>, p: Piece, l: Limits, j: nat, first: nat)
    requires j < |ms| && Sound(p, ms, l) && Covers(p, j)
    ensures SpansOf(ms, p, l, first) != [] <==> ms[j].content != [] || |Prefix(ms[j])| <= l.maxChars
  {
    if p.Window? {
      FormatContains(ms[p.start..p.start + p.count], j - p.start);
    }
  }

  /** After a window that is longer than the overlap the next piece starts so that they share the overlap exactly; after a
      shorter one, and after a message cut into pieces, it starts one message on; and the plan ends where the messages do. */
  lemma NextStarts(ms: seq<StoredMessage>, start: nat, l: Limits)
    requires start < |ms|
    ensures var p, plan := PieceAt(ms, start, l), Plan(ms, start, l);
            var next := if p.Window? && p.count > l.overlap then start + p.count - l.overlap else start + 1;
            && plan != [] && plan[0] == p
            && (|plan| > 1 <==> next < |ms|)
            && (|plan| > 1 ==> plan[1].start == next)
  {
  }

  // ---------------------------------------------------------------- what a span says

  /** The limits that are used: at least one message and 200 characters, and an overlap from none to all but one of the
      messages. */
  lemma ClampIs(maxMessages: int, maxChars: int, overlapMessages: int)
    ensures var l := Clamp(maxMessages, maxChars, overlapMessages);
            && (if maxMessages >= 1 then l.maxMessages == maxMessages else l.maxMessages == 1)
            && (if maxChars >= 200 then l.maxChars == maxChars else l.maxChars == 200)
            && (overlapMessages <= 0 ==> l.overlap == 0)
            && (0 < overlapMessages < l.maxMessages ==> l.overlap == overlapMessages)
            && (overlapMessages >= l.maxMessages ==> l.overlap == l.maxMessages - 1)
  {
  }

  lemma FormatOne(m: StoredMessage)
    ensures Format([m]) == m.role + ": " + m.content
  {
  }

  lemma FormatNone()
    ensures Format([]) == ""
  {
  }

  lemma FormatMore(ms: seq<StoredMessage>, m: StoredMessage)
    requires ms != []
    ensures Format(ms + [m]) == Format(ms) + "\n" + Format([m])
  {
    assert (ms + [m])[..|ms|] == ms;
    assert Format(ms) + "\n" + Prefix(m) + m.content == Format(ms) + "\n" + (Prefix(m) + m.content);
  }

  /** One line for each message: its role, a colon and a space, its text. */
  lemma {:induction false} FormatIs(a: seq<StoredMessage>, b: seq<StoredMessage>)
    ensures forall m :: Format([m]) == m.role + ": " + m.content
    ensures a != [] && b != [] ==> Format(a + b) == Format(a) + "\n" + Format(b)
    ensures Format([]) == ""
    decreases |b|
  {
    hide Format;
    FormatNone();
    forall m ensures Format([m]) == m.role + ": " + m.content {
      FormatOne(m);
    }
    if a != [] && b != [] {
      var n := |b| - 1;
      var last := [b[n]];
      if n == 0 {
        assert b == last;
        FormatMore(a, b[n]);
      } else {
        assert a + b == (a + b[..n]) + last && b == b[..n] + last;
        FormatIs(a, b[..n]);
        FormatMore(a + b[..n], b[n]);
        FormatMore(b[..n], b[n]);
        assert Format(a) + "\n" + Format(b[..n]) + "\n" + Format(last) == Format(a) + "\n" + (Format(b[..n]) + "\n" + Format(last));
      }
    }
  }

  /** A message cut to a limit keeps its role, and as much of its text as there is room for, at least one character. */
  lemma TruncatedIs(m: StoredMessage, maxChars: int)
    ensures var room := if maxChars - |m.role| - 2 >= 1 then maxChars - |m.role| - 2 else 1;
            TruncateRole(m, maxChars) == m.role + ": " + if room < |m.content| then m.content[..room] else m.content
  {
  }

  /** Piece k of a message that is too long: where it starts and ends in the text, when neighbours share 150 characters, or
      all but one of those that the role leaves room for. */
  lemma PieceText(m: StoredMessage, maxChars: int, k: nat)
    requires k < |PayloadsFrom(m, maxChars, OVERLAP_CHARS, 0)|
    ensures var room: nat := if maxChars - |m.role| - 2 >= 1 then maxChars - |m.role| - 2 else 1;
            var shared: nat := if room > 150 then 150 else room - 1;
            var at := k * (room - shared);
            && at < |m.content|
            && PayloadsFrom(m, maxChars, OVERLAP_CHARS, 0)[k]
               == m.content[at..if at + room < |m.content| then at + room else |m.content|]
  {
    hide PayloadsFrom;
    PayloadsAt(m, maxChars, OVERLAP_CHARS, 0, k);
  }

  /** Span k of a session names the first and the last message of a window, counts them and shows them line by line; or it
      shows piece j of one message that is too long. */
  lemma SpanIs(ms: seq<StoredMessage>, l: Limits, k: nat) returns (start: nat, count: nat, j: nat)
    requires k < |SessionSpans(ms, l)|
    ensures count >= 1 && start + count <= |ms|
    ensures var s := SessionSpans(ms, l)[k];
            && s.startMessageId == ms[start].id && s.endMessageId == ms[start + count - 1].id
            && s.messageCount == count && s.spanIndex == k
            && if |ms[start].role| + 2 + |ms[start].content| <= l.maxChars then s.content == Format(ms[start..start + count])
               else
                 && count == 1 && j < |PayloadsFrom(ms[start], l.maxChars, OVERLAP_CHARS, 0)|
                 && s.content == ms[start].role + ": " + PayloadsFrom(ms[start], l.maxChars, OVERLAP_CHARS, 0)[j]
  {
    PlanInRange(ms, 0, l);
    hide SpansOf, PieceAt, StepOver, InRange, Plan, Render, Format, PayloadsFrom;
    start, count, j := RenderedSpan(ms, 0, l, 0, k);
  }

  ghost predicate Says(ms: seq<StoredMessage>, l: Limits, s: MessageSpan, start: nat, count: nat, j: nat) {
    && count >= 1 && start + count <= |ms|
    && s.startMessageId == ms[start].id && s.endMessageId == ms[start + count - 1].id && s.messageCount == count
    && if |ms[start].role| + 2 + |ms[start].content| <= l.maxChars then s.content == Format(ms[start..start + count])
       else
         && count == 1 && j < |PayloadsFrom(ms[start], l.maxChars, OVERLAP_CHARS, 0)|
         && s.content == ms[start].role + ": " + PayloadsFrom(ms[start], l.maxChars, OVERLAP_CHARS, 0)[j]
  }

  lemma {:induction false} RenderedSpan(ms: seq<StoredMessage>, from: nat, l: Limits, first: nat, k: nat)
      returns (start: nat, count: nat, j: nat)
    requires forall p :: p in Plan(ms, from, l) ==> InRange(p, ms)
    requires k < |Render(ms, Plan(ms, from, l), l, first)|
    ensures var s := Render(ms, Plan(ms, from, l), l, first)[k];
            Says(ms, l, s, start, count, j) && s.spanIndex == first + k
    decreases |ms| - from
  {
    hide SpansOf, PieceAt, StepOver, InRange, Plan, Render, Says;
    if from >= |ms| {
      EmptyPlan(ms, from, l, first);
      assert false;
    }
    var p := PieceAt(ms, from, l);
    PlanStep(ms, from, l, first);
    var spans := SpansOf(ms, p, l, first);
    if k < |spans| {
      start, count, j := OwnSpan(ms, from, l, first, k);
    } else {
      start, count, j := RenderedSpan(ms, from + StepOver(p, l), l, first + |spans|, k - |spans|);
    }
  }

  lemma OwnSpan(ms: seq<StoredMessage>, from: nat, l: Limits, first: nat, k: nat) returns (start: nat, count: nat, j: nat)
    requires from < |ms| && InRange(PieceAt(ms, from, l), ms) && k < |SpansOf(ms, PieceAt(ms, from, l), l, first)|
    ensures var s := SpansOf(ms, PieceAt(ms, from, l), l, first)[k];
            Says(ms, l, s, start, count, j) && s.spanIndex == first + k
  {
    hide PayloadsFrom, Grow;
    FormatOne(ms[from]);
    hide Format;
    var p := PieceAt(ms, from, l);
    start, j := from, k;
    count := if p.Window? then p.count else 1;
  }
}
