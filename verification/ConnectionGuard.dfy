/** The health-check cache in front of the inference server. */
module ConnectionGuard {
  import opened Results
  import opened Rows

  /** One round trip to the server, from its first request to its end. */
  datatype Ping = Ping(start: real, end: real)

  datatype GuardState = GuardState(lastHealthy: Option<real>, lastUnhealthyAt: Option<real>, pings: seq<Ping>)

  datatype Verdict = Reachable | Unreachable

  /** A call, with the readings of the monotonic clock it makes in turn: `first` against the healthy stamp,
      `second` against the unhealthy one, then the ping, then the new stamp. */
  datatype Op =
    | Check(first: real, second: real, ping: Ping, stamp: real, verdict: Verdict)
    | MarkUnreachable(at: real)

  predicate Within(stamp: Option<real>, now: real, ttl: real) {
    stamp.Some? && now - stamp.value < ttl
  }

  function Step(s: GuardState, op: Op, ttl: real): GuardState {
    match op
    case MarkUnreachable(at) => GuardState(None, Some(at), s.pings)
    case Check(first, second, ping, stamp, verdict) =>
      if Within(s.lastHealthy, first, ttl) || Within(s.lastUnhealthyAt, second, ttl) then s
      else if verdict.Reachable? then GuardState(Some(stamp), None, s.pings + [ping])
      else GuardState(None, Some(stamp), s.pings + [ping])
  }

  /** Whether the call returns normally. */
  predicate Passes(s: GuardState, op: Op, ttl: real) {
    op.Check? ==>
      Within(s.lastHealthy, op.first, ttl) || (!Within(s.lastUnhealthyAt, op.second, ttl) && op.verdict.Reachable?)
  }

  function Run(s: GuardState, ops: seq<Op>, ttl: real): GuardState
    decreases |ops|
  {
    if ops == [] then s else Run(Step(s, ops[0], ttl), ops[1..], ttl)
  }

  function Starts(op: Op): real {
    match op case Check(first, _, _, _, _) => first case MarkUnreachable(at) => at
  }

  function Ends(op: Op): real {
    match op case Check(_, _, _, stamp, _) => stamp case MarkUnreachable(at) => at
  }

  /** The clock does not run backwards, within a call and from one call to the next. */
  predicate Monotone(op: Op) {
    op.Check? ==> op.first <= op.second <= op.ping.start <= op.ping.end <= op.stamp
  }

  ghost predicate Sequential(now: real, ops: seq<Op>)
    decreases |ops|
  {
    ops != [] ==> now <= Starts(ops[0]) && Monotone(ops[0]) && Sequential(Ends(ops[0]), ops[1..])
  }

  /** From the end of one ping to the start of a later one. */
  predicate Apart(ttl: real, a: Ping, b: Ping) {
    a.end + ttl <= b.start
  }

  ghost predicate Spaced(pings: seq<Ping>, ttl: real) {
    && (forall p :: p in pings ==> p.start <= p.end)
    && (forall i, j :: 0 <= i < j < |pings| ==> Apart(ttl, pings[i], pings[j]))
  }

  /** Never both stamps; after a ping there is one, no older than the ping. */
  ghost predicate Inv(s: GuardState, ttl: real, now: real) {
    && !(s.lastHealthy.Some? && s.lastUnhealthyAt.Some?)
    && Spaced(s.pings, ttl)
    && (s.lastHealthy.Some? ==> s.lastHealthy.value <= now)
    && (s.lastUnhealthyAt.Some? ==> s.lastUnhealthyAt.value <= now)
    && (forall p :: p in s.pings ==>
          || (s.lastHealthy.Some? && p.end <= s.lastHealthy.value)
          || (s.lastUnhealthyAt.Some? && p.end <= s.lastUnhealthyAt.value))
  }

  lemma StepKeepsInv(s: GuardState, op: Op, ttl: real, now: real)
    requires Inv(s, ttl, now) && Monotone(op) && now <= Starts(op) && ttl >= 0.0
    ensures Inv(Step(s, op, ttl), ttl, Ends(op))
  {
    var s' := Step(s, op, ttl);
    if s'.pings != s.pings {
      forall p | p in s.pings ensures Apart(ttl, p, op.ping) {
      }
    }
  }

  function Until(now: real, ops: seq<Op>): real
    decreases |ops|
  {
    if ops == [] then now else Until(Ends(ops[0]), ops[1..])
  }

  /** Over any sequence of calls: never both stamps, and pings a whole cache lifetime apart. */
  lemma {:induction false} RunKeepsInv(s: GuardState, ops: seq<Op>, ttl: real, now: real)
    requires Inv(s, ttl, now) && Sequential(now, ops) && ttl >= 0.0
    ensures Inv(Run(s, ops, ttl), ttl, Until(now, ops))
    decreases |ops|
  {
    hide Inv, Step;
    if ops != [] {
      StepKeepsInv(s, ops[0], ttl, now);
      RunKeepsInv(Step(s, ops[0], ttl), ops[1..], ttl, Ends(ops[0]));
    }
  }

  function StartsIn(from: real, length: real): Ping -> bool {
    (p: Ping) => from <= p.start <= from + length
  }

  lemma {:induction false} SpreadOut(pings: seq<Ping>, ttl: real)
    requires Spaced(pings, ttl) && ttl >= 0.0 && pings != []
    ensures (|pings| - 1) as real * ttl <= pings[|pings| - 1].start - pings[0].start
    decreases |pings|
  {
    var n := |pings| - 1;
    if n > 0 {
      SpreadOut(pings[..n], ttl);
      assert Apart(ttl, pings[n - 1], pings[n]) && pings[n - 1] in pings;
      assert n as real * ttl == (n - 1) as real * ttl + ttl;
    }
  }

  lemma InsideIsSpaced(pings: seq<Ping>, ttl: real, from: real, length: real)
    requires Spaced(pings, ttl)
    ensures Spaced(Filter(StartsIn(from, length), pings), ttl)
  {
    FilterSorted((a, b) => Apart(ttl, a, b), StartsIn(from, length), pings);
  }

  lemma SpreadInside(inside: seq<Ping>, ttl: real, from: real, length: real)
    requires Spaced(inside, ttl) && ttl >= 0.0 && inside != []
    requires forall p :: p in inside ==> StartsIn(from, length)(p)
    ensures (|inside| - 1) as real * ttl <= length
  {
    SpreadOut(inside, ttl);
    var first, last := inside[0], inside[|inside| - 1];
    assert first in inside && last in inside;
    assert last.start - first.start <= length;
  }

  /** At most T / ttl + 1 pings start within any interval of length T. */
  lemma RateBound(pings: seq<Ping>, ttl: real, from: real, length: real)
    requires Spaced(pings, ttl) && ttl > 0.0 && length >= 0.0
    ensures |Filter(StartsIn(from, length), pings)| as real <= length / ttl + 1.0
  {
    hide *;
    var inside := Filter(StartsIn(from, length), pings);
    if inside == [] {
      Quotient(0.0, ttl, length);
    } else {
      InsideIsSpaced(pings, ttl, from, length);
      SpreadInside(inside, ttl, from, length);
      Quotient((|inside| - 1) as real, ttl, length);
    }
  }

  /** The same over any run of a new guard. */
  lemma PingRate(ops: seq<Op>, ttl: real, now: real, from: real, length: real)
    requires Sequential(now, ops) && ttl > 0.0 && length >= 0.0
    ensures |Filter(StartsIn(from, length), Run(GuardState(None, None, []), ops, ttl).pings)| as real <= length / ttl + 1.0
  {
    RunKeepsInv(GuardState(None, None, []), ops, ttl, now);
    RateBound(Run(GuardState(None, None, []), ops, ttl).pings, ttl, from, length);
  }

  /** The calls are checks, and both their first readings of the clock fall within a lifetime after a time. */
  ghost predicate ChecksWithin(ops: seq<Op>, since: real, ttl: real) {
    forall op :: op in ops ==> op.Check? && op.first < since + ttl && op.second < since + ttl
  }

  /** After a ping that failed, and after a connection error elsewhere, every check within the lifetime raises, and none pings;
      the first one after it pings again. */
  lemma {:induction false} FailureIsRemembered(pings: seq<Ping>, at: real, ops: seq<Op>, ttl: real)
    requires ChecksWithin(ops, at, ttl)
    ensures var s := GuardState(None, Some(at), pings);
            && Run(s, ops, ttl) == s
            && (forall op :: op in ops ==> !Passes(s, op, ttl))
            && forall op: Op :: op.Check? && op.second >= at + ttl ==>
                 && Step(s, op, ttl).pings == pings + [op.ping]
                 && (Passes(s, op, ttl) <==> op.verdict.Reachable?)
                 && Step(s, op, ttl) == if op.verdict.Reachable? then GuardState(Some(op.stamp), None, pings + [op.ping])
                                        else GuardState(None, Some(op.stamp), pings + [op.ping])
    decreases |ops|
  {
    if ops != [] {
      assert ops[0] in ops;
      FailureIsRemembered(pings, at, ops[1..], ttl);
    }
  }

  /** After a ping that succeeded every check within the lifetime passes, and none pings; the first one after it pings again. */
  lemma {:induction false} SuccessIsRemembered(pings: seq<Ping>, at: real, ops: seq<Op>, ttl: real)
    requires ChecksWithin(ops, at, ttl)
    ensures var s := GuardState(Some(at), None, pings);
            && Run(s, ops, ttl) == s
            && (forall op :: op in ops ==> Passes(s, op, ttl))
            && forall op: Op :: op.Check? && op.first >= at + ttl ==>
                 && Step(s, op, ttl).pings == pings + [op.ping]
                 && (Passes(s, op, ttl) <==> op.verdict.Reachable?)
                 && Step(s, op, ttl) == if op.verdict.Reachable? then GuardState(Some(op.stamp), None, pings + [op.ping])
                                        else GuardState(None, Some(op.stamp), pings + [op.ping])
    decreases |ops|
  {
    if ops != [] {
      assert ops[0] in ops;
      SuccessIsRemembered(pings, at, ops[1..], ttl);
    }
  }

  /** A new guard knows nothing and pings; a connection error elsewhere puts it in the state after a failed ping. */
  lemma FirstCalls(op: Op, s: GuardState, at: real, ttl: real)
    requires op.Check?
    ensures Step(GuardState(None, None, []), op, ttl)
            == if op.verdict.Reachable? then GuardState(Some(op.stamp), None, [op.ping])
               else GuardState(None, Some(op.stamp), [op.ping])
    ensures Passes(GuardState(None, None, []), op, ttl) <==> op.verdict.Reachable?
    ensures Step(s, MarkUnreachable(at), ttl) == GuardState(None, Some(at), s.pings)
  {
  }

  lemma Quotient(n: real, d: real, total: real)
    requires d > 0.0 && n * d <= total
    ensures n <= total / d
  {
    var q := total / d;
    assert q * d == total;
    assert (q - n) * d >= 0.0;
  }

  class ConnectionGuard {
    const cacheTtl: real
    var lastHealthy: Option<real>
    var lastUnhealthyReason: Option<string>
    var lastUnhealthyAt: Option<real>
    ghost var pings: seq<Ping>

    ghost function State(): GuardState
      reads this
    {
      GuardState(lastHealthy, lastUnhealthyAt, pings)
    }

    constructor (cacheTtl: real)
      ensures this.cacheTtl == (if cacheTtl < 1.0 then 1.0 else cacheTtl)
      ensures State() == GuardState(None, None, [])
      ensures forall now :: Inv(State(), this.cacheTtl, now)
    {
      this.cacheTtl := if cacheTtl < 1.0 then 1.0 else cacheTtl;
      lastHealthy, lastUnhealthyReason, lastUnhealthyAt := None, None, None;
      pings := [];
    }

    /** check: returns the reason it raises with, if it raises. */
    method CheckServer(first: real, second: real, ping: Ping, stamp: real, verdict: Verdict) returns (raised: Option<string>)
      modifies this
      ensures State() == Step(old(State()), Check(first, second, ping, stamp, verdict), cacheTtl)
      ensures raised.None? <==> Passes(old(State()), Check(first, second, ping, stamp, verdict), cacheTtl)
    {
      if lastHealthy.Some? {
        if first - lastHealthy.value < cacheTtl {
          return None;
        }
      }
      if lastUnhealthyAt.Some? {
        if second - lastUnhealthyAt.value < cacheTtl {
          return Some(if lastUnhealthyReason.Some? && lastUnhealthyReason.value != "" then lastUnhealthyReason.value
                      else "previously unavailable");
        }
      }
      pings := pings + [ping];
      if verdict.Unreachable? {
        MarkServerUnreachable(stamp, "health check ping failed");
        return Some("connection failed");
      }
      lastHealthy, lastUnhealthyReason, lastUnhealthyAt := Some(stamp), None, None;
      raised := None;
    }

    method MarkServerUnreachable(at: real, reason: string)
      modifies this
      ensures State() == Step(old(State()), MarkUnreachable(at), cacheTtl)
      ensures lastUnhealthyReason == Some(reason)
    {
      lastHealthy, lastUnhealthyReason, lastUnhealthyAt := None, Some(reason), Some(at);
    }
  }
}
