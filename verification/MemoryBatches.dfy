/** Chat-end memory processing: conversation units, batch selection, and what is consumed in all. */
module MemoryBatches {
  import opened Results
  import opened Rows
  import opened Tables
  import opened Recency

  /** A user message with the assistant's answer, or a message alone. */
  function Units(ms: seq<Message>): (units: seq<seq<Message>>)
    ensures forall u :: u in units ==> 1 <= |u| <= 2
  {
    if ms == [] then []
    else if |ms| >= 2 && ms[0].role == User && ms[1].role == Assistant then [ms[..2]] + Units(ms[2..])
    else [ms[..1]] + Units(ms[1..])
  }

  /** A unit of two is a user message and the assistant's answer right after it, and never are the two apart. */
  lemma {:induction false} UnitsAre(ms: seq<Message>, k: nat)
    requires k < |Units(ms)|
    ensures var units := Units(ms);
            && (|units[k]| == 2 ==> units[k][0].role == User && units[k][1].role == Assistant)
            && (|units[k]| == 1 && units[k][0].role == User && k + 1 < |units| ==> units[k + 1][0].role != Assistant)
    decreases |ms|
  {
    var rest := if |ms| >= 2 && ms[0].role == User && ms[1].role == Assistant then ms[2..] else ms[1..];
    assert Units(ms) == [Units(ms)[0]] + Units(rest);
    if k > 0 {
      UnitsAre(rest, k - 1);
    } else if rest != [] {
      FirstUnit(rest);
    }
  }

  lemma FirstUnit(ms: seq<Message>)
    requires ms != []
    ensures Units(ms) != [] && Units(ms)[0][0] == ms[0]
  {
  }

  function Flatten(units: seq<seq<Message>>): seq<Message> {
    if units == [] then [] else units[0] + Flatten(units[1..])
  }

  predicate HasUser(unit: seq<Message>) {
    exists m :: m in unit && m.role == User
  }

  predicate AnyUser(units: seq<seq<Message>>) {
    exists u :: u in units && HasUser(u)
  }

  lemma {:induction false} UnitsCover(ms: seq<Message>)
    ensures Flatten(Units(ms)) == ms
  {
    if ms == [] {
    } else if |ms| >= 2 && ms[0].role == User && ms[1].role == Assistant {
      UnitsCover(ms[2..]);
      assert ms == ms[..2] + ms[2..];
    } else {
      UnitsCover(ms[1..]);
      assert ms == ms[..1] + ms[1..];
    }
  }

  /** The scheduling profile, and the token estimate of a message. */
  datatype Profile = Profile(maxInputTokens: int, maxMessages: int, tokens: Message -> nat)

  function UnitTokens(unit: seq<Message>, tokens: Message -> nat): nat {
    if unit == [] then 0 else tokens(unit[0]) + UnitTokens(unit[1..], tokens)
  }

  /** How many further units fit, after some that already weigh so much. */
  function Fitting(units: seq<seq<Message>>, profile: Profile, usedTokens: nat, usedMessages: nat): (n: nat)
    ensures n <= |units|
  {
    if units == [] then 0
    else if usedTokens + UnitTokens(units[0], profile.tokens) > profile.maxInputTokens then 0
    else if usedMessages + |units[0]| > profile.maxMessages then 0
    else 1 + Fitting(units[1..], profile, usedTokens + UnitTokens(units[0], profile.tokens), usedMessages + |units[0]|)
  }

  /** The oldest units that make one batch: the first is taken even when it is too big on its own. */
  function BatchUnits(units: seq<seq<Message>>, profile: Profile): (n: nat)
    ensures n <= |units|
    ensures units != [] ==> n > 0
  {
    if units == [] then 0
    else
      var t := UnitTokens(units[0], profile.tokens);
      if t > profile.maxInputTokens || |units[0]| > profile.maxMessages then 1
      else 1 + Fitting(units[1..], profile, t, |units[0]|)
  }

  /** _select_pending_batch when flushing everything at chat end. */
  function SelectBatch(pending: seq<Message>, profile: Profile): seq<Message> {
    var units := Units(pending);
    var batch := units[..BatchUnits(units, profile)];
    if AnyUser(batch) then Flatten(batch)
    else if AnyUser(units) then []
    else pending
  }

  /** Messages are pending, yet no batch is offered: the oldest units that fit together have no user
      message, and a user message comes later. */
  predicate Stalls(pending: seq<Message>, profile: Profile) {
    var units := Units(pending);
    AnyUser(units) && !AnyUser(units[..BatchUnits(units, profile)])
  }

  lemma {:induction false} FlattenConcat(a: seq<seq<Message>>, b: seq<seq<Message>>)
    ensures Flatten(a + b) == Flatten(a) + Flatten(b)
  {
    if a == [] {
      assert a + b == b;
    } else {
      assert (a + b)[1..] == a[1..] + b;
      FlattenConcat(a[1..], b);
    }
  }

  /** A batch is a non-empty head of what is pending, except in a stall. */
  lemma BatchIsHead(pending: seq<Message>, profile: Profile)
    ensures SelectBatch(pending, profile) <= pending
    ensures SelectBatch(pending, profile) == [] <==> pending == [] || Stalls(pending, profile)
  {
    hide Units, BatchUnits, HasUser;
    var units := Units(pending);
    var n := BatchUnits(units, profile);
    UnitsCover(pending);
    HeadOfUnits(units, n);
    if AnyUser(units[..n]) {
      var u :| u in units[..n] && HasUser(u);
      assert u in units;
    }
  }

  lemma HeadOfUnits(units: seq<seq<Message>>, n: nat)
    requires n <= |units| && forall u :: u in units ==> 1 <= |u|
    ensures Flatten(units[..n]) <= Flatten(units)
    ensures n > 0 ==> Flatten(units[..n]) != []
  {
    hide Flatten;
    FlattenConcat(units[..n], units[n..]);
    assert units == units[..n] + units[n..];
    if n > 0 {
      assert units[0] in units;
      FlattenNonEmpty(units[..n]);
    }
  }

  lemma FlattenNonEmpty(units: seq<seq<Message>>)
    requires units != [] && units[0] != []
    ensures Flatten(units) != []
  {
  }

  function TotalTokens(units: seq<seq<Message>>, tokens: Message -> nat): nat {
    if units == [] then 0 else UnitTokens(units[0], tokens) + TotalTokens(units[1..], tokens)
  }

  function TotalMessages(units: seq<seq<Message>>): nat {
    if units == [] then 0 else |units[0]| + TotalMessages(units[1..])
  }

  predicate FitsIn(units: seq<seq<Message>>, profile: Profile, usedTokens: nat, usedMessages: nat) {
    && usedTokens + TotalTokens(units, profile.tokens) <= profile.maxInputTokens
    && usedMessages + TotalMessages(units) <= profile.maxMessages
  }

  /** The weight of units is that of their messages, and their size the number of messages, however they are divided. */
  lemma {:induction false} TotalsAre(units: seq<seq<Message>>, tokens: Message -> nat)
    ensures TotalMessages(units) == |Flatten(units)|
    ensures TotalTokens(units, tokens) == UnitTokens(Flatten(units), tokens)
  {
    if units != [] {
      TotalsAre(units[1..], tokens);
      TokensConcat(units[0], Flatten(units[1..]), tokens);
    }
  }

  lemma {:induction false} TokensConcat(a: seq<Message>, b: seq<Message>, tokens: Message -> nat)
    ensures UnitTokens(a + b, tokens) == UnitTokens(a, tokens) + UnitTokens(b, tokens)
    ensures forall m :: UnitTokens([m], tokens) == tokens(m)
  {
    if a == [] {
      assert a + b == b;
    } else {
      assert (a + b)[1..] == a[1..] + b;
      TokensConcat(a[1..], b, tokens);
    }
  }

  lemma {:induction false} FittingFits(units: seq<seq<Message>>, profile: Profile, usedTokens: nat, usedMessages: nat)
    requires usedTokens <= profile.maxInputTokens && usedMessages <= profile.maxMessages
    ensures var n := Fitting(units, profile, usedTokens, usedMessages);
            && FitsIn(units[..n], profile, usedTokens, usedMessages)
            && (n < |units| ==> !FitsIn(units[..n + 1], profile, usedTokens, usedMessages))
  {
    hide UnitTokens;
    if units != [] {
      var t, m := usedTokens + UnitTokens(units[0], profile.tokens), usedMessages + |units[0]|;
      if t <= profile.maxInputTokens && m <= profile.maxMessages {
        FittingFits(units[1..], profile, t, m);
        var n := Fitting(units[1..], profile, t, m);
        assert units[..n + 1][0] == units[0] && units[..n + 1][1..] == units[1..][..n];
        if n < |units| - 1 {
          assert units[..n + 2][0] == units[0] && units[..n + 2][1..] == units[1..][..n + 1];
        }
      } else {
        assert units[..1][1..] == [];
      }
    }
  }

  /** A batch keeps both limits, unless its first unit breaks one on its own, and has no room for the
      next unit. */
  lemma BatchFits(units: seq<seq<Message>>, profile: Profile)
    requires units != []
    ensures var n := BatchUnits(units, profile);
            && (FitsIn(units[..n], profile, 0, 0) || n == 1)
            && (n < |units| && FitsIn(units[..1], profile, 0, 0) ==> !FitsIn(units[..n + 1], profile, 0, 0))
  {
    hide UnitTokens;
    var t := UnitTokens(units[0], profile.tokens);
    assert units[..1][0] == units[0] && units[..1][1..] == [];
    if t <= profile.maxInputTokens && |units[0]| <= profile.maxMessages {
      FittingFits(units[1..], profile, t, |units[0]|);
      var n := Fitting(units[1..], profile, t, |units[0]|);
      assert units[..n + 1][0] == units[0] && units[..n + 1][1..] == units[1..][..n];
      if n < |units| - 1 {
        assert units[..n + 2][0] == units[0] && units[..n + 2][1..] == units[1..][..n + 1];
      }
    }
  }

  lemma {:induction false} HasUserIff(units: seq<seq<Message>>)
    ensures HasUser(Flatten(units)) <==> AnyUser(units)
  {
    if units != [] {
      HasUserIff(units[1..]);
      assert forall u :: u in units <==> u == units[0] || u in units[1..];
      assert forall m :: m in Flatten(units) <==> m in units[0] || m in Flatten(units[1..]);
      assert HasUser(Flatten(units)) <==> HasUser(units[0]) || HasUser(Flatten(units[1..]));
    }
  }

  /** What is offered: the oldest units that fit when a user speaks in them; nothing when a user speaks, but not in them; and
      everything at once, whatever its size, when no user speaks at all. */
  lemma BatchIs(pending: seq<Message>, profile: Profile)
    ensures var units := Units(pending);
            var oldest := Flatten(units[..BatchUnits(units, profile)]);
            SelectBatch(pending, profile) == if HasUser(oldest) then oldest else if HasUser(pending) then [] else pending
  {
    hide Units, BatchUnits, AnyUser, Flatten, HasUser;
    var units := Units(pending);
    UnitsCover(pending);
    HasUserIff(units);
    HasUserIff(units[..BatchUnits(units, profile)]);
  }

  /** When every pending message belongs to a unit with a user message, no batch stalls. */
  lemma NoStall(pending: seq<Message>, profile: Profile)
    requires forall u :: u in Units(pending) ==> HasUser(u)
    ensures !Stalls(pending, profile)
  {
    var units := Units(pending);
    if units != [] {
      assert units[..BatchUnits(units, profile)][0] == units[0] && units[0] in units;
    }
  }

  // ---------------------------------------------------------------- the loop

  /** What the extractor makes of a batch.  Unless it raises, it leaves a memory state, written at a time. */
  datatype Extraction =
    | Accepted(memory: string, at: int)
    | Noop(memory: string, at: int)
    | Rejected(memory: string, at: int)
    | Raises

  predicate Consumes(answer: Extraction) {
    answer.Accepted? || answer.Noop?
  }

  datatype Outcome = Completed | Failed

  /** What process_all_for_chat_end does to the pending list, given what the extractor answers to the
      batches in turn: how many messages it consumes, and whether it returns or raises. */
  function Consume(pending: seq<Message>, profile: Profile, answers: nat -> Extraction, k: nat): (r: (nat, Outcome))
    ensures r.0 <= |pending|
    decreases |pending|
  {
    var batch := SelectBatch(pending, profile);
    BatchIsHead(pending, profile);
    if batch == [] then (0, Completed)
    else
      match answers(k)
      case Raises => (0, Failed)
      case Rejected(_, _) => (0, Completed)
      case _ =>
        var (n, outcome) := Consume(pending[|batch|..], profile, answers, k + 1);
        (|batch| + n, outcome)
  }

  /** The batches in which the pending messages will be offered, as long as none is refused: a matter of the
      messages and the profile alone.  A stall ends the plan. */
  function BatchPlan(pending: seq<Message>, profile: Profile): (plan: seq<seq<Message>>)
    decreases |pending|
  {
    var batch := SelectBatch(pending, profile);
    BatchIsHead(pending, profile);
    if batch == [] then [] else [batch] + BatchPlan(pending[|batch|..], profile)
  }

  /** The plan covers everything pending, and every batch on it is consumed. */
  ghost predicate AllConsumed(pending: seq<Message>, profile: Profile, answers: nat -> Extraction, k: nat) {
    && Flatten(BatchPlan(pending, profile)) == pending
    && ConsumesNext(answers, k, |BatchPlan(pending, profile)|)
  }

  /** The next n answers, from the k-th on. */
  ghost predicate ConsumesNext(answers: nat -> Extraction, k: nat, n: nat) {
    forall i: nat :: i < n ==> ConsumesAt(answers, k, i)
  }

  predicate ConsumesAt(answers: nat -> Extraction, k: nat, i: nat) {
    Consumes(answers(k + i))
  }

  /** The plan is a head of what is pending; it covers it all exactly when no stall comes up. */
  lemma {:induction false} PlanIsHead(pending: seq<Message>, profile: Profile)
    ensures Flatten(BatchPlan(pending, profile)) <= pending
    ensures Flatten(BatchPlan(pending, profile)) == pending || Stalls(pending[|Flatten(BatchPlan(pending, profile))|..], profile)
    decreases |pending|
  {
    hide SelectBatch, Stalls;
    var batch := SelectBatch(pending, profile);
    BatchIsHead(pending, profile);
    if batch == [] {
      assert pending[0..] == pending;
    } else {
      var rest := pending[|batch|..];
      PlanIsHead(rest, profile);
      var done := Flatten(BatchPlan(rest, profile));
      assert rest[|done|..] == pending[|batch| + |done|..];
      assert pending == batch + rest;
    }
  }

  lemma AnswersShift(answers: nat -> Extraction, k: nat, n: nat)
    requires n > 0
    ensures ConsumesNext(answers, k, n) <==> Consumes(answers(k)) && ConsumesNext(answers, k + 1, n - 1)
  {
    hide Consumes;
    var k1 := k + 1;
    if ConsumesNext(answers, k, n) {
      assert ConsumesAt(answers, k, 0);
      forall i: nat | i < n - 1 ensures ConsumesAt(answers, k1, i) {
        assert ConsumesAt(answers, k, i + 1) && k + (i + 1) == k1 + i;
      }
    }
    if Consumes(answers(k)) && ConsumesNext(answers, k1, n - 1) {
      forall i: nat | i < n ensures ConsumesAt(answers, k, i) {
        if i > 0 {
          assert ConsumesAt(answers, k1, i - 1) && k1 + (i - 1) == k + i;
        }
      }
    }
  }

  /** Everything pending is consumed exactly when the plan covers it and every batch on the plan is consumed; a
      return without an exception does not imply it. */
  lemma {:induction false} ConsumedIff(pending: seq<Message>, profile: Profile, answers: nat -> Extraction, k: nat)
    ensures Consume(pending, profile, answers, k).0 == |pending| <==> AllConsumed(pending, profile, answers, k)
    decreases |pending|
  {
    hide SelectBatch, Stalls, Consumes, ConsumesAt, ConsumesNext;
    BatchIsHead(pending, profile);
    PlanIsHead(pending, profile);
    var batch := SelectBatch(pending, profile);
    if batch == [] {
      NoAnswers(answers, k);
    } else {
      var rest := pending[|batch|..];
      ConsumedIff(rest, profile, answers, k + 1);
      AnswersShift(answers, k, |BatchPlan(pending, profile)|);
      ConsumesKinds(answers(k));
      assert BatchPlan(pending, profile)[0] == batch && BatchPlan(pending, profile)[1..] == BatchPlan(rest, profile);
      assert pending == batch + rest;
      SameRest(batch, Flatten(BatchPlan(rest, profile)), rest);
    }
  }

  lemma NoAnswers(answers: nat -> Extraction, k: nat)
    ensures ConsumesNext(answers, k, 0)
  {
  }

  lemma ConsumesKinds(answer: Extraction)
    ensures Consumes(answer) <==> !answer.Raises? && !answer.Rejected?
  {
  }

  lemma SameRest(head: seq<Message>, a: seq<Message>, b: seq<Message>)
    ensures head + a == head + b <==> a == b
  {
    if head + a == head + b {
      assert a == (head + a)[|head|..] && b == (head + b)[|head|..];
    }
  }

  lemma UnitsTail(pending: seq<Message>)
    requires pending != []
    ensures var units := Units(pending);
            && units != [] && |units[0]| <= |pending| && units[0] == pending[..|units[0]|]
            && units[1..] == Units(pending[|units[0]|..])
  {
  }

  lemma NoUnits(pending: seq<Message>)
    ensures pending == [] <==> Units(pending) == []
  {
  }

  /** What is left after whole units is made of the remaining units. */
  lemma {:induction false} UnitsOfRest(pending: seq<Message>, n: nat)
    requires n <= |Units(pending)|
    ensures var size := |Flatten(Units(pending)[..n])|;
            size <= |pending| && Units(pending[size..]) == Units(pending)[n..]
    decreases n
  {
    hide Units;
    var units := Units(pending);
    if n == 0 {
      assert units[..0] == [] && pending[0..] == pending;
    } else {
      NoUnits(pending);
      UnitsTail(pending);
      var m := |units[0]|;
      UnitsOfRest(pending[m..], n - 1);
      assert units[..n] == [units[0]] + units[1..][..n - 1];
      assert units[..n][1..] == units[1..][..n - 1];
      var size := |Flatten(units[1..][..n - 1])|;
      assert pending[m..][size..] == pending[m + size..];
      assert units[1..][n - 1..] == units[n..];
    }
  }

  /** If every unit has a user message, the plan covers everything. */
  lemma {:induction false} UserUnitsPlanned(pending: seq<Message>, profile: Profile)
    requires forall u :: u in Units(pending) ==> HasUser(u)
    ensures Flatten(BatchPlan(pending, profile)) == pending
    decreases |pending|
  {
    hide HasUser, BatchUnits, Units;
    if pending == [] {
      BatchIsHead(pending, profile);
    } else {
      NoStall(pending, profile);
      BatchIsHead(pending, profile);
      RestOfUnits(pending, profile);
      var batch := SelectBatch(pending, profile);
      UserUnitsPlanned(pending[|batch|..], profile);
      assert pending == batch + pending[|batch|..];
      assert BatchPlan(pending, profile)[0] == batch && BatchPlan(pending, profile)[1..] == BatchPlan(pending[|batch|..], profile);
    }
  }

  lemma RestOfUnits(pending: seq<Message>, profile: Profile)
    requires pending != [] && forall u :: u in Units(pending) ==> HasUser(u)
    ensures |SelectBatch(pending, profile)| <= |pending|
    ensures forall u :: u in Units(pending[|SelectBatch(pending, profile)|..]) ==> HasUser(u)
  {
    hide HasUser, Units;
    var units := Units(pending);
    NoUnits(pending);
    var n := BatchUnits(units, profile);
    assert AnyUser(units[..n]) by { assert units[..n][0] in units && units[..n][0] in units[..n]; }
    UnitsOfRest(pending, n);
  }

  /** ... so that only the extractor's refusals can leave anything pending. */
  lemma OnlyRefusalsLeavePending(pending: seq<Message>, profile: Profile, answers: nat -> Extraction, k: nat)
    requires forall u :: u in Units(pending) ==> HasUser(u)
    requires forall i :: Consumes(answers(i))
    ensures AllConsumed(pending, profile, answers, k)
  {
    hide HasUser, Units, BatchPlan, Flatten;
    UserUnitsPlanned(pending, profile);
  }

  /** An assistant message that fills the batch by itself, before a user message: processing returns
      normally and nothing has been consumed, whatever the extractor would have answered. */
  lemma StalledExample(a: Message, u: Message, tokens: Message -> nat, answers: nat -> Extraction)
    requires a.role == Assistant && u.role == User
    ensures Consume([a, u], Profile(8000, 1, tokens), answers, 0) == (0, Completed)
  {
    var profile := Profile(8000, 1, tokens);
    assert [u][..1] == [u] && [u][1..] == [] && Units([]) == [];
    assert Units([u]) == [[u]];
    assert [a, u][..1] == [a] && [a, u][1..] == [u];
    assert Units([a, u]) == [[a], [u]];
    var units := Units([a, u]);
    assert units[..1] == [[a]];
    assert BatchUnits(units, profile) == 1;
    assert [u] in units && u in [u] && HasUser([u]);
    assert !AnyUser([[a]]);
  }
}
