/** When does reading a gist's message span commute with forking the chat? */
module DrillDown {
  import opened Results
  import opened Rows
  import opened Provenance
  import opened Tables
  import opened Forking

  /** The image of one message under a fork. */
  function Carry(m: Message, ids: map<int, int>, target: string): Message {
    Copy(m, target, if m.id in ids then ids[m.id] else m.id)
  }

  function Carried(ms: seq<Message>, ids: map<int, int>, target: string): (r: seq<Message>)
    ensures |r| == |ms|
  {
    if ms == [] then [] else [Carry(ms[0], ids, target)] + Carried(ms[1..], ids, target)
  }

  lemma {:induction false} CarriedAt(ms: seq<Message>, ids: map<int, int>, target: string, k: nat)
    requires k < |ms|
    ensures Carried(ms, ids, target)[k] == Carry(ms[k], ids, target)
  {
    if k > 0 {
      CarriedAt(ms[1..], ids, target, k - 1);
    }
  }

  /** Gist drill-down after the fork shows the image of what it showed before, for every pair of
      endpoints in the chat. */
  ghost predicate DrillDownCommutes(messages: seq<Message>, forked: seq<Message>, source: string, target: string,
                                    ids: map<int, int>) {
    forall s, e :: s in ids && e in ids ==>
      Span(forked, target, ids[s], ids[e]) == Carried(Span(messages, source, s, e), ids, target)
  }

  ghost predicate TimesFollowIds(messages: seq<Message>, chatId: string) {
    forall m, n :: m in messages && n in messages && m.chatId == n.chatId == chatId && m.id < n.id ==>
      m.createdAt <= n.createdAt
  }

  ghost predicate TimesOpposeIds(messages: seq<Message>, chatId: string) {
    forall m, n :: m in messages && n in messages && m.chatId == n.chatId == chatId && m.id < n.id ==>
      m.createdAt > n.createdAt
  }

  /** A span is the listing, restricted. */
  lemma SpanOfListing(messages: seq<Message>, chatId: string, start: int, end: int)
    requires IdsIncrease(messages)
    ensures Span(messages, chatId, start, end) == Filter(InSpan(start, end), Listing(messages, chatId))
  {
    assert Separates(Chrono, messages);
    FilterSeparates(Chrono, InChat(chatId), messages);
    ChronoIsOrder();
    SortFilter(Chrono, InSpan(start, end), Filter(InChat(chatId), messages));
  }

  /** Both lists are selected at the same positions. */
  ghost predicate SamePicks(p: Message -> bool, q: Message -> bool, a: seq<Message>, b: seq<Message>) {
    |a| == |b| && forall k :: 0 <= k < |a| ==> p(a[k]) == q(b[k])
  }

  ghost predicate FreshImage(ms: seq<Message>, ids: map<int, int>) {
    && Injective(ids)
    && (forall m :: m in ms ==> m.id in ids)
    && (forall i, j :: 0 <= i < j < |ms| ==> ms[i].id != ms[j].id)
  }

  /** Selections from a list and from its image agree exactly when they pick the same positions. */
  lemma {:induction false} SelectAligned(p: Message -> bool, q: Message -> bool, ms: seq<Message>,
                                         ids: map<int, int>, target: string)
    requires FreshImage(ms, ids)
    ensures var cs := Carried(ms, ids, target);
            Filter(q, cs) == Carried(Filter(p, ms), ids, target) <==> SamePicks(p, q, ms, cs)
  {
    if ms != [] {
      var tail, cs := ms[1..], Carried(ms, ids, target);
      SelectAligned(p, q, tail, ids, target);
      assert cs[1..] == Carried(tail, ids, target);
      var left, right := Filter(q, cs[1..]), Carried(Filter(p, tail), ids, target);
      assert FreshImage([ms[0]] + tail, ids) by { assert [ms[0]] + tail == ms; }
      hide FreshImage, SamePicks;
      SamePicksHead(p, q, ms, cs);
      HeadAbsent(p, q, tail, ids, target, ms[0]);
      if p(ms[0]) && q(cs[0]) {
        assert ([cs[0]] + left)[1..] == left && ([cs[0]] + right)[1..] == right;
      } else if p(ms[0]) {
        assert ([cs[0]] + right)[0] == cs[0];
      } else if q(cs[0]) {
        assert ([cs[0]] + left)[0] == cs[0];
      }
    }
  }

  lemma SamePicksHead(p: Message -> bool, q: Message -> bool, a: seq<Message>, b: seq<Message>)
    requires |a| == |b| > 0
    ensures SamePicks(p, q, a, b) <==> p(a[0]) == q(b[0]) && SamePicks(p, q, a[1..], b[1..])
  {
    if p(a[0]) == q(b[0]) && SamePicks(p, q, a[1..], b[1..]) {
      forall k | 0 <= k < |a| ensures p(a[k]) == q(b[k]) {
        if k > 0 {
          assert p(a[1..][k - 1]) == q(b[1..][k - 1]);
        }
      }
    }
  }

  lemma HeadAbsent(p: Message -> bool, q: Message -> bool, tail: seq<Message>, ids: map<int, int>, target: string,
                   head: Message)
    requires FreshImage([head] + tail, ids)
    ensures Carry(head, ids, target) !in Carried(Filter(p, tail), ids, target)
    ensures Carry(head, ids, target) !in Filter(q, Carried(tail, ids, target))
  {
    assert ([head] + tail)[0] == head;
    forall m | m in tail ensures m.id in ids && m.id != head.id {
      var k :| 0 <= k < |tail| && tail[k] == m;
      assert ([head] + tail)[k + 1] == m;
    }
    ImageMisses(Filter(p, tail), ids, target, head);
    ImageMisses(tail, ids, target, head);
  }

  lemma ImageMisses(ms: seq<Message>, ids: map<int, int>, target: string, head: Message)
    requires Injective(ids) && head.id in ids
    requires forall m :: m in ms ==> m.id in ids && m.id != head.id
    ensures Carry(head, ids, target) !in Carried(ms, ids, target)
  {
    forall k | 0 <= k < |ms| ensures Carried(ms, ids, target)[k] != Carry(head, ids, target) {
      CarriedAt(ms, ids, target, k);
      assert ms[k] in ms;
    }
  }

  // ---------------------------------------------------------------- betweenness

  predicate Between(a: int, k: int, b: int) {
    Min(a, b) <= k <= Max(a, b)
  }

  /** The positions between a and b are those whose values lie between the values at a and b. */
  ghost predicate SameBetween(x: seq<int>, a: nat, b: nat)
    requires a < |x| && b < |x|
  {
    forall k :: 0 <= k < |x| ==> (Between(a, k, b) <==> Between(x[a], x[k], x[b]))
  }

  ghost predicate KeepsBetween(x: seq<int>) {
    forall a, b :: 0 <= a < |x| && 0 <= b < |x| ==> SameBetween(x, a, b)
  }

  ghost predicate Increasing(x: seq<int>) {
    forall i, j :: 0 <= i < j < |x| ==> x[i] < x[j]
  }

  ghost predicate Decreasing(x: seq<int>) {
    forall i, j :: 0 <= i < j < |x| ==> x[i] > x[j]
  }

  /** Only monotone sequences keep betweenness. */
  lemma BetweenIsMonotone(x: seq<int>)
    requires forall i, j :: 0 <= i < j < |x| ==> x[i] != x[j]
    ensures KeepsBetween(x) <==> Increasing(x) || Decreasing(x)
  {
    if KeepsBetween(x) && |x| > 0 {
      var last := |x| - 1;
      forall i, j | 0 <= i < j < |x|
        ensures x[0] < x[last] ==> x[i] < x[j]
        ensures x[0] >= x[last] ==> x[i] > x[j]
      {
        assert SameBetween(x, 0, last) && SameBetween(x, i, last);
        assert Between(0, i, last) && Between(i, j, last);
      }
    }
  }

  lemma IndexOf(ms: seq<Message>, m: Message) returns (k: nat)
    requires m in ms
    ensures k < |ms| && ms[k] == m
  {
    k :| 0 <= k < |ms| && ms[k] == m;
  }

  ghost predicate Lists(ms: seq<Message>, messages: seq<Message>, chatId: string) {
    && Sorted(Chrono, ms)
    && (forall m :: m in ms <==> m in messages && m.chatId == chatId)
    && (forall i, j :: 0 <= i < j < |ms| ==> ms[i].id != ms[j].id)
  }

  /** In a chronological listing, ids increase exactly when times follow ids ... */
  lemma ListingFollows(messages: seq<Message>, chatId: string, ms: seq<Message>)
    requires Lists(ms, messages, chatId)
    ensures Increasing(IdSeq(ms)) <==> TimesFollowIds(messages, chatId)
  {
    var x := IdSeq(ms);
    hide IdSeq;
    if TimesFollowIds(messages, chatId) {
      forall i, j | 0 <= i < j < |ms| ensures x[i] < x[j] {
        var m, n := ms[i], ms[j];
        assert m in ms && n in ms && Chrono(m, n) && m.id != n.id;
      }
    }
    if Increasing(x) {
      forall m, n | m in messages && n in messages && m.chatId == n.chatId == chatId && m.id < n.id
        ensures m.createdAt <= n.createdAt
      {
        var i := IndexOf(ms, m);
        var j := IndexOf(ms, n);
        assert x[i] < x[j];
        assert i < j && Chrono(ms[i], ms[j]);
      }
    }
  }

  /** ... and decrease exactly when times strictly oppose ids. */
  lemma ListingOpposes(messages: seq<Message>, chatId: string, ms: seq<Message>)
    requires Lists(ms, messages, chatId)
    ensures Decreasing(IdSeq(ms)) <==> TimesOpposeIds(messages, chatId)
  {
    var x := IdSeq(ms);
    hide IdSeq;
    if TimesOpposeIds(messages, chatId) {
      forall i, j | 0 <= i < j < |ms| ensures x[i] > x[j] {
        var m, n := ms[i], ms[j];
        assert m in ms && n in ms && Chrono(m, n) && m.id != n.id;
      }
    }
    if Decreasing(x) {
      forall m, n | m in messages && n in messages && m.chatId == n.chatId == chatId && m.id < n.id
        ensures m.createdAt > n.createdAt
      {
        var i := IndexOf(ms, m);
        var j := IndexOf(ms, n);
        assert x[i] < x[j];
        assert j < i && Chrono(ms[j], ms[i]);
      }
    }
  }

  // ---------------------------------------------------------------- the two together

  /** The id map sends the k-th listed message to the k-th new id. */
  ghost predicate Enumerates(ids: map<int, int>, ms: seq<Message>, next: int) {
    && FreshImage(ms, ids)
    && (forall k :: k in ids ==> k in MessageIds(ms))
    && (forall i :: 0 <= i < |ms| ==> ids[ms[i].id] == next + i)
  }

  lemma CarriedIsCopies(ms: seq<Message>, ids: map<int, int>, target: string, next: int)
    requires Enumerates(ids, ms, next)
    ensures Carried(ms, ids, target) == Copies(ms, target, next)
  {
    CopiesOnlyRenamed(ms, target, next);
    hide Carried, Copies;
    forall k | 0 <= k < |ms| ensures Carried(ms, ids, target)[k] == Copies(ms, target, next)[k] {
      CarriedAt(ms, ids, target, k);
      assert ms[k] in ms;
    }
  }

  lemma PicksAreBetween(ms: seq<Message>, target: string, next: int, a: nat, b: nat)
    requires a < |ms| && b < |ms|
    ensures SamePicks(InSpan(ms[a].id, ms[b].id), InSpan(next + a, next + b), ms, Copies(ms, target, next))
            <==> SameBetween(IdSeq(ms), a, b)
  {
    var p, q := InSpan(ms[a].id, ms[b].id), InSpan(next + a, next + b);
    var x, cs := IdSeq(ms), Copies(ms, target, next);
    CopiesOnlyRenamed(ms, target, next);
    hide Copies, IdSeq;
    forall k | 0 <= k < |ms|
      ensures p(ms[k]) <==> Between(x[a], x[k], x[b])
      ensures q(cs[k]) <==> Between(a, k, b)
    {
      assert cs[k].id == next + k;
    }
  }

  /** One pair of endpoints, given by their positions in the listing. */
  lemma SelectionCarried(ms: seq<Message>, ids: map<int, int>, target: string, next: int, a: nat, b: nat)
    requires Enumerates(ids, ms, next) && a < |ms| && b < |ms|
    ensures Filter(InSpan(next + a, next + b), Copies(ms, target, next))
            == Carried(Filter(InSpan(ms[a].id, ms[b].id), ms), ids, target)
            <==> SameBetween(IdSeq(ms), a, b)
  {
    assert FreshImage(ms, ids);
    hide *;
    CarriedIsCopies(ms, ids, target, next);
    SelectAligned(InSpan(ms[a].id, ms[b].id), InSpan(next + a, next + b), ms, ids, target);
    PicksAreBetween(ms, target, next, a, b);
  }

  lemma SpanCarried(messages: seq<Message>, forked: seq<Message>, source: string, target: string, next: int,
                    ids: map<int, int>, s: int, e: int, a: nat, b: nat)
    requires IdsIncrease(messages) && IdsIncrease(forked)
    requires var ms := Listing(messages, source);
             && Enumerates(ids, ms, next)
             && a < |ms| && b < |ms| && ms[a].id == s && ms[b].id == e
             && Listing(forked, target) == Copies(ms, target, next)
    ensures Span(forked, target, next + a, next + b) == Carried(Span(messages, source, s, e), ids, target)
            <==> SameBetween(IdSeq(Listing(messages, source)), a, b)
  {
    hide *;
    SpanOfListing(messages, source, s, e);
    SpanOfListing(forked, target, next + a, next + b);
    SelectionCarried(Listing(messages, source), ids, target, next, a, b);
  }

  lemma PositionOf(ids: map<int, int>, ms: seq<Message>, next: int, id: int) returns (k: nat)
    requires Enumerates(ids, ms, next) && id in ids
    ensures k < |ms| && ms[k].id == id && ids[id] == next + k
  {
    var m :| m in ms && m.id == id;
    k :| 0 <= k < |ms| && ms[k] == m;
  }

  lemma CommutesIffKeepsBetween(messages: seq<Message>, forked: seq<Message>, source: string, target: string,
                                next: int, ids: map<int, int>)
    requires IdsIncrease(messages) && IdsIncrease(forked)
    requires Enumerates(ids, Listing(messages, source), next)
    requires Listing(forked, target) == Copies(Listing(messages, source), target, next)
    ensures DrillDownCommutes(messages, forked, source, target, ids) <==> KeepsBetween(IdSeq(Listing(messages, source)))
  {
    var ms := Listing(messages, source);
    var x := IdSeq(ms);
    hide Listing, Span, Carried, Copies, SameBetween, IdsIncrease, IdSeq;
    if KeepsBetween(x) {
      forall s, e | s in ids && e in ids
        ensures Span(forked, target, ids[s], ids[e]) == Carried(Span(messages, source, s, e), ids, target)
      {
        var a := PositionOf(ids, ms, next, s);
        var b := PositionOf(ids, ms, next, e);
        SpanCarried(messages, forked, source, target, next, ids, s, e, a, b);
      }
    }
    if DrillDownCommutes(messages, forked, source, target, ids) {
      forall a, b | 0 <= a < |x| && 0 <= b < |x| ensures SameBetween(x, a, b) {
        var s, e := ms[a].id, ms[b].id;
        assert ms[a] in ms && ms[b] in ms;
        assert s in ids && e in ids && ids[s] == next + a && ids[e] == next + b;
        SpanCarried(messages, forked, source, target, next, ids, s, e, a, b);
      }
    }
  }

  lemma ForkEnumerates(messages: seq<Message>, source: string, next: int)
    requires MessageKeys(messages, next)
    ensures var ms := Listing(messages, source);
            Lists(ms, messages, source) && Enumerates(IdMap(ms, next), ms, next)
  {
    hide Listing, IdMap;
    var ms := Listing(messages, source);
    ForkIdMap(messages, source, next);
    ListingFacts(messages, source);
    forall m | m in ms ensures m.id in IdMap(ms, next) {
      assert m.id in MessageIds(ms);
    }
  }

  lemma CommutesIff(messages: seq<Message>, source: string, target: string, next: int)
    requires MessageKeys(messages, next)
    requires forall m :: m in messages ==> m.chatId != target
    ensures var ms := Listing(messages, source);
            DrillDownCommutes(messages, messages + Copies(ms, target, next), source, target, IdMap(ms, next))
            <==> TimesFollowIds(messages, source) || TimesOpposeIds(messages, source)
  {
    var ms := Listing(messages, source);
    var copies := Copies(ms, target, next);
    ForkEnumerates(messages, source, next);
    CopiesListed(messages, source, target, next);
    ForkKeysIncrease(messages, ms, target, next);
    hide Listing, Copies, IdMap, DrillDownCommutes, Enumerates, TimesFollowIds, TimesOpposeIds, Increasing,
         Decreasing, KeepsBetween;
    CommutesIffKeepsBetween(messages, messages + copies, source, target, next, IdMap(ms, next));
    BetweenIsMonotone(IdSeq(ms));
    ListingFollows(messages, source, ms);
    ListingOpposes(messages, source, ms);
  }

  lemma ForkKeysIncrease(messages: seq<Message>, ms: seq<Message>, target: string, next: int)
    requires MessageKeys(messages, next)
    ensures IdsIncrease(messages + Copies(ms, target, next))
  {
    var all := messages + Copies(ms, target, next);
    CopiesOnlyRenamed(ms, target, next);
    forall i, j | 0 <= i < j < |all| ensures all[i].id < all[j].id {
      if i < |messages| {
        assert all[i] in messages;
      }
    }
  }

  /** Drill-down commutes with a fork exactly when the chat's timestamps follow its message ids, or
      run strictly against them. */
  lemma DrillDownIff(t: Tables, source: string, target: string, now: int)
    requires WellFormed(t) && Fork(t, source, target, now).Ok?
    ensures var t', ids := Fork(t, source, target, now).value, ForkRenaming(t, source, target).ids;
            DrillDownCommutes(t.messages, t'.messages, source, target, ids) <==>
            TimesFollowIds(t.messages, source) || TimesOpposeIds(t.messages, source)
  {
    var ms := Listing(t.messages, source);
    assert Fork(t, source, target, now).value.messages == t.messages + Copies(ms, target, t.nextMessageId);
    NoRowsYet(t, target);
    CommutesIff(t.messages, source, target, t.nextMessageId);
  }

  /** Three messages, the last of them backdated between the others. */
  const BACKDATED := Tables(
    [Chat("chat", None, 1, 3, None, true)],
    [Message(1, "chat", User, "a", 1, false, false), Message(2, "chat", Assistant, "b", 3, false, false),
     Message(3, "chat", User, "c", 2, false, false)],
    [], [], [], [], 4, 1)

  lemma BackdatedFacts()
    ensures WellFormed(BACKDATED) && HasChat(BACKDATED.chats, "chat") && !HasChat(BACKDATED.chats, "fork")
    ensures BACKDATED.gists == [] && BACKDATED.inspections == []
  {
    assert BACKDATED.chats[0].id == "chat";
  }

  lemma BackdatedTimes()
    ensures !TimesFollowIds(BACKDATED.messages, "chat") && !TimesOpposeIds(BACKDATED.messages, "chat")
  {
    var ms := BACKDATED.messages;
    assert ms[0] in ms && ms[1] in ms && ms[2] in ms;
  }

  /** The fork succeeds, and some span shows other messages than before. */
  lemma BackdatedDrillDown()
    ensures Fork(BACKDATED, "chat", "fork", 9).Ok?
    ensures var t', ids := Fork(BACKDATED, "chat", "fork", 9).value, ForkRenaming(BACKDATED, "chat", "fork").ids;
            !DrillDownCommutes(BACKDATED.messages, t'.messages, "chat", "fork", ids)
  {
    hide *;
    BackdatedFacts();
    BackdatedTimes();
    ForkSucceedsIff(BACKDATED, "chat", "fork", 9);
    DrillDownIff(BACKDATED, "chat", "fork", 9);
  }
}
