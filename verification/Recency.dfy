/** The recent-message window, and the draining of everything older than it. */
module Recency {
  import opened Results
  import opened Rows
  import opened Tables

  /** How many messages the window LIMIT k keeps out of a transcript of n. */
  function WindowSize(k: int, n: nat): (w: nat)
    ensures w <= n
  {
    if k < 0 || k >= n then n else k
  }

  lemma LatestIsReverse(rows: seq<Message>)
    requires Separates(Chrono, rows)
    ensures Sort(Latest, rows) == Reverse(Sort(Chrono, rows))
  {
    SortSorts(Chrono, rows);
    assert Separates(Latest, rows);
    SortSorts(Latest, rows);
    var a, b := Sort(Latest, rows), Reverse(Sort(Chrono, rows));
    assert Sorted(Latest, b);
    forall x ensures x in a <==> x in b {
      ReverseMembers(Sort(Chrono, rows), x);
    }
    SortedUnique(Latest, a, b);
  }

  lemma ReverseMembers<T(!new)>(rows: seq<T>, x: T)
    ensures x in Reverse(rows) <==> x in rows
  {
    if x in rows {
      var i :| 0 <= i < |rows| && rows[i] == x;
      assert Reverse(rows)[|rows| - 1 - i] == x;
    }
  }

  lemma ChatRowsSeparate(messages: seq<Message>, chatId: string)
    requires IdsIncrease(messages)
    ensures Separates(Chrono, Filter(InChat(chatId), messages))
  {
    assert Separates(Chrono, messages);
    FilterSeparates(Chrono, InChat(chatId), messages);
  }

  lemma NewestIsReversed(messages: seq<Message>, chatId: string, k: int)
    requires IdsIncrease(messages)
    ensures NewestFirst(messages, chatId, k) == Limit(Reverse(Listing(messages, chatId)), k)
  {
    hide Filter, Sort, Reverse, Limit, Separates, IdsIncrease, Latest;
    ChatRowsSeparate(messages, chatId);
    LatestIsReverse(Filter(InChat(chatId), messages));
  }

  lemma LimitOfReverse<T(!new)>(l: seq<T>, k: int)
    ensures Reverse(Limit(Reverse(l), k)) == l[|l| - WindowSize(k, |l|)..]
  {
    hide Reverse;
    var w, rev := WindowSize(k, |l|), Reverse(l);
    assert Limit(rev, k) == rev[..w];
    ReverseOfHead(l, rev, w);
  }

  lemma ReverseOfHead<T(!new)>(l: seq<T>, rev: seq<T>, w: nat)
    requires |rev| == |l| && w <= |l| && forall i :: 0 <= i < |l| ==> rev[i] == l[|l| - 1 - i]
    ensures Reverse(rev[..w]) == l[|l| - w..]
  {
    hide Reverse;
    var back, tail := Reverse(rev[..w]), l[|l| - w..];
    forall i | 0 <= i < w ensures back[i] == tail[i] {
      assert back[i] == rev[..w][w - 1 - i] == rev[w - 1 - i];
    }
  }

  lemma IdsOfReverse(ms: seq<Message>)
    ensures MessageIds(ms) == MessageIds(Reverse(ms))
  {
    hide Reverse;
    forall m ensures m in Reverse(ms) <==> m in ms {
      ReverseMembers(ms, m);
    }
  }

  /** The window is the tail of the transcript. */
  lemma WindowIsTail(messages: seq<Message>, chatId: string, k: int)
    requires IdsIncrease(messages)
    ensures var l := Listing(messages, chatId);
            Recent(messages, chatId, k) == l[|l| - WindowSize(k, |l|)..]
    ensures var l := Listing(messages, chatId);
            MessageIds(NewestFirst(messages, chatId, k)) == MessageIds(l[|l| - WindowSize(k, |l|)..])
  {
    hide Listing, NewestFirst, Reverse, Limit, IdsIncrease, MessageIds, WindowSize;
    NewestIsReversed(messages, chatId, k);
    LimitOfReverse(Listing(messages, chatId), k);
    IdsOfReverse(NewestFirst(messages, chatId, k));
  }

  /** What the window leaves out of a transcript is its head. */
  lemma {:induction false} OutsideIsHead(l: seq<Message>, h: nat, window: set<int>)
    requires h <= |l| && window == MessageIds(l[h..])
    requires forall i, j :: 0 <= i < j < |l| ==> l[i].id != l[j].id
    ensures Filter(NotIn(window), l) == l[..h]
  {
    assert l == l[..h] + l[h..];
    FilterConcat(NotIn(window), l[..h], l[h..]);
    forall m | m in l[h..] ensures m.id in window {
    }
    FilterNone(NotIn(window), l[h..]);
    forall m | m in l[..h] ensures m.id !in window {
      var i :| 0 <= i < h && l[i] == m;
      assert forall n :: n in l[h..] ==> exists j :: h <= j < |l| && l[j] == n;
    }
    FilterAll(NotIn(window), l[..h]);
  }

  lemma ListingDistinct(messages: seq<Message>, chatId: string)
    requires IdsIncrease(messages)
    ensures var l := Listing(messages, chatId); forall i, j :: 0 <= i < j < |l| ==> l[i].id != l[j].id
  {
    ListingFacts(messages, chatId);
  }

  /** old_messages is the head of the transcript that the window leaves, cut at n. */
  lemma OldIsHead(messages: seq<Message>, chatId: string, k: int, n: int)
    requires IdsIncrease(messages)
    ensures var l := Listing(messages, chatId);
            Old(messages, chatId, k, n) == Limit(l[..|l| - WindowSize(k, |l|)], n)
  {
    var l := Listing(messages, chatId);
    var h := |l| - WindowSize(k, |l|);
    var window := MessageIds(NewestFirst(messages, chatId, k));
    ChatRowsSeparate(messages, chatId);
    ChronoIsOrder();
    SortFilter(Chrono, NotIn(window), Filter(InChat(chatId), messages));
    WindowIsTail(messages, chatId, k);
    ListingDistinct(messages, chatId);
    hide Filter, Sort, MessageIds, NewestFirst, Limit;
    OutsideIsHead(l, h, window);
  }

  /** The transcript is what is old followed by what is recent, for every window size. */
  lemma HistorySplits(messages: seq<Message>, chatId: string, k: int, all: int)
    requires IdsIncrease(messages)
    requires all < 0 || all >= |Listing(messages, chatId)|
    ensures Old(messages, chatId, k, all) + Recent(messages, chatId, k) == Listing(messages, chatId)
  {
    OldIsHead(messages, chatId, k, all);
    WindowIsTail(messages, chatId, k);
  }

  function Pending(kind: Kind): Message -> bool {
    (m: Message) => !Processed(m, kind)
  }

  /** _old_unprocessed_messages is what is still pending in the head of the transcript, cut at n. */
  lemma OldUnprocessedIsPendingHead(messages: seq<Message>, chatId: string, k: int, n: int, kind: Kind)
    requires IdsIncrease(messages)
    ensures var l := Listing(messages, chatId);
            OldUnprocessed(messages, chatId, k, n, kind)
            == Limit(Filter(Pending(kind), l[..|l| - WindowSize(k, |l|)]), n)
  {
    var l := Listing(messages, chatId);
    var h := |l| - WindowSize(k, |l|);
    var window := MessageIds(NewestFirst(messages, chatId, k));
    ChatRowsSeparate(messages, chatId);
    ChronoIsOrder();
    SortFilter(Chrono, PendingOutside(kind, window), Filter(InChat(chatId), messages));
    WindowIsTail(messages, chatId, k);
    ListingDistinct(messages, chatId);
    FilterTwice(Pending(kind), NotIn(window), PendingOutside(kind, window), l);
    hide Filter, Sort, MessageIds, NewestFirst, Limit;
    OutsideIsHead(l, h, window);
  }

  // ---------------------------------------------------------------- marking and saving

  function Marked(m: Message, ids: set<int>, kind: Kind): Message {
    if WithIds(ids)(m) then SetProcessed(kind)(m) else m
  }

  lemma {:induction false} MarkFilter(messages: seq<Message>, chatId: string, ids: set<int>, kind: Kind)
    ensures Filter(InChat(chatId), MarkProcessed(messages, ids, kind))
            == MarkProcessed(Filter(InChat(chatId), messages), ids, kind)
  {
    if messages != [] {
      MarkFilter(messages[1..], chatId, ids, kind);
      var head := Marked(messages[0], ids, kind);
      assert MarkProcessed(messages, ids, kind) == [head] + MarkProcessed(messages[1..], ids, kind);
      assert head.chatId == messages[0].chatId;
    }
  }

  lemma {:induction false} MarkInsert(x: Message, rows: seq<Message>, ids: set<int>, kind: Kind)
    ensures Insert(Chrono, Marked(x, ids, kind), MarkProcessed(rows, ids, kind))
            == MarkProcessed(Insert(Chrono, x, rows), ids, kind)
  {
    if rows != [] {
      MarkInsert(x, rows[1..], ids, kind);
      assert Chrono(Marked(x, ids, kind), Marked(rows[0], ids, kind)) == Chrono(x, rows[0]);
    }
  }

  lemma {:induction false} MarkSort(rows: seq<Message>, ids: set<int>, kind: Kind)
    ensures Sort(Chrono, MarkProcessed(rows, ids, kind)) == MarkProcessed(Sort(Chrono, rows), ids, kind)
  {
    if rows != [] {
      MarkSort(rows[1..], ids, kind);
      MarkInsert(rows[0], Sort(Chrono, rows[1..]), ids, kind);
    }
  }

  /** Marking changes flags in place: the transcript keeps its order. */
  lemma MarkListing(messages: seq<Message>, chatId: string, ids: set<int>, kind: Kind)
    ensures Listing(MarkProcessed(messages, ids, kind), chatId) == MarkProcessed(Listing(messages, chatId), ids, kind)
  {
    MarkFilter(messages, chatId, ids, kind);
    MarkSort(Filter(InChat(chatId), messages), ids, kind);
  }

  lemma ListedWhen(messages: seq<Message>, chatId: string, l: seq<Message>)
    requires IdsIncrease(messages) && Sorted(Chrono, l)
    requires forall x :: x in l <==> x in messages && x.chatId == chatId
    ensures Listing(messages, chatId) == l
  {
    hide Listing, Sorted;
    ListingFacts(messages, chatId);
    ChronoIsOrder();
    SortedUnique(Chrono, Listing(messages, chatId), l);
  }

  lemma ListingSorted(messages: seq<Message>, chatId: string)
    requires IdsIncrease(messages)
    ensures Sorted(Chrono, Listing(messages, chatId))
    ensures forall m :: m in Listing(messages, chatId) <==> m in messages && m.chatId == chatId
  {
    hide Listing, Sorted;
    ListingFacts(messages, chatId);
  }

  lemma IncreaseOfHead(messages: seq<Message>, m: Message)
    requires IdsIncrease(messages + [m])
    ensures IdsIncrease(messages)
  {
    assert forall i :: 0 <= i < |messages| ==> (messages + [m])[i] == messages[i];
  }

  /** A saved message is sorted into the transcript. */
  lemma SaveListing(messages: seq<Message>, m: Message)
    requires IdsIncrease(messages + [m])
    ensures Listing(messages + [m], m.chatId) == Insert(Chrono, m, Listing(messages, m.chatId))
  {
    hide Listing, Sorted, Insert;
    IncreaseOfHead(messages, m);
    ListingSorted(messages, m.chatId);
    var l := Listing(messages, m.chatId);
    ChronoIsOrder();
    forall y | y in l ensures Chrono(m, y) || Chrono(y, m) {
      NewestId(messages, m, y);
    }
    InsertSorted(Chrono, m, l);
    ListedWhen(messages + [m], m.chatId, Insert(Chrono, m, l));
  }

  lemma NewestId(messages: seq<Message>, m: Message, y: Message)
    requires IdsIncrease(messages + [m]) && y in messages
    ensures y.id < m.id
  {
    var j :| 0 <= j < |messages| && messages[j] == y;
    assert (messages + [m])[j] == y && (messages + [m])[|messages|] == m;
  }

  lemma SaveElsewhere(messages: seq<Message>, m: Message, chatId: string)
    requires m.chatId != chatId
    ensures Listing(messages + [m], chatId) == Listing(messages, chatId)
  {
    FilterConcat(InChat(chatId), messages, [m]);
    FilterNone(InChat(chatId), [m]);
    assert Filter(InChat(chatId), messages) + [] == Filter(InChat(chatId), messages);
  }

  lemma MarkNothing(messages: seq<Message>, kind: Kind)
    ensures MarkProcessed(messages, MessageIds([]), kind) == messages
  {
  }

  lemma MarkTwice(messages: seq<Message>, a: seq<Message>, b: seq<Message>, kind: Kind)
    ensures MarkProcessed(MarkProcessed(messages, MessageIds(a), kind), MessageIds(b), kind)
            == MarkProcessed(messages, MessageIds(a + b), kind)
  {
    assert MessageIds(a + b) == MessageIds(a) + MessageIds(b);
    var once := MarkProcessed(messages, MessageIds(a), kind);
    var twice, direct := MarkProcessed(once, MessageIds(b), kind), MarkProcessed(messages, MessageIds(a + b), kind);
    forall i | 0 <= i < |messages| ensures twice[i] == direct[i] {
      assert once[i] == Marked(messages[i], MessageIds(a), kind);
    }
  }

  lemma MarkKeepsIncreasing(messages: seq<Message>, ids: set<int>, kind: Kind)
    requires IdsIncrease(messages)
    ensures IdsIncrease(MarkProcessed(messages, ids, kind))
  {
    var after := MarkProcessed(messages, ids, kind);
    forall i | 0 <= i < |after| ensures after[i].id == messages[i].id {
      assert after[i] == Marked(messages[i], ids, kind);
    }
  }

  lemma {:induction false} PendingOfMarked(l: seq<Message>, ids: set<int>, kind: Kind)
    ensures Filter(Pending(kind), MarkProcessed(l, ids, kind)) == Filter(PendingOutside(kind, ids), l)
  {
    if l != [] {
      PendingOfMarked(l[1..], ids, kind);
    }
  }

  ghost predicate DistinctIds(l: seq<Message>) {
    forall i, j :: 0 <= i < j < |l| ==> l[i].id != l[j].id
  }

  lemma FilterKeepsDistinct(p: Message -> bool, l: seq<Message>)
    requires DistinctIds(l)
    ensures DistinctIds(Filter(p, l))
  {
    FilterSorted((a: Message, b: Message) => a.id != b.id, p, l);
  }

  lemma StretchIds(l: seq<Message>, p: nat, q: nat, i: nat)
    requires p <= q <= |l| && i < |l| && DistinctIds(l)
    ensures l[i].id in MessageIds(l[p..q]) <==> p <= i < q
  {
    var ids := MessageIds(l[p..q]);
    if l[i].id in ids {
      var m :| m in l[p..q] && m.id == l[i].id;
      var j :| p <= j < q && l[j] == m;
    }
    if p <= i < q {
      assert l[p..q][i - p] == l[i];
    }
  }

  lemma DropHead(pending: seq<Message>, b: nat)
    requires DistinctIds(pending) && b <= |pending|
    ensures Filter(NotIn(MessageIds(pending[..b])), pending) == pending[b..]
  {
    hide MessageIds, DistinctIds, Filter;
    var head, tail := pending[..b], pending[b..];
    var ids := MessageIds(head);
    assert pending == head + tail && pending[0..b] == head;
    FilterConcat(NotIn(ids), head, tail);
    forall m | m in head ensures !NotIn(ids)(m) {
      var i :| 0 <= i < b && pending[i] == m;
      StretchIds(pending, 0, b, i);
    }
    FilterNone(NotIn(ids), head);
    forall m | m in tail ensures NotIn(ids)(m) {
      var i :| b <= i < |pending| && pending[i] == m;
      StretchIds(pending, 0, b, i);
    }
    FilterAll(NotIn(ids), tail);
    assert [] + tail == tail;
  }

  /** Marking the oldest b pending messages leaves the others pending, in order. */
  lemma PendingAfterMark(messages: seq<Message>, chatId: string, b: nat, kind: Kind)
    requires IdsIncrease(messages) && b <= |Filter(Pending(kind), Listing(messages, chatId))|
    ensures var pending := Filter(Pending(kind), Listing(messages, chatId));
            Filter(Pending(kind), Listing(MarkProcessed(messages, MessageIds(pending[..b]), kind), chatId)) == pending[b..]
  {
    hide Filter, Listing, MarkProcessed, IdsIncrease, MessageIds;
    var l := Listing(messages, chatId);
    var pending := Filter(Pending(kind), l);
    var ids := MessageIds(pending[..b]);
    MarkListing(messages, chatId, ids, kind);
    PendingOfMarked(l, ids, kind);
    FilterTwice(NotIn(ids), Pending(kind), PendingOutside(kind, ids), l);
    ListingDistinct(messages, chatId);
    FilterKeepsDistinct(Pending(kind), l);
    DropHead(pending, b);
  }

  // ---------------------------------------------------------------- draining

  /** One chat's worker fetches a batch and marks it; anyone may save a message to any chat, and
      other workers may drain other chats or the other flag. */
  datatype DrainEvent =
    | SaveTo(chatId: string, role: Role, content: string, at: int)
    | DrainBatch(chatId: string, kind: Kind, k: int, n: int)

  /** The message table, its counter, and the messages the watched worker has fetched so far. */
  datatype DrainState = DrainState(messages: seq<Message>, next: int, fetched: seq<int>)

  function Step(s: DrainState, e: DrainEvent, chatId: string, kind: Kind): DrainState {
    match e
    case SaveTo(c, role, content, at) =>
      DrainState(s.messages + [Message(s.next, c, role, content, at, false, false)], s.next + 1, s.fetched)
    case DrainBatch(c, which, k, n) =>
      var batch := OldUnprocessed(s.messages, c, k, n, which);
      DrainState(MarkProcessed(s.messages, MessageIds(batch), which), s.next,
                 if c == chatId && which == kind then s.fetched + IdSeq(batch) else s.fetched)
  }

  function RunEvents(s: DrainState, events: seq<DrainEvent>, chatId: string, kind: Kind): DrainState
    decreases events
  {
    if events == [] then s else RunEvents(Step(s, events[0], chatId, kind), events[1..], chatId, kind)
  }

  /** A message of the watched chat is saved no earlier than those already processed. */
  ghost predicate Behind(s: DrainState, e: DrainEvent, chatId: string, kind: Kind) {
    e.SaveTo? && e.chatId == chatId ==>
      forall m :: m in s.messages && m.chatId == chatId && Processed(m, kind) ==> m.createdAt <= e.at
  }

  ghost predicate AllBehind(s: DrainState, events: seq<DrainEvent>, chatId: string, kind: Kind)
    decreases events
  {
    events != [] ==>
      Behind(s, events[0], chatId, kind) && AllBehind(Step(s, events[0], chatId, kind), events[1..], chatId, kind)
  }

  /** The first p messages of the transcript are processed, and no other. */
  ghost predicate ProcessedUpTo(l: seq<Message>, p: nat, kind: Kind) {
    p <= |l| && forall i :: 0 <= i < |l| ==> (Processed(l[i], kind) <==> i < p)
  }

  /** What has been fetched is the processed head of the transcript, in its order. */
  ghost predicate Draining(s: DrainState, chatId: string, kind: Kind) {
    var l := Listing(s.messages, chatId);
    && MessageKeys(s.messages, s.next)
    && ProcessedUpTo(l, |s.fetched|, kind)
    && s.fetched == IdSeq(l[..|s.fetched|])
  }

  lemma {:induction false} PendingOfHead(l: seq<Message>, p: nat, kind: Kind)
    requires ProcessedUpTo(l, p, kind)
    ensures Filter(Pending(kind), l) == l[p..]
  {
    assert l == l[..p] + l[p..];
    FilterConcat(Pending(kind), l[..p], l[p..]);
    forall m | m in l[..p] ensures !Pending(kind)(m) {
      var i :| 0 <= i < p && l[i] == m;
    }
    FilterNone(Pending(kind), l[..p]);
    forall m | m in l[p..] ensures Pending(kind)(m) {
      var i :| p <= i < |l| && l[i] == m;
    }
    FilterAll(Pending(kind), l[p..]);
  }

  /** The next batch is the next stretch of the transcript, and stays outside the newest k. */
  lemma BatchIsNextStretch(messages: seq<Message>, chatId: string, k: int, n: int, kind: Kind, p: nat)
    requires IdsIncrease(messages) && ProcessedUpTo(Listing(messages, chatId), p, kind)
    ensures var l, batch := Listing(messages, chatId), OldUnprocessed(messages, chatId, k, n, kind);
            var h := |l| - WindowSize(k, |l|);
            && p + |batch| <= |l|
            && batch == l[p..p + |batch|]
            && (batch != [] ==> p + |batch| <= h)
            && (n != 0 && p < h ==> batch != [])
  {
    hide Listing, OldUnprocessed, Filter, Processed, Limit, IdsIncrease;
    OldUnprocessedIsPendingHead(messages, chatId, k, n, kind);
    var l, batch := Listing(messages, chatId), OldUnprocessed(messages, chatId, k, n, kind);
    var h := |l| - WindowSize(k, |l|);
    var head := l[..h];
    var q := if p <= h then p else h;
    assert ProcessedUpTo(head, q, kind);
    PendingOfHead(head, q, kind);
    assert head[q..] == l[q..h];
    LimitOfStretch(l, p, h, n);
  }

  lemma LimitOfStretch(l: seq<Message>, p: nat, h: nat, n: int)
    requires p <= |l| && h <= |l|
    ensures var batch := Limit(l[if p <= h then p else h..h], n);
            && p + |batch| <= |l|
            && batch == l[p..p + |batch|]
            && (batch != [] ==> p + |batch| <= h)
            && (n != 0 && p < h ==> batch != [])
  {
  }

  lemma MarkStretch(l: seq<Message>, p: nat, q: nat, kind: Kind)
    requires ProcessedUpTo(l, p, kind) && p <= q <= |l| && DistinctIds(l)
    ensures ProcessedUpTo(MarkProcessed(l, MessageIds(l[p..q]), kind), q, kind)
    ensures forall i :: 0 <= i < |l| ==> MarkProcessed(l, MessageIds(l[p..q]), kind)[i].id == l[i].id
  {
    hide MessageIds, DistinctIds;
    var ids := MessageIds(l[p..q]);
    var after := MarkProcessed(l, ids, kind);
    forall i | 0 <= i < |l|
      ensures Processed(after[i], kind) <==> i < q
      ensures after[i].id == l[i].id
    {
      StretchIds(l, p, q, i);
      assert after[i] == Marked(l[i], ids, kind);
    }
  }

  lemma IdSeqConcat(a: seq<Message>, b: seq<Message>)
    ensures IdSeq(a + b) == IdSeq(a) + IdSeq(b)
  {
  }

  lemma SameIds(a: seq<Message>, b: seq<Message>)
    requires |a| == |b| && forall i :: 0 <= i < |a| ==> a[i].id == b[i].id
    ensures IdSeq(a) == IdSeq(b)
  {
  }

  lemma MarkKeepsKeys(messages: seq<Message>, ids: set<int>, kind: Kind, next: int)
    requires MessageKeys(messages, next)
    ensures MessageKeys(MarkProcessed(messages, ids, kind), next)
  {
    var after := MarkProcessed(messages, ids, kind);
    forall i | 0 <= i < |after| ensures after[i].id == messages[i].id {
      assert after[i] == Marked(messages[i], ids, kind);
    }
    forall m | m in after ensures m.id < next {
      var i :| 0 <= i < |after| && after[i] == m;
      assert messages[i] in messages;
    }
  }

  lemma IdsOfStretch(l: seq<Message>, p: nat, q: nat, l': seq<Message>)
    requires p <= q <= |l| && |l'| == |l| && forall i :: 0 <= i < |l| ==> l'[i].id == l[i].id
    ensures IdSeq(l[..p]) + IdSeq(l[p..q]) == IdSeq(l'[..q])
  {
    hide IdSeq;
    assert l[..q] == l[..p] + l[p..q];
    IdSeqConcat(l[..p], l[p..q]);
    SameIds(l'[..q], l[..q]);
  }

  lemma StretchFetched(l: seq<Message>, fetched: seq<int>, q: nat, kind: Kind)
    requires ProcessedUpTo(l, |fetched|, kind) && fetched == IdSeq(l[..|fetched|])
    requires |fetched| <= q <= |l| && DistinctIds(l)
    ensures var l' := MarkProcessed(l, MessageIds(l[|fetched|..q]), kind);
            && ProcessedUpTo(l', q, kind)
            && fetched + IdSeq(l[|fetched|..q]) == IdSeq(l'[..q])
  {
    hide *;
    MarkStretch(l, |fetched|, q, kind);
    IdsOfStretch(l, |fetched|, q, MarkProcessed(l, MessageIds(l[|fetched|..q]), kind));
  }

  lemma KeysIncrease(messages: seq<Message>, next: int)
    requires MessageKeys(messages, next)
    ensures IdsIncrease(messages)
  {
  }

  lemma OwnDrainStep(s: DrainState, k: int, n: int, chatId: string, kind: Kind)
    requires Draining(s, chatId, kind)
    ensures var l, s' := Listing(s.messages, chatId), Step(s, DrainBatch(chatId, kind, k, n), chatId, kind);
            && Draining(s', chatId, kind)
            && |Listing(s'.messages, chatId)| == |l|
            && |s'.fetched| >= |s.fetched|
            && (n != 0 && |s'.fetched| == |s.fetched| ==> |s.fetched| >= |l| - WindowSize(k, |l|))
  {
    hide Listing, OldUnprocessed, ProcessedUpTo, MessageKeys, IdsIncrease, MarkProcessed, IdSeq, MessageIds,
         WindowSize;
    var l, batch := Listing(s.messages, chatId), OldUnprocessed(s.messages, chatId, k, n, kind);
    KeysIncrease(s.messages, s.next);
    BatchIsNextStretch(s.messages, chatId, k, n, kind, |s.fetched|);
    ListingDistinct(s.messages, chatId);
    MarkListing(s.messages, chatId, MessageIds(batch), kind);
    MarkKeepsKeys(s.messages, MessageIds(batch), kind, s.next);
    StretchFetched(l, s.fetched, |s.fetched| + |batch|, kind);
  }

  lemma {:induction false} OtherFlagUntouched(l: seq<Message>, ids: set<int>, kind: Kind, other: Kind, p: nat)
    requires kind != other && ProcessedUpTo(l, p, kind)
    ensures var l' := MarkProcessed(l, ids, other);
            ProcessedUpTo(l', p, kind) && forall i :: 0 <= i < |l| ==> l'[i].id == l[i].id
  {
    var l' := MarkProcessed(l, ids, other);
    forall i | 0 <= i < |l| ensures Processed(l'[i], kind) == Processed(l[i], kind) && l'[i].id == l[i].id {
      assert l'[i] == Marked(l[i], ids, other);
    }
  }

  /** Marking ids of one chat leaves the transcript of another alone. */
  lemma OtherChatUntouched(messages: seq<Message>, c: string, chatId: string, batch: seq<Message>, which: Kind)
    requires c != chatId && IdsIncrease(messages)
    requires forall m :: m in batch ==> m in messages && m.chatId == c
    ensures Listing(MarkProcessed(messages, MessageIds(batch), which), chatId) == Listing(messages, chatId)
  {
    var ids, l := MessageIds(batch), Listing(messages, chatId);
    MarkListing(messages, chatId, ids, which);
    ListingFacts(messages, chatId);
    hide Listing, Filter, Sort;
    forall i | 0 <= i < |l| ensures MarkProcessed(l, ids, which)[i] == l[i] {
      assert l[i] in l;
      assert forall m :: m in batch ==> m.id != l[i].id;
    }
    assert MarkProcessed(l, ids, which) == l;
  }

  lemma OldUnprocessedMembers(messages: seq<Message>, chatId: string, k: int, n: int, kind: Kind)
    ensures forall m :: m in OldUnprocessed(messages, chatId, k, n, kind) ==> m in messages && m.chatId == chatId
  {
    var pending := PendingOutside(kind, MessageIds(NewestFirst(messages, chatId, k)));
    hide NewestFirst;
    forall m | m in OldUnprocessed(messages, chatId, k, n, kind) ensures m in messages && m.chatId == chatId {
      assert m in Sort(Chrono, Filter(pending, Filter(InChat(chatId), messages)));
    }
  }

  lemma OtherDrainStep(s: DrainState, c: string, which: Kind, k: int, n: int, chatId: string, kind: Kind)
    requires Draining(s, chatId, kind) && (c != chatId || which != kind)
    ensures Draining(Step(s, DrainBatch(c, which, k, n), chatId, kind), chatId, kind)
  {
    var batch := OldUnprocessed(s.messages, c, k, n, which);
    var l, p := Listing(s.messages, chatId), |s.fetched|;
    MarkKeepsKeys(s.messages, MessageIds(batch), which, s.next);
    OldUnprocessedMembers(s.messages, c, k, n, which);
    hide OldUnprocessed, Listing, Processed;
    if c != chatId {
      OtherChatUntouched(s.messages, c, chatId, batch, which);
    } else {
      MarkListing(s.messages, chatId, MessageIds(batch), which);
      OtherFlagUntouched(l, MessageIds(batch), kind, which, p);
      SameIds(MarkProcessed(l, MessageIds(batch), which)[..p], l[..p]);
    }
  }

  lemma MoreKeys(messages: seq<Message>, m: Message)
    requires MessageKeys(messages, m.id)
    ensures MessageKeys(messages + [m], m.id + 1) && IdsIncrease(messages + [m])
  {
  }

  /** Sorted in behind the processed head, a new message leaves it alone. */
  lemma {:induction false} InsertBehind(l: seq<Message>, m: Message, p: nat, kind: Kind)
    requires ProcessedUpTo(l, p, kind) && !Processed(m, kind)
    requires forall i :: 0 <= i < p ==> l[i].createdAt <= m.createdAt && l[i].id < m.id
    ensures ProcessedUpTo(Insert(Chrono, m, l), p, kind) && Insert(Chrono, m, l)[..p] == l[..p]
  {
    hide Processed;
    var l' := Insert(Chrono, m, l);
    if p == 0 {
      forall i | 0 <= i < |l'| ensures !Processed(l'[i], kind) {
        assert l'[i] in l';
      }
    } else {
      assert ProcessedUpTo(l[1..], p - 1, kind);
      InsertBehind(l[1..], m, p - 1, kind);
      assert l' == [l[0]] + Insert(Chrono, m, l[1..]);
      assert l'[..p] == [l[0]] + Insert(Chrono, m, l[1..])[..p - 1];
    }
  }

  lemma SaveKeepsDraining(s: DrainState, c: string, role: Role, content: string, at: int, chatId: string, kind: Kind)
    requires Draining(s, chatId, kind) && Behind(s, SaveTo(c, role, content, at), chatId, kind)
    ensures Draining(Step(s, SaveTo(c, role, content, at), chatId, kind), chatId, kind)
  {
    hide Listing, MessageKeys, ProcessedUpTo, IdsIncrease, IdSeq, Insert, Processed;
    var m := Message(s.next, c, role, content, at, false, false);
    MoreKeys(s.messages, m);
    if c == chatId {
      var l := Listing(s.messages, chatId);
      SaveListing(s.messages, m);
      IncreaseOfHead(s.messages, m);
      ListingSorted(s.messages, chatId);
      HeadIsProcessed(l, |s.fetched|, kind);
      forall i | 0 <= i < |s.fetched| ensures l[i].createdAt <= at && l[i].id < m.id {
        assert l[i] in l;
        NewestId(s.messages, m, l[i]);
      }
      NotYetProcessed(m, kind);
      InsertBehind(l, m, |s.fetched|, kind);
    } else {
      SaveElsewhere(s.messages, m, chatId);
    }
  }

  lemma NotYetProcessed(m: Message, kind: Kind)
    requires !m.summarized && !m.gistProcessed
    ensures !Processed(m, kind)
  {
  }

  lemma HeadIsProcessed(l: seq<Message>, p: nat, kind: Kind)
    requires ProcessedUpTo(l, p, kind)
    ensures p <= |l| && forall i :: 0 <= i < |l| ==> (Processed(l[i], kind) <==> i < p)
  {
  }

  /** A message precedes one that was fetched, and was not fetched before it. */
  ghost predicate Skipped(s: DrainState, chatId: string, id: int, q: nat) {
    && q < |s.fetched|
    && id != s.fetched[q] && id !in s.fetched[..q]
    && exists m, w :: m in s.messages && w in s.messages && Precedes(m, w, chatId, id, s.fetched[q])
  }

  predicate Precedes(m: Message, w: Message, chatId: string, id: int, later: int) {
    m.chatId == chatId && w.chatId == chatId && m.id == id && w.id == later && Chrono(m, w)
  }

  /** Whatever precedes a fetched message has been fetched before it. */
  lemma DrainingSkipsNothing(s: DrainState, chatId: string, kind: Kind, m: Message, w: Message, q: nat)
    requires Draining(s, chatId, kind) && m in s.messages && w in s.messages && q < |s.fetched|
    requires Precedes(m, w, chatId, m.id, s.fetched[q])
    ensures m.id in s.fetched[..q]
  {
    hide Listing, Processed, Chrono, MessageKeys, IdsIncrease;
    var l := Listing(s.messages, chatId);
    KeysIncrease(s.messages, s.next);
    ListingFacts(s.messages, chatId);
    ChronoIsOrder();
    var i :| 0 <= i < |l| && l[i] == m;
    var j :| 0 <= j < |l| && l[j] == w;
    FetchedAre(s, chatId, kind, q);
    assert q == j;
    InOrder(l, i, j);
    FetchedAre(s, chatId, kind, i);
    assert s.fetched[..q][i] == m.id;
  }

  lemma InOrder(l: seq<Message>, i: nat, j: nat)
    requires Sorted(Chrono, l) && i < |l| && j < |l| && Chrono(l[i], l[j])
    ensures i < j
  {
  }

  lemma FetchedAre(s: DrainState, chatId: string, kind: Kind, i: nat)
    requires Draining(s, chatId, kind) && i < |s.fetched|
    ensures i < |Listing(s.messages, chatId)| && s.fetched[i] == Listing(s.messages, chatId)[i].id
  {
    hide Listing, MessageKeys, Processed;
    assert IdSeq(Listing(s.messages, chatId)[..|s.fetched|])[i] == Listing(s.messages, chatId)[..|s.fetched|][i].id;
  }

  lemma SkippedIsNotDraining(s: DrainState, chatId: string, kind: Kind, id: int, q: nat)
    requires Skipped(s, chatId, id, q)
    ensures !Draining(s, chatId, kind)
  {
    hide Draining;
    var m, w :| m in s.messages && w in s.messages && Precedes(m, w, chatId, id, s.fetched[q]);
    if Draining(s, chatId, kind) {
      DrainingSkipsNothing(s, chatId, kind, m, w, q);
    }
  }

  /** Nothing makes up for it. */
  lemma SkippedStays(s: DrainState, e: DrainEvent, chatId: string, kind: Kind, id: int, q: nat)
    requires Skipped(s, chatId, id, q)
    ensures Skipped(Step(s, e, chatId, kind), chatId, id, q)
  {
    hide OldUnprocessed, MarkProcessed, MessageIds, IdSeq;
    var s' := Step(s, e, chatId, kind);
    var m, w :| m in s.messages && w in s.messages && Precedes(m, w, chatId, id, s.fetched[q]);
    assert s'.fetched[..q] == s.fetched[..q];
    match e {
      case SaveTo(_, _, _, _) =>
        assert m in s'.messages && w in s'.messages;
      case DrainBatch(c, which, k, n) =>
        var ids := MessageIds(OldUnprocessed(s.messages, c, k, n, which));
        MarkedAgain(s.messages, ids, which, m);
        MarkedAgain(s.messages, ids, which, w);
        assert Precedes(Marked(m, ids, which), Marked(w, ids, which), chatId, id, s'.fetched[q]);
    }
  }

  lemma MarkedAgain(messages: seq<Message>, ids: set<int>, kind: Kind, m: Message)
    requires m in messages
    ensures Marked(m, ids, kind) in MarkProcessed(messages, ids, kind)
  {
    var i :| 0 <= i < |messages| && messages[i] == m;
    assert MarkProcessed(messages, ids, kind)[i] == Marked(messages[i], ids, kind);
  }

  lemma FetchedIsOld(s: DrainState, chatId: string, kind: Kind)
    requires Draining(s, chatId, kind)
    ensures s.next !in s.fetched
  {
    hide Listing, Processed;
    forall i | 0 <= i < |s.fetched| ensures s.fetched[i] < s.next {
      FetchedAre(s, chatId, kind, i);
      KeysIncrease(s.messages, s.next);
      ListingFacts(s.messages, chatId);
      assert Listing(s.messages, chatId)[i] in Listing(s.messages, chatId);
    }
  }

  /** Where a processed message stands among those fetched. */
  lemma ProcessedIsFetched(s: DrainState, chatId: string, kind: Kind, w: Message) returns (q: nat)
    requires Draining(s, chatId, kind) && w in s.messages && w.chatId == chatId && Processed(w, kind)
    ensures q < |s.fetched| && s.fetched[q] == w.id
  {
    hide Listing, Processed, MessageKeys, IdsIncrease, IdSeq;
    var l := Listing(s.messages, chatId);
    KeysIncrease(s.messages, s.next);
    ListingFacts(s.messages, chatId);
    q :| q < |l| && l[q] == w;
    FetchedAre(s, chatId, kind, q);
  }

  /** A message saved before one that is already processed is skipped. */
  lemma SaveSkips(s: DrainState, e: DrainEvent, chatId: string, kind: Kind) returns (q: nat)
    requires Draining(s, chatId, kind) && !Behind(s, e, chatId, kind)
    ensures Skipped(Step(s, e, chatId, kind), chatId, s.next, q)
  {
    hide Draining, Processed;
    var w :| w in s.messages && w.chatId == chatId && Processed(w, kind) && w.createdAt > e.at;
    q := ProcessedIsFetched(s, chatId, kind, w);
    FetchedIsOld(s, chatId, kind);
    var m := Message(s.next, chatId, e.role, e.content, e.at, false, false);
    var s' := Step(s, e, chatId, kind);
    assert m in s'.messages && w in s'.messages && Precedes(m, w, chatId, s.next, s'.fetched[q]);
  }

  lemma {:induction false} SkippedForGood(s: DrainState, events: seq<DrainEvent>, chatId: string, kind: Kind, id: int, q: nat)
    requires Skipped(s, chatId, id, q)
    ensures !Draining(RunEvents(s, events, chatId, kind), chatId, kind)
    decreases |events|
  {
    hide Draining, Step, Skipped;
    if events == [] {
      SkippedIsNotDraining(s, chatId, kind, id, q);
    } else {
      SkippedStays(s, events[0], chatId, kind, id, q);
      SkippedForGood(Step(s, events[0], chatId, kind), events[1..], chatId, kind, id, q);
    }
  }

  /** Over any run, the batches of one worker, one after another, are a prefix of the chronological transcript,
      with no message twice, none skipped and none out of order, exactly when no message is saved with a time before
      one that is already processed. */
  lemma {:induction false} DrainedInOrderIff(s: DrainState, events: seq<DrainEvent>, chatId: string, kind: Kind)
    requires Draining(s, chatId, kind)
    ensures Draining(RunEvents(s, events, chatId, kind), chatId, kind) <==> AllBehind(s, events, chatId, kind)
    decreases |events|
  {
    hide Draining, Step, Behind;
    if events != [] {
      var e := events[0];
      if Behind(s, e, chatId, kind) {
        EventKeepsDraining(s, e, chatId, kind);
        DrainedInOrderIff(Step(s, e, chatId, kind), events[1..], chatId, kind);
      } else {
        var q := SaveSkips(s, e, chatId, kind);
        SkippedForGood(Step(s, e, chatId, kind), events[1..], chatId, kind, s.next, q);
      }
    }
  }

  lemma EventKeepsDraining(s: DrainState, e: DrainEvent, chatId: string, kind: Kind)
    requires Draining(s, chatId, kind) && Behind(s, e, chatId, kind)
    ensures Draining(Step(s, e, chatId, kind), chatId, kind)
  {
    hide *;
    match e {
      case SaveTo(c, role, content, at) => SaveKeepsDraining(s, c, role, content, at, chatId, kind);
      case DrainBatch(c, which, k, n) =>
        if c == chatId && which == kind {
          OwnDrainStep(s, k, n, chatId, kind);
        } else {
          OtherDrainStep(s, c, which, k, n, chatId, kind);
        }
    }
  }

  /** A worker left alone: fetch and mark until the batch is empty. */
  function DrainRounds(s: DrainState, k: int, n: int, chatId: string, kind: Kind, rounds: nat): DrainState
    decreases rounds
  {
    if rounds == 0 then s
    else DrainRounds(Step(s, DrainBatch(chatId, kind, k, n), chatId, kind), k, n, chatId, kind, rounds - 1)
  }

  /** With no further saves, as many rounds as there are messages drain everything outside the window. */
  lemma {:induction false} DrainCompletes(s: DrainState, k: int, n: int, chatId: string, kind: Kind, rounds: nat)
    requires Draining(s, chatId, kind) && n != 0
    requires rounds >= |Listing(s.messages, chatId)| - |s.fetched|
    ensures var s', l := DrainRounds(s, k, n, chatId, kind, rounds), Listing(s.messages, chatId);
            && Draining(s', chatId, kind)
            && |Listing(s'.messages, chatId)| == |l|
            && |s'.fetched| >= |l| - WindowSize(k, |l|)
    decreases rounds
  {
    hide Step, Listing, MessageKeys, ProcessedUpTo, IdSeq, WindowSize;
    assert |s.fetched| <= |Listing(s.messages, chatId)| by { DrainedWithin(s, chatId, kind); }
    if rounds > 0 {
      var s1 := Step(s, DrainBatch(chatId, kind, k, n), chatId, kind);
      OwnDrainStep(s, k, n, chatId, kind);
      if |s1.fetched| > |s.fetched| {
        DrainCompletes(s1, k, n, chatId, kind, rounds - 1);
      } else {
        DrainKeeps(s1, k, n, chatId, kind, rounds - 1);
      }
    }
  }

  lemma DrainedWithin(s: DrainState, chatId: string, kind: Kind)
    requires Draining(s, chatId, kind)
    ensures |s.fetched| <= |Listing(s.messages, chatId)|
  {
    hide Listing, MessageKeys, IdSeq;
  }

  lemma {:induction false} DrainKeeps(s: DrainState, k: int, n: int, chatId: string, kind: Kind, rounds: nat)
    requires Draining(s, chatId, kind)
    ensures var s' := DrainRounds(s, k, n, chatId, kind, rounds);
            && Draining(s', chatId, kind)
            && |Listing(s'.messages, chatId)| == |Listing(s.messages, chatId)|
            && |s'.fetched| >= |s.fetched|
    decreases rounds
  {
    hide Step, Listing, Draining, WindowSize;
    if rounds > 0 {
      var s1 := Step(s, DrainBatch(chatId, kind, k, n), chatId, kind);
      OwnDrainStep(s, k, n, chatId, kind);
      DrainKeeps(s1, k, n, chatId, kind, rounds - 1);
    }
  }

  // ---------------------------------------------------------------- without any order of timestamps

  ghost predicate NoRepeats(ids: seq<int>) {
    forall i, j :: 0 <= i < j < |ids| ==> ids[i] != ids[j]
  }

  /** Ids that have been fetched are the ids of processed messages, each fetched once. */
  ghost predicate FetchedOnce(s: DrainState, kind: Kind) {
    && MessageKeys(s.messages, s.next)
    && NoRepeats(s.fetched)
    && (forall id :: id in s.fetched ==> id < s.next)
    && (forall m :: m in s.messages && m.id in s.fetched ==> Processed(m, kind))
  }

  /** A batch holds pending messages from outside the newest k, no two with one id. */
  lemma BatchIsPendingOutside(messages: seq<Message>, chatId: string, k: int, n: int, kind: Kind)
    requires IdsIncrease(messages)
    ensures var batch := OldUnprocessed(messages, chatId, k, n, kind);
            && DistinctIds(batch)
            && forall m :: m in batch ==> m in messages && !Processed(m, kind) &&
                                          m.id !in MessageIds(NewestFirst(messages, chatId, k))
  {
    hide Sort, NewestFirst, MessageIds;
    var rows := Filter(InChat(chatId), messages);
    var window := MessageIds(NewestFirst(messages, chatId, k));
    var eligible := Filter(PendingOutside(kind, window), rows);
    ChatRowsSeparate(messages, chatId);
    FilterSeparates(Chrono, PendingOutside(kind, window), rows);
    SortSorts(Chrono, eligible);
    SortedDistinct(messages, Sort(Chrono, eligible));
    var batch := OldUnprocessed(messages, chatId, k, n, kind);
    assert batch <= Sort(Chrono, eligible);
    forall m | m in batch ensures m in eligible {
      assert m in Sort(Chrono, eligible);
    }
  }

  lemma SortedDistinct(messages: seq<Message>, l: seq<Message>)
    requires IdsIncrease(messages) && Sorted(Chrono, l) && forall m :: m in l ==> m in messages
    ensures DistinctIds(l)
  {
    forall i, j | 0 <= i < j < |l| ensures l[i].id != l[j].id {
      assert l[i] in messages && l[j] in messages && Chrono(l[i], l[j]);
    }
  }

  lemma MarkedFlags(messages: seq<Message>, ids: set<int>, which: Kind, kind: Kind, fetched: seq<int>)
    requires forall m :: m in messages && m.id in fetched ==> Processed(m, kind)
    ensures forall m :: m in MarkProcessed(messages, ids, which) && m.id in fetched ==> Processed(m, kind)
    ensures which == kind ==> forall m :: m in MarkProcessed(messages, ids, which) && m.id in ids ==> Processed(m, kind)
  {
    var after := MarkProcessed(messages, ids, which);
    forall m | m in after
      ensures m.id in fetched ==> Processed(m, kind)
      ensures which == kind && m.id in ids ==> Processed(m, kind)
    {
      var i :| 0 <= i < |after| && after[i] == m;
      assert m == Marked(messages[i], ids, which) && messages[i] in messages;
    }
  }

  /** A batch brings in ids that have not been fetched before. */
  lemma BatchIsNew(s: DrainState, batch: seq<Message>, kind: Kind)
    requires FetchedOnce(s, kind) && DistinctIds(batch)
    requires forall m :: m in batch ==> m in s.messages && !Processed(m, kind)
    ensures NoRepeats(s.fetched + IdSeq(batch)) && forall id :: id in IdSeq(batch) ==> id < s.next && id in MessageIds(batch)
  {
    var ids := IdSeq(batch);
    forall k | 0 <= k < |ids| ensures ids[k] !in s.fetched && ids[k] < s.next && ids[k] in MessageIds(batch) {
      assert batch[k] in batch;
    }
  }

  lemma DrainOnce(s: DrainState, c: string, which: Kind, k: int, n: int, chatId: string, kind: Kind)
    requires FetchedOnce(s, kind)
    ensures FetchedOnce(Step(s, DrainBatch(c, which, k, n), chatId, kind), kind)
  {
    hide OldUnprocessed, MarkProcessed, MessageIds, MessageKeys, IdsIncrease, IdSeq, DistinctIds;
    var batch := OldUnprocessed(s.messages, c, k, n, which);
    KeysIncrease(s.messages, s.next);
    BatchIsPendingOutside(s.messages, c, k, n, which);
    MarkKeepsKeys(s.messages, MessageIds(batch), which, s.next);
    MarkedFlags(s.messages, MessageIds(batch), which, kind, s.fetched);
    if c == chatId && which == kind {
      BatchIsNew(s, batch, kind);
    }
  }

  lemma SaveOnce(s: DrainState, c: string, role: Role, content: string, at: int, chatId: string, kind: Kind)
    requires FetchedOnce(s, kind)
    ensures FetchedOnce(Step(s, SaveTo(c, role, content, at), chatId, kind), kind)
  {
  }

  /** Whatever timestamps messages are saved with, no message is fetched twice. */
  lemma {:induction false} NeverFetchedTwice(s: DrainState, events: seq<DrainEvent>, chatId: string, kind: Kind)
    requires FetchedOnce(s, kind)
    ensures FetchedOnce(RunEvents(s, events, chatId, kind), kind)
    decreases |events|
  {
    hide FetchedOnce, Step;
    if events != [] {
      match events[0] {
        case SaveTo(c, role, content, at) => SaveOnce(s, c, role, content, at, chatId, kind);
        case DrainBatch(c, which, k, n) => DrainOnce(s, c, which, k, n, chatId, kind);
      }
      NeverFetchedTwice(Step(s, events[0], chatId, kind), events[1..], chatId, kind);
    }
  }
}
