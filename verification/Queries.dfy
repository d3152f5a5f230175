/** What the queries on messages select and in which order, in the columns of the tables. */
module Queries {
  import opened Results
  import opened Rows
  import opened Tables
  import opened Compensation
  import opened Recency

  /** A transcript: the messages of the chat, each once, by time and then by id. */
  lemma TranscriptRows(messages: seq<Message>, chatId: string)
    requires IdsIncrease(messages)
    ensures var l := Listing(messages, chatId);
            && (forall m :: m in l <==> m in messages && m.chatId == chatId)
            && (forall i, j :: 0 <= i < j < |l| ==>
                  l[i].createdAt < l[j].createdAt || (l[i].createdAt == l[j].createdAt && l[i].id < l[j].id))
  {
    hide Filter, Sort, Listing;
    ListingFacts(messages, chatId);
  }

  /** The recent messages are the last k of the transcript, all of it when there are fewer or k is negative; the old
      ones are the first n of the others. */
  lemma RecentAndOldRows(messages: seq<Message>, chatId: string, k: int, n: int)
    requires IdsIncrease(messages)
    ensures var l := Listing(messages, chatId);
            var head := if 0 <= k <= |l| then l[..|l| - k] else [];
            && Recent(messages, chatId, k) == (if 0 <= k <= |l| then l[|l| - k..] else l)
            && Old(messages, chatId, k, n) == if 0 <= n <= |head| then head[..n] else head
  {
    hide Filter, Sort, Listing, Recent, Old, IdsIncrease, NewestFirst;
    WindowIsTail(messages, chatId, k);
    OldIsHead(messages, chatId, k, n);
  }

  /** The messages still to be processed, of one kind, are picked from the same head. */
  lemma PendingRows(messages: seq<Message>, chatId: string, k: int, n: int)
    requires IdsIncrease(messages)
    ensures var l := Listing(messages, chatId);
            var head := if 0 <= k <= |l| then l[..|l| - k] else [];
            var toSummarize, toGist := Filter((m: Message) => !m.summarized, head), Filter((m: Message) => !m.gistProcessed, head);
            && OldUnprocessed(messages, chatId, k, n, Summary)
               == (if 0 <= n <= |toSummarize| then toSummarize[..n] else toSummarize)
            && OldUnprocessed(messages, chatId, k, n, GistKind) == if 0 <= n <= |toGist| then toGist[..n] else toGist
  {
    hide Filter, Sort, Listing, OldUnprocessed, IdsIncrease;
    OldUnprocessedIsPendingHead(messages, chatId, k, n, Summary);
    OldUnprocessedIsPendingHead(messages, chatId, k, n, GistKind);
    var l := Listing(messages, chatId);
    var head := if 0 <= k <= |l| then l[..|l| - k] else [];
    assert head == l[..|l| - WindowSize(k, |l|)];
    FilterAgree(Pending(Summary), (m: Message) => !m.summarized, head);
    FilterAgree(Pending(GistKind), (m: Message) => !m.gistProcessed, head);
  }

  /** The span of a gist: both ends belong to it, and they may be given in either order. */
  lemma SpanRows(messages: seq<Message>, chatId: string, start: int, end: int)
    requires IdsIncrease(messages)
    ensures var s := Span(messages, chatId, start, end);
            && (forall m :: m in s <==>
                  m in messages && m.chatId == chatId && (start <= m.id <= end || end <= m.id <= start))
            && (forall i, j :: 0 <= i < j < |s| ==>
                  s[i].createdAt < s[j].createdAt || (s[i].createdAt == s[j].createdAt && s[i].id < s[j].id))
  {
    var mine := Filter(InChat(chatId), messages);
    hide Filter, Sort;
    ChronoIsOrder();
    ChatRowsSeparate(messages, chatId);
    FilterSeparates(Chrono, InSpan(start, end), mine);
    SortSorts(Chrono, Filter(InSpan(start, end), mine));
  }

  /** The inspections of a chat, in the order of their messages. */
  lemma InspectionRows(inspections: seq<Inspection>, messages: seq<Message>, chatId: string)
    requires InspectionKeys(inspections, messages)
    ensures var xs := InspectionsOf(inspections, chatId);
            && (forall x :: x in xs <==> x in inspections && x.chatId == chatId)
            && (forall i, j :: 0 <= i < j < |xs| ==> xs[i].assistantMessageId < xs[j].assistantMessageId)
  {
    hide Filter, Sort;
    assert Separates(ByMessage, inspections);
    FilterSeparates(ByMessage, InspectionIn(chatId), inspections);
    SortSorts(ByMessage, Filter(InspectionIn(chatId), inspections));
  }

  /** The runs of `Recency` are runs of the transactions: a save is a save, and a worker marks what it fetched. */
  lemma DrainingIsWriting(t: Tables, fetched: seq<int>, c: string, role: Role, content: string, at: int, which: Kind, k: int,
                          n: int, chatId: string, kind: Kind)
    ensures HasChat(t.chats, c) ==>
              var s := Step(DrainState(t.messages, t.nextMessageId, fetched), SaveTo(c, role, content, at), chatId, kind);
              var t' := Do(t, Save(c, role, content, at));
              s == DrainState(t'.messages, t'.nextMessageId, fetched)
    ensures var s := Step(DrainState(t.messages, t.nextMessageId, fetched), DrainBatch(c, which, k, n), chatId, kind);
            var batch := OldUnprocessed(t.messages, c, k, n, which);
            var t' := Do(t, Process(MessageIds(batch), which));
            && s.messages == t'.messages && s.next == t'.nextMessageId
            && |s.fetched| == |fetched| + (if c == chatId && which == kind then |batch| else 0)
            && s.fetched[..|fetched|] == fetched
            && forall i :: 0 <= i < |s.fetched| - |fetched| ==> s.fetched[|fetched| + i] == batch[i].id
  {
    hide OldUnprocessed, MarkProcessed, MessageIds, HasChat, Update;
  }
}
