/** Ending a chat: memory, then gists, then the inactive flag. */
module ChatEnd {
  import opened Results
  import opened Text
  import opened Rows
  import opened Provenance
  import opened Tables
  import opened Schema
  import opened Recency
  import opened MemoryBatches
  import D = Database

  function PendingFor(messages: seq<Message>, chatId: string, kind: Kind): seq<Message> {
    Filter(Pending(kind), Listing(messages, chatId))
  }

  lemma ValidIncreases(t: Tables)
    requires WellFormed(t)
    ensures IdsIncrease(t.messages)
  {
    hide ChatKeys, GistKeys, InspectionKeys, StateKeys, DocumentKeys, ChatReferences;
    KeysIncrease(t.messages, t.nextMessageId);
  }

  // ---------------------------------------------------------------- the memory phase

  /** The memory state as the extractor left it; the foreign key holds whenever there is a batch. */
  function Remembered(t: Tables, chatId: string, memory: string, at: int): Tables {
    var stored := StateUpserted(t, chatId, memory, at);
    if stored.Some? then stored.value else t
  }

  function MarkedIn(t: Tables, batch: seq<Message>, kind: Kind): Tables {
    t.(messages := MarkProcessed(t.messages, MessageIds(batch), kind))
  }

  /** What the memory phase leaves in the tables: every batch that is offered stores a memory state, and is marked
      unless it was refused. */
  function MemoryTables(t: Tables, chatId: string, pending: seq<Message>, profile: Profile, answers: nat -> Extraction,
                        k: nat): Tables
    decreases |pending|
  {
    var batch := SelectBatch(pending, profile);
    BatchIsHead(pending, profile);
    if batch == [] then t
    else
      match answers(k)
      case Raises => t
      case Rejected(memory, at) => Remembered(t, chatId, memory, at)
      case Accepted(memory, at) =>
        MemoryTables(MarkedIn(Remembered(t, chatId, memory, at), batch, Summary), chatId, pending[|batch|..], profile,
                     answers, k + 1)
      case Noop(memory, at) =>
        MemoryTables(MarkedIn(Remembered(t, chatId, memory, at), batch, Summary), chatId, pending[|batch|..], profile,
                     answers, k + 1)
  }

  /** Only memory states of the chat change besides the messages. */
  ghost predicate MemoryOnly(t: Tables, t': Tables, chatId: string) {
    && t' == t.(messages := t'.messages, memoryStates := t'.memoryStates)
    && Filter(StateElsewhere(chatId), t'.memoryStates) == Filter(StateElsewhere(chatId), t.memoryStates)
  }

  lemma {:induction false} UpdateElsewhere(states: seq<MemoryState>, chatId: string, memory: string, at: int)
    ensures Filter(StateElsewhere(chatId), Update(StateIs(chatId), ReplaceState(memory, at), states))
            == Filter(StateElsewhere(chatId), states)
  {
    if states != [] {
      UpdateElsewhere(states[1..], chatId, memory, at);
    }
  }

  lemma RememberedOnly(t: Tables, chatId: string, memory: string, at: int)
    ensures MemoryOnly(t, Remembered(t, chatId, memory, at), chatId)
    ensures Remembered(t, chatId, memory, at).messages == t.messages
  {
    UpdateElsewhere(t.memoryStates, chatId, memory, at);
    var added := [MemoryState(chatId, memory, at)];
    FilterConcat(StateElsewhere(chatId), t.memoryStates, added);
    FilterNone(StateElsewhere(chatId), added);
    assert Filter(StateElsewhere(chatId), t.memoryStates) + [] == Filter(StateElsewhere(chatId), t.memoryStates);
  }

  /** The messages after the memory phase are those before it with the consumed ones marked. */
  lemma {:induction false} MemoryMessages(t: Tables, chatId: string, pending: seq<Message>, profile: Profile,
                                          answers: nat -> Extraction, k: nat)
    ensures var t' := MemoryTables(t, chatId, pending, profile, answers, k);
            && t'.messages == MarkProcessed(t.messages, MessageIds(pending[..Consume(pending, profile, answers, k).0]), Summary)
            && MemoryOnly(t, t', chatId)
    decreases |pending|
  {
    hide SelectBatch, Remembered, MarkProcessed, MessageIds, Filter, Stalls;
    var batch := SelectBatch(pending, profile);
    BatchIsHead(pending, profile);
    MarkNothing(t.messages, Summary);
    assert pending[..0] == [];
    if batch != [] && !answers(k).Raises? {
      var memory, at := answers(k).memory, answers(k).at;
      var t1 := Remembered(t, chatId, memory, at);
      RememberedOnly(t, chatId, memory, at);
      if !answers(k).Rejected? {
        var rest := pending[|batch|..];
        var n := Consume(rest, profile, answers, k + 1).0;
        MemoryMessages(MarkedIn(t1, batch, Summary), chatId, rest, profile, answers, k + 1);
        MarkTwice(t.messages, batch, rest[..n], Summary);
        assert batch + rest[..n] == pending[..|batch| + n];
      }
    }
  }

  /** One turn of the loop. */
  lemma MemoryStep(t: Tables, chatId: string, pending: seq<Message>, profile: Profile, answers: nat -> Extraction, k: nat)
    requires SelectBatch(pending, profile) != []
    ensures var batch := SelectBatch(pending, profile);
            && batch <= pending
            && (answers(k).Raises? ==>
                  && MemoryTables(t, chatId, pending, profile, answers, k) == t
                  && Consume(pending, profile, answers, k) == (0, Failed))
            && (answers(k).Rejected? ==>
                  && MemoryTables(t, chatId, pending, profile, answers, k)
                     == Remembered(t, chatId, answers(k).memory, answers(k).at)
                  && Consume(pending, profile, answers, k) == (0, Completed))
            && (Consumes(answers(k)) ==>
                  var t1, rest := Remembered(t, chatId, answers(k).memory, answers(k).at), pending[|batch|..];
                  var (n, outcome) := Consume(rest, profile, answers, k + 1);
                  && MemoryTables(t, chatId, pending, profile, answers, k)
                     == MemoryTables(MarkedIn(t1, batch, Summary), chatId, rest, profile, answers, k + 1)
                  && Consume(pending, profile, answers, k) == (|batch| + n, outcome))
  {
    BatchIsHead(pending, profile);
    hide SelectBatch, Remembered, MarkedIn, Stalls;
  }

  lemma RememberedWhenListed(t: Tables, chatId: string, memory: string, at: int)
    requires HasChat(t.chats, chatId)
    ensures StateUpserted(t, chatId, memory, at) == Some(Remembered(t, chatId, memory, at))
  {
    hide HasState;
  }

  lemma BatchHasChat(t: Tables, chatId: string, kind: Kind)
    requires WellFormed(t) && PendingFor(t.messages, chatId, kind) != []
    ensures HasChat(t.chats, chatId)
  {
    hide HasChat, ChatKeys, MessageKeys, GistKeys, InspectionKeys, StateKeys, DocumentKeys, Sort, Filter;
    var m := PendingFor(t.messages, chatId, kind)[0];
    assert m in PendingFor(t.messages, chatId, kind);
    PendingInChat(t.messages, chatId, kind, m);
  }

  lemma PendingInChat(messages: seq<Message>, chatId: string, kind: Kind, m: Message)
    requires m in PendingFor(messages, chatId, kind)
    ensures m in messages && m.chatId == chatId
  {
    hide Filter, Sort;
  }

  // ---------------------------------------------------------------- the gist phase

  const PREVIOUS_CHAT_GIST := "previous_chat_gist"

  /** What the gist extractor says of a batch, and when. */
  datatype GistSummary = GistSummary(text: string, topicsJson: string, decisionsJson: string, openTasksJson: string,
                                     facts: seq<string>, corrections: seq<string>, summarizer: string, effective: string, at: int)

  /** A summary is there and is not blank. */
  predicate Usable(summary: Option<GistSummary>) {
    summary.Some? && Strip(summary.value.text) != ""
  }

  function MinId(batch: seq<Message>): int
    requires batch != []
  {
    if |batch| == 1 then batch[0].id else Min(batch[0].id, MinId(batch[1..]))
  }

  function MaxId(batch: seq<Message>): int
    requires batch != []
  {
    if |batch| == 1 then batch[0].id else Max(batch[0].id, MaxId(batch[1..]))
  }

  function TextList(texts: seq<string>): Json {
    List(seq(|texts|, i requires 0 <= i < |texts| => Str(texts[i])))
  }

  function IdList(batch: seq<Message>): Json {
    List(seq(|batch|, i requires 0 <= i < |batch| => Number(batch[i].id)))
  }

  /** The gist row of one batch, before it has an id. */
  function GistOf(chatId: string, title: Option<string>, batch: seq<Message>, s: GistSummary): Gist
    requires batch != []
  {
    Gist(0, chatId, PREVIOUS_CHAT_GIST, s.text, s.topicsJson, s.decisionsJson, s.openTasksJson,
         Some(MinId(batch)), Some(MaxId(batch)), s.at, s.at,
         Decoded(Dict([
                        Field("important_facts", TextList(s.facts)),
                        Field("corrections", TextList(s.corrections)),
                        Field("source_message_count", Number(|batch|)),
                        Field("summarizer", Str(s.summarizer)),
                        Field("effective_summarizer", Str(s.effective)),
                        Field("status", Str("active")),
                        Field("chat_title", if title.Some? then Str(title.value) else Null),
                        Field("gist_scope", Str("previous_chat")),
                        Field("source_message_ids", IdList(batch))])))
  }

  function Stored(t: Tables, chatId: string, title: Option<string>, batch: seq<Message>, s: GistSummary): Tables
    requires batch != []
  {
    var stored := GistInserted(t, GistOf(chatId, title, batch, s), MessageIds(batch));
    if stored.Some? then stored.value else t
  }

  /** What finalize_chat does to the messages without a gist, in batches of `size`: a batch with a user
      message needs a usable summary.  The result is how many are covered, and whether it returns. */
  function Finalize(pending: seq<Message>, size: nat, summaries: nat -> Option<GistSummary>, k: nat): (r: (nat, Outcome))
    requires size > 0
    ensures r.0 <= |pending|
    decreases |pending|
  {
    var batch := Limit(pending, size);
    if batch == [] then (0, Completed)
    else if HasUser(batch) && !Usable(summaries(k)) then (0, Failed)
    else
      var (n, outcome) := Finalize(pending[|batch|..], size, summaries, k + 1);
      (|batch| + n, outcome)
  }

  /** What it leaves in the tables. */
  function GistTables(t: Tables, chatId: string, title: Option<string>, pending: seq<Message>, size: nat,
                      summaries: nat -> Option<GistSummary>, k: nat): Tables
    requires size > 0
    decreases |pending|
  {
    var batch := Limit(pending, size);
    if batch == [] then t
    else if !HasUser(batch) then
      GistTables(MarkedIn(t, batch, GistKind), chatId, title, pending[|batch|..], size, summaries, k + 1)
    else if !Usable(summaries(k)) then t
    else GistTables(Stored(t, chatId, title, batch, summaries(k).value), chatId, title, pending[|batch|..], size, summaries, k + 1)
  }

  /** Unlike the memory phase, a normal return means that nothing is left. */
  lemma {:induction false} FinalizedIff(pending: seq<Message>, size: nat, summaries: nat -> Option<GistSummary>, k: nat)
    requires size > 0
    ensures Finalize(pending, size, summaries, k).1.Completed? <==> Finalize(pending, size, summaries, k).0 == |pending|
    decreases |pending|
  {
    hide Usable, HasUser;
    var batch := Limit(pending, size);
    if batch != [] {
      FinalizedIff(pending[|batch|..], size, summaries, k + 1);
    }
  }

  /** Only gists are added besides the marks, and only to this chat. */
  ghost predicate GistsAdded(t: Tables, t': Tables, chatId: string) {
    && t' == t.(messages := t'.messages, gists := t'.gists, nextGistId := t'.nextGistId)
    && t.gists <= t'.gists
    && forall g :: g in t'.gists[|t.gists|..] ==> g.chatId == chatId
  }

  lemma StoredGist(t: Tables, chatId: string, title: Option<string>, batch: seq<Message>, s: GistSummary)
    requires batch != [] && HasChat(t.chats, chatId)
    ensures var t' := Stored(t, chatId, title, batch, s);
            && GistsAdded(t, t', chatId) && t'.messages == MarkProcessed(t.messages, MessageIds(batch), GistKind)
            && t'.gists == t.gists + [GistOf(chatId, title, batch, s).(id := t.nextGistId)]
            && t'.nextGistId == t.nextGistId + 1
  {
    hide MarkProcessed, MessageIds, HasChat, MinId, MaxId;
  }

  lemma GistsAddedTransitive(a: Tables, b: Tables, c: Tables, chatId: string)
    requires GistsAdded(a, b, chatId) && GistsAdded(b, c, chatId)
    ensures GistsAdded(a, c, chatId)
  {
    forall g | g in c.gists[|a.gists|..] ensures g.chatId == chatId {
      var i :| |a.gists| <= i < |c.gists| && c.gists[i] == g;
      if i < |b.gists| {
        assert b.gists[i] == g && g in b.gists[|a.gists|..];
      } else {
        assert g in c.gists[|b.gists|..];
      }
    }
  }

  /** The messages after the gist phase are those before it with the covered ones marked. */
  lemma {:induction false} GistMessages(t: Tables, chatId: string, title: Option<string>, pending: seq<Message>, size: nat,
                                        summaries: nat -> Option<GistSummary>, k: nat)
    requires size > 0 && HasChat(t.chats, chatId)
    ensures var t' := GistTables(t, chatId, title, pending, size, summaries, k);
            && t'.messages == MarkProcessed(t.messages, MessageIds(pending[..Finalize(pending, size, summaries, k).0]), GistKind)
            && GistsAdded(t, t', chatId)
    decreases |pending|
  {
    hide Stored, MarkProcessed, MessageIds, HasChat, HasUser, Usable;
    var batch := Limit(pending, size);
    MarkNothing(t.messages, GistKind);
    assert pending[..0] == [];
    if batch != [] && (!HasUser(batch) || Usable(summaries(k))) {
      UsableIsThere(summaries(k));
      var rest := pending[|batch|..];
      var n := Finalize(rest, size, summaries, k + 1).0;
      if HasUser(batch) {
        StoredGist(t, chatId, title, batch, summaries(k).value);
      }
      var t1 := if HasUser(batch) then Stored(t, chatId, title, batch, summaries(k).value) else MarkedIn(t, batch, GistKind);
      GistMessages(t1, chatId, title, rest, size, summaries, k + 1);
      GistsAddedTransitive(t, t1, GistTables(t1, chatId, title, rest, size, summaries, k + 1), chatId);
      MarkTwice(t.messages, batch, rest[..n], GistKind);
      assert batch + rest[..n] == pending[..|batch| + n];
    }
  }

  lemma UsableIsThere(summary: Option<GistSummary>)
    ensures Usable(summary) ==> summary.Some?
  {
  }

  /** One turn of the loop. */
  lemma GistStep(t: Tables, chatId: string, title: Option<string>, pending: seq<Message>, size: nat,
                 summaries: nat -> Option<GistSummary>, k: nat)
    requires size > 0 && Limit(pending, size) != []
    ensures var batch := Limit(pending, size);
            && batch <= pending
            && (HasUser(batch) && !Usable(summaries(k)) ==>
                  && GistTables(t, chatId, title, pending, size, summaries, k) == t
                  && Finalize(pending, size, summaries, k) == (0, Failed))
            && (!HasUser(batch) || Usable(summaries(k)) ==>
                  var t1 := if HasUser(batch) then Stored(t, chatId, title, batch, summaries(k).value) else MarkedIn(t, batch, GistKind);
                  var (n, outcome) := Finalize(pending[|batch|..], size, summaries, k + 1);
                  && GistTables(t, chatId, title, pending, size, summaries, k)
                     == GistTables(t1, chatId, title, pending[|batch|..], size, summaries, k + 1)
                  && Finalize(pending, size, summaries, k) == (|batch| + n, outcome))
  {
    UsableIsThere(summaries(k));
    hide Stored, MarkedIn, HasUser, Usable;
  }

  lemma NothingToGist(t: Tables, chatId: string, title: Option<string>, pending: seq<Message>, size: nat,
                      summaries: nat -> Option<GistSummary>, k: nat)
    requires size > 0 && Limit(pending, size) == []
    ensures GistTables(t, chatId, title, pending, size, summaries, k) == t && Finalize(pending, size, summaries, k) == (0, Completed)
  {
  }

  lemma StoredWhenListed(t: Tables, chatId: string, title: Option<string>, batch: seq<Message>, s: GistSummary)
    requires batch != [] && HasChat(t.chats, chatId)
    ensures GistInserted(t, GistOf(chatId, title, batch, s), MessageIds(batch)) == Some(Stored(t, chatId, title, batch, s))
    ensures GistOf(chatId, title, batch, s).chatId == chatId && Stored(t, chatId, title, batch, s).chats == t.chats
  {
    hide MessageIds, MarkProcessed, HasChat, MinId, MaxId;
  }

  /** With no raw-message window, the fetched batch is the head of what is pending. */
  lemma UngistedIsPending(messages: seq<Message>, chatId: string, size: nat)
    requires IdsIncrease(messages) && size > 0
    ensures OldUnprocessed(messages, chatId, 0, size, GistKind) == Limit(PendingFor(messages, chatId, GistKind), size)
  {
    hide Filter, Listing, OldUnprocessed, Limit, IdsIncrease;
    OldUnprocessedIsPendingHead(messages, chatId, 0, size, GistKind);
    var l := Listing(messages, chatId);
    assert l[..|l|] == l;
  }

  /** After a batch from the head has been marked, the rest is pending. */
  lemma RestIsPending(messages: seq<Message>, chatId: string, kind: Kind, batch: seq<Message>)
    requires IdsIncrease(messages) && batch <= PendingFor(messages, chatId, kind)
    ensures PendingFor(MarkProcessed(messages, MessageIds(batch), kind), chatId, kind)
            == PendingFor(messages, chatId, kind)[|batch|..]
  {
    hide Filter, Listing, MarkProcessed, MessageIds, IdsIncrease;
    assert PendingFor(messages, chatId, kind)[..|batch|] == batch;
    PendingAfterMark(messages, chatId, |batch|, kind);
  }

  // ---------------------------------------------------------------- the action

  class ChatEndAction {
    const database: D.Database
    const profile: Profile
    const maxMessagesPerGist: int

    constructor (database: D.Database, profile: Profile, maxMessagesPerGist: int)
      ensures this.database == database && this.profile == profile && this.maxMessagesPerGist == maxMessagesPerGist
    {
      this.database := database;
      this.profile := profile;
      this.maxMessagesPerGist := maxMessagesPerGist;
    }

    function BatchSize(): (n: nat)
      ensures n > 0 && n >= maxMessagesPerGist && (n == 1 || n == maxMessagesPerGist)
    {
      if maxMessagesPerGist < 1 then 1 else maxMessagesPerGist
    }

    /** process_all_for_chat_end: one committed batch after another, until one is refused or none is offered. */
    method ProcessMemory(chatId: string, answers: nat -> Extraction) returns (processed: nat, outcome: Outcome)
      requires database.Valid()
      modifies database
      ensures database.Valid()
      ensures var pending := PendingFor(old(database.tables.messages), chatId, Summary);
              && (processed, outcome) == Consume(pending, profile, answers, 0)
              && database.tables == MemoryTables(old(database.tables), chatId, pending, profile, answers, 0)
    {
      hide SelectBatch, PendingFor, MarkProcessed, MessageIds, Stalls, WellFormed, StateUpserted, HasChat, IdsIncrease, MemoryTables,
           Consume, Remembered, Continues, MemoryOnly;
      ghost var start := PendingFor(database.tables.messages, chatId, Summary);
      processed := 0;
      var attempts := 0;
      ContinuesFrom(start, profile, answers);
      while true
        invariant database.Valid()
        invariant var rest := PendingFor(database.tables.messages, chatId, Summary);
                  && Continues(start, processed, rest, profile, answers, attempts)
                  && MemoryTables(old(database.tables), chatId, start, profile, answers, 0)
                     == MemoryTables(database.tables, chatId, rest, profile, answers, attempts)
        decreases |start| - processed
      {
        var pending := PendingFor(database.tables.messages, chatId, Summary);
        var batch := SelectBatch(pending, profile);
        ContinuesStep(start, processed, pending, profile, answers, attempts);
        if batch == [] {
          NoBatch(database.tables, chatId, pending, profile, answers, attempts);
          return processed, Completed;
        }
        MemoryStep(database.tables, chatId, pending, profile, answers, attempts);
        if answers(attempts).Raises? {
          return processed, Failed;
        }
        BatchHasChat(database.tables, chatId, Summary);
        RememberedOnly(database.tables, chatId, answers(attempts).memory, answers(attempts).at);
        RememberedWhenListed(database.tables, chatId, answers(attempts).memory, answers(attempts).at);
        var stored := database.UpsertMemoryState(chatId, answers(attempts).memory, answers(attempts).at);
        if answers(attempts).Rejected? {
          return processed, Completed;
        }
        ValidIncreases(database.tables);
        RestIsPending(database.tables.messages, chatId, Summary, batch);
        database.MarkMessagesProcessed(MessageIds(batch), Summary);
        processed := processed + |batch|;
        attempts := attempts + 1;
      }
    }

    /** finalize_chat: every batch of messages without a gist, or failure at the first unusable summary. */
    method FinalizeChat(chatId: string, summaries: nat -> Option<GistSummary>) returns (processed: nat, outcome: Outcome)
      requires database.Valid()
      modifies database
      ensures database.Valid()
      ensures var t, pending := old(database.tables), PendingFor(old(database.tables.messages), chatId, GistKind);
              if HasChat(t.chats, chatId) then
                && (processed, outcome) == Finalize(pending, BatchSize(), summaries, 0)
                && database.tables
                   == GistTables(t, chatId, ChatNamed(t.chats, chatId).title, pending, BatchSize(), summaries, 0)
              else (processed, outcome) == (0, Failed) && database.tables == t
    {
      hide PendingFor, MarkProcessed, MessageIds, WellFormed, HasUser, IdsIncrease, OldUnprocessed, Limit, HasChat, ChatNamed,
           Usable, GistOf, GistTables, Finalize, Stored, GistInserted, Covers, GistsAdded;
      if !HasChat(database.tables.chats, chatId) {
        return 0, Failed;
      }
      var title := ChatNamed(database.tables.chats, chatId).title;
      ghost var start := PendingFor(database.tables.messages, chatId, GistKind);
      processed := 0;
      var batches := 0;
      CoversFrom(start, BatchSize(), summaries);
      while true
        invariant database.Valid() && HasChat(database.tables.chats, chatId)
        invariant var rest := PendingFor(database.tables.messages, chatId, GistKind);
                  && Covers(start, processed, rest, BatchSize(), summaries, batches)
                  && GistTables(old(database.tables), chatId, title, start, BatchSize(), summaries, 0)
                     == GistTables(database.tables, chatId, title, rest, BatchSize(), summaries, batches)
        decreases |start| - processed
      {
        ghost var rest := PendingFor(database.tables.messages, chatId, GistKind);
        ValidIncreases(database.tables);
        UngistedIsPending(database.tables.messages, chatId, BatchSize());
        var batch := OldUnprocessed(database.tables.messages, chatId, 0, BatchSize(), GistKind);
        CoversStep(start, processed, rest, BatchSize(), summaries, batches);
        if batch == [] {
          NothingToGist(database.tables, chatId, title, rest, BatchSize(), summaries, batches);
          return processed, Completed;
        }
        GistStep(database.tables, chatId, title, rest, BatchSize(), summaries, batches);
        RestIsPending(database.tables.messages, chatId, GistKind, batch);
        if !HasUser(batch) {
          database.MarkMessagesProcessed(MessageIds(batch), GistKind);
        } else {
          if !Usable(summaries(batches)) {
            return processed, Failed;
          }
          UsableIsThere(summaries(batches));
          StoredGist(database.tables, chatId, title, batch, summaries(batches).value);
          StoredWhenListed(database.tables, chatId, title, batch, summaries(batches).value);
          var id := database.InsertChatGist(GistOf(chatId, title, batch, summaries(batches).value), MessageIds(batch));
        }
        processed := processed + |batch|;
        batches := batches + 1;
      }
    }

    /** _execute_locked: each phase commits what it has done; the flag changes only after both. */
    method Execute(chatId: string, answers: nat -> Extraction, summaries: nat -> Option<GistSummary>) returns (ended: bool)
      requires database.Valid()
      modifies database
      ensures database.Valid()
      ensures (database.tables, ended) == EndChat(old(database.tables), chatId, profile, BatchSize(), answers, summaries)
    {
      hide PendingFor, WellFormed, Consume, Finalize, SetActive, HasChat, MemoryTables, GistTables, ChatNamed;
      var processed, memory := ProcessMemory(chatId, answers);
      if memory.Failed? {
        return false;
      }
      var covered, gists := FinalizeChat(chatId, summaries);
      if gists.Failed? {
        return false;
      }
      database.MarkChat(chatId, false);
      ended := true;
    }
  }

  /** So far p messages have been consumed; the rest is what Consume makes of the rest. */
  ghost predicate Continues(start: seq<Message>, p: nat, rest: seq<Message>, profile: Profile, answers: nat -> Extraction,
                            k: nat)
  {
    && p <= |start|
    && rest == start[p..]
    && var (n, outcome) := Consume(rest, profile, answers, k); Consume(start, profile, answers, 0) == (p + n, outcome)
  }

  ghost predicate Covers(start: seq<Message>, p: nat, rest: seq<Message>, size: nat, summaries: nat -> Option<GistSummary>, k: nat)
    requires size > 0
  {
    && p <= |start|
    && rest == start[p..]
    && var (n, outcome) := Finalize(rest, size, summaries, k); Finalize(start, size, summaries, 0) == (p + n, outcome)
  }

  lemma ContinuesFrom(start: seq<Message>, profile: Profile, answers: nat -> Extraction)
    ensures Continues(start, 0, start, profile, answers, 0)
  {
    hide Consume;
    assert start[0..] == start;
  }

  lemma ContinuesStep(start: seq<Message>, p: nat, rest: seq<Message>, profile: Profile, answers: nat -> Extraction, k: nat)
    requires Continues(start, p, rest, profile, answers, k)
    ensures p <= |start| && rest == start[p..]
    ensures var (n, outcome) := Consume(rest, profile, answers, k); Consume(start, profile, answers, 0) == (p + n, outcome)
    ensures var batch := SelectBatch(rest, profile);
            batch != [] && Consumes(answers(k)) ==>
              |batch| <= |rest| && Continues(start, p + |batch|, rest[|batch|..], profile, answers, k + 1)
  {
    hide Consume, SelectBatch, Stalls;
    BatchIsHead(rest, profile);
    var batch := SelectBatch(rest, profile);
    if batch != [] && Consumes(answers(k)) {
      ConsumeStep(rest, profile, answers, k);
      assert start[p..][|batch|..] == start[p + |batch|..];
    }
  }

  lemma ConsumeStep(pending: seq<Message>, profile: Profile, answers: nat -> Extraction, k: nat)
    requires SelectBatch(pending, profile) != [] && Consumes(answers(k))
    ensures var batch := SelectBatch(pending, profile);
            && |batch| <= |pending|
            && var (n, outcome) := Consume(pending[|batch|..], profile, answers, k + 1);
            Consume(pending, profile, answers, k) == (|batch| + n, outcome)
  {
    BatchIsHead(pending, profile);
    hide SelectBatch, Stalls;
  }

  lemma NoBatch(t: Tables, chatId: string, pending: seq<Message>, profile: Profile, answers: nat -> Extraction, k: nat)
    requires SelectBatch(pending, profile) == []
    ensures MemoryTables(t, chatId, pending, profile, answers, k) == t
    ensures Consume(pending, profile, answers, k) == (0, Completed)
  {
    hide SelectBatch;
  }

  lemma CoversFrom(start: seq<Message>, size: nat, summaries: nat -> Option<GistSummary>)
    requires size > 0
    ensures Covers(start, 0, start, size, summaries, 0)
  {
    hide Finalize;
    assert start[0..] == start;
  }

  lemma CoversStep(start: seq<Message>, p: nat, rest: seq<Message>, size: nat, summaries: nat -> Option<GistSummary>, k: nat)
    requires size > 0 && Covers(start, p, rest, size, summaries, k)
    ensures p <= |start| && rest == start[p..]
    ensures var (n, outcome) := Finalize(rest, size, summaries, k); Finalize(start, size, summaries, 0) == (p + n, outcome)
    ensures var batch := Limit(rest, size);
            && batch <= rest
            && (batch != [] && (!HasUser(batch) || Usable(summaries(k))) ==>
                  Covers(start, p + |batch|, rest[|batch|..], size, summaries, k + 1))
  {
    hide Finalize, HasUser, Usable;
    var batch := Limit(rest, size);
    if batch != [] && (!HasUser(batch) || Usable(summaries(k))) {
      CoverStep(rest, size, summaries, k);
      assert start[p..][|batch|..] == start[p + |batch|..];
    }
  }

  lemma CoverStep(pending: seq<Message>, size: nat, summaries: nat -> Option<GistSummary>, k: nat)
    requires size > 0 && Limit(pending, size) != []
    requires !HasUser(Limit(pending, size)) || Usable(summaries(k))
    ensures var batch := Limit(pending, size);
            && var (n, outcome) := Finalize(pending[|batch|..], size, summaries, k + 1);
            Finalize(pending, size, summaries, k) == (|batch| + n, outcome)
  {
    hide HasUser, Usable;
  }

  /** What ending a chat leaves in the tables, and whether it succeeds. */
  function EndChat(t: Tables, chatId: string, profile: Profile, size: nat, answers: nat -> Extraction,
                   summaries: nat -> Option<GistSummary>): (Tables, bool)
    requires size > 0
  {
    var pending := PendingFor(t.messages, chatId, Summary);
    var t1 := MemoryTables(t, chatId, pending, profile, answers, 0);
    if Consume(pending, profile, answers, 0).1.Failed? || !HasChat(t1.chats, chatId) then (t1, false)
    else
      var ungisted := PendingFor(t1.messages, chatId, GistKind);
      var t2 := GistTables(t1, chatId, ChatNamed(t1.chats, chatId).title, ungisted, size, summaries, 0);
      if Finalize(ungisted, size, summaries, 0).1.Failed? then (t2, false) else (SetActive(t2, chatId, false), true)
  }

  // ---------------------------------------------------------------- what a successful end means

  ghost predicate AllProcessed(messages: seq<Message>, chatId: string, kind: Kind) {
    forall m :: m in messages && m.chatId == chatId ==> Processed(m, kind)
  }

  lemma NothingPendingIff(messages: seq<Message>, chatId: string, kind: Kind)
    ensures PendingFor(messages, chatId, kind) == [] <==> AllProcessed(messages, chatId, kind)
  {
    hide Filter, Sort;
    var mine := Filter(InChat(chatId), messages);
    var l := Listing(messages, chatId);
    if PendingFor(messages, chatId, kind) == [] {
      forall m | m in messages && m.chatId == chatId ensures Processed(m, kind) {
        assert m in mine && m in l && m !in Filter(Pending(kind), l);
      }
    } else {
      var m := PendingFor(messages, chatId, kind)[0];
      assert m in Filter(Pending(kind), l) && m in l && m in mine;
    }
  }

  /** Setting one flag never clears it, and leaves the other flag alone. */
  lemma MarkingKeeps(messages: seq<Message>, chatId: string, ids: set<int>, marked: Kind, kind: Kind)
    ensures AllProcessed(messages, chatId, kind) ==> AllProcessed(MarkProcessed(messages, ids, marked), chatId, kind)
    ensures marked != kind && AllProcessed(MarkProcessed(messages, ids, marked), chatId, kind) ==>
              AllProcessed(messages, chatId, kind)
  {
    var after := MarkProcessed(messages, ids, marked);
    forall i | 0 <= i < |messages|
      ensures after[i].chatId == messages[i].chatId
      ensures Processed(messages[i], kind) ==> Processed(after[i], kind)
      ensures marked != kind ==> Processed(after[i], kind) == Processed(messages[i], kind)
    {
      assert after[i] == Marked(messages[i], ids, marked);
    }
    if AllProcessed(messages, chatId, kind) {
      forall m | m in after && m.chatId == chatId ensures Processed(m, kind) {
        var i :| 0 <= i < |after| && after[i] == m;
        assert messages[i] in messages;
      }
    }
    if marked != kind && AllProcessed(after, chatId, kind) {
      forall m | m in messages && m.chatId == chatId ensures Processed(m, kind) {
        var i :| 0 <= i < |messages| && messages[i] == m;
        assert after[i] in after;
      }
    }
  }

  /** A phase that consumed the first n pending messages has processed all of them iff n is all. */
  lemma PhaseOutcome(messages: seq<Message>, chatId: string, kind: Kind, n: nat)
    requires IdsIncrease(messages) && n <= |PendingFor(messages, chatId, kind)|
    ensures var pending := PendingFor(messages, chatId, kind);
            AllProcessed(MarkProcessed(messages, MessageIds(pending[..n]), kind), chatId, kind) <==> n == |pending|
  {
    hide Filter, Listing, MarkProcessed, MessageIds, IdsIncrease, AllProcessed;
    var pending := PendingFor(messages, chatId, kind);
    PendingAfterMark(messages, chatId, n, kind);
    NothingPendingIff(MarkProcessed(messages, MessageIds(pending[..n]), kind), chatId, kind);
  }

  predicate Inactive(chats: seq<Chat>, chatId: string) {
    forall c :: c in chats && c.id == chatId ==> !c.active
  }

  lemma DeactivatedIsInactive(t: Tables, chatId: string)
    ensures Inactive(SetActive(t, chatId, false).chats, chatId)
  {
    var after := SetActive(t, chatId, false).chats;
    forall c | c in after && c.id == chatId ensures !c.active {
      var i :| 0 <= i < |after| && after[i] == c;
      assert after[i] == if ChatIs(chatId)(t.chats[i]) then SetActiveFlag(false)(t.chats[i]) else t.chats[i];
    }
  }

  /** A failed end leaves every chat row as it was.  A successful one leaves the chat inactive with a
      gist for every message; but its messages have all been taken into memory only when no batch was
      refused and none stalled. */
  lemma EndedMeans(t: Tables, chatId: string, profile: Profile, size: nat, answers: nat -> Extraction,
                   summaries: nat -> Option<GistSummary>)
    requires WellFormed(t) && size > 0
    ensures var (t', ended) := EndChat(t, chatId, profile, size, answers, summaries);
            var pending := PendingFor(t.messages, chatId, Summary);
            && (!ended ==> t'.chats == t.chats)
            && (ended ==> Inactive(t'.chats, chatId) && AllProcessed(t'.messages, chatId, GistKind))
            && (ended ==> (AllProcessed(t'.messages, chatId, Summary) <==> AllConsumed(pending, profile, answers, 0)))
  {
    hide WellFormed, PendingFor, MarkProcessed, MessageIds, Consume, Finalize, SetActive, HasChat, Inactive, AllProcessed,
         AllConsumed, IdsIncrease, MemoryTables, GistTables, Filter, ChatNamed;
    ValidIncreases(t);
    var pending := PendingFor(t.messages, chatId, Summary);
    var n := Consume(pending, profile, answers, 0).0;
    var t1 := MemoryTables(t, chatId, pending, profile, answers, 0);
    var ungisted := PendingFor(t1.messages, chatId, GistKind);
    MemoryMessages(t, chatId, pending, profile, answers, 0);
    ConsumedIff(pending, profile, answers, 0);
    PhaseOutcome(t.messages, chatId, Summary, n);
    if HasChat(t1.chats, chatId) {
      var g := Finalize(ungisted, size, summaries, 0).0;
      var t2 := GistTables(t1, chatId, ChatNamed(t1.chats, chatId).title, ungisted, size, summaries, 0);
      MarkKeepsIncreasing(t.messages, MessageIds(pending[..n]), Summary);
      GistMessages(t1, chatId, ChatNamed(t1.chats, chatId).title, ungisted, size, summaries, 0);
      FinalizedIff(ungisted, size, summaries, 0);
      PhaseOutcome(t1.messages, chatId, GistKind, g);
      MarkingKeeps(t1.messages, chatId, MessageIds(ungisted[..g]), GistKind, Summary);
      DeactivatedIsInactive(t2, chatId);
      ActiveFlagOnly(t2, chatId, false);
    }
  }

  lemma ActiveFlagOnly(t: Tables, chatId: string, active: bool)
    ensures SetActive(t, chatId, active) == t.(chats := SetActive(t, chatId, active).chats)
  {
  }

  /** Nothing short of an exception or an invalid summary keeps a chat open: refused and stalled
      batches do not. */
  lemma EndsUnlessRaised(t: Tables, chatId: string, profile: Profile, size: nat, answers: nat -> Extraction,
                         summaries: nat -> Option<GistSummary>)
    requires size > 0 && HasChat(t.chats, chatId)
    requires forall i :: !answers(i).Raises? && Usable(summaries(i))
    ensures EndChat(t, chatId, profile, size, answers, summaries).1
  {
    hide PendingFor, HasChat, MarkProcessed, Consume, Finalize, Usable, MemoryTables, GistTables, ChatNamed, Filter;
    var pending := PendingFor(t.messages, chatId, Summary);
    NoRaise(pending, profile, answers, 0);
    MemoryMessages(t, chatId, pending, profile, answers, 0);
    NoInvalid(PendingFor(MemoryTables(t, chatId, pending, profile, answers, 0).messages, chatId, GistKind), size, summaries, 0);
  }

  lemma {:induction false} NoRaise(pending: seq<Message>, profile: Profile, answers: nat -> Extraction, k: nat)
    requires forall i :: !answers(i).Raises?
    ensures Consume(pending, profile, answers, k).1.Completed?
    decreases |pending|
  {
    BatchIsHead(pending, profile);
    var batch := SelectBatch(pending, profile);
    hide SelectBatch, Stalls;
    if batch != [] {
      NoRaise(pending[|batch|..], profile, answers, k + 1);
    }
  }

  lemma {:induction false} NoInvalid(pending: seq<Message>, size: nat, summaries: nat -> Option<GistSummary>, k: nat)
    requires size > 0 && forall i :: Usable(summaries(i))
    ensures Finalize(pending, size, summaries, k).1.Completed?
    decreases |pending|
  {
    hide HasUser, Usable;
    var batch := Limit(pending, size);
    if batch != [] {
      NoInvalid(pending[|batch|..], size, summaries, k + 1);
    }
  }

  /** The chat-end contract "process every pending message or raise" does not hold of the memory phase:
      after one refused batch the chat ends with its message neither consumed nor reported. */
  lemma EndedWithPendingMemory(t: Tables, chatId: string, profile: Profile, size: nat, m: Message, left: string, s: GistSummary)
    requires WellFormed(t) && size > 0 && HasChat(t.chats, chatId) && Strip(s.text) != ""
    requires m in t.messages && m.chatId == chatId && !m.summarized
    ensures var (t', ended) := EndChat(t, chatId, profile, size, (_: nat) => Rejected(left, 0), (_: nat) => Some(s));
            ended && Inactive(t'.chats, chatId) && !AllProcessed(t'.messages, chatId, Summary)
  {
    hide WellFormed, HasChat, EndChat, PendingFor, AllConsumed, Inactive, Strip;
    var refused: nat -> Extraction := (_: nat) => Rejected(left, 0);
    var usable: nat -> Option<GistSummary> := (_: nat) => Some(s);
    EndedMeans(t, chatId, profile, size, refused, usable);
    EndsUnlessRaised(t, chatId, profile, size, refused, usable);
    NothingPendingIff(t.messages, chatId, Summary);
    RefusedAtOnce(PendingFor(t.messages, chatId, Summary), profile, refused);
  }

  lemma RefusedAtOnce(pending: seq<Message>, profile: Profile, answers: nat -> Extraction)
    requires pending != [] && answers(0).Rejected?
    ensures !AllConsumed(pending, profile, answers, 0)
  {
    ConsumedIff(pending, profile, answers, 0);
    hide SelectBatch, Stalls, AllConsumed;
  }

  lemma HeadInChat(messages: seq<Message>, chatId: string, kind: Kind, n: nat)
    requires n <= |PendingFor(messages, chatId, kind)|
    ensures forall m :: m in PendingFor(messages, chatId, kind)[..n] ==> m in messages && m.chatId == chatId
  {
    hide PendingFor;
    forall m | m in PendingFor(messages, chatId, kind)[..n] ensures m in messages && m.chatId == chatId {
      PendingInChat(messages, chatId, kind, m);
    }
  }

  // ---------------------------------------------------------------- keys

  lemma MarkedStaysWellFormed(t: Tables, chatId: string, memory: string, at: int, batch: seq<Message>)
    requires WellFormed(t)
    ensures WellFormed(MarkedIn(Remembered(t, chatId, memory, at), batch, Summary))
  {
    hide WellFormed, MarkProcessed, MessageIds, StateUpserted;
    if StateUpserted(t, chatId, memory, at).Some? {
      UpsertKeepsSchema(t, chatId, memory, at);
    }
    MarkKeepsSchema(Remembered(t, chatId, memory, at), MessageIds(batch), Summary);
  }

  lemma {:induction false} MemoryLeaves(t: Tables, chatId: string, pending: seq<Message>, profile: Profile,
                                        answers: nat -> Extraction, k: nat)
    requires WellFormed(t)
    ensures WellFormed(MemoryTables(t, chatId, pending, profile, answers, k))
    decreases |pending|
  {
    hide WellFormed, SelectBatch, Remembered, MarkedIn, MemoryTables;
    var batch := SelectBatch(pending, profile);
    if batch == [] {
      NoBatch(t, chatId, pending, profile, answers, k);
    } else {
      MemoryStep(t, chatId, pending, profile, answers, k);
      if Consumes(answers(k)) {
        MarkedStaysWellFormed(t, chatId, answers(k).memory, answers(k).at, batch);
        MemoryLeaves(MarkedIn(Remembered(t, chatId, answers(k).memory, answers(k).at), batch, Summary), chatId,
                     pending[|batch|..], profile, answers, k + 1);
      } else if answers(k).Rejected? {
        RememberedWellFormed(t, chatId, answers(k).memory, answers(k).at);
      }
    }
  }

  lemma RememberedWellFormed(t: Tables, chatId: string, memory: string, at: int)
    requires WellFormed(t)
    ensures WellFormed(Remembered(t, chatId, memory, at))
  {
    hide WellFormed, StateUpserted;
    if StateUpserted(t, chatId, memory, at).Some? {
      UpsertKeepsSchema(t, chatId, memory, at);
    }
  }

  lemma StoredWellFormed(t: Tables, chatId: string, title: Option<string>, batch: seq<Message>, s: GistSummary)
    requires WellFormed(t) && batch != [] && HasChat(t.chats, chatId)
    ensures WellFormed(Stored(t, chatId, title, batch, s))
  {
    hide WellFormed, GistInserted, MessageIds, HasChat, GistOf;
    StoredWhenListed(t, chatId, title, batch, s);
    GistKeepsSchema(t, GistOf(chatId, title, batch, s), MessageIds(batch));
  }

  lemma {:induction false} GistsLeave(t: Tables, chatId: string, title: Option<string>, pending: seq<Message>, size: nat,
                                      summaries: nat -> Option<GistSummary>, k: nat)
    requires size > 0 && WellFormed(t) && HasChat(t.chats, chatId)
    ensures WellFormed(GistTables(t, chatId, title, pending, size, summaries, k))
    decreases |pending|
  {
    hide WellFormed, GistTables, Finalize, Stored, HasChat, HasUser, Usable, MarkProcessed, MessageIds, Limit, GistsAdded, GistOf;
    var batch := Limit(pending, size);
    if batch == [] {
      NothingToGist(t, chatId, title, pending, size, summaries, k);
    } else {
      GistStep(t, chatId, title, pending, size, summaries, k);
      if !HasUser(batch) {
        MarkKeepsSchema(t, MessageIds(batch), GistKind);
        GistsLeave(MarkedIn(t, batch, GistKind), chatId, title, pending[|batch|..], size, summaries, k + 1);
      } else if Usable(summaries(k)) {
        UsableIsThere(summaries(k));
        StoredWellFormed(t, chatId, title, batch, summaries(k).value);
        StoredWhenListed(t, chatId, title, batch, summaries(k).value);
        GistsLeave(Stored(t, chatId, title, batch, summaries(k).value), chatId, title, pending[|batch|..], size, summaries, k + 1);
      }
    }
  }

  /** Ending a chat keeps primary keys and foreign keys, however it goes. */
  lemma EndKeepsSchema(t: Tables, chatId: string, profile: Profile, size: nat, answers: nat -> Extraction,
                       summaries: nat -> Option<GistSummary>)
    requires WellFormed(t) && size > 0
    ensures WellFormed(EndChat(t, chatId, profile, size, answers, summaries).0)
  {
    hide WellFormed, MemoryTables, GistTables, Consume, Finalize, HasChat, SetActive, PendingFor, ChatNamed;
    var pending := PendingFor(t.messages, chatId, Summary);
    MemoryLeaves(t, chatId, pending, profile, answers, 0);
    var t1 := MemoryTables(t, chatId, pending, profile, answers, 0);
    if HasChat(t1.chats, chatId) {
      var title, ungisted := ChatNamed(t1.chats, chatId).title, PendingFor(t1.messages, chatId, GistKind);
      GistsLeave(t1, chatId, title, ungisted, size, summaries, 0);
      SetActiveKeepsSchema(GistTables(t1, chatId, title, ungisted, size, summaries, 0), chatId, false);
    }
  }

  /** Ending one chat changes nothing in the transcript of another. */
  lemma EndLeavesOthers(t: Tables, chatId: string, profile: Profile, size: nat, answers: nat -> Extraction,
                        summaries: nat -> Option<GistSummary>, c: string)
    requires WellFormed(t) && size > 0 && c != chatId
    ensures var t' := EndChat(t, chatId, profile, size, answers, summaries).0;
            && Listing(t'.messages, c) == Listing(t.messages, c)
            && Filter(GistIn(c), t'.gists) == Filter(GistIn(c), t.gists)
            && Filter(StateIs(c), t'.memoryStates) == Filter(StateIs(c), t.memoryStates)
  {
    hide WellFormed, PendingFor, Listing, MarkProcessed, MessageIds, Consume, Finalize, SetActive, HasChat, IdsIncrease,
         MemoryTables, GistTables, Filter, ChatNamed, GistsAdded, MemoryOnly;
    ValidIncreases(t);
    var pending := PendingFor(t.messages, chatId, Summary);
    var n := Consume(pending, profile, answers, 0).0;
    var t1 := MemoryTables(t, chatId, pending, profile, answers, 0);
    MemoryMessages(t, chatId, pending, profile, answers, 0);
    HeadInChat(t.messages, chatId, Summary, n);
    OtherChatUntouched(t.messages, chatId, c, pending[..n], Summary);
    OtherStates(t, t1, chatId, c);
    if HasChat(t1.chats, chatId) {
      var ungisted := PendingFor(t1.messages, chatId, GistKind);
      var g := Finalize(ungisted, size, summaries, 0).0;
      var title := ChatNamed(t1.chats, chatId).title;
      var t2 := GistTables(t1, chatId, title, ungisted, size, summaries, 0);
      MarkKeepsIncreasing(t.messages, MessageIds(pending[..n]), Summary);
      GistMessages(t1, chatId, title, ungisted, size, summaries, 0);
      HeadInChat(t1.messages, chatId, GistKind, g);
      OtherChatUntouched(t1.messages, chatId, c, ungisted[..g], GistKind);
      OtherGists(t1, t2, chatId, c);
      ActiveFlagOnly(t2, chatId, false);
    }
  }

  lemma OtherStates(t: Tables, t': Tables, chatId: string, c: string)
    requires MemoryOnly(t, t', chatId) && c != chatId
    ensures Filter(StateIs(c), t'.memoryStates) == Filter(StateIs(c), t.memoryStates)
    ensures t'.gists == t.gists && t'.chats == t.chats
  {
    FilterTwice(StateIs(c), StateElsewhere(chatId), StateIs(c), t.memoryStates);
    FilterTwice(StateIs(c), StateElsewhere(chatId), StateIs(c), t'.memoryStates);
  }

  lemma OtherGists(t: Tables, t': Tables, chatId: string, c: string)
    requires GistsAdded(t, t', chatId) && c != chatId
    ensures Filter(GistIn(c), t'.gists) == Filter(GistIn(c), t.gists) && t'.memoryStates == t.memoryStates
  {
    var added := t'.gists[|t.gists|..];
    assert t'.gists == t.gists + added;
    FilterConcat(GistIn(c), t.gists, added);
    FilterNone(GistIn(c), added);
    assert Filter(GistIn(c), t.gists) + [] == Filter(GistIn(c), t.gists);
  }
}
