/** Ending a chat writes gists that a later fork can carry over. */
module EndedFork {
  import opened Results
  import opened Text
  import opened Rows
  import opened Provenance
  import opened Tables
  import opened Forking
  import opened Schema
  import opened Recency
  import opened MemoryBatches
  import opened ChatEnd

  lemma {:induction false} FieldsRemap(fields: seq<Field>, ren: Renaming)
    requires forall f :: f in fields ==> AllRemap(FieldMarks(f), ren)
    ensures AllRemap(FieldsMarks(fields), ren)
  {
    hide FieldMarks, AllRemap;
    if fields == [] {
      NoMarks(ren);
    } else {
      assert forall f :: f in fields[1..] ==> f in fields;
      FieldsRemap(fields[1..], ren);
      AllRemapConcat(FieldMarks(fields[0]), FieldsMarks(fields[1..]), ren);
    }
  }

  lemma NoMarks(ren: Renaming)
    ensures AllRemap([], ren)
  {
  }

  /** A key that means nothing to a fork, with text, a number, nothing or a list of texts. */
  ghost predicate Plain(key: string) {
    !IsMessageIdKey(key) && !IsMessageIdListKey(key) && !IsChatIdKey(key)
  }

  lemma PlainScalar(key: string, value: Json, ren: Renaming)
    requires Plain(key) && !value.List? && !value.Dict?
    ensures AllRemap(FieldMarks(Field(key, value)), ren)
  {
  }

  lemma {:induction false} NoItemMarks(items: seq<Json>)
    requires forall v :: v in items ==> v.Str?
    ensures ItemMarks(items) == []
  {
    if items != [] {
      assert items[0] in items;
      NoItemMarks(items[1..]);
    }
  }

  lemma PlainTexts(key: string, texts: seq<string>, ren: Renaming)
    requires Plain(key)
    ensures AllRemap(FieldMarks(Field(key, TextList(texts))), ren)
  {
    NoItemMarks(TextList(texts).items);
    assert FieldMarks(Field(key, TextList(texts))) == [];
  }

  lemma ListedIds(batch: seq<Message>, ren: Renaming)
    requires forall m :: m in batch ==> m.id in ren.ids
    ensures AllRemap(FieldMarks(Field("source_message_ids", IdList(batch))), ren)
  {
    var marks := FieldMarks(Field("source_message_ids", IdList(batch)));
    forall i | 0 <= i < |marks| ensures RemapMark(marks[i], ren).Some? {
      assert batch[i] in batch;
      assert marks[i] == MessageRef(Number(batch[i].id));
    }
  }

  lemma PlainKeys()
    ensures Plain("important_facts") && Plain("corrections") && Plain("source_message_count") && Plain("summarizer")
    ensures Plain("effective_summarizer") && Plain("status") && Plain("chat_title") && Plain("gist_scope")
  {
  }

  lemma {:induction false} ExtremesAreIds(batch: seq<Message>)
    requires batch != []
    ensures MinId(batch) in MessageIds(batch) && MaxId(batch) in MessageIds(batch)
  {
    assert batch[0] in batch;
    if |batch| > 1 {
      ExtremesAreIds(batch[1..]);
      assert MessageIds(batch[1..]) <= MessageIds(batch);
    }
  }

  /** The gist of a batch names only messages of the batch. */
  lemma GistIsCurrent(chatId: string, title: Option<string>, batch: seq<Message>, s: GistSummary, ren: Renaming, id: int)
    requires batch != [] && forall m :: m in batch ==> m.id in ren.ids
    ensures GistCurrent(GistOf(chatId, title, batch, s).(id := id), ren)
  {
    hide AllRemap, FieldMarks, FieldsMarks, Plain, MinId, MaxId, TextList, IdList;
    var g := GistOf(chatId, title, batch, s);
    ExtremesAreIds(batch);
    var fields := g.metadata.value.fields;
    PlainKeys();
    PlainTexts("important_facts", s.facts, ren);
    PlainTexts("corrections", s.corrections, ren);
    PlainScalar("source_message_count", Number(|batch|), ren);
    PlainScalar("summarizer", Str(s.summarizer), ren);
    PlainScalar("effective_summarizer", Str(s.effective), ren);
    PlainScalar("status", Str("active"), ren);
    PlainScalar("chat_title", if title.Some? then Str(title.value) else Null, ren);
    PlainScalar("gist_scope", Str("previous_chat"), ren);
    ListedIds(batch, ren);
    FieldsRemap(fields, ren);
    MarksOfFields(fields);
  }

  lemma MarksOfFields(fields: seq<Field>)
    ensures Marks(Dict(fields)) == FieldsMarks(fields)
  {
  }

  ghost predicate AllCurrent(gists: seq<Gist>, ren: Renaming) {
    forall g :: g in gists ==> GistCurrent(g, ren)
  }

  /** Every gist of the gist phase is current provenance of the chat. */
  lemma {:induction false} NewGistsAreCurrent(t: Tables, chatId: string, title: Option<string>, pending: seq<Message>, size: nat,
                                              summaries: nat -> Option<GistSummary>, k: nat, ren: Renaming)
    requires size > 0 && HasChat(t.chats, chatId) && forall m :: m in pending ==> m.id in ren.ids
    ensures var t' := GistTables(t, chatId, title, pending, size, summaries, k);
            |t'.gists| >= |t.gists| && AllCurrent(t'.gists[|t.gists|..], ren)
    decreases |pending|
  {
    hide GistTables, Finalize, Stored, MarkedIn, HasChat, HasUser, Usable, GistCurrent, GistOf, MarkProcessed, MessageIds, Limit;
    var batch := Limit(pending, size);
    if batch == [] {
      NothingToGist(t, chatId, title, pending, size, summaries, k);
    } else {
      GistStep(t, chatId, title, pending, size, summaries, k);
      if !HasUser(batch) || Usable(summaries(k)) {
        UsableIsThere(summaries(k));
        assert forall m :: m in pending[|batch|..] ==> m in pending;
        if HasUser(batch) {
          var s := summaries(k).value;
          StoredGist(t, chatId, title, batch, s);
          assert forall m :: m in batch ==> m in pending;
          GistIsCurrent(chatId, title, batch, s, ren, t.nextGistId);
          var t1 := Stored(t, chatId, title, batch, s);
          NewGistsAreCurrent(t1, chatId, title, pending[|batch|..], size, summaries, k + 1, ren);
          MoreCurrent(t, t1, GistTables(t, chatId, title, pending, size, summaries, k), chatId, title, pending[|batch|..], size,
                      summaries, k + 1, ren);
        } else {
          MarkedRows(t, batch, GistKind);
          NewGistsAreCurrent(MarkedIn(t, batch, GistKind), chatId, title, pending[|batch|..], size, summaries, k + 1, ren);
        }
      }
    }
  }

  lemma MarkedRows(t: Tables, batch: seq<Message>, kind: Kind)
    ensures MarkedIn(t, batch, kind) == t.(messages := MarkedIn(t, batch, kind).messages)
  {
    hide MarkProcessed, MessageIds;
  }

  lemma MoreCurrent(t: Tables, t1: Tables, t2: Tables, chatId: string, title: Option<string>, rest: seq<Message>, size: nat,
                    summaries: nat -> Option<GistSummary>, k: nat, ren: Renaming)
    requires size > 0 && |t1.gists| == |t.gists| + 1 && t.gists <= t1.gists && GistCurrent(t1.gists[|t.gists|], ren)
    requires HasChat(t1.chats, chatId) && t2 == GistTables(t1, chatId, title, rest, size, summaries, k)
    requires |t2.gists| >= |t1.gists| && AllCurrent(t2.gists[|t1.gists|..], ren)
    ensures AllCurrent(t2.gists[|t.gists|..], ren)
  {
    hide GistTables, GistCurrent, HasChat, MarkProcessed, MessageIds, Finalize;
    GistMessages(t1, chatId, title, rest, size, summaries, k);
    forall g | g in t2.gists[|t.gists|..] ensures GistCurrent(g, ren) {
      var i :| |t.gists| <= i < |t2.gists| && t2.gists[i] == g;
      if i > |t.gists| {
        assert g in t2.gists[|t1.gists|..];
      }
    }
  }

  lemma {:induction false} MarkedIdMap(ms: seq<Message>, ids: set<int>, kind: Kind, first: int)
    ensures IdMap(MarkProcessed(ms, ids, kind), first) == IdMap(ms, first)
  {
    if ms != [] {
      var n := |ms| - 1;
      var after := MarkProcessed(ms, ids, kind);
      assert after[..n] == MarkProcessed(ms[..n], ids, kind);
      assert after[n].id == ms[n].id;
      MarkedIdMap(ms[..n], ids, kind, first);
    }
  }

  /** Marking messages does not change what a fork renames. */
  lemma SameRenaming(t: Tables, t': Tables, ids: set<int>, kind: Kind, source: string, target: string)
    requires t'.messages == MarkProcessed(t.messages, ids, kind) && t'.nextMessageId == t.nextMessageId
    ensures ForkRenaming(t', source, target) == ForkRenaming(t, source, target)
  {
    hide MarkProcessed, Listing, IdMap;
    MarkListing(t.messages, source, ids, kind);
    MarkedIdMap(Listing(t.messages, source), ids, kind, t.nextMessageId);
  }

  lemma PendingIsRenamed(t: Tables, chatId: string, kind: Kind, target: string)
    requires WellFormed(t)
    ensures forall m :: m in PendingFor(t.messages, chatId, kind) ==> m.id in ForkRenaming(t, chatId, target).ids
  {
    hide Listing, IdMap, GistKeys, StateKeys, DocumentKeys, ChatKeys, InspectionKeys, ChatReferences;
    ForkIdMap(t.messages, chatId, t.nextMessageId);
  }

  /** A fork needs the same of two stores when the second has only more current gists. */
  lemma ForkableAlike(t: Tables, t': Tables, source: string, target: string, later: int)
    requires WellFormed(t) && WellFormed(t')
    requires forall id :: HasChat(t'.chats, id) <==> HasChat(t.chats, id)
    requires t'.inspections == t.inspections && ForkRenaming(t', source, target) == ForkRenaming(t, source, target)
    requires t.gists <= t'.gists && AllCurrent(t'.gists[|t.gists|..], ForkRenaming(t, source, target))
    ensures Fork(t', source, target, later).Ok? <==> Fork(t, source, target, later).Ok?
  {
    hide WellFormed, HasChat, ForkRenaming, Fork, GistCurrent, ColumnCurrent;
    ForkSucceedsIff(t, source, target, later);
    ForkSucceedsIff(t', source, target, later);
    var added := t'.gists[|t.gists|..];
    assert t'.gists == t.gists + added;
  }

  lemma MemoryStepAlike(t: Tables, chatId: string, profile: Profile, answers: nat -> Extraction, target: string)
    ensures var t1 := MemoryTables(t, chatId, PendingFor(t.messages, chatId, Summary), profile, answers, 0);
            && ForkRenaming(t1, chatId, target) == ForkRenaming(t, chatId, target)
            && t1.gists == t.gists && t1.inspections == t.inspections && t1.chats == t.chats
  {
    hide MemoryTables, PendingFor, ForkRenaming, Consume, MarkProcessed, MessageIds;
    var pending := PendingFor(t.messages, chatId, Summary);
    MemoryMessages(t, chatId, pending, profile, answers, 0);
    var n := Consume(pending, profile, answers, 0).0;
    SameRenaming(t, MemoryTables(t, chatId, pending, profile, answers, 0), MessageIds(pending[..n]), Summary, chatId, target);
  }

  lemma GistStepAlike(t: Tables, chatId: string, title: Option<string>, size: nat, summaries: nat -> Option<GistSummary>,
                      target: string)
    requires WellFormed(t) && size > 0 && HasChat(t.chats, chatId)
    ensures var t1 := GistTables(t, chatId, title, PendingFor(t.messages, chatId, GistKind), size, summaries, 0);
            && ForkRenaming(t1, chatId, target) == ForkRenaming(t, chatId, target)
            && t.gists <= t1.gists && AllCurrent(t1.gists[|t.gists|..], ForkRenaming(t, chatId, target))
            && t1.inspections == t.inspections && t1.chats == t.chats
  {
    hide GistTables, PendingFor, ForkRenaming, Finalize, MarkProcessed, MessageIds, WellFormed, AllCurrent, HasChat;
    var pending := PendingFor(t.messages, chatId, GistKind);
    GistMessages(t, chatId, title, pending, size, summaries, 0);
    PendingIsRenamed(t, chatId, GistKind, target);
    NewGistsAreCurrent(t, chatId, title, pending, size, summaries, 0, ForkRenaming(t, chatId, target));
    var n := Finalize(pending, size, summaries, 0).0;
    SameRenaming(t, GistTables(t, chatId, title, pending, size, summaries, 0), MessageIds(pending[..n]), GistKind, chatId, target);
  }

  /** Ending a chat, successfully or not, makes it neither more nor less forkable: whatever the extractor answers and
      the summaries say, the gists it writes are provenance that a fork can carry over. */
  lemma EndKeepsForkable(t: Tables, chatId: string, profile: Profile, size: nat, answers: nat -> Extraction,
                         summaries: nat -> Option<GistSummary>, target: string, later: int)
    requires WellFormed(t) && size > 0
    ensures Fork(EndChat(t, chatId, profile, size, answers, summaries).0, chatId, target, later).Ok?
            <==> Fork(t, chatId, target, later).Ok?
  {
    hide MemoryTables, GistTables, PendingFor, ForkRenaming, Finalize, Consume, WellFormed, AllCurrent, HasChat, Fork, ChatNamed,
         SetActive;
    EndKeepsSchema(t, chatId, profile, size, answers, summaries);
    var pending := PendingFor(t.messages, chatId, Summary);
    var t1 := MemoryTables(t, chatId, pending, profile, answers, 0);
    MemoryLeaves(t, chatId, pending, profile, answers, 0);
    MemoryStepAlike(t, chatId, profile, answers, target);
    NoneIsCurrent(t1.gists, ForkRenaming(t, chatId, target));
    if HasChat(t1.chats, chatId) {
      var title, ungisted := ChatNamed(t1.chats, chatId).title, PendingFor(t1.messages, chatId, GistKind);
      var t2 := GistTables(t1, chatId, title, ungisted, size, summaries, 0);
      GistStepAlike(t1, chatId, title, size, summaries, target);
      ActivityAlike(t2, chatId, target);
    }
    ForkableAlike(t, EndChat(t, chatId, profile, size, answers, summaries).0, chatId, target, later);
  }

  lemma NoneIsCurrent(gists: seq<Gist>, ren: Renaming)
    ensures AllCurrent(gists[|gists|..], ren)
  {
  }

  lemma ActivityAlike(t: Tables, chatId: string, target: string)
    ensures var t' := SetActive(t, chatId, false);
            && (forall id :: HasChat(t'.chats, id) <==> HasChat(t.chats, id))
            && t'.gists == t.gists && t'.inspections == t.inspections
            && ForkRenaming(t', chatId, target) == ForkRenaming(t, chatId, target)
  {
    hide HasChat, Update;
    UpdateKeepsChats(ChatIs(chatId), SetActiveFlag(false), t.chats);
  }
}
