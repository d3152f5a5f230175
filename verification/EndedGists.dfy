/** What the gists of an ended chat say, and what a fork's copies of them say. */
module EndedGists {
  import opened Results
  import opened Text
  import opened Rows
  import opened Provenance
  import opened RenamedKeys
  import opened Tables
  import opened Forking
  import opened Schema
  import opened Statements
  import opened Recency
  import opened MemoryBatches
  import opened ChatEnd
  import opened EndedFork
  import Lineage

  /** A batch that gets a gist, and its summary. */
  datatype Told = Told(batch: seq<Message>, summary: GistSummary)

  /** The batches that get a gist: of `size` consecutive messages, those in which a user speaks, up to the first whose
      summary is missing or blank. */
  function GistedBatches(pending: seq<Message>, size: nat, summaries: nat -> Option<GistSummary>, k: nat): seq<Told>
    requires size > 0
    decreases |pending|
  {
    if pending == [] then []
    else
      var batch := if size < |pending| then pending[..size] else pending;
      if forall m :: m in batch ==> m.role != User then GistedBatches(pending[|batch|..], size, summaries, k + 1)
      else if summaries(k).None? || AllSpace(summaries(k).value.text) then []
      else [Told(batch, summaries(k).value)] + GistedBatches(pending[|batch|..], size, summaries, k + 1)
  }

  function Itself(id: int): int {
    id
  }

  function Renamed(ids: map<int, int>): int -> int {
    (id: int) => if id in ids then ids[id] else id
  }

  ghost predicate SaysTexts(v: Json, texts: seq<string>) {
    v.List? && |v.items| == |texts| && forall i :: 0 <= i < |texts| ==> v.items[i] == Str(texts[i])
  }

  ghost predicate SaysIds(v: Json, batch: seq<Message>, name: int -> int) {
    v.List? && |v.items| == |batch| && forall i :: 0 <= i < |batch| ==> v.items[i] == Number(name(batch[i].id))
  }

  /** The metadata of a gist, with the ids of its messages as they are now named. */
  ghost predicate SaysMetadata(fields: seq<Field>, title: Option<string>, told: Told, name: int -> int) {
    && |fields| == 9
    && fields[0].key == "important_facts" && SaysTexts(fields[0].value, told.summary.facts)
    && fields[1].key == "corrections" && SaysTexts(fields[1].value, told.summary.corrections)
    && fields[2] == Field("source_message_count", Number(|told.batch|))
    && fields[3] == Field("summarizer", Str(told.summary.summarizer))
    && fields[4] == Field("effective_summarizer", Str(told.summary.effective))
    && fields[5] == Field("status", Str("active"))
    && fields[6] == Field("chat_title", if title.Some? then Str(title.value) else Null)
    && fields[7] == Field("gist_scope", Str("previous_chat"))
    && fields[8].key == "source_message_ids" && SaysIds(fields[8].value, told.batch, name)
  }

  /** The least and the greatest id of the batch. */
  ghost predicate Extremes(batch: seq<Message>, lo: int, hi: int) {
    && (exists m :: m in batch && m.id == lo)
    && (exists m :: m in batch && m.id == hi)
    && forall m :: m in batch ==> lo <= m.id <= hi
  }

  ghost predicate Spans(g: Gist, batch: seq<Message>, name: int -> int) {
    exists lo, hi :: Extremes(batch, lo, hi) && g.startMessageId == Some(name(lo)) && g.endMessageId == Some(name(hi))
  }

  /** The row tells what the summary told of the batch. */
  ghost predicate Tells(g: Gist, chatId: string, title: Option<string>, told: Told, name: int -> int) {
    var s := told.summary;
    && g.chatId == chatId && g.sourceType == "previous_chat_gist"
    && g.gistText == s.text && g.topicsJson == s.topicsJson && g.decisionsJson == s.decisionsJson
    && g.openTasksJson == s.openTasksJson && g.createdAt == s.at && g.updatedAt == s.at
    && Spans(g, told.batch, name)
    && g.metadata.Decoded? && g.metadata.value.Dict? && SaysMetadata(g.metadata.value.fields, title, told, name)
  }

  // ---------------------------------------------------------------- the gists as they are written

  lemma {:induction false} ExtremesAre(batch: seq<Message>)
    requires batch != []
    ensures Extremes(batch, MinId(batch), MaxId(batch))
  {
    assert batch[0] in batch;
    if |batch| > 1 {
      ExtremesAre(batch[1..]);
      assert forall m :: m in batch <==> m == batch[0] || m in batch[1..];
    } else {
      assert forall m :: m in batch <==> m == batch[0];
    }
  }

  lemma GistTells(chatId: string, title: Option<string>, told: Told, id: int)
    requires told.batch != []
    ensures Tells(GistOf(chatId, title, told.batch, told.summary).(id := id), chatId, title, told, Itself)
  {
    hide MinId, MaxId, Extremes;
    ExtremesAre(told.batch);
  }

  lemma BlankText(text: string)
    ensures Strip(text) == "" <==> AllSpace(text)
  {
    hide Strip;
    var i, j := StripCuts(text);
    if i == j {
      assert text == text[..i] + text[j..];
      assert forall k :: 0 <= k < |text| ==> text[k] == if k < i then text[..i][k] else text[j..][k - j];
    } else {
      assert !IsSpace(text[i]);
    }
  }

  /** The next batch, as the gist phase and as the list of batches see it. */
  lemma NextBatch(pending: seq<Message>, size: nat, summaries: nat -> Option<GistSummary>, k: nat)
    requires size > 0
    ensures var batch, told := Limit(pending, size), GistedBatches(pending, size, summaries, k);
            && (batch == [] ==> told == [])
            && (batch != [] && !HasUser(batch) ==> told == GistedBatches(pending[|batch|..], size, summaries, k + 1))
            && (batch != [] && HasUser(batch) && !Usable(summaries(k)) ==> told == [])
            && (batch != [] && HasUser(batch) && Usable(summaries(k)) ==>
                  told == [Told(batch, summaries(k).value)] + GistedBatches(pending[|batch|..], size, summaries, k + 1))
  {
    if summaries(k).Some? {
      BlankText(summaries(k).value.text);
    }
  }

  ghost predicate AllTell(gists: seq<Gist>, chatId: string, title: Option<string>, told: seq<Told>, first: int) {
    && |gists| == |told|
    && forall i :: 0 <= i < |told| ==> gists[i].id == first + i && Tells(gists[i], chatId, title, told[i], Itself)
  }

  lemma OneMoreTells(head: Gist, rest: seq<Gist>, chatId: string, title: Option<string>, told: seq<Told>, first: int)
    requires told != [] && head.id == first && Tells(head, chatId, title, told[0], Itself)
    requires AllTell(rest, chatId, title, told[1..], first + 1)
    ensures AllTell([head] + rest, chatId, title, told, first)
  {
    hide Tells;
    var all := [head] + rest;
    forall i | 0 <= i < |told| ensures all[i].id == first + i && Tells(all[i], chatId, title, told[i], Itself) {
      if i > 0 {
        assert all[i] == rest[i - 1] && told[i] == told[1..][i - 1];
      }
    }
  }

  /** The gist phase adds one row for each of these batches, in order. */
  lemma {:induction false} PhaseTells(t: Tables, chatId: string, title: Option<string>, pending: seq<Message>, size: nat,
                                      summaries: nat -> Option<GistSummary>, k: nat) returns (added: seq<Gist>)
    requires size > 0 && HasChat(t.chats, chatId)
    ensures GistTables(t, chatId, title, pending, size, summaries, k).gists == t.gists + added
    ensures AllTell(added, chatId, title, GistedBatches(pending, size, summaries, k), t.nextGistId)
    decreases |pending|
  {
    hide *;
    var batch := Limit(pending, size);
    NextBatch(pending, size, summaries, k);
    NoneTell(chatId, title, t.nextGistId);
    added := [];
    if batch == [] {
      NothingToGist(t, chatId, title, pending, size, summaries, k);
    } else {
      GistStep(t, chatId, title, pending, size, summaries, k);
      UsableIsThere(summaries(k));
      if !HasUser(batch) {
        MarkedGists(t, batch);
        added := PhaseTells(MarkedIn(t, batch, GistKind), chatId, title, pending[|batch|..], size, summaries, k + 1);
      } else if Usable(summaries(k)) {
        var s := summaries(k).value;
        var told := GistedBatches(pending, size, summaries, k);
        var head := GistOf(chatId, title, batch, s).(id := t.nextGistId);
        StoredGist(t, chatId, title, batch, s);
        StoredWhenListed(t, chatId, title, batch, s);
        GistTells(chatId, title, told[0], t.nextGistId);
        var rest := PhaseTells(Stored(t, chatId, title, batch, s), chatId, title, pending[|batch|..], size, summaries, k + 1);
        assert told[1..] == GistedBatches(pending[|batch|..], size, summaries, k + 1);
        OneMoreTells(head, rest, chatId, title, told, t.nextGistId);
        added := [head] + rest;
        assert t.gists + [head] + rest == t.gists + added;
      }
    }
  }

  lemma NoneTell(chatId: string, title: Option<string>, first: int)
    ensures AllTell([], chatId, title, [], first)
  {
  }

  lemma MarkedGists(t: Tables, batch: seq<Message>)
    ensures var t' := MarkedIn(t, batch, GistKind); t'.gists == t.gists && t'.nextGistId == t.nextGistId && t'.chats == t.chats
  {
    hide MarkProcessed, MessageIds;
  }

  // ---------------------------------------------------------------- the copies of a fork

  lemma {:induction false} TextItemsStay(items: seq<Json>, ren: Renaming)
    requires forall v :: v in items ==> v.Str?
    ensures RemapItems(items, ren) == Some(items)
  {
    if items != [] {
      assert items[0] in items && items == [items[0]] + items[1..];
      TextItemsStay(items[1..], ren);
    }
  }

  lemma TextsStay(key: string, v: Json, texts: seq<string>, ren: Renaming)
    requires key in ["important_facts", "corrections"] && SaysTexts(v, texts)
    ensures RemapField(Field(key, v), ren) == Some(v)
  {
    MemberRenamed(key, v, ren);
    TextItemsStay(v.items, ren);
  }

  lemma IdsRenamed(v: Json, batch: seq<Message>, ren: Renaming)
    requires SaysIds(v, batch, Itself) && RemapField(Field("source_message_ids", v), ren).Some?
    ensures forall m :: m in batch ==> m.id in ren.ids
    ensures SaysIds(RemapField(Field("source_message_ids", v), ren).value, batch, Renamed(ren.ids))
  {
    hide RemapField;
    MemberRenamed("source_message_ids", v, ren);
    forall m | m in batch ensures m.id in ren.ids {
      var i :| 0 <= i < |batch| && batch[i] == m;
      assert v.items[i] in v.items;
    }
  }

  /** The plain members of the metadata stay, and the ids are renamed. */
  lemma MetadataRenamed(fields: seq<Field>, title: Option<string>, told: Told, ren: Renaming)
    requires SaysMetadata(fields, title, told, Itself) && RemapFields(fields, ren).Some?
    ensures SaysMetadata(RemapFields(fields, ren).value, title, told, Renamed(ren.ids))
    ensures forall m :: m in told.batch ==> m.id in ren.ids
  {
    hide RemapField, RemapFields, SaysTexts, SaysIds;
    forall i | 0 <= i < 9
      ensures |RemapFields(fields, ren).value| == 9
      ensures RemapFields(fields, ren).value[i].key == fields[i].key
      ensures RemapField(fields[i], ren) == Some(RemapFields(fields, ren).value[i].value)
    {
      FieldRemapped(fields, ren, i);
    }
    TextsStay("important_facts", fields[0].value, told.summary.facts, ren);
    TextsStay("corrections", fields[1].value, told.summary.corrections, ren);
    PlainMembersStay(fields, title, told, ren);
    IdsRenamed(fields[8].value, told.batch, ren);
  }

  lemma PlainMembersStay(fields: seq<Field>, title: Option<string>, told: Told, ren: Renaming)
    requires SaysMetadata(fields, title, told, Itself)
    ensures forall i :: 2 <= i <= 7 ==> RemapField(fields[i], ren) == Some(fields[i].value)
  {
    hide RemapField, SaysTexts, SaysIds;
    forall i | 2 <= i <= 7 ensures RemapField(fields[i], ren) == Some(fields[i].value) {
      MemberRenamed(fields[i].key, fields[i].value, ren);
    }
  }

  /** The copy of a gist tells the same of the same messages, by the ids they have in the fork. */
  lemma CopyTells(g: Gist, copy: Gist, ren: Renaming, title: Option<string>, told: Told)
    requires Tells(g, ren.source, title, told, Itself)
    requires GistFollows(g, copy, ren) && Lineage.GistImage(g, copy, ren)
    ensures Tells(copy, ren.target, title, told, Renamed(ren.ids))
    ensures forall m :: m in told.batch ==> m.id in ren.ids
  {
    hide SaysMetadata, RemapFields, RemapItems, RemapField, Extremes, JsonFollows;
    MetadataRenamed(g.metadata.value.fields, title, told, ren);
    var lo, hi :| Extremes(told.batch, lo, hi) && g.startMessageId == Some(Itself(lo)) && g.endMessageId == Some(Itself(hi));
    assert copy.startMessageId == Some(Renamed(ren.ids)(lo)) && copy.endMessageId == Some(Renamed(ren.ids)(hi));
  }

  /** From the offset on, the copies tell of the batches, whose messages all have their new ids. */
  ghost predicate CopiesTell(copies: seq<Gist>, offset: nat, target: string, title: Option<string>, told: seq<Told>, ids: map<int, int>) {
    && |copies| == offset + |told|
    && forall i :: 0 <= i < |told| ==>
         && Tells(copies[offset + i], target, title, told[i], Renamed(ids))
         && forall m :: m in told[i].batch ==> m.id in ids
  }

  lemma AllCopiesTell(gs: seq<Gist>, copies: seq<Gist>, ren: Renaming, kept: seq<Gist>, added: seq<Gist>, title: Option<string>,
                      told: seq<Told>, first: int, next: int)
    requires gs == kept + added && AllTell(added, ren.source, title, told, first)
    requires ForkGists(gs, ren, next) == Some(copies)
    requires |copies| == |gs| && forall i :: 0 <= i < |gs| ==> GistFollows(gs[i], copies[i], ren)
    ensures CopiesTell(copies, |kept|, ren.target, title, told, ren.ids)
  {
    hide ForkGists, Tells, GistFollows, Lineage.GistImage;
    forall i | 0 <= i < |told|
      ensures Tells(copies[|kept| + i], ren.target, title, told[i], Renamed(ren.ids))
      ensures forall m :: m in told[i].batch ==> m.id in ren.ids
    {
      assert gs[|kept| + i] == added[i];
      Lineage.ForkGistsImage(gs, ren, next, |kept| + i);
      CopyTells(added[i], copies[|kept| + i], ren, title, told[i]);
    }
  }

  lemma ForkTells(t: Tables, source: string, target: string, now: int, kept: seq<Gist>, added: seq<Gist>, title: Option<string>,
                  told: seq<Told>, first: int)
    requires WellFormed(t) && Fork(t, source, target, now).Ok?
    requires Filter(GistIn(source), t.gists) == kept + added && AllTell(added, source, title, told, first)
    ensures CopiesTell(Filter(GistIn(target), Fork(t, source, target, now).value.gists), |kept|, target, title, told,
                       ForkRenaming(t, source, target).ids)
  {
    var ren := ForkRenaming(t, source, target);
    assert ren.source == source && ren.target == target;
    hide *;
    ForkedGists(t, source, target, now);
    ForkCarriesGists(t, source, target, now);
    AllCopiesTell(Filter(GistIn(source), t.gists), Filter(GistIn(target), Fork(t, source, target, now).value.gists), ren, kept,
                  added, title, told, first, t.nextGistId);
  }

  // ---------------------------------------------------------------- an ended chat, and a fork of it

  /** The batches that are told of when the chat is ended: none if the memory phase raises. */
  function ToldAtEnd(t: Tables, chatId: string, profile: Profile, size: nat, answers: nat -> Extraction,
                     summaries: nat -> Option<GistSummary>): seq<Told>
    requires size > 0
  {
    var pending := PendingFor(t.messages, chatId, Summary);
    var t1 := MemoryTables(t, chatId, pending, profile, answers, 0);
    if Consume(pending, profile, answers, 0).1.Failed? then []
    else GistedBatches(PendingFor(t1.messages, chatId, GistKind), size, summaries, 0)
  }

  /** Ending a chat adds one gist for each batch told of, in order; and when the ended chat is forked, the copies of
      these gists say the same, by the ids that the messages have in the fork. */
  lemma EndedChatTells(t: Tables, chatId: string, profile: Profile, size: nat, answers: nat -> Extraction,
                       summaries: nat -> Option<GistSummary>, c: Chat, target: string, later: int)
    requires WellFormed(t) && size > 0 && c in t.chats && c.id == chatId
    ensures var t', told := EndChat(t, chatId, profile, size, answers, summaries).0,
                            ToldAtEnd(t, chatId, profile, size, answers, summaries);
            && |t'.gists| == |t.gists| + |told| && t'.gists[..|t.gists|] == t.gists
            && AllTell(t'.gists[|t.gists|..], chatId, c.title, told, t.nextGistId)
            && (Fork(t', chatId, target, later).Ok? ==>
                  CopiesTell(Filter(GistIn(target), Fork(t', chatId, target, later).value.gists),
                             |Filter(GistIn(chatId), t.gists)|, target, c.title, told, ForkRenaming(t', chatId, target).ids))
  {
    var t', told := EndChat(t, chatId, profile, size, answers, summaries).0, ToldAtEnd(t, chatId, profile, size, answers, summaries);
    var added := EndAdds(t, chatId, profile, size, answers, summaries, c);
    hide *;
    assert t'.gists[|t.gists|..] == added;
    AsMany(added, chatId, c.title, told, t.nextGistId);
    EndKeepsSchema(t, chatId, profile, size, answers, summaries);
    if Fork(t', chatId, target, later).Ok? {
      AddedAreMine(t.gists, added, chatId, c.title, told, t.nextGistId);
      ForkTells(t', chatId, target, later, Filter(GistIn(chatId), t.gists), added, c.title, told, t.nextGistId);
    }
  }

  lemma AsMany(gists: seq<Gist>, chatId: string, title: Option<string>, told: seq<Told>, first: int)
    requires AllTell(gists, chatId, title, told, first)
    ensures |gists| == |told|
  {
  }

  lemma AddedAreMine(gists: seq<Gist>, added: seq<Gist>, chatId: string, title: Option<string>, told: seq<Told>, first: int)
    requires AllTell(added, chatId, title, told, first)
    ensures Filter(GistIn(chatId), gists + added) == Filter(GistIn(chatId), gists) + added
  {
    hide SaysMetadata, Spans;
    FilterConcat(GistIn(chatId), gists, added);
    FilterAll(GistIn(chatId), added);
  }

  lemma EndAdds(t: Tables, chatId: string, profile: Profile, size: nat, answers: nat -> Extraction,
                summaries: nat -> Option<GistSummary>, c: Chat) returns (added: seq<Gist>)
    requires WellFormed(t) && size > 0 && c in t.chats && c.id == chatId
    ensures EndChat(t, chatId, profile, size, answers, summaries).0.gists == t.gists + added
    ensures AllTell(added, chatId, c.title, ToldAtEnd(t, chatId, profile, size, answers, summaries), t.nextGistId)
  {
    assert ChatKeys(t.chats);
    hide *;
    var pending := PendingFor(t.messages, chatId, Summary);
    var t1 := MemoryTables(t, chatId, pending, profile, answers, 0);
    MemoryGists(t, chatId, pending, profile, answers);
    NamedIs(t.chats, chatId, c);
    EndUnfolded(t, chatId, profile, size, answers, summaries);
    if Consume(pending, profile, answers, 0).1.Failed? {
      NoneTell(chatId, c.title, t.nextGistId);
      added := [];
    } else {
      added := PhaseTells(t1, chatId, c.title, PendingFor(t1.messages, chatId, GistKind), size, summaries, 0);
    }
  }

  lemma MemoryGists(t: Tables, chatId: string, pending: seq<Message>, profile: Profile, answers: nat -> Extraction)
    ensures var t1 := MemoryTables(t, chatId, pending, profile, answers, 0);
            t1.gists == t.gists && t1.nextGistId == t.nextGistId && t1.chats == t.chats
  {
    hide MemoryTables, Consume, MarkProcessed, MessageIds, Filter;
    MemoryMessages(t, chatId, pending, profile, answers, 0);
  }

  /** The gists of an ended chat, and the batches told of, by what the memory phase did. */
  lemma EndUnfolded(t: Tables, chatId: string, profile: Profile, size: nat, answers: nat -> Extraction,
                    summaries: nat -> Option<GistSummary>)
    requires size > 0
    ensures var pending := PendingFor(t.messages, chatId, Summary);
            var t1 := MemoryTables(t, chatId, pending, profile, answers, 0);
            var ungisted := PendingFor(t1.messages, chatId, GistKind);
            var t', told := EndChat(t, chatId, profile, size, answers, summaries).0,
                            ToldAtEnd(t, chatId, profile, size, answers, summaries);
            if Consume(pending, profile, answers, 0).1.Failed? then t'.gists == t1.gists && told == []
            else
              && told == GistedBatches(ungisted, size, summaries, 0)
              && (HasChat(t1.chats, chatId) ==>
                    t'.gists == GistTables(t1, chatId, ChatNamed(t1.chats, chatId).title, ungisted, size, summaries, 0).gists)
  {
    hide MemoryTables, GistTables, Consume, Finalize, HasChat, PendingFor, ChatNamed, GistedBatches, Update;
  }
}
