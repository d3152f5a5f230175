/** Keys and foreign keys survive every transaction. */
module Schema {
  import opened Results
  import opened Rows
  import opened Provenance
  import opened Tables
  import opened Forking

  predicate OtherLink(a: ChatDocument, b: ChatDocument) {
    (a.chatId, a.documentId) != (b.chatId, b.documentId)
  }

  lemma FilterKeepsKeys(t: Tables, chatId: string)
    requires MessageKeys(t.messages, t.nextMessageId) && GistKeys(t.gists, t.nextGistId) && ChatKeys(t.chats)
    requires StateKeys(t.memoryStates) && DocumentKeys(t.chatDocuments)
    ensures MessageKeys(Filter(MessageElsewhere(chatId), t.messages), t.nextMessageId)
    ensures GistKeys(Filter(GistElsewhere(chatId), t.gists), t.nextGistId)
    ensures ChatKeys(Filter(ChatOther(chatId), t.chats))
    ensures StateKeys(Filter(StateElsewhere(chatId), t.memoryStates))
    ensures DocumentKeys(Filter(DocumentElsewhere(chatId), t.chatDocuments))
  {
    FilterSorted((a: Message, b: Message) => a.id < b.id, MessageElsewhere(chatId), t.messages);
    FilterSorted((a: Gist, b: Gist) => a.id < b.id, GistElsewhere(chatId), t.gists);
    FilterSorted((a: Chat, b: Chat) => a.id != b.id, ChatOther(chatId), t.chats);
    FilterSorted((a: MemoryState, b: MemoryState) => a.chatId != b.chatId, StateElsewhere(chatId), t.memoryStates);
    FilterSorted(OtherLink, DocumentElsewhere(chatId), t.chatDocuments);
  }

  lemma FilterKeepsInspectionKeys(t: Tables, chatId: string)
    requires InspectionKeys(t.inspections, t.messages)
    ensures InspectionKeys(Delete(t, chatId).inspections, Delete(t, chatId).messages)
  {
    var doomed := MessageIds(Filter(InChat(chatId), t.messages));
    FilterSorted((a: Inspection, b: Inspection) => a.assistantMessageId != b.assistantMessageId,
                 InspectionSurvives(doomed, chatId), t.inspections);
    var left := Filter(MessageElsewhere(chatId), t.messages);
    forall x | x in Delete(t, chatId).inspections ensures x.assistantMessageId in MessageIds(left) {
      var m :| m in t.messages && m.id == x.assistantMessageId;
      assert m in Filter(InChat(chatId), t.messages) || m in left;
    }
  }

  lemma DeleteKeepsReferences(t: Tables, chatId: string)
    requires ChatReferences(t)
    ensures ChatReferences(Delete(t, chatId))
  {
    var t' := Delete(t, chatId);
    forall id | id != chatId && HasChat(t.chats, id) ensures HasChat(t'.chats, id) {
      var c :| c in t.chats && c.id == id;
      assert c in t'.chats;
    }
  }

  /** delete_chat leaves no row of the chat behind and no dangling reference. */
  lemma DeleteKeepsSchema(t: Tables, chatId: string)
    requires WellFormed(t)
    ensures WellFormed(Delete(t, chatId)) && !HasChat(Delete(t, chatId).chats, chatId)
  {
    FilterKeepsKeys(t, chatId);
    FilterKeepsInspectionKeys(t, chatId);
    DeleteKeepsReferences(t, chatId);
  }

  lemma {:induction false} ForkInspectionsDistinct(xs: seq<Inspection>, ren: Renaming)
    requires Injective(ren.ids) && ForkInspections(xs, ren).Some?
    requires forall i, j :: 0 <= i < j < |xs| ==> xs[i].assistantMessageId != xs[j].assistantMessageId
    ensures var ys := ForkInspections(xs, ren).value;
            forall i, j :: 0 <= i < j < |ys| ==> ys[i].assistantMessageId != ys[j].assistantMessageId
  {
    if xs != [] {
      var tail := xs[1..];
      ForkInspectionsDistinct(tail, ren);
      ForkInspectionsExact(tail, ren);
      if xs[0].assistantMessageId in ren.ids {
        var rest := ForkInspections(tail, ren).value;
        forall j | 0 <= j < |rest| ensures rest[j].assistantMessageId != ren.ids[xs[0].assistantMessageId] {
          assert rest[j] in rest;
          var x :| x in tail && InspectionFollows(x, rest[j], ren);
          var k :| 0 <= k < |tail| && tail[k] == x;
          assert xs[k + 1] == x;
        }
      }
    }
  }

  lemma InspectionListing(t: Tables, chatId: string)
    requires InspectionKeys(t.inspections, t.messages)
    ensures var xs := InspectionsOf(t.inspections, chatId);
            forall i, j :: 0 <= i < j < |xs| ==> xs[i].assistantMessageId != xs[j].assistantMessageId
  {
    assert Separates(ByMessage, t.inspections);
    FilterSeparates(ByMessage, InspectionIn(chatId), t.inspections);
    SortSorts(ByMessage, Filter(InspectionIn(chatId), t.inspections));
  }

  lemma ForkKeepsInspectionKeys(t: Tables, source: string, target: string, ys: seq<Inspection>)
    requires MessageKeys(t.messages, t.nextMessageId) && InspectionKeys(t.inspections, t.messages)
    requires ForkInspections(InspectionsOf(t.inspections, source), ForkRenaming(t, source, target)) == Some(ys)
    ensures InspectionKeys(t.inspections + ys,
                           t.messages + Copies(Listing(t.messages, source), target, t.nextMessageId))
  {
    hide MessageIds, Copies, Listing, IdMap, InspectionsOf, ForkInspections, InspectionFollows, MessageKeys;
    var ms, ren := Listing(t.messages, source), ForkRenaming(t, source, target);
    var copies := Copies(ms, target, t.nextMessageId);
    ForkIdMap(t.messages, source, t.nextMessageId);
    InspectionListing(t, source);
    ForkInspectionsDistinct(InspectionsOf(t.inspections, source), ren);
    ForkInspectionsExact(InspectionsOf(t.inspections, source), ren);
    forall y | y in ys ensures y.assistantMessageId >= t.nextMessageId && y.assistantMessageId in MessageIds(copies) {
      var x :| x in InspectionsOf(t.inspections, source) && InspectionFollows(x, y, ren);
      FollowerId(x, y, ren);
      NewIdIsCopied(ms, ren.ids, target, t.nextMessageId, x.assistantMessageId);
    }
    OldIds(t.messages, t.nextMessageId);
    JoinInspections(t.inspections, ys, t.messages, copies, t.nextMessageId);
  }

  lemma FollowerId(x: Inspection, y: Inspection, ren: Renaming)
    requires InspectionFollows(x, y, ren)
    ensures x.assistantMessageId in ren.ids && y.assistantMessageId == ren.ids[x.assistantMessageId]
  {
    hide JsonFollows;
  }

  lemma OldIds(messages: seq<Message>, next: int)
    requires MessageKeys(messages, next)
    ensures forall id :: id in MessageIds(messages) ==> id < next
  {
  }

  /** Inspections of new messages beside those of old ones. */
  lemma JoinInspections(xs: seq<Inspection>, ys: seq<Inspection>, messages: seq<Message>, added: seq<Message>, next: int)
    requires InspectionKeys(xs, messages) && forall id :: id in MessageIds(messages) ==> id < next
    requires forall i, j :: 0 <= i < j < |ys| ==> ys[i].assistantMessageId != ys[j].assistantMessageId
    requires forall y :: y in ys ==> y.assistantMessageId >= next && y.assistantMessageId in MessageIds(added)
    ensures InspectionKeys(xs + ys, messages + added)
  {
    var all := xs + ys;
    assert MessageIds(messages + added) == MessageIds(messages) + MessageIds(added);
    hide MessageIds;
    forall i, j | 0 <= i < j < |all| ensures all[i].assistantMessageId != all[j].assistantMessageId {
      assert i < |xs| ==> all[i] in xs;
      assert j >= |xs| ==> all[j] in ys;
    }
  }

  lemma NewIdIsCopied(ms: seq<Message>, ids: map<int, int>, target: string, next: int, id: int)
    requires ids.Keys == MessageIds(ms) && id in ids
    requires forall i :: 0 <= i < |ms| ==> ms[i].id in ids && ids[ms[i].id] == next + i
    ensures ids[id] in MessageIds(Copies(ms, target, next))
    ensures ids[id] >= next
  {
    hide Copies, MessageIds;
    var i := PlaceOf(ms, id);
    CopiesOnlyRenamed(ms, target, next);
    IdAt(Copies(ms, target, next), i);
  }

  lemma PlaceOf(ms: seq<Message>, id: int) returns (i: nat)
    requires id in MessageIds(ms)
    ensures i < |ms| && ms[i].id == id
  {
    var m :| m in ms && m.id == id;
    i :| 0 <= i < |ms| && ms[i] == m;
  }

  lemma IdAt(ms: seq<Message>, i: nat)
    requires i < |ms|
    ensures ms[i].id in MessageIds(ms)
  {
    assert ms[i] in ms;
  }

  lemma ForkKeepsMessageKeys(messages: seq<Message>, ms: seq<Message>, target: string, next: int)
    requires MessageKeys(messages, next)
    ensures MessageKeys(messages + Copies(ms, target, next), next + |ms|)
  {
    var all := messages + Copies(ms, target, next);
    CopiesOnlyRenamed(ms, target, next);
    CopiesInTarget(ms, target, next);
    forall i, j | 0 <= i < j < |all| ensures all[i].id < all[j].id {
      assert i < |messages| ==> all[i] in messages;
    }
  }

  lemma ForkKeepsGistKeys(gists: seq<Gist>, gs: seq<Gist>, ren: Renaming, next: int)
    requires GistKeys(gists, next) && ForkGists(gs, ren, next).Some?
    ensures GistKeys(gists + ForkGists(gs, ren, next).value, next + |gs|)
  {
    var added := ForkGists(gs, ren, next).value;
    var all := gists + added;
    ForkGistsExact(gs, ren, next);
    forall i, j | 0 <= i < j < |all| ensures all[i].id < all[j].id {
      assert i < |gists| ==> all[i] in gists;
    }
  }

  lemma ForkKeepsReferences(t: Tables, source: string, target: string, now: int)
    requires ChatReferences(t) && Fork(t, source, target, now).Ok?
    ensures ChatReferences(Fork(t, source, target, now).value)
  {
    var t' := Fork(t, source, target, now).value;
    var ms, ren := Listing(t.messages, source), ForkRenaming(t, source, target);
    CopiesInTarget(ms, target, t.nextMessageId);
    ForkedRowsInTarget(Filter(GistIn(source), t.gists), InspectionsOf(t.inspections, source), ren, t.nextGistId);
    assert t'.chats[|t.chats|] in t'.chats;
    assert HasChat(t'.chats, target);
    forall id | HasChat(t.chats, id) ensures HasChat(t'.chats, id) {
      var c :| c in t.chats && c.id == id;
      assert c in t'.chats;
    }
  }

  lemma NewChatKeepsKeys(chats: seq<Chat>, chat: Chat)
    requires ChatKeys(chats) && !HasChat(chats, chat.id)
    ensures ChatKeys(chats + [chat])
  {
    forall i | 0 <= i < |chats| ensures chats[i].id != chat.id {
      assert chats[i] in chats;
    }
  }

  lemma ForkKeepsRowKeys(t: Tables, source: string, target: string, now: int)
    requires Fork(t, source, target, now).Ok?
    requires MessageKeys(t.messages, t.nextMessageId) && GistKeys(t.gists, t.nextGistId)
    requires InspectionKeys(t.inspections, t.messages)
    ensures var t' := Fork(t, source, target, now).value;
            && MessageKeys(t'.messages, t'.nextMessageId)
            && GistKeys(t'.gists, t'.nextGistId)
            && InspectionKeys(t'.inspections, t'.messages)
  {
    var ms, ren := Listing(t.messages, source), ForkRenaming(t, source, target);
    var gs, xs := Filter(GistIn(source), t.gists), InspectionsOf(t.inspections, source);
    hide *;
    ForkParts(t, source, target, now);
    ForkGistsExact(gs, ren, t.nextGistId);
    ForkKeepsMessageKeys(t.messages, ms, target, t.nextMessageId);
    ForkKeepsGistKeys(t.gists, gs, ren, t.nextGistId);
    ForkKeepsInspectionKeys(t, source, target, ForkInspections(xs, ren).value);
  }

  lemma ForkKeepsChatKeys(t: Tables, source: string, target: string, now: int)
    requires Fork(t, source, target, now).Ok? && ChatKeys(t.chats)
    ensures ChatKeys(Fork(t, source, target, now).value.chats)
    ensures Fork(t, source, target, now).value.memoryStates == t.memoryStates
    ensures Fork(t, source, target, now).value.chatDocuments == t.chatDocuments
  {
    hide *;
    ForkParts(t, source, target, now);
    var title, model :| Fork(t, source, target, now).value.chats
                        == t.chats + [Chat(target, title, now, now, model, true)];
    NewChatKeepsKeys(t.chats, Chat(target, title, now, now, model, true));
  }

  /** fork_chat keeps every key and every reference. */
  lemma ForkKeepsSchema(t: Tables, source: string, target: string, now: int)
    requires WellFormed(t) && Fork(t, source, target, now).Ok?
    ensures WellFormed(Fork(t, source, target, now).value)
  {
    hide Fork, MessageKeys, GistKeys, InspectionKeys, ChatKeys, StateKeys, DocumentKeys, ChatReferences;
    ForkKeepsRowKeys(t, source, target, now);
    ForkKeepsChatKeys(t, source, target, now);
    ForkKeepsReferences(t, source, target, now);
  }

  lemma UpdateKeepsChats(p: Chat -> bool, f: Chat -> Chat, chats: seq<Chat>)
    requires forall c :: f(c).id == c.id
    ensures ChatKeys(chats) ==> ChatKeys(Update(p, f, chats))
    ensures forall id :: HasChat(chats, id) <==> HasChat(Update(p, f, chats), id)
  {
    var after := Update(p, f, chats);
    forall id ensures HasChat(chats, id) <==> HasChat(after, id) {
      if HasChat(chats, id) {
        var c :| c in chats && c.id == id;
        var i :| 0 <= i < |chats| && chats[i] == c;
        assert after[i] in after && after[i].id == id;
      }
      if HasChat(after, id) {
        var c :| c in after && c.id == id;
        var i :| 0 <= i < |after| && after[i] == c;
        assert chats[i] in chats && chats[i].id == id;
      }
    }
  }

  lemma CreateChatKeepsSchema(t: Tables, id: string, title: Option<string>, modelName: Option<string>, now: int)
    requires WellFormed(t)
    ensures WellFormed(ChatCreated(t, id, title, modelName, now))
    ensures HasChat(ChatCreated(t, id, title, modelName, now).chats, id)
  {
    var t' := ChatCreated(t, id, title, modelName, now);
    if HasChat(t.chats, id) {
      UpdateKeepsChats(ChatIs(id), Rename(title, modelName), t.chats);
    } else {
      assert t'.chats[|t.chats|] in t'.chats;
      forall k | HasChat(t.chats, k) ensures HasChat(t'.chats, k) {
        var c :| c in t.chats && c.id == k;
        assert c in t'.chats;
      }
    }
  }

  lemma SetActiveKeepsSchema(t: Tables, chatId: string, active: bool)
    requires WellFormed(t)
    ensures WellFormed(SetActive(t, chatId, active))
  {
    hide WellFormed, Update;
    ChatUpdateKeepsSchema(t, ChatIs(chatId), SetActiveFlag(active));
  }

  lemma MoreMessagesKeepInspections(inspections: seq<Inspection>, messages: seq<Message>, added: seq<Message>)
    requires InspectionKeys(inspections, messages)
    ensures InspectionKeys(inspections, messages + added)
  {
    forall x | x in inspections ensures x.assistantMessageId in MessageIds(messages + added) {
      var m :| m in messages && m.id == x.assistantMessageId;
      assert m in messages + added;
    }
  }

  lemma SaveKeepsSchema(t: Tables, chatId: string, role: Role, content: string, now: int)
    requires WellFormed(t) && MessageSaved(t, chatId, role, content, now).Some?
    ensures WellFormed(MessageSaved(t, chatId, role, content, now).value)
  {
    var added := [NewMessage(t, chatId, role, content, now)];
    var chats := Update(ChatIs(chatId), Touch(now), t.chats);
    assert ChatKeys(t.chats) && ChatReferences(t) && HasChat(t.chats, chatId);
    hide HasChat, Update, InspectionKeys, GistKeys, StateKeys, ChatKeys;
    UpdateKeepsChats(ChatIs(chatId), Touch(now), t.chats);
    MoreMessagesKeepInspections(t.inspections, t.messages, added);
    SaveKeepsReferences(t, chats, added);
    hide ChatReferences;
  }

  lemma SaveKeepsReferences(t: Tables, chats: seq<Chat>, added: seq<Message>)
    requires ChatReferences(t) && forall id :: HasChat(t.chats, id) <==> HasChat(chats, id)
    requires forall m :: m in added ==> HasChat(chats, m.chatId)
    ensures forall next :: ChatReferences(t.(messages := t.messages + added, nextMessageId := next, chats := chats))
  {
    hide HasChat;
  }

  lemma UpdatedIds(rows: seq<Message>, p: Message -> bool, f: Message -> Message)
    requires forall m :: f(m).id == m.id
    ensures MessageIds(Update(p, f, rows)) == MessageIds(rows)
  {
    var after := Update(p, f, rows);
    forall id ensures id in MessageIds(after) <==> id in MessageIds(rows) {
      if id in MessageIds(rows) {
        var m :| m in rows && m.id == id;
        var i :| 0 <= i < |rows| && rows[i] == m;
        assert after[i] in after && after[i].id == id;
      }
      if id in MessageIds(after) {
        var m :| m in after && m.id == id;
        var i :| 0 <= i < |after| && after[i] == m;
        assert rows[i] in rows && rows[i].id == id;
      }
    }
  }

  lemma UpdatedKeys(rows: seq<Message>, p: Message -> bool, f: Message -> Message, next: int)
    requires MessageKeys(rows, next) && forall m :: f(m).id == m.id
    ensures MessageKeys(Update(p, f, rows), next)
  {
    var after := Update(p, f, rows);
    forall i | 0 <= i < |after| ensures after[i].id == rows[i].id && after[i].id < next {
      assert rows[i] in rows;
    }
  }

  lemma UpdatedChats(t: Tables, p: Message -> bool, f: Message -> Message)
    requires (forall m :: m in t.messages ==> HasChat(t.chats, m.chatId)) && forall m :: f(m).chatId == m.chatId
    ensures forall m :: m in Update(p, f, t.messages) ==> HasChat(t.chats, m.chatId)
  {
    hide HasChat;
    var after := Update(p, f, t.messages);
    forall m | m in after ensures HasChat(t.chats, m.chatId) {
      var i :| 0 <= i < |after| && after[i] == m;
      assert t.messages[i] in t.messages;
    }
  }

  /** Messages updated in place, in columns that are no keys. */
  lemma MessageUpdateKeepsSchema(t: Tables, p: Message -> bool, f: Message -> Message)
    requires WellFormed(t) && forall m :: f(m).id == m.id && f(m).chatId == m.chatId
    ensures WellFormed(t.(messages := Update(p, f, t.messages)))
  {
    hide HasChat, ChatKeys, GistKeys, StateKeys, DocumentKeys, MessageKeys, MessageIds, Update;
    UpdatedIds(t.messages, p, f);
    UpdatedKeys(t.messages, p, f, t.nextMessageId);
    UpdatedChats(t, p, f);
  }

  lemma MarkKeepsSchema(t: Tables, ids: set<int>, kind: Kind)
    requires WellFormed(t)
    ensures WellFormed(t.(messages := MarkProcessed(t.messages, ids, kind)))
  {
    hide WellFormed;
    MessageUpdateKeepsSchema(t, WithIds(ids), SetProcessed(kind));
  }

  lemma ContentKeepsSchema(t: Tables, id: int, content: string)
    requires WellFormed(t)
    ensures WellFormed(t.(messages := ContentUpdated(t.messages, id, content)))
  {
    hide WellFormed;
    MessageUpdateKeepsSchema(t, WithIds({id}), SetContent(content));
  }

  lemma ChatUpdateKeepsSchema(t: Tables, p: Chat -> bool, f: Chat -> Chat)
    requires WellFormed(t) && forall c :: f(c).id == c.id
    ensures WellFormed(t.(chats := Update(p, f, t.chats)))
  {
    hide HasChat, MessageKeys, GistKeys, StateKeys, DocumentKeys, InspectionKeys, ChatKeys, Update;
    UpdateKeepsChats(p, f, t.chats);
  }

  /** An answer's inspection, inserted or replaced. */
  lemma InspectionKeepsSchema(t: Tables, messageId: int, chatId: string, traceId: string, payload: JsonColumn, now: int)
    requires WellFormed(t) && InspectionSaved(t, messageId, chatId, traceId, payload, now).Some?
    ensures WellFormed(InspectionSaved(t, messageId, chatId, traceId, payload, now).value)
  {
    hide HasChat, MessageKeys, GistKeys, StateKeys, DocumentKeys, ChatKeys, MessageIds;
    var after := InspectionSaved(t, messageId, chatId, traceId, payload, now).value.inspections;
    if HasInspection(t.inspections, messageId) {
      forall i | 0 <= i < |after|
        ensures after[i].assistantMessageId == t.inspections[i].assistantMessageId && after[i].chatId == t.inspections[i].chatId
      {
      }
      forall x | x in after ensures x.assistantMessageId in MessageIds(t.messages) && HasChat(t.chats, x.chatId) {
        var i :| 0 <= i < |after| && after[i] == x;
        assert t.inspections[i] in t.inspections;
      }
    } else {
      assert forall x :: x in t.inspections ==> x.assistantMessageId != messageId;
    }
  }

  /** A document link, inserted or selected anew. */
  lemma LinkKeepsSchema(t: Tables, chatId: string, documentId: string, selected: bool, now: int, recorded: bool)
    requires WellFormed(t) && DocumentLinked(t, chatId, documentId, selected, now, recorded).Some?
    ensures WellFormed(DocumentLinked(t, chatId, documentId, selected, now, recorded).value)
  {
    hide HasChat, MessageKeys, GistKeys, StateKeys, InspectionKeys, ChatKeys;
    var after := DocumentLinked(t, chatId, documentId, selected, now, recorded).value.chatDocuments;
    if HasLink(t.chatDocuments, chatId, documentId) {
      forall i | 0 <= i < |after|
        ensures after[i].chatId == t.chatDocuments[i].chatId && after[i].documentId == t.chatDocuments[i].documentId
      {
      }
      forall d | d in after ensures HasChat(t.chats, d.chatId) {
        var i :| 0 <= i < |after| && after[i] == d;
        assert t.chatDocuments[i] in t.chatDocuments;
      }
    } else {
      forall i | 0 <= i < |t.chatDocuments|
        ensures t.chatDocuments[i].chatId != chatId || t.chatDocuments[i].documentId != documentId
      {
        assert t.chatDocuments[i] in t.chatDocuments;
      }
    }
  }

  lemma DropKeepsSchema(t: Tables, documentId: string)
    requires WellFormed(t)
    ensures WellFormed(DocumentDropped(t, documentId))
  {
    hide HasChat, MessageKeys, GistKeys, StateKeys, InspectionKeys, ChatKeys;
    FilterSorted(OtherLink, OtherDocument(documentId), t.chatDocuments);
  }

  lemma UpsertKeepsSchema(t: Tables, chatId: string, memory: string, now: int)
    requires WellFormed(t) && StateUpserted(t, chatId, memory, now).Some?
    ensures WellFormed(StateUpserted(t, chatId, memory, now).value)
  {
    hide HasChat, InspectionKeys, GistKeys, MessageKeys, ChatKeys;
    var after := StateUpserted(t, chatId, memory, now).value.memoryStates;
    if HasState(t.memoryStates, chatId) {
      forall i | 0 <= i < |after| ensures after[i].chatId == t.memoryStates[i].chatId {
      }
      forall s | s in after ensures HasChat(t.chats, s.chatId) {
        var i :| 0 <= i < |after| && after[i] == s;
        assert t.memoryStates[i] in t.memoryStates;
      }
    } else {
      assert forall s :: s in t.memoryStates ==> s.chatId != chatId;
    }
  }

  lemma GistKeepsSchema(t: Tables, gist: Gist, ids: set<int>)
    requires WellFormed(t) && GistInserted(t, gist, ids).Some?
    ensures WellFormed(GistInserted(t, gist, ids).value)
  {
    hide HasChat, InspectionKeys, MessageKeys, ChatKeys, StateKeys, MarkProcessed;
    MarkKeepsSchema(t, ids, GistKind);
  }

  /** The four statements of delete_chat leave what the last alone would leave by its cascades. */
  lemma FourDeletes(t: Tables, chatId: string)
    ensures Delete(DeleteStateOf(DeleteGistsOf(DeleteMessagesOf(t, chatId), chatId), chatId), chatId) == Delete(t, chatId)
  {
    hide MessageIds;
    var doomed := MessageIds(Filter(InChat(chatId), t.messages));
    var messages := Filter(MessageElsewhere(chatId), t.messages);
    FilterAll(MessageElsewhere(chatId), messages);
    FilterAll(GistElsewhere(chatId), Filter(GistElsewhere(chatId), t.gists));
    FilterAll(StateElsewhere(chatId), Filter(StateElsewhere(chatId), t.memoryStates));
    FilterNone(InChat(chatId), messages);
    NoIds();
    FilterTwice(InspectionSurvives({}, chatId), InspectedElsewhere(doomed), InspectionSurvives(doomed, chatId), t.inspections);
  }

  lemma NoIds()
    ensures MessageIds([]) == {}
  {
  }
}
