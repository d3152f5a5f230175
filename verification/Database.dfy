/** The database adapter: transactions that either commit everything or leave the tables alone. */
module Database {
  import opened Results
  import opened Rows
  import opened Provenance
  import opened Tables
  import opened Forking
  import opened Schema
  import opened Compensation

  class Database {
    /** The committed tables.  A method works on a local value, the open transaction, and assigns
        it back only where the source's connection reaches its commit. */
    var tables: Tables

    ghost predicate Valid()
      reads this
    {
      WellFormed(tables)
    }

    constructor ()
      ensures Valid() && tables == Tables([], [], [], [], [], [], 1, 1)
    {
      tables := Tables([], [], [], [], [], [], 1, 1);
    }

    method CreateChat(chatId: string, title: Option<string>, modelName: Option<string>, now: int)
      requires Valid()
      modifies this
      ensures Valid() && tables == ChatCreated(old(tables), chatId, title, modelName, now)
    {
      CreateChatKeepsSchema(tables, chatId, title, modelName, now);
      tables := ChatCreated(tables, chatId, title, modelName, now);
    }

    method MarkChat(chatId: string, active: bool)
      requires Valid()
      modifies this
      ensures Valid() && tables == SetActive(old(tables), chatId, active)
    {
      SetActiveKeepsSchema(tables, chatId, active);
      tables := SetActive(tables, chatId, active);
    }

    /** The insert fails on the foreign key when the chat is missing, and nothing is committed. */
    method SaveMessage(chatId: string, role: Role, content: string, now: int) returns (id: Option<int>)
      requires Valid()
      modifies this
      ensures Valid()
      ensures match MessageSaved(old(tables), chatId, role, content, now)
              case Some(t) => id == Some(old(tables.nextMessageId)) && tables == t
              case None => id == None && tables == old(tables)
    {
      var after := MessageSaved(tables, chatId, role, content, now);
      if after.None? {
        return None;
      }
      SaveKeepsSchema(tables, chatId, role, content, now);
      id := Some(tables.nextMessageId);
      tables := after.value;
    }

    method MarkMessagesProcessed(ids: set<int>, kind: Kind)
      requires Valid()
      modifies this
      ensures Valid() && tables == old(tables).(messages := MarkProcessed(old(tables).messages, ids, kind))
    {
      MarkKeepsSchema(tables, ids, kind);
      tables := tables.(messages := MarkProcessed(tables.messages, ids, kind));
    }

    /** The memory state of a chat; the foreign key refuses a chat that is missing. */
    method UpsertMemoryState(chatId: string, memory: string, now: int) returns (stored: bool)
      requires Valid()
      modifies this
      ensures Valid() && stored == HasChat(old(tables.chats), chatId)
      ensures tables == if stored then StateUpserted(old(tables), chatId, memory, now).value else old(tables)
    {
      var after := StateUpserted(tables, chatId, memory, now);
      stored := after.Some?;
      if stored {
        UpsertKeepsSchema(tables, chatId, memory, now);
        tables := after.value;
      }
    }

    /** A gist, and the flags of the messages it covers, or nothing. */
    method InsertChatGist(gist: Gist, ids: set<int>) returns (id: Option<int>)
      requires Valid()
      modifies this
      ensures Valid() && id == if HasChat(old(tables.chats), gist.chatId) then Some(old(tables.nextGistId)) else None
      ensures tables == if id.Some? then GistInserted(old(tables), gist, ids).value else old(tables)
    {
      var after := GistInserted(tables, gist, ids);
      if after.None? {
        return None;
      }
      GistKeepsSchema(tables, gist, ids);
      id := Some(tables.nextGistId);
      tables := after.value;
    }

    /** Four statements in one transaction, each with its cascades. */
    method DeleteChat(chatId: string)
      requires Valid()
      modifies this
      ensures Valid() && tables == Delete(old(tables), chatId)
    {
      var t := DeleteMessagesOf(tables, chatId);
      t := DeleteGistsOf(t, chatId);
      t := DeleteStateOf(t, chatId);
      t := Delete(t, chatId);
      FourDeletes(tables, chatId);
      DeleteKeepsSchema(tables, chatId);
      tables := t;
    }

    method UpdateChatTitle(chatId: string, title: string, now: int)
      requires Valid()
      modifies this
      ensures Valid() && tables == TitleUpdated(old(tables), chatId, title, now)
    {
      hide WellFormed;
      ChatUpdateKeepsSchema(tables, ChatIs(chatId), SetTitle(title, now));
      tables := TitleUpdated(tables, chatId, title, now);
    }

    method UpdateChatModel(chatId: string, modelName: string)
      requires Valid()
      modifies this
      ensures Valid() && tables == ModelUpdated(old(tables), chatId, modelName)
    {
      hide WellFormed;
      ChatUpdateKeepsSchema(tables, ChatIs(chatId), SetModel(modelName));
      tables := ModelUpdated(tables, chatId, modelName);
    }

    method UpdateMessageContent(messageId: int, content: string)
      requires Valid()
      modifies this
      ensures Valid() && tables == old(tables).(messages := ContentUpdated(old(tables).messages, messageId, content))
    {
      ContentKeepsSchema(tables, messageId, content);
      tables := tables.(messages := ContentUpdated(tables.messages, messageId, content));
    }

    /** A new inspection needs its message and its chat. */
    method SaveAnswerInspection(messageId: int, chatId: string, traceId: string, payload: JsonColumn, now: int)
        returns (saved: bool)
      requires Valid()
      modifies this
      ensures Valid() && tables == Committed(old(tables), InspectionSaved(old(tables), messageId, chatId, traceId, payload, now))
    {
      hide WellFormed;
      var after := InspectionSaved(tables, messageId, chatId, traceId, payload, now);
      saved := after.Some?;
      if saved {
        InspectionKeepsSchema(tables, messageId, chatId, traceId, payload, now);
        tables := after.value;
      }
    }

    /** A new link needs its chat and its document. */
    method AssociateDocumentWithChat(chatId: string, documentId: string, selected: bool, now: int, recorded: bool)
        returns (linked: bool)
      requires Valid()
      modifies this
      ensures Valid() && tables == Committed(old(tables), DocumentLinked(old(tables), chatId, documentId, selected, now, recorded))
    {
      hide WellFormed;
      var after := DocumentLinked(tables, chatId, documentId, selected, now, recorded);
      linked := after.Some?;
      if linked {
        LinkKeepsSchema(tables, chatId, documentId, selected, now, recorded);
        tables := after.value;
      }
    }

    method HardDeleteDocument(documentId: string)
      requires Valid()
      modifies this
      ensures Valid() && tables == DocumentDropped(old(tables), documentId)
    {
      DropKeepsSchema(tables, documentId);
      tables := DocumentDropped(tables, documentId);
    }

    /** Any of these transactions. */
    method Perform(w: Write)
      requires Valid()
      modifies this
      ensures Valid() && tables == Do(old(tables), w)
    {
      hide WellFormed, Fork, Delete, SetActive, ChatCreated, MessageSaved, StateUpserted, GistInserted, MarkProcessed, HasChat,
           TitleUpdated, ModelUpdated, ContentUpdated, InspectionSaved, DocumentLinked, DocumentDropped;
      Outcomes(tables, w);
      match w {
        case NewChat(chatId, title, modelName, now) => CreateChat(chatId, title, modelName, now);
        case Activity(chatId, active) => MarkChat(chatId, active);
        case Save(chatId, role, content, now) => var id := SaveMessage(chatId, role, content, now);
        case Process(ids, kind) => MarkMessagesProcessed(ids, kind);
        case Remember(chatId, memory, now) => var stored := UpsertMemoryState(chatId, memory, now);
        case AddGist(gist, ids) => var id := InsertChatGist(gist, ids);
        case Remove(chatId) => DeleteChat(chatId);
        case ForkTo(source, chatId, now) => var error := ForkChat(source, chatId, now);
        case Retitle(chatId, title, now) => UpdateChatTitle(chatId, title, now);
        case ChooseModel(chatId, model) => UpdateChatModel(chatId, model);
        case Edit(messageId, content) => UpdateMessageContent(messageId, content);
        case Inspect(messageId, chatId, traceId, payload, now) =>
          var saved := SaveAnswerInspection(messageId, chatId, traceId, payload, now);
        case LinkDocument(chatId, documentId, selected, now, recorded) =>
          var linked := AssociateDocumentWithChat(chatId, documentId, selected, now, recorded);
        case DropDocument(documentId) => HardDeleteDocument(documentId);
      }
    }

    /** Copies one chat row by row; any failure abandons the whole transaction. */
    method ForkChat(chatId: string, newChatId: string, now: int) returns (error: Option<ForkError>)
      requires Valid()
      modifies this
      ensures Valid()
      ensures match Fork(old(tables), chatId, newChatId, now)
              case Ok(t) => error == None && tables == t
              case Err(e) => error == Some(e) && tables == old(tables)
    {
      hide Fork, WellFormed, Listing, ForkGists, ForkInspections, InspectionsOf, Filter, Sort, Copies, IdMap;
      var t := tables;
      ForkUnfolded(t, chatId, newChatId, now);
      if !HasChat(t.chats, chatId) {
        return Some(ChatNotFound);
      }
      if HasChat(t.chats, newChatId) {
        return Some(ChatExists);
      }
      var chat := ChatNamed(t.chats, chatId);
      t := t.(chats := t.chats + [Chat(newChatId, chat.title, now, now, chat.modelName, true)]);

      var messages := Listing(t.messages, chatId);
      var idMap: map<int, int>;
      t, idMap := CopyMessages(t, messages, newChatId);
      var ren := Renaming(idMap, chatId, newChatId);

      var gists := Filter(GistIn(chatId), t.gists);
      var copied: bool;
      t, copied := CopyGists(t, gists, ren);
      if !copied {
        return Some(StaleProvenance);
      }

      var inspections := InspectionsOf(t.inspections, chatId);
      t, copied := CopyInspections(t, inspections, ren);
      if !copied {
        return Some(StaleProvenance);
      }
      ForkKeepsSchema(tables, chatId, newChatId, now);
      tables := t;
      error := None;
    }
  }

  /** INSERT one copy per message, remembering lastrowid. */
  method CopyMessages(t0: Tables, messages: seq<Message>, target: string) returns (t: Tables, idMap: map<int, int>)
    ensures idMap == IdMap(messages, t0.nextMessageId)
    ensures t == t0.(messages := t0.messages + Copies(messages, target, t0.nextMessageId),
                     nextMessageId := t0.nextMessageId + |messages|)
  {
    t, idMap := t0, map[];
    assert messages[..0] == [];
    for i := 0 to |messages|
      invariant idMap == IdMap(messages[..i], t0.nextMessageId)
      invariant t == t0.(messages := t0.messages + Copies(messages[..i], target, t0.nextMessageId),
                         nextMessageId := t0.nextMessageId + i)
    {
      var m := messages[i];
      var id := t.nextMessageId;
      assert messages[..i + 1][..i] == messages[..i] && messages[..i + 1][i] == m;
      assert Copies(messages[..i + 1], target, t0.nextMessageId)
             == Copies(messages[..i], target, t0.nextMessageId) + [Copy(m, target, id)];
      t := t.(messages := t.messages + [Message(id, target, m.role, m.content, m.createdAt, true, m.gistProcessed)],
              nextMessageId := id + 1);
      idMap := idMap[m.id := id];
    }
    assert messages[..|messages|] == messages;
  }

  /** What is left to copy decides the rest of the result. */
  function Onto(added: seq<Gist>, rest: Option<seq<Gist>>): Option<seq<Gist>> {
    if rest.None? then None else Some(added + rest.value)
  }

  lemma NextGist(added: seq<Gist>, gists: seq<Gist>, ren: Renaming, first: int)
    requires gists != []
    ensures var head := ForkGist(gists[0], ren, first);
            Onto(added, ForkGists(gists, ren, first))
            == if head.None? then None else Onto(added + [head.value], ForkGists(gists[1..], ren, first + 1))
  {
    hide ForkGist;
    var head, tail := ForkGist(gists[0], ren, first), ForkGists(gists[1..], ren, first + 1);
    if head.Some? && tail.Some? {
      assert added + ([head.value] + tail.value) == added + [head.value] + tail.value;
    }
  }

  lemma NoGistsYet(gists: seq<Gist>, ren: Renaming, first: int)
    ensures Onto([], ForkGists(gists, ren, first)) == ForkGists(gists, ren, first)
    ensures ForkGists([], ren, first) == Some([])
  {
    var all := ForkGists(gists, ren, first);
    assert all.Some? ==> [] + all.value == all.value;
  }

  /** INSERT one remapped gist after another, stopping at the first that cannot be remapped. */
  method CopyGists(t0: Tables, gists: seq<Gist>, ren: Renaming) returns (t: Tables, copied: bool)
    ensures copied <==> ForkGists(gists, ren, t0.nextGistId).Some?
    ensures copied ==> var added := ForkGists(gists, ren, t0.nextGistId).value;
                       t == t0.(gists := t0.gists + added, nextGistId := t0.nextGistId + |added|)
  {
    hide ForkGists, RemapColumn, RemapJson;
    t := t0;
    ghost var added: seq<Gist> := [];
    ghost var all := ForkGists(gists, ren, t0.nextGistId);
    NoGistsYet(gists, ren, t0.nextGistId);
    assert gists[0..] == gists;
    for i := 0 to |gists|
      invariant |added| == i
      invariant t == t0.(gists := t0.gists + added, nextGistId := t0.nextGistId + i)
      invariant all == Onto(added, ForkGists(gists[i..], ren, t0.nextGistId + i))
    {
      var g := gists[i];
      assert gists[i..][0] == g && gists[i..][1..] == gists[i + 1..];
      NextGist(added, gists[i..], ren, t.nextGistId);
      var start := RemapColumn(g.startMessageId, ren.ids);
      var end := RemapColumn(g.endMessageId, ren.ids);
      var metadata := RemapJson(g.metadata, ren);
      if start.None? || end.None? || metadata.None? {
        return t, false;
      }
      var copy := g.(id := t.nextGistId, chatId := ren.target, startMessageId := start.value,
                     endMessageId := end.value, metadata := metadata.value);
      t := t.(gists := t.gists + [copy], nextGistId := t.nextGistId + 1);
      added := added + [copy];
    }
    NoGistsYet([], ren, t0.nextGistId + |gists|);
    assert gists[|gists|..] == [] && added + [] == added;
    copied := true;
  }

  /** INSERT the remapped inspections of the chat's own messages; the others are skipped. */
  method CopyInspections(t0: Tables, inspections: seq<Inspection>, ren: Renaming) returns (t: Tables, copied: bool)
    ensures copied <==> ForkInspections(inspections, ren).Some?
    ensures copied ==> t == t0.(inspections := t0.inspections + ForkInspections(inspections, ren).value)
  {
    t := t0;
    ghost var added: seq<Inspection> := [];
    ghost var all := ForkInspections(inspections, ren);
    assert inspections[0..] == inspections && (all.Some? ==> added + all.value == all.value);
    for i := 0 to |inspections|
      invariant t == t0.(inspections := t0.inspections + added)
      invariant var rest := ForkInspections(inspections[i..], ren);
                all == if rest.None? then None else Some(added + rest.value)
    {
      var x := inspections[i];
      assert inspections[i..][1..] == inspections[i + 1..];
      if x.assistantMessageId in ren.ids {
        var payload := RemapJson(x.payload, ren);
        if payload.None? {
          return t, false;
        }
        var copy := Inspection(ren.ids[x.assistantMessageId], ren.target, x.traceId, payload.value, x.createdAt);
        ghost var rest := ForkInspections(inspections[i + 1..], ren);
        assert rest.Some? ==> added + ([copy] + rest.value) == added + [copy] + rest.value;
        t := t.(inspections := t.inspections + [copy]);
        added := added + [copy];
      }
    }
    copied := true;
  }

  /** The foreign key decides whether the write is committed. */
  lemma Outcomes(t: Tables, w: Write)
    ensures w.Remember? ==> (StateUpserted(t, w.chatId, w.memory, w.now).Some? <==> HasChat(t.chats, w.chatId))
    ensures w.AddGist? ==> (GistInserted(t, w.gist, w.ids).Some? <==> HasChat(t.chats, w.gist.chatId))
  {
    hide HasChat, MarkProcessed;
  }

  /** What others commit, one transaction after another. */
  method PerformAll(db: Database, writes: seq<Write>)
    requires db.Valid()
    modifies db
    ensures db.Valid() && db.tables == DoAll(old(db.tables), writes)
  {
    hide WellFormed, Do;
    for i := 0 to |writes|
      invariant db.Valid()
      invariant DoAll(db.tables, writes[i..]) == DoAll(old(db.tables), writes)
    {
      assert writes[i..][0] == writes[i] && writes[i..][1..] == writes[i + 1..];
      db.Perform(writes[i]);
    }
  }

  /** The interface's fork action.  While it waits for the front end to switch threads, others go on writing;
      when the front end does not switch, the fork is deleted, whatever has been written to it. */
  method ForkAndSwitch(db: Database, chatId: string, newChatId: string, now: int, meanwhile: seq<Write>, switchAccepted: bool)
      returns (error: Option<ForkError>, switched: bool)
    requires db.Valid()
    modifies db
    ensures db.Valid()
    ensures var forked := Fork(old(db.tables), chatId, newChatId, now);
            && (switched <==> forked.Ok? && switchAccepted)
            && (forked.Err? ==> db.tables == old(db.tables))
            && (switched ==> db.tables == DoAll(forked.value, meanwhile))
            && (forked.Ok? && !switched ==> db.tables == Delete(DoAll(forked.value, meanwhile), newChatId))
            && (forked.Ok? && !switched && (forall w :: w in meanwhile ==> Elsewhere(w, newChatId)) ==>
                  db.tables == DoAll(old(db.tables).(nextMessageId := forked.value.nextMessageId,
                                                     nextGistId := forked.value.nextGistId), meanwhile))
  {
    hide Fork, WellFormed, Delete, DoAll, Elsewhere;
    error := db.ForkChat(chatId, newChatId, now);
    if error.Some? {
      return error, false;
    }
    PerformAll(db, meanwhile);
    if !switchAccepted {
      if forall w :: w in meanwhile ==> Elsewhere(w, newChatId) {
        CompensationIsExact(old(db.tables), chatId, newChatId, now, meanwhile);
      }
      db.DeleteChat(newChatId);
      return None, false;
    }
    switched := true;
  }
}
