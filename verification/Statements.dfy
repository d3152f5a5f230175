/** What each transaction leaves, row by row, in the columns of the tables. */
module Statements {
  import opened Results
  import opened Rows
  import opened Provenance
  import opened Tables
  import opened Forking
  import opened Compensation

  // ---------------------------------------------------------------- chats

  /** A chat made anew is active; one that is there gets the title and the model that are given, and nothing else. */
  lemma CreatedRow(t: Tables, id: string, title: Option<string>, modelName: Option<string>, now: int)
    ensures var t' := Do(t, NewChat(id, title, modelName, now));
            && t' == t.(chats := t'.chats)
            && ((forall c :: c in t.chats ==> c.id != id) ==>
                  t'.chats == t.chats + [Chat(id, title, now, now, modelName, true)])
            && ((exists c :: c in t.chats && c.id == id) ==>
                  && |t'.chats| == |t.chats|
                  && forall i :: 0 <= i < |t.chats| ==>
                       var c := t.chats[i];
                       t'.chats[i] == if c.id != id then c
                                      else Chat(c.id, if title.Some? then title else c.title, c.createdAt, c.updatedAt,
                                                if modelName.Some? then modelName else c.modelName, c.active))
  {
  }

  /** Opening and closing a chat touches one flag of one row; a new title also moves the row's time, a new model does
      not. */
  lemma ChatRowChanges(t: Tables, chatId: string, active: bool, title: string, modelName: string, now: int)
    ensures var t' := Do(t, Activity(chatId, active));
            && t' == t.(chats := t'.chats) && |t'.chats| == |t.chats|
            && forall i :: 0 <= i < |t.chats| ==>
                 var c := t.chats[i];
                 t'.chats[i] == if c.id != chatId then c
                                else Chat(c.id, c.title, c.createdAt, c.updatedAt, c.modelName, active)
    ensures var t' := Do(t, Retitle(chatId, title, now));
            && t' == t.(chats := t'.chats) && |t'.chats| == |t.chats|
            && forall i :: 0 <= i < |t.chats| ==>
                 var c := t.chats[i];
                 t'.chats[i] == if c.id != chatId then c
                                else Chat(c.id, Some(title), c.createdAt, now, c.modelName, c.active)
    ensures var t' := Do(t, ChooseModel(chatId, modelName));
            && t' == t.(chats := t'.chats) && |t'.chats| == |t.chats|
            && forall i :: 0 <= i < |t.chats| ==>
                 var c := t.chats[i];
                 t'.chats[i] == if c.id != chatId then c
                                else Chat(c.id, c.title, c.createdAt, c.updatedAt, Some(modelName), c.active)
  {
  }

  // ---------------------------------------------------------------- messages

  /** A saved message gets the next id and no flag, and moves the time of its chat; without the chat nothing happens. */
  lemma SavedRow(t: Tables, chatId: string, role: Role, content: string, now: int)
    ensures var t' := Do(t, Save(chatId, role, content, now));
            if forall c :: c in t.chats ==> c.id != chatId then t' == t
            else
              && t' == t.(messages := t.messages + [Message(t.nextMessageId, chatId, role, content, now, false, false)],
                          nextMessageId := t.nextMessageId + 1, chats := t'.chats)
              && |t'.chats| == |t.chats|
              && forall i :: 0 <= i < |t.chats| ==>
                   var c := t.chats[i];
                   t'.chats[i] == if c.id != chatId then c
                                  else Chat(c.id, c.title, c.createdAt, now, c.modelName, c.active)
  {
  }

  /** Marking sets one of the two flags of the messages named, in whatever chat; an edit changes the text of one. */
  lemma FlaggedRows(t: Tables, ids: set<int>, id: int, content: string)
    ensures var t' := Do(t, Process(ids, Summary));
            && t' == t.(messages := t'.messages) && |t'.messages| == |t.messages|
            && forall i :: 0 <= i < |t.messages| ==>
                 var m := t.messages[i];
                 t'.messages[i] == if m.id !in ids then m
                                   else Message(m.id, m.chatId, m.role, m.content, m.createdAt, true, m.gistProcessed)
    ensures var t' := Do(t, Process(ids, GistKind));
            && t' == t.(messages := t'.messages) && |t'.messages| == |t.messages|
            && forall i :: 0 <= i < |t.messages| ==>
                 var m := t.messages[i];
                 t'.messages[i] == if m.id !in ids then m
                                   else Message(m.id, m.chatId, m.role, m.content, m.createdAt, m.summarized, true)
    ensures var t' := Do(t, Edit(id, content));
            && t' == t.(messages := t'.messages) && |t'.messages| == |t.messages|
            && forall i :: 0 <= i < |t.messages| ==>
                 var m := t.messages[i];
                 t'.messages[i] == if m.id != id then m
                                   else Message(m.id, m.chatId, m.role, content, m.createdAt, m.summarized, m.gistProcessed)
  {
  }

  // ---------------------------------------------------------------- memory, gists, inspections, documents

  /** The one state that a chat has after a memory state has been stored is the one stored, memory and time; the states
      of other chats stay where they are. */
  lemma StoredState(t: Tables, chatId: string, memory: string, now: int)
    requires StateKeys(t.memoryStates)
    ensures var t' := Do(t, Remember(chatId, memory, now));
            if forall c :: c in t.chats ==> c.id != chatId then t' == t
            else
              && t' == t.(memoryStates := t'.memoryStates)
              && Filter((s: MemoryState) => s.chatId == chatId, t'.memoryStates) == [MemoryState(chatId, memory, now)]
              && Filter((s: MemoryState) => s.chatId != chatId, t'.memoryStates)
                 == Filter((s: MemoryState) => s.chatId != chatId, t.memoryStates)
  {
    hide Update, Filter, StateKeys, StateIs, ReplaceState;
    if HasState(t.memoryStates, chatId) {
      ReplacedState(t.memoryStates, chatId, memory, now);
    } else {
      FirstState(t.memoryStates, chatId, memory, now);
    }
  }

  lemma FirstState(states: seq<MemoryState>, chatId: string, memory: string, now: int)
    requires !HasState(states, chatId)
    ensures var states' := states + [MemoryState(chatId, memory, now)];
            && Filter((s: MemoryState) => s.chatId == chatId, states') == [MemoryState(chatId, memory, now)]
            && Filter((s: MemoryState) => s.chatId != chatId, states') == Filter((s: MemoryState) => s.chatId != chatId, states)
  {
    var mine, others := (s: MemoryState) => s.chatId == chatId, (s: MemoryState) => s.chatId != chatId;
    FilterConcat(mine, states, [MemoryState(chatId, memory, now)]);
    FilterNone(mine, states);
    FilterConcat(others, states, [MemoryState(chatId, memory, now)]);
  }

  lemma {:induction false} ReplacedState(states: seq<MemoryState>, chatId: string, memory: string, now: int)
    requires StateKeys(states) && HasState(states, chatId)
    ensures var states' := Update(StateIs(chatId), ReplaceState(memory, now), states);
            && Filter((s: MemoryState) => s.chatId == chatId, states') == [MemoryState(chatId, memory, now)]
            && Filter((s: MemoryState) => s.chatId != chatId, states') == Filter((s: MemoryState) => s.chatId != chatId, states)
  {
    var mine, others := (s: MemoryState) => s.chatId == chatId, (s: MemoryState) => s.chatId != chatId;
    var rest := Update(StateIs(chatId), ReplaceState(memory, now), states[1..]);
    if states[0].chatId == chatId {
      forall s | s in states[1..] ensures s.chatId != chatId {
        var i :| 0 <= i < |states[1..]| && states[1..][i] == s;
        assert states[i + 1] == s;
      }
      NoStateToReplace(states[1..], chatId, memory, now);
      FilterNone(mine, states[1..]);
    } else {
      var s :| s in states && s.chatId == chatId;
      assert s in states[1..];
      assert StateKeys(states[1..]);
      ReplacedState(states[1..], chatId, memory, now);
    }
  }

  lemma {:induction false} NoStateToReplace(states: seq<MemoryState>, chatId: string, memory: string, now: int)
    requires forall s :: s in states ==> s.chatId != chatId
    ensures Update(StateIs(chatId), ReplaceState(memory, now), states) == states
  {
    if states != [] {
      NoStateToReplace(states[1..], chatId, memory, now);
    }
  }

  /** A gist gets the next id, and is otherwise as it is given; in the same transaction the messages named are marked. */
  lemma AddedGist(t: Tables, gist: Gist, ids: set<int>)
    ensures var t' := Do(t, AddGist(gist, ids));
            if forall c :: c in t.chats ==> c.id != gist.chatId then t' == t
            else
              && t' == t.(messages := Do(t, Process(ids, GistKind)).messages, gists := t'.gists, nextGistId := t.nextGistId + 1)
              && t'.gists == t.gists + [Gist(t.nextGistId, gist.chatId, gist.sourceType, gist.gistText, gist.topicsJson,
                                             gist.decisionsJson, gist.openTasksJson, gist.startMessageId, gist.endMessageId,
                                             gist.createdAt, gist.updatedAt, gist.metadata)]
  {
    hide MarkProcessed;
  }

  /** A second inspection of a message replaces the trace, and keeps the chat and the time of the first; a first one
      needs its message and its chat. */
  lemma InspectedRow(t: Tables, messageId: int, chatId: string, traceId: string, payload: JsonColumn, now: int)
    ensures var t' := Do(t, Inspect(messageId, chatId, traceId, payload, now));
            && t' == t.(inspections := t'.inspections)
            && ((exists x :: x in t.inspections && x.assistantMessageId == messageId) ==>
                  && |t'.inspections| == |t.inspections|
                  && forall i :: 0 <= i < |t.inspections| ==>
                       var x := t.inspections[i];
                       t'.inspections[i] == if x.assistantMessageId != messageId then x
                                            else Inspection(messageId, x.chatId, traceId, payload, x.createdAt))
            && ((forall x :: x in t.inspections ==> x.assistantMessageId != messageId) ==>
                  t'.inspections == t.inspections +
                                    if (exists m :: m in t.messages && m.id == messageId) && exists c :: c in t.chats && c.id == chatId
                                    then [Inspection(messageId, chatId, traceId, payload, now)] else [])
  {
  }

  /** A second link of a document to a chat only says whether it is selected; a first one needs the chat and the
      record. */
  lemma LinkedRow(t: Tables, chatId: string, documentId: string, selected: bool, now: int, recorded: bool)
    ensures var t' := Do(t, LinkDocument(chatId, documentId, selected, now, recorded));
            && t' == t.(chatDocuments := t'.chatDocuments)
            && ((exists d :: d in t.chatDocuments && d.chatId == chatId && d.documentId == documentId) ==>
                  && |t'.chatDocuments| == |t.chatDocuments|
                  && forall i :: 0 <= i < |t.chatDocuments| ==>
                       var d := t.chatDocuments[i];
                       t'.chatDocuments[i] == if d.chatId != chatId || d.documentId != documentId then d
                                              else ChatDocument(chatId, documentId, selected, d.associatedAt))
            && ((forall d :: d in t.chatDocuments ==> d.chatId != chatId || d.documentId != documentId) ==>
                  t'.chatDocuments == t.chatDocuments +
                                      if recorded && exists c :: c in t.chats && c.id == chatId
                                      then [ChatDocument(chatId, documentId, selected, now)] else [])
  {
  }

  /** With the record of a document all its links go, and no other. */
  lemma DroppedLinks(t: Tables, documentId: string)
    ensures var t' := Do(t, DropDocument(documentId));
            && t' == t.(chatDocuments := t'.chatDocuments)
            && t'.chatDocuments == Filter((d: ChatDocument) => d.documentId != documentId, t.chatDocuments)
  {
    FilterAgree(OtherDocument(documentId), (d: ChatDocument) => d.documentId != documentId, t.chatDocuments);
  }

  // ---------------------------------------------------------------- deletion and fork

  /** With a chat go all rows that name it, and the inspections of its messages; the others keep their order, and the
      counters stay. */
  lemma RemovedRows(t: Tables, chatId: string)
    ensures var t' := Do(t, Remove(chatId));
            && t'.chats == Filter((c: Chat) => c.id != chatId, t.chats)
            && t'.messages == Filter((m: Message) => m.chatId != chatId, t.messages)
            && t'.memoryStates == Filter((s: MemoryState) => s.chatId != chatId, t.memoryStates)
            && t'.gists == Filter((g: Gist) => g.chatId != chatId, t.gists)
            && t'.chatDocuments == Filter((d: ChatDocument) => d.chatId != chatId, t.chatDocuments)
            && t'.inspections == Filter((x: Inspection) => x.chatId != chatId && forall m :: m in t.messages && m.chatId == chatId ==> m.id != x.assistantMessageId,
                                        t.inspections)
            && t'.nextMessageId == t.nextMessageId && t'.nextGistId == t.nextGistId
  {
    var doomed := MessageIds(Filter(InChat(chatId), t.messages));
    FilterAgree(ChatOther(chatId), (c: Chat) => c.id != chatId, t.chats);
    FilterAgree(MessageElsewhere(chatId), (m: Message) => m.chatId != chatId, t.messages);
    FilterAgree(StateElsewhere(chatId), (s: MemoryState) => s.chatId != chatId, t.memoryStates);
    FilterAgree(GistElsewhere(chatId), (g: Gist) => g.chatId != chatId, t.gists);
    FilterAgree(DocumentElsewhere(chatId), (d: ChatDocument) => d.chatId != chatId, t.chatDocuments);
    FilterAgree(InspectionSurvives(doomed, chatId),
                (x: Inspection) => x.chatId != chatId && forall m :: m in t.messages && m.chatId == chatId ==> m.id != x.assistantMessageId,
                t.inspections);
  }

  /** The new chat of a fork is active, made now, with the title and the model of its source. */
  lemma ForkedChatRow(t: Tables, source: string, target: string, now: int, c: Chat)
    requires ChatKeys(t.chats) && Fork(t, source, target, now).Ok?
    requires c in t.chats && c.id == source
    ensures var t' := Do(t, ForkTo(source, target, now));
            && t' == Fork(t, source, target, now).value
            && t'.chats == t.chats + [Chat(target, c.title, now, now, c.modelName, true)]
            && t'.memoryStates == t.memoryStates && t'.chatDocuments == t.chatDocuments
            && t'.nextMessageId == t.nextMessageId + |t'.messages| - |t.messages|
            && t'.nextGistId == t.nextGistId + |t'.gists| - |t.gists|
  {
    hide Fork, ForkGists, ForkInspections, Listing, ChatNamed;
    ForkUnfolded(t, source, target, now);
    ForkParts(t, source, target, now);
    NamedIs(t.chats, source, c);
  }

  /** Why a fork fails, and that it then leaves everything alone. */
  lemma FailedFork(t: Tables, source: string, target: string, now: int)
    ensures var forked := Fork(t, source, target, now);
            && (forked == Err(ChatNotFound) <==> forall c :: c in t.chats ==> c.id != source)
            && (forked == Err(ChatExists) <==>
                  (exists c :: c in t.chats && c.id == source) && exists c :: c in t.chats && c.id == target)
            && (forked.Err? ==> Do(t, ForkTo(source, target, now)) == t)
  {
    hide ForkGists, ForkInspections, Listing, ChatNamed, Filter;
  }

  lemma {:induction false} NamedIs(chats: seq<Chat>, id: string, c: Chat)
    requires ChatKeys(chats) && c in chats && c.id == id
    ensures HasChat(chats, id) && ChatNamed(chats, id) == c
  {
    if chats[0].id == id {
      var i :| 0 <= i < |chats| && chats[i] == c;
    } else {
      assert c in chats[1..];
      NamedIs(chats[1..], id, c);
    }
  }
}
