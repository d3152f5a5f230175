/** Deleting a fork that was not wanted, after others have gone on writing. */
module Compensation {
  import opened Results
  import opened Rows
  import opened Provenance
  import opened Tables
  import opened Forking
  import opened Schema

  /** One transaction: every way in which the application writes to these tables. */
  datatype Write =
    | NewChat(chatId: string, title: Option<string>, modelName: Option<string>, now: int)
    | Activity(chatId: string, active: bool)
    | Save(chatId: string, role: Role, content: string, now: int)
    | Process(ids: set<int>, kind: Kind)
    | Remember(chatId: string, memory: string, now: int)
    | AddGist(gist: Gist, ids: set<int>)
    | Remove(chatId: string)
    | ForkTo(source: string, chatId: string, now: int)
    | Retitle(chatId: string, newTitle: string, now: int)
    | ChooseModel(chatId: string, model: string)
    | Edit(messageId: int, content: string)
    | Inspect(messageId: int, chatId: string, traceId: string, payload: JsonColumn, now: int)
    | LinkDocument(chatId: string, documentId: string, selected: bool, now: int, recorded: bool)
    | DropDocument(documentId: string)

  /** What it leaves in the tables; a failed transaction leaves them alone. */
  function Do(t: Tables, w: Write): Tables {
    match w
    case NewChat(chatId, title, modelName, now) => ChatCreated(t, chatId, title, modelName, now)
    case Activity(chatId, active) => SetActive(t, chatId, active)
    case Save(chatId, role, content, now) => Committed(t, MessageSaved(t, chatId, role, content, now))
    case Process(ids, kind) => t.(messages := MarkProcessed(t.messages, ids, kind))
    case Remember(chatId, memory, now) => Committed(t, StateUpserted(t, chatId, memory, now))
    case AddGist(gist, ids) => Committed(t, GistInserted(t, gist, ids))
    case Remove(chatId) => Delete(t, chatId)
    case ForkTo(source, chatId, now) => var forked := Fork(t, source, chatId, now); if forked.Ok? then forked.value else t
    case Retitle(chatId, title, now) => TitleUpdated(t, chatId, title, now)
    case ChooseModel(chatId, modelName) => ModelUpdated(t, chatId, modelName)
    case Edit(messageId, content) => t.(messages := ContentUpdated(t.messages, messageId, content))
    case Inspect(messageId, chatId, traceId, payload, now) =>
      Committed(t, InspectionSaved(t, messageId, chatId, traceId, payload, now))
    case LinkDocument(chatId, documentId, selected, now, recorded) =>
      Committed(t, DocumentLinked(t, chatId, documentId, selected, now, recorded))
    case DropDocument(documentId) => DocumentDropped(t, documentId)
  }

  function Committed(t: Tables, after: Option<Tables>): Tables {
    if after.Some? then after.value else t
  }

  function DoAll(t: Tables, writes: seq<Write>): Tables
    decreases |writes|
  {
    if writes == [] then t else DoAll(Do(t, writes[0]), writes[1..])
  }

  /** The write names another chat; which messages it marks, edits or inspects does not matter. */
  predicate Elsewhere(w: Write, chatId: string) {
    match w
    case Process(_, _) => true
    case AddGist(gist, _) => gist.chatId != chatId
    case ForkTo(source, target, _) => source != chatId && target != chatId
    case Edit(_, _) => true
    case DropDocument(_) => true
    case _ => w.chatId != chatId
  }

  lemma DoKeepsSchema(t: Tables, w: Write)
    requires WellFormed(t)
    ensures WellFormed(Do(t, w))
  {
    hide WellFormed, MessageSaved, StateUpserted, GistInserted, Fork, Delete, SetActive, ChatCreated, MarkProcessed, ContentUpdated,
         InspectionSaved, DocumentLinked, DocumentDropped, Update;
    match w {
      case NewChat(chatId, title, modelName, now) => CreateChatKeepsSchema(t, chatId, title, modelName, now);
      case Activity(chatId, active) => SetActiveKeepsSchema(t, chatId, active);
      case Save(chatId, role, content, now) =>
        if MessageSaved(t, chatId, role, content, now).Some? {
          SaveKeepsSchema(t, chatId, role, content, now);
        }
      case Process(ids, kind) => MarkKeepsSchema(t, ids, kind);
      case Remember(chatId, memory, now) =>
        if StateUpserted(t, chatId, memory, now).Some? {
          UpsertKeepsSchema(t, chatId, memory, now);
        }
      case AddGist(gist, ids) =>
        if GistInserted(t, gist, ids).Some? {
          GistKeepsSchema(t, gist, ids);
        }
      case Remove(chatId) => DeleteKeepsSchema(t, chatId);
      case ForkTo(source, chatId, now) =>
        if Fork(t, source, chatId, now).Ok? {
          ForkKeepsSchema(t, source, chatId, now);
        }
      case Retitle(chatId, title, now) => ChatUpdateKeepsSchema(t, ChatIs(chatId), SetTitle(title, now));
      case ChooseModel(chatId, modelName) => ChatUpdateKeepsSchema(t, ChatIs(chatId), SetModel(modelName));
      case Edit(messageId, content) => ContentKeepsSchema(t, messageId, content);
      case Inspect(messageId, chatId, traceId, payload, now) =>
        if InspectionSaved(t, messageId, chatId, traceId, payload, now).Some? {
          InspectionKeepsSchema(t, messageId, chatId, traceId, payload, now);
        }
      case LinkDocument(chatId, documentId, selected, now, recorded) =>
        if DocumentLinked(t, chatId, documentId, selected, now, recorded).Some? {
          LinkKeepsSchema(t, chatId, documentId, selected, now, recorded);
        }
      case DropDocument(documentId) => DropKeepsSchema(t, documentId);
    }
  }

  // ---------------------------------------------------------------- selections commute with statements

  lemma {:induction false} FilterUpdate<T(!new)>(p: T -> bool, q: T -> bool, f: T -> T, rows: seq<T>)
    requires forall x :: p(f(x)) == p(x)
    ensures Filter(p, Update(q, f, rows)) == Update(q, f, Filter(p, rows))
  {
    if rows != [] {
      FilterUpdate(p, q, f, rows[1..]);
      var x := rows[0];
      assert Update(q, f, rows)[1..] == Update(q, f, rows[1..]);
      if p(x) {
        assert Filter(p, rows) == [x] + Filter(p, rows[1..]);
      }
    }
  }

  lemma FilterCommutes<T(!new)>(p: T -> bool, q: T -> bool, rows: seq<T>)
    ensures Filter(p, Filter(q, rows)) == Filter(q, Filter(p, rows))
  {
    var both := (x: T) => p(x) && q(x);
    FilterTwice(p, q, both, rows);
    FilterTwice(q, p, both, rows);
  }

  lemma FilterAppend<T(!new)>(p: T -> bool, rows: seq<T>, added: seq<T>)
    requires forall x :: x in added ==> p(x)
    ensures Filter(p, rows + added) == Filter(p, rows) + added
  {
    FilterConcat(p, rows, added);
    FilterAll(p, added);
  }

  /** A selection that a wider one contains may be made first or after it. */
  lemma FilterWithin<T(!new)>(p: T -> bool, wide: T -> bool, rows: seq<T>)
    requires forall x :: p(x) ==> wide(x)
    ensures Filter(p, Filter(wide, rows)) == Filter(p, rows)
  {
    FilterTwice(p, wide, p, rows);
  }

  lemma OtherChatStays(chats: seq<Chat>, chatId: string, id: string)
    requires id != chatId
    ensures HasChat(Filter(ChatOther(chatId), chats), id) <==> HasChat(chats, id)
  {
    if HasChat(chats, id) {
      var c :| c in chats && c.id == id;
      assert c in Filter(ChatOther(chatId), chats);
    }
  }

  lemma {:induction false} OtherChatNamed(chats: seq<Chat>, chatId: string, id: string)
    requires id != chatId && HasChat(chats, id)
    ensures HasChat(Filter(ChatOther(chatId), chats), id)
    ensures ChatNamed(Filter(ChatOther(chatId), chats), id) == ChatNamed(chats, id)
  {
    OtherChatStays(chats, chatId, id);
    if chats[0].id != id {
      assert chats == [chats[0]] + chats[1..];
      OtherChatNamed(chats[1..], chatId, id);
      if chats[0].id != chatId {
        assert Filter(ChatOther(chatId), chats) == [chats[0]] + Filter(ChatOther(chatId), chats[1..]);
      }
    }
  }

  lemma OtherStateStays(states: seq<MemoryState>, chatId: string, id: string)
    requires id != chatId
    ensures HasState(Filter(StateElsewhere(chatId), states), id) <==> HasState(states, id)
  {
    if HasState(states, id) {
      var s :| s in states && s.chatId == id;
      assert s in Filter(StateElsewhere(chatId), states);
    }
  }

  /** The ids of the messages that go with a chat. */
  function Doomed(messages: seq<Message>, chatId: string): set<int> {
    MessageIds(Filter(InChat(chatId), messages))
  }

  lemma SameDoomed(messages: seq<Message>, added: seq<Message>, chatId: string)
    requires forall m :: m in added ==> m.chatId != chatId
    ensures Doomed(messages + added, chatId) == Doomed(messages, chatId)
  {
    FilterConcat(InChat(chatId), messages, added);
    FilterNone(InChat(chatId), added);
    assert Filter(InChat(chatId), messages) + [] == Filter(InChat(chatId), messages);
  }

  lemma UpdatedDoomed(messages: seq<Message>, p: Message -> bool, f: Message -> Message, chatId: string)
    requires forall m :: f(m).id == m.id && f(m).chatId == m.chatId
    ensures Doomed(Update(p, f, messages), chatId) == Doomed(messages, chatId)
    ensures Filter(MessageElsewhere(chatId), Update(p, f, messages)) == Update(p, f, Filter(MessageElsewhere(chatId), messages))
  {
    hide MessageIds;
    FilterUpdate(MessageElsewhere(chatId), p, f, messages);
    FilterUpdate(InChat(chatId), p, f, messages);
    UpdatedIds(Filter(InChat(chatId), messages), p, f);
  }

  lemma MarkedDoomed(messages: seq<Message>, ids: set<int>, kind: Kind, chatId: string)
    ensures Doomed(MarkProcessed(messages, ids, kind), chatId) == Doomed(messages, chatId)
    ensures Filter(MessageElsewhere(chatId), MarkProcessed(messages, ids, kind))
            == MarkProcessed(Filter(MessageElsewhere(chatId), messages), ids, kind)
  {
    UpdatedDoomed(messages, WithIds(ids), SetProcessed(kind), chatId);
  }

  /** Inspections that name the chat are of its own messages. */
  ghost predicate OwnInspections(t: Tables, chatId: string) {
    forall x :: x in t.inspections && x.chatId == chatId ==> x.assistantMessageId in Doomed(t.messages, chatId)
  }

  // ---------------------------------------------------------------- deletion commutes with writes elsewhere

  lemma ChatWriteCommutes(t: Tables, f: Chat -> Chat, id: string, chatId: string)
    requires id != chatId && forall c :: f(c).id == c.id
    ensures Delete(t.(chats := Update(ChatIs(id), f, t.chats)), chatId)
            == Delete(t, chatId).(chats := Update(ChatIs(id), f, Delete(t, chatId).chats))
  {
    FilterUpdate(ChatOther(chatId), ChatIs(id), f, t.chats);
  }

  lemma NewChatCommutes(t: Tables, w: Write, chatId: string)
    requires w.NewChat? && Elsewhere(w, chatId)
    ensures Delete(Do(t, w), chatId) == Do(Delete(t, chatId), w)
  {
    hide HasChat, MessageIds;
    OtherChatStays(t.chats, chatId, w.chatId);
    if HasChat(t.chats, w.chatId) {
      ChatWriteCommutes(t, Rename(w.title, w.modelName), w.chatId, chatId);
    } else {
      FilterAppend(ChatOther(chatId), t.chats, [Chat(w.chatId, w.title, w.now, w.now, w.modelName, true)]);
    }
  }

  lemma ActivityCommutes(t: Tables, w: Write, chatId: string)
    requires w.Activity? && Elsewhere(w, chatId)
    ensures Delete(Do(t, w), chatId) == Do(Delete(t, chatId), w)
  {
    ChatWriteCommutes(t, SetActiveFlag(w.active), w.chatId, chatId);
  }

  lemma SaveCommutes(t: Tables, w: Write, chatId: string)
    requires w.Save? && Elsewhere(w, chatId)
    ensures Delete(Do(t, w), chatId) == Do(Delete(t, chatId), w)
  {
    hide HasChat, MessageIds, Update;
    OtherChatStays(t.chats, chatId, w.chatId);
    var m := NewMessage(t, w.chatId, w.role, w.content, w.now);
    SameDoomed(t.messages, [m], chatId);
    FilterAppend(MessageElsewhere(chatId), t.messages, [m]);
    FilterUpdate(ChatOther(chatId), ChatIs(w.chatId), Touch(w.now), t.chats);
  }

  lemma EditCommutes(t: Tables, id: int, content: string, chatId: string)
    ensures Delete(t.(messages := ContentUpdated(t.messages, id, content)), chatId)
            == Delete(t, chatId).(messages := ContentUpdated(Delete(t, chatId).messages, id, content))
  {
    hide MessageIds, Update;
    UpdatedDoomed(t.messages, WithIds({id}), SetContent(content), chatId);
  }

  lemma RetitleCommutes(t: Tables, w: Write, chatId: string)
    requires (w.Retitle? || w.ChooseModel?) && Elsewhere(w, chatId)
    ensures Delete(Do(t, w), chatId) == Do(Delete(t, chatId), w)
  {
    if w.Retitle? {
      ChatWriteCommutes(t, SetTitle(w.newTitle, w.now), w.chatId, chatId);
    } else {
      ChatWriteCommutes(t, SetModel(w.model), w.chatId, chatId);
    }
  }

  lemma OtherLinkStays(documents: seq<ChatDocument>, chatId: string, id: string, documentId: string)
    requires id != chatId
    ensures HasLink(Filter(DocumentElsewhere(chatId), documents), id, documentId) <==> HasLink(documents, id, documentId)
  {
    if HasLink(documents, id, documentId) {
      var d :| d in documents && d.chatId == id && d.documentId == documentId;
      assert d in Filter(DocumentElsewhere(chatId), documents);
    }
  }

  lemma LinkCommutes(t: Tables, w: Write, chatId: string)
    requires w.LinkDocument? && Elsewhere(w, chatId)
    ensures Delete(Do(t, w), chatId) == Do(Delete(t, chatId), w)
  {
    hide HasChat, HasLink, MessageIds, Update;
    OtherChatStays(t.chats, chatId, w.chatId);
    OtherLinkStays(t.chatDocuments, chatId, w.chatId, w.documentId);
    FilterUpdate(DocumentElsewhere(chatId), LinkIs(w.chatId, w.documentId), SetSelected(w.selected), t.chatDocuments);
    FilterAppend(DocumentElsewhere(chatId), t.chatDocuments, [ChatDocument(w.chatId, w.documentId, w.selected, w.now)]);
  }

  lemma DropCommutes(t: Tables, documentId: string, chatId: string)
    ensures Delete(DocumentDropped(t, documentId), chatId) == DocumentDropped(Delete(t, chatId), documentId)
  {
    hide MessageIds;
    FilterCommutes(OtherDocument(documentId), DocumentElsewhere(chatId), t.chatDocuments);
  }

  lemma NoneToUpdate<T(!new)>(q: T -> bool, f: T -> T, rows: seq<T>)
    requires forall x :: x in rows ==> !q(x)
    ensures Update(q, f, rows) == rows
  {
    forall i | 0 <= i < |rows| ensures Update(q, f, rows)[i] == rows[i] {
      assert rows[i] in rows;
    }
  }

  /** Which messages are left is decided by their ids. */
  lemma LeftIds(messages: seq<Message>, next: int, chatId: string, id: int)
    requires MessageKeys(messages, next)
    ensures id in MessageIds(Filter(MessageElsewhere(chatId), messages))
            <==> id in MessageIds(messages) && id !in Doomed(messages, chatId)
  {
    if id in MessageIds(Filter(MessageElsewhere(chatId), messages)) {
      var a :| a in Filter(MessageElsewhere(chatId), messages) && a.id == id;
      forall b | b in Filter(InChat(chatId), messages) ensures b.id != id {
        DifferentChats(messages, next, a, b);
      }
    } else if id in MessageIds(messages) {
      var a :| a in messages && a.id == id;
      assert a in Filter(InChat(chatId), messages);
    }
  }

  /** The inspection of a message that stays is there before the deletion exactly when it is there after it. */
  lemma InspectionLeft(t: Tables, chatId: string, id: int)
    requires OwnInspections(t, chatId)
    ensures HasInspection(Delete(t, chatId).inspections, id)
            <==> HasInspection(t.inspections, id) && id !in Doomed(t.messages, chatId)
  {
    hide MessageIds, Doomed;
    DeletedInspections(t, chatId);
    if HasInspection(t.inspections, id) && id !in Doomed(t.messages, chatId) {
      var x :| x in t.inspections && x.assistantMessageId == id;
      assert x in Delete(t, chatId).inspections;
    }
  }

  lemma InspectCommutes(t: Tables, w: Write, chatId: string)
    requires WellFormed(t) && OwnInspections(t, chatId) && w.Inspect? && Elsewhere(w, chatId)
    ensures Delete(Do(t, w), chatId) == Do(Delete(t, chatId), w)
  {
    hide HasChat, HasInspection, MessageIds, Update, OwnInspections, Doomed, MessageKeys, GistKeys, StateKeys, DocumentKeys, ChatKeys,
         ChatReferences, InspectionKeys;
    var keep := InspectionSurvives(Doomed(t.messages, chatId), chatId);
    var change, f := InspectionOf(w.messageId), ReplaceTrace(w.traceId, w.payload);
    OtherChatStays(t.chats, chatId, w.chatId);
    LeftIds(t.messages, t.nextMessageId, chatId, w.messageId);
    InspectionLeft(t, chatId, w.messageId);
    InspectedAfter(t, chatId, w);
    if HasInspection(t.inspections, w.messageId) {
      FilterUpdate(keep, change, f, t.inspections);
      if w.messageId in Doomed(t.messages, chatId) {
        NoneToUpdate(change, f, Filter(keep, t.inspections));
      }
    } else {
      var x := Inspection(w.messageId, w.chatId, w.traceId, w.payload, w.now);
      FilterConcat(keep, t.inspections, [x]);
      if w.messageId in Doomed(t.messages, chatId) {
        FilterNone(keep, [x]);
        assert Filter(keep, t.inspections) + [] == Filter(keep, t.inspections);
      } else {
        FilterAll(keep, [x]);
      }
    }
  }

  /** Deleting after an inspection: the other tables do not see it. */
  lemma InspectedAfter(t: Tables, chatId: string, w: Write)
    requires w.Inspect?
    ensures var keep := InspectionSurvives(Doomed(t.messages, chatId), chatId);
            && Delete(t, chatId).inspections == Filter(keep, t.inspections)
            && Delete(t, chatId).chats == Filter(ChatOther(chatId), t.chats)
            && Delete(t, chatId).messages == Filter(MessageElsewhere(chatId), t.messages)
            && forall after :: Delete(t.(inspections := after), chatId) == Delete(t, chatId).(inspections := Filter(keep, after))
  {
    hide MessageIds;
  }

  lemma ProcessCommutes(t: Tables, ids: set<int>, kind: Kind, chatId: string)
    ensures Delete(t.(messages := MarkProcessed(t.messages, ids, kind)), chatId)
            == Delete(t, chatId).(messages := MarkProcessed(Delete(t, chatId).messages, ids, kind))
  {
    hide MessageIds, MarkProcessed;
    MarkedDoomed(t.messages, ids, kind, chatId);
  }

  lemma RememberCommutes(t: Tables, w: Write, chatId: string)
    requires w.Remember? && Elsewhere(w, chatId)
    ensures Delete(Do(t, w), chatId) == Do(Delete(t, chatId), w)
  {
    hide HasChat, HasState, MessageIds, Update;
    OtherChatStays(t.chats, chatId, w.chatId);
    OtherStateStays(t.memoryStates, chatId, w.chatId);
    FilterUpdate(StateElsewhere(chatId), StateIs(w.chatId), ReplaceState(w.memory, w.now), t.memoryStates);
    FilterAppend(StateElsewhere(chatId), t.memoryStates, [MemoryState(w.chatId, w.memory, w.now)]);
  }

  lemma AddGistCommutes(t: Tables, w: Write, chatId: string)
    requires w.AddGist? && Elsewhere(w, chatId)
    ensures Delete(Do(t, w), chatId) == Do(Delete(t, chatId), w)
  {
    hide HasChat, MessageIds, MarkProcessed;
    OtherChatStays(t.chats, chatId, w.gist.chatId);
    FilterAppend(GistElsewhere(chatId), t.gists, [w.gist.(id := t.nextGistId)]);
    MarkedDoomed(t.messages, w.ids, GistKind, chatId);
  }

  lemma RemoveCommutes(t: Tables, id: string, chatId: string)
    requires id != chatId
    ensures Delete(Delete(t, id), chatId) == Delete(Delete(t, chatId), id)
  {
    hide MessageIds;
    FilterCommutes(ChatOther(id), ChatOther(chatId), t.chats);
    FilterCommutes(MessageElsewhere(id), MessageElsewhere(chatId), t.messages);
    FilterCommutes(StateElsewhere(id), StateElsewhere(chatId), t.memoryStates);
    FilterCommutes(GistElsewhere(id), GistElsewhere(chatId), t.gists);
    FilterCommutes(DocumentElsewhere(id), DocumentElsewhere(chatId), t.chatDocuments);
    FilterWithin(InChat(chatId), MessageElsewhere(id), t.messages);
    FilterWithin(InChat(id), MessageElsewhere(chatId), t.messages);
    FilterCommutes(InspectionSurvives(Doomed(t.messages, id), id), InspectionSurvives(Doomed(t.messages, chatId), chatId),
                   t.inspections);
  }

  /** What a fork of another chat reads is still there. */
  lemma ReadsTheSame(t: Tables, source: string, chatId: string)
    requires source != chatId
    ensures Listing(Delete(t, chatId).messages, source) == Listing(t.messages, source)
    ensures Filter(GistIn(source), Delete(t, chatId).gists) == Filter(GistIn(source), t.gists)
  {
    hide MessageIds, Sort;
    FilterWithin(InChat(source), MessageElsewhere(chatId), t.messages);
    FilterWithin(GistIn(source), GistElsewhere(chatId), t.gists);
  }

  /** Inspections of messages outside the source do not matter. */
  lemma {:induction false} SkippedInspections(xs: seq<Inspection>, keep: Inspection -> bool, ren: Renaming)
    requires forall x :: x in xs && !keep(x) ==> x.assistantMessageId !in ren.ids
    ensures ForkInspections(Filter(keep, xs), ren) == ForkInspections(xs, ren)
  {
    hide ForkInspection;
    if xs != [] {
      SkippedInspections(xs[1..], keep, ren);
      if keep(xs[0]) {
        assert Filter(keep, xs) == [xs[0]] + Filter(keep, xs[1..]);
      }
    }
  }

  lemma SourceIsNotDoomed(messages: seq<Message>, next: int, source: string, chatId: string, id: int)
    requires MessageKeys(messages, next) && source != chatId && id in Doomed(messages, chatId)
    ensures id !in IdMap(Listing(messages, source), next)
  {
    hide IdMap, Listing, Filter;
    ForkIdMap(messages, source, next);
    ListingFacts(messages, source);
    var b :| b in Filter(InChat(chatId), messages) && b.id == id;
    forall a | a in Listing(messages, source) ensures a.id != id {
      DifferentChats(messages, next, a, b);
    }
  }

  lemma DifferentChats(messages: seq<Message>, next: int, a: Message, b: Message)
    requires MessageKeys(messages, next) && a in messages && b in messages && a.chatId != b.chatId
    ensures a.id != b.id
  {
    var i :| 0 <= i < |messages| && messages[i] == a;
    var j :| 0 <= j < |messages| && messages[j] == b;
    assert i < j || j < i;
  }

  lemma ForksTheSameInspections(t: Tables, source: string, chatId: string, ren: Renaming)
    requires WellFormed(t) && source != chatId && ren.ids == IdMap(Listing(t.messages, source), t.nextMessageId)
    ensures ForkInspections(InspectionsOf(Delete(t, chatId).inspections, source), ren)
            == ForkInspections(InspectionsOf(t.inspections, source), ren)
  {
    hide ForkInspections, Listing, IdMap, MessageIds, GistKeys, StateKeys, DocumentKeys, ChatKeys, ChatReferences, Doomed;
    var keep := InspectionSurvives(Doomed(t.messages, chatId), chatId);
    DeletedInspections(t, chatId);
    InspectionOrder(t.inspections, t.messages);
    FilterCommutes(InspectionIn(source), keep, t.inspections);
    FilterSeparates(ByMessage, InspectionIn(source), t.inspections);
    SortFilter(ByMessage, keep, Filter(InspectionIn(source), t.inspections));
    var xs := InspectionsOf(t.inspections, source);
    forall x | x in xs && !keep(x) ensures x.assistantMessageId !in ren.ids {
      assert x.chatId == source;
      SourceIsNotDoomed(t.messages, t.nextMessageId, source, chatId, x.assistantMessageId);
    }
    SkippedInspections(xs, keep, ren);
  }

  lemma DeletedInspections(t: Tables, chatId: string)
    ensures Delete(t, chatId).inspections == Filter(InspectionSurvives(Doomed(t.messages, chatId), chatId), t.inspections)
  {
    hide MessageIds;
  }

  lemma InspectionOrder(inspections: seq<Inspection>, messages: seq<Message>)
    requires InspectionKeys(inspections, messages)
    ensures StrictOrder(ByMessage) && Separates(ByMessage, inspections)
  {
  }

  lemma ForkToCommutes(t: Tables, w: Write, chatId: string)
    requires WellFormed(t) && w.ForkTo? && Elsewhere(w, chatId)
    ensures Delete(Do(t, w), chatId) == Do(Delete(t, chatId), w)
  {
    hide Fork, Delete, WellFormed, HasChat, Listing, ForkGists, ForkInspections, InspectionsOf, Filter, IdMap, Copies, ChatNamed;
    var d := Delete(t, chatId);
    DeleteKeeps(t, chatId);
    ReadsTheSame(t, w.source, chatId);
    OtherChatStays(t.chats, chatId, w.source);
    OtherChatStays(t.chats, chatId, w.chatId);
    ForksTheSameInspections(t, w.source, chatId, ForkRenaming(t, w.source, w.chatId));
    ForkUnfolded(t, w.source, w.chatId, w.now);
    ForkUnfolded(d, w.source, w.chatId, w.now);
    if Fork(t, w.source, w.chatId, w.now).Ok? {
      OtherChatNamed(t.chats, chatId, w.source);
      ForkedRowsStay(t, w.source, w.chatId, w.now, chatId);
    }
  }

  lemma DeleteKeeps(t: Tables, chatId: string)
    ensures var d := Delete(t, chatId);
            && d.nextMessageId == t.nextMessageId && d.nextGistId == t.nextGistId
            && d.chats == Filter(ChatOther(chatId), t.chats)
  {
    hide MessageIds;
  }

  /** Deleting a chat after another has been forked leaves the rows of that fork. */
  lemma ForkedRowsStay(t: Tables, source: string, target: string, now: int, chatId: string)
    requires WellFormed(t) && Fork(t, source, target, now).Ok? && target != chatId
    ensures var t', d := Fork(t, source, target, now).value, Delete(t, chatId);
            && |t'.chats| >= |t.chats| && |t'.messages| >= |t.messages| && |t'.gists| >= |t.gists|
            && |t'.inspections| >= |t.inspections|
            && Delete(t', chatId) == t'.(chats := d.chats + t'.chats[|t.chats|..],
                                         messages := d.messages + t'.messages[|t.messages|..],
                                         gists := d.gists + t'.gists[|t.gists|..],
                                         inspections := d.inspections + t'.inspections[|t.inspections|..],
                                         memoryStates := d.memoryStates, chatDocuments := d.chatDocuments)
  {
    var t', ren := Fork(t, source, target, now).value, ForkRenaming(t, source, target);
    var ms, xs := Listing(t.messages, source), InspectionsOf(t.inspections, source);
    hide Fork, WellFormed, HasChat, Listing, ForkGists, ForkInspections, InspectionsOf, Filter, IdMap, Copies, MessageIds;
    ForkParts(t, source, target, now);
    CopiesInTarget(ms, target, t.nextMessageId);
    ForkedRowsInTarget(Filter(GistIn(source), t.gists), xs, ren, t.nextGistId);
    var copies, gists, inspections := t'.messages[|t.messages|..], t'.gists[|t.gists|..], t'.inspections[|t.inspections|..];
    assert t'.messages == t.messages + copies && t'.gists == t.gists + gists && t'.inspections == t.inspections + inspections;
    FilterAppend(ChatOther(chatId), t.chats, t'.chats[|t.chats|..]);
    FilterAppend(MessageElsewhere(chatId), t.messages, copies);
    FilterAppend(GistElsewhere(chatId), t.gists, gists);
    SameDoomed(t.messages, copies, chatId);
    NewIdsAreNotDoomed(t, source, target, chatId);
    FilterAppend(InspectionSurvives(Doomed(t.messages, chatId), chatId), t.inspections, inspections);
  }

  lemma NewIdsAreNotDoomed(t: Tables, source: string, target: string, chatId: string)
    requires WellFormed(t) && ForkInspections(InspectionsOf(t.inspections, source), ForkRenaming(t, source, target)).Some?
    ensures forall y :: y in ForkInspections(InspectionsOf(t.inspections, source), ForkRenaming(t, source, target)).value ==>
              y.assistantMessageId !in Doomed(t.messages, chatId)
  {
    hide Listing, ForkInspections, InspectionsOf, IdMap, GistKeys, StateKeys, DocumentKeys, ChatKeys, ChatReferences, InspectionKeys, HasChat,
         JsonFollows;
    var xs, ren := InspectionsOf(t.inspections, source), ForkRenaming(t, source, target);
    ForkInspectionsExact(xs, ren);
    ForkIdMap(t.messages, source, t.nextMessageId);
    forall y | y in ForkInspections(xs, ren).value ensures y.assistantMessageId >= t.nextMessageId {
      var x :| x in xs && InspectionFollows(x, y, ren);
    }
  }

  /** Deleting a chat commutes with every write that names another. */
  lemma DeleteCommutes(t: Tables, w: Write, chatId: string)
    requires WellFormed(t) && Elsewhere(w, chatId) && (w.Inspect? ==> OwnInspections(t, chatId))
    ensures Delete(Do(t, w), chatId) == Do(Delete(t, chatId), w)
  {
    hide WellFormed, Delete, Elsewhere, OwnInspections, ContentUpdated, DocumentDropped, InspectionSaved, DocumentLinked, TitleUpdated,
         ModelUpdated;
    match w {
      case NewChat(_, _, _, _) => NewChatCommutes(t, w, chatId);
      case Activity(_, _) => ActivityCommutes(t, w, chatId);
      case Save(_, _, _, _) => SaveCommutes(t, w, chatId);
      case Process(ids, kind) => ProcessCommutes(t, ids, kind, chatId);
      case Remember(_, _, _) => RememberCommutes(t, w, chatId);
      case AddGist(_, _) => AddGistCommutes(t, w, chatId);
      case Remove(id) =>
        ElsewhereNames(w, chatId);
        RemoveCommutes(t, id, chatId);
      case ForkTo(_, _, _) => ForkToCommutes(t, w, chatId);
      case Retitle(_, _, _) => RetitleCommutes(t, w, chatId);
      case ChooseModel(_, _) => RetitleCommutes(t, w, chatId);
      case Edit(id, content) => EditCommutes(t, id, content, chatId);
      case Inspect(_, _, _, _, _) => InspectCommutes(t, w, chatId);
      case LinkDocument(_, _, _, _, _) => LinkCommutes(t, w, chatId);
      case DropDocument(documentId) => DropCommutes(t, documentId, chatId);
    }
  }

  lemma ElsewhereNames(w: Write, chatId: string)
    requires w.Remove? && Elsewhere(w, chatId)
    ensures w.chatId != chatId
  {
  }

  /** Nobody else gives the chat an inspection of a message that is not its own. */
  lemma OwnKept(t: Tables, t': Tables, chatId: string)
    requires OwnInspections(t, chatId) && Doomed(t'.messages, chatId) == Doomed(t.messages, chatId)
    requires forall x :: x in t'.inspections && x.chatId == chatId ==> HadInspection(t, x.assistantMessageId, chatId)
    ensures OwnInspections(t', chatId)
  {
    hide Doomed;
  }

  ghost predicate HadInspection(t: Tables, id: int, chatId: string) {
    exists y :: y in t.inspections && y.chatId == chatId && y.assistantMessageId == id
  }

  lemma SameOwn(t: Tables, t': Tables, chatId: string)
    requires OwnInspections(t, chatId) && t'.messages == t.messages && t'.inspections == t.inspections
    ensures OwnInspections(t', chatId)
  {
    hide Doomed;
  }

  lemma InspectOwn(t: Tables, w: Write, chatId: string)
    requires OwnInspections(t, chatId) && w.Inspect? && Elsewhere(w, chatId)
    ensures OwnInspections(Do(t, w), chatId)
  {
    hide Doomed, OwnInspections, HasChat, HasInspection, MessageIds;
    var after := Do(t, w).inspections;
    forall x | x in after && x.chatId == chatId ensures HadInspection(t, x.assistantMessageId, chatId) {
      var i :| 0 <= i < |after| && after[i] == x;
      assert t.inspections[i] in t.inspections;
    }
    OwnKept(t, Do(t, w), chatId);
  }

  lemma RemoveOwn(t: Tables, id: string, chatId: string)
    requires OwnInspections(t, chatId) && id != chatId
    ensures OwnInspections(Delete(t, id), chatId)
  {
    hide MessageIds, OwnInspections;
    FilterWithin(InChat(chatId), MessageElsewhere(id), t.messages);
    OwnKept(t, Delete(t, id), chatId);
  }

  lemma ForkOwn(t: Tables, source: string, target: string, now: int, chatId: string)
    requires WellFormed(t) && OwnInspections(t, chatId) && target != chatId && Fork(t, source, target, now).Ok?
    ensures OwnInspections(Fork(t, source, target, now).value, chatId)
  {
    hide WellFormed, Fork, OwnInspections, Copies, Listing, ForkGists, ForkInspections, Filter, Doomed, InspectionsOf, IdMap;
    var t', ren := Fork(t, source, target, now).value, ForkRenaming(t, source, target);
    ForkParts(t, source, target, now);
    CopiesInTarget(Listing(t.messages, source), target, t.nextMessageId);
    SameDoomed(t.messages, Copies(Listing(t.messages, source), target, t.nextMessageId), chatId);
    ForkedRowsInTarget(Filter(GistIn(source), t.gists), InspectionsOf(t.inspections, source), ren, t.nextGistId);
    OwnKept(t, t', chatId);
  }

  lemma DoKeepsOwn(t: Tables, w: Write, chatId: string)
    requires WellFormed(t) && OwnInspections(t, chatId) && Elsewhere(w, chatId)
    ensures OwnInspections(Do(t, w), chatId)
  {
    hide WellFormed, OwnInspections, Delete, Fork, HasChat, Doomed, Update, HasInspection, HasLink, HasState, MessageIds, MarkProcessed,
         ContentUpdated;
    match w {
      case Save(_, _, _, _) =>
        SameDoomed(t.messages, [NewMessage(t, w.chatId, w.role, w.content, w.now)], chatId);
        OwnKeptNow(t, Do(t, w), chatId);
      case Process(ids, kind) =>
        MarkedDoomed(t.messages, ids, kind, chatId);
        OwnKeptNow(t, Do(t, w), chatId);
      case AddGist(_, ids) =>
        MarkedDoomed(t.messages, ids, GistKind, chatId);
        OwnKeptNow(t, Do(t, w), chatId);
      case Edit(id, content) =>
        EditedDoomed(t.messages, id, content, chatId);
        OwnKeptNow(t, Do(t, w), chatId);
      case Inspect(_, _, _, _, _) => InspectOwn(t, w, chatId);
      case Remove(id) => RemoveOwn(t, id, chatId);
      case ForkTo(source, target, now) =>
        if Fork(t, source, target, now).Ok? {
          ForkOwn(t, source, target, now, chatId);
        }
      case _ => SameOwn(t, Do(t, w), chatId);
    }
  }

  lemma EditedDoomed(messages: seq<Message>, id: int, content: string, chatId: string)
    ensures Doomed(ContentUpdated(messages, id, content), chatId) == Doomed(messages, chatId)
  {
    UpdatedDoomed(messages, WithIds({id}), SetContent(content), chatId);
  }

  lemma OwnKeptNow(t: Tables, t': Tables, chatId: string)
    requires OwnInspections(t, chatId) && Doomed(t'.messages, chatId) == Doomed(t.messages, chatId)
    requires t'.inspections == t.inspections
    ensures OwnInspections(t', chatId)
  {
    hide Doomed;
  }

  /** A fresh fork's inspections are of its own messages. */
  lemma ForkIsOwn(t: Tables, source: string, target: string, now: int)
    requires WellFormed(t) && Fork(t, source, target, now).Ok?
    ensures OwnInspections(Fork(t, source, target, now).value, target)
  {
    hide Fork, Copies, Listing, ForkGists, ForkInspections, Filter, InspectionsOf, IdMap, GistKeys, StateKeys, DocumentKeys, ChatKeys,
         ChatReferences, HasChat, MessageIds, InspectionFollows;
    var t', ren := Fork(t, source, target, now).value, ForkRenaming(t, source, target);
    var ms := Listing(t.messages, source);
    ForkParts(t, source, target, now);
    NoRowsYet(t, target);
    ForkIdMap(t.messages, source, t.nextMessageId);
    CopiesInTarget(ms, target, t.nextMessageId);
    AppendedRows(t.messages, Copies(ms, target, t.nextMessageId), target);
    ForkInspectionsExact(InspectionsOf(t.inspections, source), ren);
    forall y | y in t'.inspections && y.chatId == target ensures y.assistantMessageId in Doomed(t'.messages, target) {
      var x :| x in InspectionsOf(t.inspections, source) && InspectionFollows(x, y, ren);
      FollowerId(x, y, ren);
      NewIdIsCopied(ms, ren.ids, target, t.nextMessageId, x.assistantMessageId);
    }
  }

  lemma {:induction false} DeleteCommutesAll(t: Tables, writes: seq<Write>, chatId: string)
    requires WellFormed(t) && OwnInspections(t, chatId) && forall w :: w in writes ==> Elsewhere(w, chatId)
    ensures Delete(DoAll(t, writes), chatId) == DoAll(Delete(t, chatId), writes)
    decreases |writes|
  {
    hide WellFormed, Delete, Do, Elsewhere, OwnInspections;
    if writes != [] {
      DeleteCommutes(t, writes[0], chatId);
      DoKeepsSchema(t, writes[0]);
      DoKeepsOwn(t, writes[0], chatId);
      DeleteCommutesAll(Do(t, writes[0]), writes[1..], chatId);
    }
  }

  /** Deleting a fork after any writes elsewhere leaves what those writes would have left had there been no fork,
      but for the ids that the fork has used up. */
  lemma CompensationIsExact(t: Tables, source: string, target: string, now: int, writes: seq<Write>)
    requires WellFormed(t) && Fork(t, source, target, now).Ok? && forall w :: w in writes ==> Elsewhere(w, target)
    ensures var t' := Fork(t, source, target, now).value;
            Delete(DoAll(t', writes), target)
            == DoAll(t.(nextMessageId := t'.nextMessageId, nextGistId := t'.nextGistId), writes)
  {
    hide WellFormed, Delete, DoAll, Fork, Elsewhere, OwnInspections;
    DeleteUndoesFork(t, source, target, now);
    ForkKeepsSchema(t, source, target, now);
    ForkIsOwn(t, source, target, now);
    DeleteCommutesAll(Fork(t, source, target, now).value, writes, target);
  }

  // ---------------------------------------------------------------- writes that name the chat itself

  /** The write names the chat, and does not copy it. */
  predicate Names(w: Write, chatId: string) {
    !Elsewhere(w, chatId) && !(w.ForkTo? && w.source == chatId)
  }

  /** What such a write leaves once the chat is deleted: the ids it used up, the flags it set on messages of others,
      and the trace it replaced when the message was inspected for another chat. */
  function LeftBy(t: Tables, w: Write, chatId: string): Tables {
    var d, after := Delete(t, chatId), Do(t, w);
    d.(nextMessageId := after.nextMessageId, nextGistId := after.nextGistId,
       messages := if w.AddGist? && HasChat(t.chats, chatId) then MarkProcessed(d.messages, w.ids, GistKind) else d.messages,
       inspections := if w.Inspect? then Update(InspectionOf(w.messageId), ReplaceTrace(w.traceId, w.payload), d.inspections)
                      else d.inspections)
  }

  /** Rows that a selection drops before and after an update do not matter to it. */
  lemma {:induction false} FilterIgnores<T(!new)>(p: T -> bool, q: T -> bool, f: T -> T, rows: seq<T>)
    requires forall x :: q(x) ==> !p(x) && !p(f(x))
    ensures Filter(p, Update(q, f, rows)) == Filter(p, rows)
  {
    if rows != [] {
      FilterIgnores(p, q, f, rows[1..]);
      assert Update(q, f, rows)[1..] == Update(q, f, rows[1..]);
    }
  }

  lemma FilterDrops<T(!new)>(p: T -> bool, rows: seq<T>, x: T)
    requires !p(x)
    ensures Filter(p, rows + [x]) == Filter(p, rows)
  {
    FilterConcat(p, rows, [x]);
    FilterNone(p, [x]);
    assert Filter(p, rows) + [] == Filter(p, rows);
  }

  lemma OwnChatIgnored(t: Tables, f: Chat -> Chat, chatId: string)
    requires forall c :: f(c).id == c.id
    ensures Delete(t.(chats := Update(ChatIs(chatId), f, t.chats)), chatId) == Delete(t, chatId)
  {
    hide MessageIds;
    FilterIgnores(ChatOther(chatId), ChatIs(chatId), f, t.chats);
  }

  lemma ChatRowLeaves(t: Tables, w: Write, chatId: string)
    requires (w.NewChat? || w.Activity? || w.Retitle? || w.ChooseModel?) && w.chatId == chatId
    ensures Delete(Do(t, w), chatId) == LeftBy(t, w, chatId)
  {
    hide Update, MessageIds, HasChat, Filter;
    match w {
      case NewChat(_, title, modelName, now) =>
        OwnChatIgnored(t, Rename(title, modelName), chatId);
        FilterDrops(ChatOther(chatId), t.chats, Chat(chatId, title, now, now, modelName, true));
      case Activity(_, active) => OwnChatIgnored(t, SetActiveFlag(active), chatId);
      case Retitle(_, title, now) => OwnChatIgnored(t, SetTitle(title, now), chatId);
      case ChooseModel(_, model) => OwnChatIgnored(t, SetModel(model), chatId);
    }
  }

  /** A message saved to the chat takes no inspection of another with it. */
  lemma SaveLeaves(t: Tables, w: Write, chatId: string)
    requires WellFormed(t) && w.Save? && w.chatId == chatId
    ensures Delete(Do(t, w), chatId) == LeftBy(t, w, chatId)
  {
    hide Update, HasChat, GistKeys, StateKeys, DocumentKeys, ChatKeys, ChatReferences, Filter, MessageIds;
    var m := NewMessage(t, chatId, w.role, w.content, w.now);
    FilterDrops(MessageElsewhere(chatId), t.messages, m);
    FilterIgnores(ChatOther(chatId), ChatIs(chatId), Touch(w.now), t.chats);
    DoomedPlus(t.messages, m, chatId);
    OldIds(t.messages, t.nextMessageId);
    var before, after := Doomed(t.messages, chatId), Doomed(t.messages + [m], chatId);
    FilterAgree(InspectionSurvives(after, chatId), InspectionSurvives(before, chatId), t.inspections);
  }

  lemma DoomedPlus(messages: seq<Message>, m: Message, chatId: string)
    requires m.chatId == chatId
    ensures Doomed(messages + [m], chatId) == Doomed(messages, chatId) + {m.id}
  {
    FilterAppend(InChat(chatId), messages, [m]);
    var mine := Filter(InChat(chatId), messages);
    assert MessageIds(mine + [m]) == MessageIds(mine) + {m.id};
  }

  lemma RowsLeave(t: Tables, w: Write, chatId: string)
    requires (w.Remember? || w.AddGist? || w.LinkDocument?) && !Elsewhere(w, chatId)
    ensures Delete(Do(t, w), chatId) == LeftBy(t, w, chatId)
  {
    hide Update, HasChat, HasState, HasLink, Filter, MessageIds, MarkProcessed;
    match w {
      case Remember(_, memory, now) =>
        FilterIgnores(StateElsewhere(chatId), StateIs(chatId), ReplaceState(memory, now), t.memoryStates);
        FilterDrops(StateElsewhere(chatId), t.memoryStates, MemoryState(chatId, memory, now));
      case AddGist(gist, ids) =>
        FilterDrops(GistElsewhere(chatId), t.gists, gist.(id := t.nextGistId));
        MarkedDoomed(t.messages, ids, GistKind, chatId);
      case LinkDocument(_, documentId, selected, now, _) =>
        FilterIgnores(DocumentElsewhere(chatId), LinkIs(chatId, documentId), SetSelected(selected), t.chatDocuments);
        FilterDrops(DocumentElsewhere(chatId), t.chatDocuments, ChatDocument(chatId, documentId, selected, now));
    }
  }

  lemma InspectLeaves(t: Tables, w: Write, chatId: string)
    requires w.Inspect? && w.chatId == chatId
    ensures Delete(Do(t, w), chatId) == LeftBy(t, w, chatId)
  {
    hide HasChat, HasInspection, MessageIds, Update, Filter, Doomed;
    var keep := InspectionSurvives(Doomed(t.messages, chatId), chatId);
    var change, f := InspectionOf(w.messageId), ReplaceTrace(w.traceId, w.payload);
    InspectedAfter(t, chatId, w);
    FilterUpdate(keep, change, f, t.inspections);
    FilterDrops(keep, t.inspections, Inspection(w.messageId, chatId, w.traceId, w.payload, w.now));
    if !HasInspection(t.inspections, w.messageId) {
      NotInspected(t.inspections, w.messageId);
      NoneToUpdate(change, f, Filter(keep, t.inspections));
    }
  }

  lemma NotInspected(inspections: seq<Inspection>, id: int)
    requires !HasInspection(inspections, id)
    ensures forall x :: x in inspections ==> !InspectionOf(id)(x)
  {
  }

  lemma RemoveLeaves(t: Tables, chatId: string)
    requires WellFormed(t)
    ensures Delete(Delete(t, chatId), chatId) == Delete(t, chatId)
  {
    hide WellFormed;
    DeleteKeepsSchema(t, chatId);
    NothingToDelete(Delete(t, chatId), chatId);
  }

  /** Deleting a chat that is not there changes nothing. */
  lemma NothingToDelete(t: Tables, chatId: string)
    requires WellFormed(t) && !HasChat(t.chats, chatId)
    ensures Delete(t, chatId) == t
  {
    hide MessageKeys, GistKeys, StateKeys, DocumentKeys, ChatKeys, InspectionKeys;
    NoRowsYet(t, chatId);
    FilterAll(ChatOther(chatId), t.chats);
    FilterAll(MessageElsewhere(chatId), t.messages);
    FilterAll(StateElsewhere(chatId), t.memoryStates);
    FilterAll(GistElsewhere(chatId), t.gists);
    FilterAll(DocumentElsewhere(chatId), t.chatDocuments);
    FilterNone(InChat(chatId), t.messages);
    FilterAll(InspectionSurvives({}, chatId), t.inspections);
    NoIds();
  }

  lemma ForkLeaves(t: Tables, w: Write, chatId: string)
    requires WellFormed(t) && w.ForkTo? && w.chatId == chatId
    ensures Delete(Do(t, w), chatId) == LeftBy(t, w, chatId)
  {
    hide WellFormed, Delete, Fork, HasChat;
    DeleteKeepsCounters(t, chatId);
    if Fork(t, w.source, chatId, w.now).Ok? {
      DeleteUndoesFork(t, w.source, chatId, w.now);
      ForkNeedsRoom(t, w.source, chatId, w.now);
      NothingToDelete(t, chatId);
    }
  }

  lemma ForkNeedsRoom(t: Tables, source: string, target: string, now: int)
    requires Fork(t, source, target, now).Ok?
    ensures !HasChat(t.chats, target)
  {
    hide HasChat;
  }

  /** A write that names the chat is undone by deleting it, but for what LeftBy says. */
  lemma NamedWriteLeaves(t: Tables, w: Write, chatId: string)
    requires WellFormed(t) && Names(w, chatId)
    ensures Delete(Do(t, w), chatId) == LeftBy(t, w, chatId)
  {
    hide WellFormed, Delete, LeftBy, Do;
    match w {
      case NewChat(_, _, _, _) => ChatRowLeaves(t, w, chatId);
      case Activity(_, _) => ChatRowLeaves(t, w, chatId);
      case Retitle(_, _, _) => ChatRowLeaves(t, w, chatId);
      case ChooseModel(_, _) => ChatRowLeaves(t, w, chatId);
      case Save(_, _, _, _) => SaveLeaves(t, w, chatId);
      case Remember(_, _, _) => RowsLeave(t, w, chatId);
      case AddGist(_, _) => RowsLeave(t, w, chatId);
      case LinkDocument(_, _, _, _, _) => RowsLeave(t, w, chatId);
      case Inspect(_, _, _, _, _) => InspectLeaves(t, w, chatId);
      case Remove(_) => RemovedAgain(t, w, chatId);
      case ForkTo(_, _, _) => ForkLeaves(t, w, chatId);
    }
  }

  lemma RemovedAgain(t: Tables, w: Write, chatId: string)
    requires WellFormed(t) && w.Remove? && w.chatId == chatId
    ensures Delete(Do(t, w), chatId) == LeftBy(t, w, chatId)
  {
    hide WellFormed, Delete, Update, HasChat, MarkProcessed;
    RemoveLeaves(t, chatId);
    DeleteKeepsCounters(t, chatId);
  }

  lemma DeleteKeepsCounters(t: Tables, chatId: string)
    ensures Delete(t, chatId).nextMessageId == t.nextMessageId && Delete(t, chatId).nextGistId == t.nextGistId
  {
    hide MessageIds;
  }
}
