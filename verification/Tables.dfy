/** The relational schema as a value, with the queries and statements that act on it. */
module Tables {
  import opened Results
  import opened Rows
  import opened Provenance

  datatype Role = System | User | Assistant

  datatype Chat = Chat(id: string, title: Option<string>, createdAt: int, updatedAt: int,
                       modelName: Option<string>, active: bool)

  datatype Message = Message(id: int, chatId: string, role: Role, content: string, createdAt: int,
                             summarized: bool, gistProcessed: bool)

  /** A JSON column: text that decodes, or text that does not. */
  datatype JsonColumn = Decoded(value: Json) | Undecodable(text: string)

  datatype Gist = Gist(id: int, chatId: string, sourceType: string, gistText: string, topicsJson: string,
                       decisionsJson: string, openTasksJson: string, startMessageId: Option<int>,
                       endMessageId: Option<int>, createdAt: int, updatedAt: int, metadata: JsonColumn)

  datatype Inspection = Inspection(assistantMessageId: int, chatId: string, traceId: string,
                                   payload: JsonColumn, createdAt: int)

  datatype MemoryState = MemoryState(chatId: string, memoryJson: string, updatedAt: int)

  datatype ChatDocument = ChatDocument(chatId: string, documentId: string, selected: bool, associatedAt: int)

  /** Every table that holds chat-local rows, in insertion order, with its AUTOINCREMENT counters. */
  datatype Tables = Tables(
    chats: seq<Chat>,
    messages: seq<Message>,
    memoryStates: seq<MemoryState>,
    gists: seq<Gist>,
    inspections: seq<Inspection>,
    chatDocuments: seq<ChatDocument>,
    nextMessageId: int,
    nextGistId: int)

  predicate HasChat(chats: seq<Chat>, id: string) {
    exists c :: c in chats && c.id == id
  }

  function MessageIds(messages: seq<Message>): set<int> {
    set m | m in messages :: m.id
  }

  function IdSeq(ms: seq<Message>): (r: seq<int>)
    ensures |r| == |ms| && forall i :: 0 <= i < |ms| ==> r[i] == ms[i].id
  {
    if ms == [] then [] else [ms[0].id] + IdSeq(ms[1..])
  }

  ghost predicate IdsIncrease(messages: seq<Message>) {
    forall i, j :: 0 <= i < j < |messages| ==> messages[i].id < messages[j].id
  }

  /** Message rows are in id order, below the AUTOINCREMENT counter. */
  ghost predicate MessageKeys(messages: seq<Message>, next: int) {
    && (forall i, j :: 0 <= i < j < |messages| ==> messages[i].id < messages[j].id)
    && (forall m :: m in messages ==> m.id < next)
  }

  ghost predicate GistKeys(gists: seq<Gist>, next: int) {
    && (forall i, j :: 0 <= i < j < |gists| ==> gists[i].id < gists[j].id)
    && (forall g :: g in gists ==> g.id < next)
  }

  ghost predicate ChatKeys(chats: seq<Chat>) {
    forall i, j :: 0 <= i < j < |chats| ==> chats[i].id != chats[j].id
  }

  ghost predicate InspectionKeys(inspections: seq<Inspection>, messages: seq<Message>) {
    && (forall i, j :: 0 <= i < j < |inspections| ==>
          inspections[i].assistantMessageId != inspections[j].assistantMessageId)
    && (forall x :: x in inspections ==> x.assistantMessageId in MessageIds(messages))
  }

  ghost predicate StateKeys(states: seq<MemoryState>) {
    forall i, j :: 0 <= i < j < |states| ==> states[i].chatId != states[j].chatId
  }

  /** PRIMARY KEY (chat_id, document_id) */
  ghost predicate DocumentKeys(documents: seq<ChatDocument>) {
    forall i, j :: 0 <= i < j < |documents| ==> (documents[i].chatId, documents[i].documentId) != (documents[j].chatId, documents[j].documentId)
  }

  /** FOREIGN KEY (chat_id) REFERENCES chats(id), for every table that has it. */
  ghost predicate ChatReferences(t: Tables) {
    && (forall m :: m in t.messages ==> HasChat(t.chats, m.chatId))
    && (forall g :: g in t.gists ==> HasChat(t.chats, g.chatId))
    && (forall x :: x in t.inspections ==> HasChat(t.chats, x.chatId))
    && (forall s :: s in t.memoryStates ==> HasChat(t.chats, s.chatId))
    && (forall d :: d in t.chatDocuments ==> HasChat(t.chats, d.chatId))
  }

  /** Primary keys, AUTOINCREMENT counters and foreign keys. */
  ghost predicate WellFormed(t: Tables) {
    && ChatKeys(t.chats)
    && MessageKeys(t.messages, t.nextMessageId)
    && GistKeys(t.gists, t.nextGistId)
    && InspectionKeys(t.inspections, t.messages)
    && StateKeys(t.memoryStates)
    && DocumentKeys(t.chatDocuments)
    && ChatReferences(t)
  }

  // ---------------------------------------------------------------- queries

  /** ORDER BY created_at ASC, id ASC */
  predicate Chrono(a: Message, b: Message) {
    a.createdAt < b.createdAt || (a.createdAt == b.createdAt && a.id < b.id)
  }

  function InChat(chatId: string): Message -> bool {
    (m: Message) => m.chatId == chatId
  }

  function GistIn(chatId: string): Gist -> bool {
    (g: Gist) => g.chatId == chatId
  }

  function InspectionIn(chatId: string): Inspection -> bool {
    (x: Inspection) => x.chatId == chatId
  }

  predicate ByMessage(a: Inspection, b: Inspection) {
    a.assistantMessageId < b.assistantMessageId
  }

  /** messages_for_chat. */
  function Listing(messages: seq<Message>, chatId: string): seq<Message> {
    Sort(Chrono, Filter(InChat(chatId), messages))
  }

  function Min(a: int, b: int): int {
    if a < b then a else b
  }

  function Max(a: int, b: int): int {
    if a < b then b else a
  }

  function InSpan(start: int, end: int): Message -> bool {
    (m: Message) => Min(start, end) <= m.id <= Max(start, end)
  }

  /** messages_for_chat_span: the inclusive id span, in chronological order. */
  function Span(messages: seq<Message>, chatId: string, start: int, end: int): seq<Message> {
    Sort(Chrono, Filter(InSpan(start, end), Filter(InChat(chatId), messages)))
  }

  function InspectionsOf(inspections: seq<Inspection>, chatId: string): seq<Inspection> {
    Sort(ByMessage, Filter(InspectionIn(chatId), inspections))
  }

  lemma ChronoIsOrder()
    ensures StrictOrder(Chrono)
  {
  }

  lemma ListingFacts(messages: seq<Message>, chatId: string)
    requires forall i, j :: 0 <= i < j < |messages| ==> messages[i].id < messages[j].id
    ensures Sorted(Chrono, Listing(messages, chatId))
    ensures forall m :: m in Listing(messages, chatId) <==> m in messages && m.chatId == chatId
    ensures var l := Listing(messages, chatId); forall i, j :: 0 <= i < j < |l| ==> l[i].id != l[j].id
  {
    var mine := Filter(InChat(chatId), messages);
    assert Separates(Chrono, messages);
    FilterSeparates(Chrono, InChat(chatId), messages);
    SortSorts(Chrono, mine);
    var l := Sort(Chrono, mine);
    forall i, j | 0 <= i < j < |l| ensures l[i].id != l[j].id {
      var a, b := l[i], l[j];
      assert a in mine && b in mine && Chrono(a, b);
    }
  }

  /** ORDER BY created_at DESC, id DESC */
  predicate Latest(a: Message, b: Message) {
    Chrono(b, a)
  }

  function NewestFirst(messages: seq<Message>, chatId: string, k: int): seq<Message> {
    Limit(Sort(Latest, Filter(InChat(chatId), messages)), k)
  }

  /** recent_messages. */
  function Recent(messages: seq<Message>, chatId: string, k: int): seq<Message> {
    Reverse(NewestFirst(messages, chatId, k))
  }

  function NotIn(ids: set<int>): Message -> bool {
    (m: Message) => m.id !in ids
  }

  /** old_messages: outside the newest k, at most n of them. */
  function Old(messages: seq<Message>, chatId: string, k: int, n: int): seq<Message> {
    var window := MessageIds(NewestFirst(messages, chatId, k));
    Limit(Sort(Chrono, Filter(NotIn(window), Filter(InChat(chatId), messages))), n)
  }

  datatype Kind = Summary | GistKind

  predicate Processed(m: Message, kind: Kind) {
    match kind case Summary => m.summarized case GistKind => m.gistProcessed
  }

  function PendingOutside(kind: Kind, ids: set<int>): Message -> bool {
    (m: Message) => !Processed(m, kind) && m.id !in ids
  }

  /** _old_unprocessed_messages. */
  function OldUnprocessed(messages: seq<Message>, chatId: string, k: int, n: int, kind: Kind): seq<Message> {
    var window := MessageIds(NewestFirst(messages, chatId, k));
    Limit(Sort(Chrono, Filter(PendingOutside(kind, window), Filter(InChat(chatId), messages))), n)
  }

  // ---------------------------------------------------------------- fork_chat

  datatype ForkError = ChatNotFound | ChatExists | StaleProvenance

  /** The copy of one message: a new id in the new chat, already consumed by semantic memory. */
  function Copy(m: Message, chatId: string, id: int): Message {
    m.(id := id, chatId := chatId, summarized := true)
  }

  /** The copies of a listing, in its order, under consecutive ids. */
  function Copies(ms: seq<Message>, chatId: string, first: int): (r: seq<Message>)
    ensures |r| == |ms|
  {
    seq(|ms|, i requires 0 <= i < |ms| => Copy(ms[i], chatId, first + i))
  }

  function IdMap(ms: seq<Message>, first: int): map<int, int> {
    if ms == [] then map[]
    else IdMap(ms[..|ms| - 1], first)[ms[|ms| - 1].id := first + |ms| - 1]
  }

  function RemapColumn(id: Option<int>, ids: map<int, int>): Option<Option<int>> {
    match id
    case None => Some(None)
    case Some(n) => if n in ids then Some(Some(ids[n])) else None
  }

  function RemapJson(column: JsonColumn, ren: Renaming): Option<JsonColumn> {
    match column
    case Undecodable(_) => None
    case Decoded(v) =>
      var w :- Remap(v, ren);
      Some(Decoded(w))
  }

  function ForkGist(g: Gist, ren: Renaming, id: int): Option<Gist> {
    var start :- RemapColumn(g.startMessageId, ren.ids);
    var end :- RemapColumn(g.endMessageId, ren.ids);
    var metadata :- RemapJson(g.metadata, ren);
    Some(g.(id := id, chatId := ren.target, startMessageId := start, endMessageId := end, metadata := metadata))
  }

  function ForkGists(gs: seq<Gist>, ren: Renaming, first: int): Option<seq<Gist>> {
    if gs == [] then Some([])
    else
      var head :- ForkGist(gs[0], ren, first);
      var tail :- ForkGists(gs[1..], ren, first + 1);
      Some([head] + tail)
  }

  function ForkInspection(x: Inspection, ren: Renaming): Option<Inspection>
    requires x.assistantMessageId in ren.ids
  {
    var payload :- RemapJson(x.payload, ren);
    Some(x.(assistantMessageId := ren.ids[x.assistantMessageId], chatId := ren.target, payload := payload))
  }

  /** Inspections of messages outside the chat are skipped. */
  function ForkInspections(xs: seq<Inspection>, ren: Renaming): Option<seq<Inspection>> {
    if xs == [] then Some([])
    else if xs[0].assistantMessageId in ren.ids then
      var head :- ForkInspection(xs[0], ren);
      var tail :- ForkInspections(xs[1..], ren);
      Some([head] + tail)
    else ForkInspections(xs[1..], ren)
  }

  function ChatNamed(chats: seq<Chat>, id: string): Chat
    requires HasChat(chats, id)
  {
    if chats[0].id == id then chats[0] else ChatNamed(chats[1..], id)
  }

  function ForkRenaming(t: Tables, source: string, target: string): Renaming {
    Renaming(IdMap(Listing(t.messages, source), t.nextMessageId), source, target)
  }

  /** The committed result of one fork, or the reason it is rolled back. */
  function Fork(t: Tables, source: string, target: string, now: int): Result<Tables, ForkError> {
    if !HasChat(t.chats, source) then Err(ChatNotFound)
    else if HasChat(t.chats, target) then Err(ChatExists)
    else
      var chat := ChatNamed(t.chats, source);
      var ms := Listing(t.messages, source);
      var ren := ForkRenaming(t, source, target);
      var gists := ForkGists(Filter(GistIn(source), t.gists), ren, t.nextGistId);
      var inspections := ForkInspections(InspectionsOf(t.inspections, source), ren);
      if gists.None? || inspections.None? then Err(StaleProvenance)
      else Ok(t.(
              chats := t.chats + [Chat(target, chat.title, now, now, chat.modelName, true)],
              messages := t.messages + Copies(ms, target, t.nextMessageId),
              gists := t.gists + gists.value,
              inspections := t.inspections + inspections.value,
              nextMessageId := t.nextMessageId + |ms|,
              nextGistId := t.nextGistId + |gists.value|))
  }

  // ---------------------------------------------------------------- delete_chat

  function ChatOther(chatId: string): Chat -> bool {
    (c: Chat) => c.id != chatId
  }

  function MessageElsewhere(chatId: string): Message -> bool {
    (m: Message) => m.chatId != chatId
  }

  function StateElsewhere(chatId: string): MemoryState -> bool {
    (s: MemoryState) => s.chatId != chatId
  }

  function GistElsewhere(chatId: string): Gist -> bool {
    (g: Gist) => g.chatId != chatId
  }

  function DocumentElsewhere(chatId: string): ChatDocument -> bool {
    (d: ChatDocument) => d.chatId != chatId
  }

  function InspectionElsewhere(chatId: string): Inspection -> bool {
    (x: Inspection) => x.chatId != chatId
  }

  function InspectedElsewhere(doomed: set<int>): Inspection -> bool {
    (x: Inspection) => x.assistantMessageId !in doomed
  }

  /** Inspections go with their message and with their chat. */
  function InspectionSurvives(doomed: set<int>, chatId: string): Inspection -> bool {
    (x: Inspection) => x.assistantMessageId !in doomed && x.chatId != chatId
  }

  /** DELETE FROM messages, with the inspections of the deleted messages. */
  function DeleteMessagesOf(t: Tables, chatId: string): Tables {
    var doomed := MessageIds(Filter(InChat(chatId), t.messages));
    t.(messages := Filter(MessageElsewhere(chatId), t.messages),
       inspections := Filter(InspectedElsewhere(doomed), t.inspections))
  }

  /** DELETE FROM chat_gists. */
  function DeleteGistsOf(t: Tables, chatId: string): Tables {
    t.(gists := Filter(GistElsewhere(chatId), t.gists))
  }

  /** DELETE FROM chat_memory_state. */
  function DeleteStateOf(t: Tables, chatId: string): Tables {
    t.(memoryStates := Filter(StateElsewhere(chatId), t.memoryStates))
  }

  /** DELETE FROM chats, with every row that refers to the chat, and the inspections of its messages. */
  function Delete(t: Tables, chatId: string): Tables {
    var doomed := MessageIds(Filter(InChat(chatId), t.messages));
    t.(
      chats := Filter(ChatOther(chatId), t.chats),
      messages := Filter(MessageElsewhere(chatId), t.messages),
      memoryStates := Filter(StateElsewhere(chatId), t.memoryStates),
      gists := Filter(GistElsewhere(chatId), t.gists),
      inspections := Filter(InspectionSurvives(doomed, chatId), t.inspections),
      chatDocuments := Filter(DocumentElsewhere(chatId), t.chatDocuments))
  }

  // ---------------------------------------------------------------- other statements

  function ChatIs(chatId: string): Chat -> bool {
    (c: Chat) => c.id == chatId
  }

  function Touch(now: int): Chat -> Chat {
    (c: Chat) => c.(updatedAt := now)
  }

  function SetActiveFlag(active: bool): Chat -> Chat {
    (c: Chat) => c.(active := active)
  }

  function Coalesce<T>(a: Option<T>, b: Option<T>): Option<T> {
    if a.Some? then a else b
  }

  function Rename(title: Option<string>, modelName: Option<string>): Chat -> Chat {
    (c: Chat) => c.(title := Coalesce(title, c.title), modelName := Coalesce(modelName, c.modelName))
  }

  /** create_chat: insert, or fill in the title and the model of the existing row. */
  function ChatCreated(t: Tables, id: string, title: Option<string>, modelName: Option<string>, now: int): Tables {
    t.(chats := if HasChat(t.chats, id) then Update(ChatIs(id), Rename(title, modelName), t.chats)
                else t.chats + [Chat(id, title, now, now, modelName, true)])
  }

  /** mark_chat_active and mark_chat_inactive. */
  function SetActive(t: Tables, chatId: string, active: bool): Tables {
    t.(chats := Update(ChatIs(chatId), SetActiveFlag(active), t.chats))
  }

  function NewMessage(t: Tables, chatId: string, role: Role, content: string, now: int): Message {
    Message(t.nextMessageId, chatId, role, content, now, false, false)
  }

  /** save_message: the insert violates the foreign key when the chat is missing. */
  function MessageSaved(t: Tables, chatId: string, role: Role, content: string, now: int): Option<Tables> {
    if !HasChat(t.chats, chatId) then None
    else Some(t.(
              messages := t.messages + [NewMessage(t, chatId, role, content, now)],
              nextMessageId := t.nextMessageId + 1,
              chats := Update(ChatIs(chatId), Touch(now), t.chats)))
  }

  function WithIds(ids: set<int>): Message -> bool {
    (m: Message) => m.id in ids
  }

  function SetProcessed(kind: Kind): Message -> Message {
    (m: Message) => match kind case Summary => m.(summarized := true) case GistKind => m.(gistProcessed := true)
  }

  /** _mark_messages_processed. */
  function MarkProcessed(messages: seq<Message>, ids: set<int>, kind: Kind): (r: seq<Message>)
    ensures |r| == |messages|
  {
    Update(WithIds(ids), SetProcessed(kind), messages)
  }

  predicate HasState(states: seq<MemoryState>, chatId: string) {
    exists s :: s in states && s.chatId == chatId
  }

  function StateIs(chatId: string): MemoryState -> bool {
    (s: MemoryState) => s.chatId == chatId
  }

  function ReplaceState(memory: string, now: int): MemoryState -> MemoryState {
    (s: MemoryState) => s.(memoryJson := memory, updatedAt := now)
  }

  /** upsert_chat_memory_state: INSERT, or on conflict replace the memory and the time in place. */
  function StateUpserted(t: Tables, chatId: string, memory: string, now: int): Option<Tables> {
    if !HasChat(t.chats, chatId) then None
    else if HasState(t.memoryStates, chatId) then
      Some(t.(memoryStates := Update(StateIs(chatId), ReplaceState(memory, now), t.memoryStates)))
    else Some(t.(memoryStates := t.memoryStates + [MemoryState(chatId, memory, now)]))
  }

  /** insert_chat_gist: the gist and the flags of its messages in one transaction. */
  function GistInserted(t: Tables, gist: Gist, ids: set<int>): Option<Tables> {
    if !HasChat(t.chats, gist.chatId) then None
    else Some(t.(
              gists := t.gists + [gist.(id := t.nextGistId)],
              nextGistId := t.nextGistId + 1,
              messages := MarkProcessed(t.messages, ids, GistKind)))
  }

  function SetTitle(title: string, now: int): Chat -> Chat {
    (c: Chat) => c.(title := Some(title), updatedAt := now)
  }

  /** update_chat_title. */
  function TitleUpdated(t: Tables, chatId: string, title: string, now: int): Tables {
    t.(chats := Update(ChatIs(chatId), SetTitle(title, now), t.chats))
  }

  function SetModel(modelName: string): Chat -> Chat {
    (c: Chat) => c.(modelName := Some(modelName))
  }

  /** update_chat_model. */
  function ModelUpdated(t: Tables, chatId: string, modelName: string): Tables {
    t.(chats := Update(ChatIs(chatId), SetModel(modelName), t.chats))
  }

  function SetContent(content: string): Message -> Message {
    (m: Message) => m.(content := content)
  }

  /** update_message_content. */
  function ContentUpdated(messages: seq<Message>, id: int, content: string): (r: seq<Message>)
    ensures |r| == |messages|
  {
    Update(WithIds({id}), SetContent(content), messages)
  }

  predicate HasInspection(inspections: seq<Inspection>, messageId: int) {
    exists x :: x in inspections && x.assistantMessageId == messageId
  }

  function InspectionOf(messageId: int): Inspection -> bool {
    (x: Inspection) => x.assistantMessageId == messageId
  }

  function ReplaceTrace(traceId: string, payload: JsonColumn): Inspection -> Inspection {
    (x: Inspection) => x.(traceId := traceId, payload := payload)
  }

  /** save_answer_inspection: INSERT, or on conflict replace the trace in place, whatever chat it names. */
  function InspectionSaved(t: Tables, messageId: int, chatId: string, traceId: string, payload: JsonColumn, now: int): Option<Tables> {
    if HasInspection(t.inspections, messageId) then
      Some(t.(inspections := Update(InspectionOf(messageId), ReplaceTrace(traceId, payload), t.inspections)))
    else if messageId in MessageIds(t.messages) && HasChat(t.chats, chatId) then
      Some(t.(inspections := t.inspections + [Inspection(messageId, chatId, traceId, payload, now)]))
    else None
  }

  predicate HasLink(documents: seq<ChatDocument>, chatId: string, documentId: string) {
    exists d :: d in documents && d.chatId == chatId && d.documentId == documentId
  }

  function LinkIs(chatId: string, documentId: string): ChatDocument -> bool {
    (d: ChatDocument) => d.chatId == chatId && d.documentId == documentId
  }

  function SetSelected(selected: bool): ChatDocument -> ChatDocument {
    (d: ChatDocument) => d.(selected := selected)
  }

  /** associate_document_with_chat: `recorded` says whether the document has its record. */
  function DocumentLinked(t: Tables, chatId: string, documentId: string, selected: bool, now: int, recorded: bool): Option<Tables> {
    if HasLink(t.chatDocuments, chatId, documentId) then
      Some(t.(chatDocuments := Update(LinkIs(chatId, documentId), SetSelected(selected), t.chatDocuments)))
    else if recorded && HasChat(t.chats, chatId) then
      Some(t.(chatDocuments := t.chatDocuments + [ChatDocument(chatId, documentId, selected, now)]))
    else None
  }

  function OtherDocument(documentId: string): ChatDocument -> bool {
    (d: ChatDocument) => d.documentId != documentId
  }

  /** hard_delete_document, as far as chats are concerned: the links go with the record. */
  function DocumentDropped(t: Tables, documentId: string): Tables {
    t.(chatDocuments := Filter(OtherDocument(documentId), t.chatDocuments))
  }
}
