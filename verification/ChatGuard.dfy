/** Turns, pre-persisted messages, uploads, consolidations and chat ends of one chat, interleaved in one process. */
module ChatGuard {
  import opened Results
  import opened Rows
  import opened Tables
  import opened Forking
  import opened Schema
  import opened Compensation
  import opened Recency
  import opened MemoryBatches
  import opened ChatEnd

  /** An end comes from the interface, which runs it on the event loop, or from the API, which hands it to a thread. */
  datatype Job = Turn | Persist | Upload | End(onLoop: bool) | Consolidate

  datatype Thread = Loop | Worker(tid: nat)

  /** The thread that takes the chat's lock for a job.  A consolidation takes it on the event loop and keeps it
      while it awaits the worker that does the memory work. */
  function Owner(tid: nat, job: Job): Thread {
    match job
    case Turn => Worker(tid)
    case End(onLoop) => if onLoop then Loop else Worker(tid)
    case _ => Loop
  }

  /** Where a job stands.  From its first point after Waiting until Editing, Done or Raised it is inside the guard.
      `last` is the message a turn saved last; a turn that has left the guard may still overwrite its text with the
      traced answer.  `drained` records that the memory phase stopped with nothing pending. */
  datatype Pc =
    | Waiting
    | Checking
    | Saving(last: Option<int>)
    | Editing(id: int)
    | Uploading
    | Memory
    | Extracting(batch: seq<Message>)
    | Marking(batch: seq<Message>)
    | Gisting(drained: bool, title: Option<string>)
    | Summarising(drained: bool, title: Option<string>, batch: seq<Message>)
    | Deactivating(drained: bool)
    | Leaving
    | Done
    | Raised

  datatype Task = Task(job: Job, pc: Pc)

  /** The settings that do not change during a run. */
  datatype Config = Config(chatId: string, profile: Profile, batchSize: nat)

  /** The chat's RLock: the thread that has it may take it again. */
  datatype Guard = Free | Held(owner: Thread, depth: nat)

  /** `drainedEnd`: the memory phase of the end that last deactivated the chat had drained everything. */
  datatype State = State(tables: Tables, guard: Guard, tasks: map<nat, Task>, drainedEnd: bool)

  /** What the environment decides in one step: an exception, the end of a turn, the message to save,
      the extractor's answer, the summary of a batch. */
  datatype Choice = Choice(raises: bool, finished: bool, role: Role, content: string, at: int,
                           answer: Extraction, summary: Option<GistSummary>)

  /** `Outside` is any write, guarded by nothing, that is harmless to the chat: to other chats, of titles, documents
      and inspections, and the memory update after an answer. */
  datatype Event =
    | Begin(tid: nat, job: Job)
    | Advance(tid: nat, choice: Choice)
    | Reactivate
    | Create(title: Option<string>, modelName: Option<string>, now: int)
    | Drop
    | Outside(after: Tables)
    | Restart

  // ---------------------------------------------------------------- the lock

  function Acquire(guard: Guard, owner: Thread): Option<Guard> {
    match guard
    case Free => Some(Held(owner, 1))
    case Held(o, depth) => if o == owner then Some(Held(o, depth + 1)) else None
  }

  function Release(guard: Guard): Guard {
    match guard
    case Free => Free
    case Held(o, depth) => if depth <= 1 then Free else Held(o, depth - 1)
  }

  predicate Holds(pc: Pc) {
    !pc.Waiting? && !pc.Editing? && !pc.Done? && !pc.Raised?
  }

  function Inside(tasks: map<nat, Task>): set<nat> {
    set tid | tid in tasks && Holds(tasks[tid].pc)
  }

  /** The steps of a consolidation that its worker does while the event loop goes on. */
  predicate Suspended(t: Task) {
    t.job.Consolidate? && (t.pc.Memory? || t.pc.Extracting? || t.pc.Marking?)
  }

  /** No other job is in the middle of synchronous work on the event loop. */
  predicate LoopFree(s: State, tid: nat) {
    forall other :: other in Inside(s.tasks) && other != tid && Owner(other, s.tasks[other].job).Loop? ==>
      s.tasks[other].job.Consolidate?
  }

  /** The event loop does a job's own steps, and the last edit of a turn. */
  predicate OnLoop(tid: nat, t: Task) {
    t.pc.Editing? || (Owner(tid, t.job).Loop? && !Suspended(t))
  }

  predicate MayStep(s: State, tid: nat)
    requires tid in s.tasks
  {
    OnLoop(tid, s.tasks[tid]) ==> LoopFree(s, tid)
  }

  // ---------------------------------------------------------------- the steps

  /** A job reaches a point; when it is finished it releases the lock once. */
  function At(s: State, tid: nat, t: Task, pc: Pc): State {
    s.(tasks := s.tasks[tid := t.(pc := pc)], guard := if Holds(pc) then s.guard else Release(s.guard))
  }

  /** The lock of a consolidation is released by the event loop, however its worker ended. */
  function Broken(t: Task): Pc {
    if t.job.Consolidate? && !t.pc.Leaving? then Leaving else Raised
  }

  /** After the memory phase: an end goes on to the gists of the chat it finds. */
  function AfterMemory(c: Config, t: Tables, job: Job, drained: bool): Pc {
    if job.Consolidate? then Leaving
    else if HasChat(t.chats, c.chatId) then Gisting(drained, ChatNamed(t.chats, c.chatId).title)
    else Raised
  }

  function Entry(job: Job): Pc {
    match job
    case Turn => Checking
    case Persist => Checking
    case Upload => Uploading
    case _ => Memory
  }

  predicate Active(c: Config, t: Tables) {
    !Inactive(t.chats, c.chatId)
  }

  /** One step of a job that is inside the guard: the tables and where the job stands. */
  function StepJob(c: Config, t: Tables, task: Task, choice: Choice): (Tables, Pc)
    requires c.batchSize > 0
  {
    if choice.raises then (t, Broken(task))
    else
      match task.pc
      case Checking => (t, if Active(c, t) then Saving(None) else Raised)
      case Saving(last) =>
        if task.job.Turn? && choice.finished then (t, if last.Some? then Editing(last.value) else Done)
        else
          var saved := MessageSaved(t, c.chatId, choice.role, choice.content, choice.at);
          if saved.None? then (t, Raised) else (saved.value, if task.job.Turn? then Saving(Some(t.nextMessageId)) else Done)
      case Memory =>
        var pending := PendingFor(t.messages, c.chatId, Summary);
        var batch := SelectBatch(pending, c.profile);
        (t, if batch == [] then AfterMemory(c, t, task.job, pending == []) else Extracting(batch))
      case Extracting(batch) =>
        if choice.answer.Raises? then (t, Broken(task))
        else
          var stored := StateUpserted(t, c.chatId, choice.answer.memory, choice.answer.at);
          if stored.None? then (t, Broken(task))
          else (stored.value, if choice.answer.Rejected? then AfterMemory(c, stored.value, task.job, false) else Marking(batch))
      case Marking(batch) => (MarkedIn(t, batch, Summary), Memory)
      case Gisting(drained, title) =>
        var batch := OldUnprocessed(t.messages, c.chatId, 0, c.batchSize, GistKind);
        if batch == [] then (t, Deactivating(drained))
        else if HasUser(batch) then (t, Summarising(drained, title, batch))
        else (MarkedIn(t, batch, GistKind), task.pc)
      case Summarising(drained, title, batch) =>
        if !Usable(choice.summary) || batch == [] then (t, Raised)
        else
          var stored := GistInserted(t, GistOf(c.chatId, title, batch, choice.summary.value), MessageIds(batch));
          if stored.None? then (t, Raised) else (stored.value, Gisting(drained, title))
      case Deactivating(_) => (SetActive(t, c.chatId, false), Done)
      case _ => (t, Done)
  }

  function Stepped(c: Config, s: State, tid: nat, choice: Choice): State
    requires c.batchSize > 0 && tid in s.tasks
  {
    var task := s.tasks[tid];
    var (t, pc) := StepJob(c, s.tables, task, choice);
    At(s.(tables := t, drainedEnd := if task.pc.Deactivating? && pc.Done? then task.pc.drained else s.drainedEnd), tid, task, pc)
  }

  /** The edit of a turn that has returned; without a trace there is none. */
  function Edited(s: State, tid: nat, choice: Choice): State
    requires tid in s.tasks && s.tasks[tid].pc.Editing?
  {
    var id := s.tasks[tid].pc.id;
    var messages := if choice.raises || choice.finished then s.tables.messages else ContentUpdated(s.tables.messages, id, choice.content);
    s.(tables := s.tables.(messages := messages),
       tasks := s.tasks[tid := s.tasks[tid].(pc := if choice.raises then Raised else Done)])
  }

  /** The transcript, the activity and the existence of the chat are as they were, and no flag is cleared. */
  ghost predicate Harmless(c: Config, t: Tables, t': Tables) {
    && WellFormed(t')
    && (HasChat(t'.chats, c.chatId) <==> HasChat(t.chats, c.chatId))
    && (Active(c, t') <==> Active(c, t))
    && Texts(t'.messages, c.chatId) == Texts(t.messages, c.chatId)
    && FlagsKept(c, t, t')
  }

  ghost function Next(c: Config, s: State, e: Event): State
    requires c.batchSize > 0
  {
    match e
    case Begin(tid, job) => if tid in s.tasks then s else s.(tasks := s.tasks[tid := Task(job, Waiting)])
    case Advance(tid, choice) =>
      if tid !in s.tasks || !MayStep(s, tid) then s
      else if s.tasks[tid].pc.Waiting? then
        var taken := Acquire(s.guard, Owner(tid, s.tasks[tid].job));
        if taken.None? then s
        else s.(guard := taken.value, tasks := s.tasks[tid := s.tasks[tid].(pc := Entry(s.tasks[tid].job))])
      else if Holds(s.tasks[tid].pc) then Stepped(c, s, tid, choice)
      else if s.tasks[tid].pc.Editing? then Edited(s, tid, choice)
      else s
    case Reactivate => s.(tables := SetActive(s.tables, c.chatId, true))
    case Create(title, modelName, now) => s.(tables := ChatCreated(s.tables, c.chatId, title, modelName, now))
    case Drop => s.(tables := Delete(s.tables, c.chatId))
    case Outside(after) => if Harmless(c, s.tables, after) then s.(tables := after) else s
    case Restart => s.(guard := Free, tasks := map[])
  }

  ghost function Run(c: Config, s: State, events: seq<Event>): State
    requires c.batchSize > 0
    decreases |events|
  {
    if events == [] then s else Run(c, Next(c, s, events[0]), events[1..])
  }

  lemma RunOne(c: Config, s: State, events: seq<Event>)
    requires c.batchSize > 0 && events != []
    ensures Run(c, s, events) == Run(c, Next(c, s, events[0]), events[1..])
  {
  }

  lemma RunNone(c: Config, s: State)
    requires c.batchSize > 0
    ensures Run(c, s, []) == s
  {
  }

  lemma RunConcat(c: Config, s: State, a: seq<Event>, b: seq<Event>)
    requires c.batchSize > 0
    ensures Run(c, s, a + b) == Run(c, Run(c, s, a), b)
    decreases |a|
  {
    hide Next;
    if a == [] {
      assert a + b == b;
    } else {
      assert (a + b)[0] == a[0] && (a + b)[1..] == a[1..] + b;
      RunConcat(c, Next(c, s, a[0]), a[1..], b);
    }
  }

  // ---------------------------------------------------------------- the invariant

  /** Two jobs that may be inside the guard together: both on the event loop, one of them a consolidation. */
  predicate MayOverlap(a: Job, b: Job) {
    Owner(0, a).Loop? && Owner(0, b).Loop? && (a.Consolidate? || b.Consolidate?)
  }

  /** The lock is held as often as jobs are inside, by their one thread. */
  ghost predicate Locked(s: State) {
    match s.guard
    case Free => Inside(s.tasks) == {}
    case Held(owner, depth) =>
      && depth == |Inside(s.tasks)| > 0
      && (forall tid :: tid in Inside(s.tasks) ==> Owner(tid, s.tasks[tid].job) == owner)
      && (forall a, b :: a in Inside(s.tasks) && b in Inside(s.tasks) && a != b ==>
            s.tasks[a].job.Consolidate? || s.tasks[b].job.Consolidate?)
  }

  /** The points of each job. */
  predicate InPlace(t: Task) {
    match t.pc
    case Checking => t.job.Turn? || t.job.Persist?
    case Saving(_) => t.job.Turn? || t.job.Persist?
    case Editing(_) => t.job.Turn?
    case Uploading => t.job.Upload?
    case Memory => t.job.End? || t.job.Consolidate?
    case Extracting(_) => t.job.End? || t.job.Consolidate?
    case Marking(_) => t.job.End? || t.job.Consolidate?
    case Gisting(_, _) => t.job.End?
    case Summarising(_, _, _) => t.job.End?
    case Deactivating(_) => t.job.End?
    case Leaving => t.job.Consolidate?
    case _ => true
  }

  /** Nothing can be saved to the chat while it is not open, except by making it anew. */
  predicate Open(c: Config, t: Tables) {
    Active(c, t) || !HasChat(t.chats, c.chatId)
  }

  ghost predicate Remembers(c: Config, t: Tables) {
    AllProcessed(t.messages, c.chatId, Summary)
  }

  ghost predicate Gisted(c: Config, t: Tables) {
    AllProcessed(t.messages, c.chatId, GistKind)
  }

  /** What a job knows at each point of its way. */
  ghost predicate Knows(c: Config, t: Tables, task: Task) {
    match task.pc
    case Saving(_) => Open(c, t)
    case Gisting(drained, _) => drained ==> Remembers(c, t)
    case Summarising(drained, _, _) => drained ==> Remembers(c, t)
    case Deactivating(drained) => Gisted(c, t) && (drained ==> Remembers(c, t))
    case _ => true
  }

  /** An inactive chat has a gist for every message, and has been taken into memory if its end drained it. */
  ghost predicate EndedClean(c: Config, t: Tables, drainedEnd: bool) {
    !Active(c, t) ==> Gisted(c, t) && (drainedEnd ==> Remembers(c, t))
  }

  ghost predicate Inv(c: Config, s: State) {
    && c.batchSize > 0
    && WellFormed(s.tables)
    && Locked(s)
    && (forall tid :: tid in s.tasks ==> InPlace(s.tasks[tid]) && Knows(c, s.tables, s.tasks[tid]))
    && EndedClean(c, s.tables, s.drainedEnd)
  }

  // ---------------------------------------------------------------- transcripts and flags

  /** What the transcript says, flags aside. */
  function Texts(messages: seq<Message>, chatId: string): set<(int, Role, string, int)> {
    set m | m in messages && m.chatId == chatId :: (m.id, m.role, m.content, m.createdAt)
  }

  /** Who said something when, without the words. */
  function Outline(messages: seq<Message>, chatId: string): set<(int, Role, int)> {
    set m | m in messages && m.chatId == chatId :: (m.id, m.role, m.createdAt)
  }

  ghost predicate FlagsKept(c: Config, t: Tables, t': Tables) {
    && (Remembers(c, t) ==> Remembers(c, t'))
    && (Gisted(c, t) ==> Gisted(c, t'))
  }

  lemma MarkKeepsTexts(messages: seq<Message>, chatId: string, ids: set<int>, kind: Kind)
    ensures Texts(MarkProcessed(messages, ids, kind), chatId) == Texts(messages, chatId)
  {
    var after := MarkProcessed(messages, ids, kind);
    forall i | 0 <= i < |messages|
      ensures after[i].chatId == messages[i].chatId
      ensures (after[i].id, after[i].role, after[i].content, after[i].createdAt)
              == (messages[i].id, messages[i].role, messages[i].content, messages[i].createdAt)
    {
      assert after[i] == Marked(messages[i], ids, kind);
    }
    hide MarkProcessed;
    forall x | x in Texts(after, chatId) ensures x in Texts(messages, chatId) {
      var m :| m in after && m.chatId == chatId && x == (m.id, m.role, m.content, m.createdAt);
      var i :| 0 <= i < |after| && after[i] == m;
      assert messages[i] in messages;
    }
    forall x | x in Texts(messages, chatId) ensures x in Texts(after, chatId) {
      var m :| m in messages && m.chatId == chatId && x == (m.id, m.role, m.content, m.createdAt);
      var i :| 0 <= i < |messages| && messages[i] == m;
      assert after[i] in after;
    }
  }

  lemma MarkingIsHarmless(c: Config, t: Tables, ids: set<int>, kind: Kind)
    requires WellFormed(t)
    ensures Harmless(c, t, t.(messages := MarkProcessed(t.messages, ids, kind)))
  {
    hide WellFormed, HasChat, AllProcessed, MarkProcessed, Inactive, Texts;
    MarkKeepsSchema(t, ids, kind);
    MarkKeepsTexts(t.messages, c.chatId, ids, kind);
    MarkingKeeps(t.messages, c.chatId, ids, kind, Summary);
    MarkingKeeps(t.messages, c.chatId, ids, kind, GistKind);
  }

  lemma UpsertIsHarmless(c: Config, t: Tables, chatId: string, memory: string, at: int)
    requires WellFormed(t) && StateUpserted(t, chatId, memory, at).Some?
    ensures Harmless(c, t, StateUpserted(t, chatId, memory, at).value)
  {
    UpsertKeepsSchema(t, chatId, memory, at);
    hide WellFormed, HasChat, AllProcessed, Inactive, Texts, HasState, Update;
  }

  lemma GistIsHarmless(c: Config, t: Tables, gist: Gist, ids: set<int>)
    requires WellFormed(t) && GistInserted(t, gist, ids).Some?
    ensures Harmless(c, t, GistInserted(t, gist, ids).value)
  {
    GistKeepsSchema(t, gist, ids);
    MarkingIsHarmless(c, t, ids, GistKind);
    hide WellFormed, HasChat, AllProcessed, Inactive, Texts, MarkProcessed;
  }

  /** A message of another chat. */
  lemma SaveElsewhereIsHarmless(c: Config, t: Tables, chatId: string, role: Role, content: string, at: int)
    requires WellFormed(t) && chatId != c.chatId && MessageSaved(t, chatId, role, content, at).Some?
    ensures Harmless(c, t, MessageSaved(t, chatId, role, content, at).value)
  {
    hide WellFormed, HasChat, Inactive, AllProcessed, Texts, Update;
    SaveKeepsSchema(t, chatId, role, content, at);
    SaveTouches(c, t, chatId, at);
    SavedElsewhere(t.messages, NewMessage(t, chatId, role, content, at), c.chatId);
  }

  lemma SavedElsewhere(messages: seq<Message>, m: Message, chatId: string)
    requires m.chatId != chatId
    ensures Texts(messages + [m], chatId) == Texts(messages, chatId)
    ensures forall kind :: AllProcessed(messages, chatId, kind) ==> AllProcessed(messages + [m], chatId, kind)
  {
  }

  /** Saving touches the time of the chat, not its activity. */
  lemma SaveTouches(c: Config, t: Tables, chatId: string, at: int)
    ensures var after := Update(ChatIs(chatId), Touch(at), t.chats);
            && (HasChat(after, c.chatId) <==> HasChat(t.chats, c.chatId))
            && (Inactive(after, c.chatId) <==> Inactive(t.chats, c.chatId))
  {
    UpdateKeepsChats(ChatIs(chatId), Touch(at), t.chats);
    ActivityKept(ChatIs(chatId), Touch(at), t.chats, c.chatId);
  }

  lemma ActivityKept(p: Chat -> bool, f: Chat -> Chat, chats: seq<Chat>, chatId: string)
    requires forall x :: f(x).id == x.id && (x.active ==> f(x).active)
    ensures Inactive(Update(p, f, chats), chatId) ==> Inactive(chats, chatId)
    ensures (forall x :: f(x).active ==> x.active) && Inactive(chats, chatId) ==> Inactive(Update(p, f, chats), chatId)
  {
    var after := Update(p, f, chats);
    if Inactive(after, chatId) {
      forall x | x in chats && x.id == chatId ensures !x.active {
        var i :| 0 <= i < |chats| && chats[i] == x;
        assert after[i] in after;
      }
    }
    if (forall x :: f(x).active ==> x.active) && Inactive(chats, chatId) {
      forall x | x in after && x.id == chatId ensures !x.active {
        var i :| 0 <= i < |after| && after[i] == x;
        assert chats[i] in chats;
      }
    }
  }

  /** Writes that no guard protects: to other chats, and of the memory, gists, flags, title, model, inspections and
      documents of any chat. */
  ghost predicate IsOutside(t: Tables, w: Write, chatId: string) {
    match w
    case Process(_, _) => true
    case Remember(_, _, _) => true
    case AddGist(_, _) => true
    case Retitle(_, _, _) => true
    case ChooseModel(_, _) => true
    case Inspect(_, _, _, _, _) => true
    case LinkDocument(_, _, _, _, _) => true
    case DropDocument(_) => true
    case Edit(id, _) => forall m :: m in t.messages && m.id == id ==> m.chatId != chatId
    case _ => w.chatId != chatId
  }

  /** The row of the chat changes in columns other than its activity. */
  lemma ChatRowIsHarmless(c: Config, t: Tables, f: Chat -> Chat, id: string)
    requires WellFormed(t) && forall x :: f(x).id == x.id && f(x).active == x.active
    ensures Harmless(c, t, t.(chats := Update(ChatIs(id), f, t.chats)))
  {
    hide WellFormed, HasChat, Inactive, AllProcessed, Texts, Update;
    ChatUpdateKeepsSchema(t, ChatIs(id), f);
    UpdateKeepsChats(ChatIs(id), f, t.chats);
    ActivityKept(ChatIs(id), f, t.chats, c.chatId);
  }

  /** A write that leaves chats and messages alone. */
  lemma OtherTableIsHarmless(c: Config, t: Tables, t': Tables)
    requires WellFormed(t') && t'.chats == t.chats && t'.messages == t.messages
    ensures Harmless(c, t, t')
  {
    hide WellFormed, HasChat, Inactive, AllProcessed, Texts;
  }

  lemma EditElsewhereIsHarmless(c: Config, t: Tables, id: int, content: string)
    requires WellFormed(t) && forall m :: m in t.messages && m.id == id ==> m.chatId != c.chatId
    ensures Harmless(c, t, t.(messages := ContentUpdated(t.messages, id, content)))
  {
    hide WellFormed, Harmless;
    ContentKeepsSchema(t, id, content);
    hide ContentUpdated;
    EditedElsewhere(t.messages, id, content, c.chatId);
    OtherRowsAreHarmless(c, t, t.(messages := ContentUpdated(t.messages, id, content)));
  }

  lemma EditedElsewhere(messages: seq<Message>, id: int, content: string, chatId: string)
    requires forall m :: m in messages && m.id == id ==> m.chatId != chatId
    ensures Filter(InChat(chatId), ContentUpdated(messages, id, content)) == Filter(InChat(chatId), messages)
  {
    var mine := Filter(InChat(chatId), messages);
    FilterUpdate(InChat(chatId), WithIds({id}), SetContent(content), messages);
    NoneToUpdate(WithIds({id}), SetContent(content), mine);
  }

  /** Rows of other chats come and go. */
  lemma OtherRowsAreHarmless(c: Config, t: Tables, t': Tables)
    requires WellFormed(t')
    requires Filter(ChatIs(c.chatId), t'.chats) == Filter(ChatIs(c.chatId), t.chats)
    requires Filter(InChat(c.chatId), t'.messages) == Filter(InChat(c.chatId), t.messages)
    ensures Harmless(c, t, t')
  {
    hide WellFormed;
    var chats, messages := Filter(ChatIs(c.chatId), t.chats), Filter(InChat(c.chatId), t.messages);
    forall x: Chat | x.id == c.chatId ensures x in t'.chats <==> x in t.chats {
      assert x in t.chats <==> x in chats;
      assert x in t'.chats <==> x in chats;
    }
    forall m: Message | m.chatId == c.chatId ensures m in t'.messages <==> m in t.messages {
      assert m in t.messages <==> m in messages;
      assert m in t'.messages <==> m in messages;
    }
  }

  lemma OtherChatWriteIsHarmless(c: Config, t: Tables, f: Chat -> Chat, id: string)
    requires id != c.chatId && forall x :: f(x).id == x.id
    requires WellFormed(t.(chats := Update(ChatIs(id), f, t.chats)))
    ensures Harmless(c, t, t.(chats := Update(ChatIs(id), f, t.chats)))
  {
    hide WellFormed, Harmless;
    var chats := Filter(ChatIs(c.chatId), t.chats);
    FilterUpdate(ChatIs(c.chatId), ChatIs(id), f, t.chats);
    forall i | 0 <= i < |chats| ensures Update(ChatIs(id), f, chats)[i] == chats[i] {
      assert chats[i] in chats;
    }
    assert Update(ChatIs(id), f, chats) == chats;
    OtherRowsAreHarmless(c, t, t.(chats := Update(ChatIs(id), f, t.chats)));
  }

  lemma NewChatIsHarmless(c: Config, t: Tables, w: Write)
    requires WellFormed(t) && w.NewChat? && w.chatId != c.chatId
    ensures Harmless(c, t, Do(t, w))
  {
    hide WellFormed, HasChat, Harmless;
    CreateChatKeepsSchema(t, w.chatId, w.title, w.modelName, w.now);
    if HasChat(t.chats, w.chatId) {
      OtherChatWriteIsHarmless(c, t, Rename(w.title, w.modelName), w.chatId);
    } else {
      var added := [Chat(w.chatId, w.title, w.now, w.now, w.modelName, true)];
      FilterConcat(ChatIs(c.chatId), t.chats, added);
      FilterNone(ChatIs(c.chatId), added);
      assert Filter(ChatIs(c.chatId), t.chats) + [] == Filter(ChatIs(c.chatId), t.chats);
      OtherRowsAreHarmless(c, t, Do(t, w));
    }
  }

  lemma RemoveIsHarmless(c: Config, t: Tables, id: string)
    requires WellFormed(t) && id != c.chatId
    ensures Harmless(c, t, Delete(t, id))
  {
    hide WellFormed, Harmless, MessageIds;
    DeleteKeepsSchema(t, id);
    FilterWithin(ChatIs(c.chatId), ChatOther(id), t.chats);
    FilterWithin(InChat(c.chatId), MessageElsewhere(id), t.messages);
    OtherRowsAreHarmless(c, t, Delete(t, id));
  }

  /** A fork, of this chat too, into another. */
  lemma ForkIsHarmless(c: Config, t: Tables, source: string, target: string, now: int)
    requires WellFormed(t) && target != c.chatId && Fork(t, source, target, now).Ok?
    ensures Harmless(c, t, Fork(t, source, target, now).value)
  {
    hide WellFormed, Harmless, Fork, Filter;
    var t' := Fork(t, source, target, now).value;
    ForkKeepsSchema(t, source, target, now);
    ForkLeavesOthers(t, source, target, now);
    FilterWithin(ChatIs(c.chatId), ChatOther(target), t'.chats);
    FilterWithin(InChat(c.chatId), MessageElsewhere(target), t'.messages);
    OtherRowsAreHarmless(c, t, t');
  }

  lemma NothingIsHarmless(c: Config, t: Tables)
    requires WellFormed(t)
    ensures Harmless(c, t, t)
  {
    hide WellFormed, HasChat, AllProcessed, Inactive, Texts;
  }

  /** The writes that may come from outside the guard at any time really are harmless to the chat. */
  lemma OutsideIsHarmless(c: Config, t: Tables, w: Write)
    requires WellFormed(t) && IsOutside(t, w, c.chatId)
    ensures Harmless(c, t, Do(t, w))
  {
    hide WellFormed, Harmless, MessageSaved, StateUpserted, GistInserted, Fork, Delete, SetActive, ChatCreated, MarkProcessed,
         ContentUpdated, InspectionSaved, DocumentLinked, DocumentDropped, Update;
    NothingIsHarmless(c, t);
    match w {
      case NewChat(_, _, _, _) => NewChatIsHarmless(c, t, w);
      case Activity(chatId, active) =>
        SetActiveKeepsSchema(t, chatId, active);
        ActivityIsHarmless(c, t, chatId, active);
      case Save(chatId, role, content, now) =>
        if MessageSaved(t, chatId, role, content, now).Some? {
          SaveElsewhereIsHarmless(c, t, chatId, role, content, now);
        }
      case Process(ids, kind) => MarkingIsHarmless(c, t, ids, kind);
      case Remember(chatId, memory, now) =>
        if StateUpserted(t, chatId, memory, now).Some? {
          UpsertIsHarmless(c, t, chatId, memory, now);
        }
      case AddGist(gist, ids) =>
        if GistInserted(t, gist, ids).Some? {
          GistIsHarmless(c, t, gist, ids);
        }
      case Remove(chatId) => RemoveIsHarmless(c, t, chatId);
      case ForkTo(source, chatId, now) =>
        if Fork(t, source, chatId, now).Ok? {
          ForkIsHarmless(c, t, source, chatId, now);
        }
      case Retitle(chatId, title, now) => ChatRowIsHarmless(c, t, SetTitle(title, now), chatId);
      case ChooseModel(chatId, model) => ChatRowIsHarmless(c, t, SetModel(model), chatId);
      case Edit(id, content) => EditElsewhereIsHarmless(c, t, id, content);
      case Inspect(_, _, _, _, _) => InspectIsHarmless(c, t, w);
      case LinkDocument(_, _, _, _, _) => DocumentIsHarmless(c, t, w);
      case DropDocument(_) => DocumentIsHarmless(c, t, w);
    }
  }

  lemma InspectIsHarmless(c: Config, t: Tables, w: Write)
    requires WellFormed(t) && w.Inspect?
    ensures Harmless(c, t, Do(t, w))
  {
    DoKeepsSchema(t, w);
    hide WellFormed, Harmless, HasChat, HasInspection, MessageIds, Update;
    OtherTableIsHarmless(c, t, Do(t, w));
  }

  lemma DocumentIsHarmless(c: Config, t: Tables, w: Write)
    requires WellFormed(t) && (w.LinkDocument? || w.DropDocument?)
    ensures Harmless(c, t, Do(t, w))
  {
    DoKeepsSchema(t, w);
    hide WellFormed, Harmless, HasChat, HasLink, Update, Filter;
    OtherTableIsHarmless(c, t, Do(t, w));
  }

  lemma ActivityIsHarmless(c: Config, t: Tables, chatId: string, active: bool)
    requires WellFormed(SetActive(t, chatId, active)) && chatId != c.chatId
    ensures Harmless(c, t, SetActive(t, chatId, active))
  {
    hide WellFormed, Harmless;
    OtherChatWriteIsHarmless(c, t, SetActiveFlag(active), chatId);
  }

  // ---------------------------------------------------------------- what a step keeps

  /** What is known of the chat survives; it is not closed behind anybody's back. */
  ghost predicate Keeps(c: Config, t: Tables, t': Tables) {
    && FlagsKept(c, t, t')
    && (Open(c, t) ==> Open(c, t'))
    && (!Active(c, t') ==> !Active(c, t) || (Gisted(c, t') && Remembers(c, t')))
  }

  lemma HarmlessKeeps(c: Config, t: Tables, t': Tables)
    requires Harmless(c, t, t')
    ensures Keeps(c, t, t')
  {
    hide WellFormed, HasChat, AllProcessed, Inactive, Texts;
  }

  lemma KeepsWhatIsKnown(c: Config, t: Tables, t': Tables, task: Task)
    requires Keeps(c, t, t') && Knows(c, t, task)
    ensures Knows(c, t', task)
  {
    hide AllProcessed, Open, Active;
  }

  lemma KeepsEndedClean(c: Config, t: Tables, t': Tables, drainedEnd: bool)
    requires Keeps(c, t, t') && EndedClean(c, t, drainedEnd)
    ensures EndedClean(c, t', drainedEnd)
  {
    hide AllProcessed, Open, Active;
  }

  lemma ReactivateKeeps(c: Config, t: Tables)
    ensures Keeps(c, t, SetActive(t, c.chatId, true))
  {
    UpdateKeepsChats(ChatIs(c.chatId), SetActiveFlag(true), t.chats);
    ActivityKept(ChatIs(c.chatId), SetActiveFlag(true), t.chats, c.chatId);
    hide AllProcessed, HasChat, Inactive, Update;
  }

  lemma CreateKeeps(c: Config, t: Tables, title: Option<string>, modelName: Option<string>, now: int)
    ensures Keeps(c, t, ChatCreated(t, c.chatId, title, modelName, now))
  {
    hide AllProcessed, HasChat, Update, Inactive;
    UpdateKeepsChats(ChatIs(c.chatId), Rename(title, modelName), t.chats);
    ActivityKept(ChatIs(c.chatId), Rename(title, modelName), t.chats, c.chatId);
    NewChatIsActive(t.chats, Chat(c.chatId, title, now, now, modelName, true));
  }

  lemma NewChatIsActive(chats: seq<Chat>, chat: Chat)
    requires chat.active
    ensures HasChat(chats + [chat], chat.id) && !Inactive(chats + [chat], chat.id)
  {
    assert chat in chats + [chat];
  }

  lemma DropKeeps(c: Config, t: Tables)
    ensures Keeps(c, t, Delete(t, c.chatId))
  {
    hide MessageIds;
  }

  /** Overwriting a text clears no flag. */
  lemma EditKeeps(c: Config, t: Tables, id: int, content: string)
    ensures Keeps(c, t, t.(messages := ContentUpdated(t.messages, id, content)))
  {
    EditKeepsFlags(t.messages, id, content, c.chatId, Summary);
    EditKeepsFlags(t.messages, id, content, c.chatId, GistKind);
    hide AllProcessed, HasChat, Inactive, ContentUpdated;
  }

  lemma EditKeepsFlags(messages: seq<Message>, id: int, content: string, chatId: string, kind: Kind)
    ensures AllProcessed(messages, chatId, kind) ==> AllProcessed(ContentUpdated(messages, id, content), chatId, kind)
  {
    var after := ContentUpdated(messages, id, content);
    if AllProcessed(messages, chatId, kind) {
      forall m | m in after && m.chatId == chatId ensures Processed(m, kind) {
        var i :| 0 <= i < |after| && after[i] == m;
        assert messages[i] in messages;
      }
    }
  }

  lemma NothingLeftToGist(c: Config, t: Tables)
    requires WellFormed(t) && c.batchSize > 0
    requires OldUnprocessed(t.messages, c.chatId, 0, c.batchSize, GistKind) == []
    ensures Gisted(c, t)
  {
    hide PendingFor, OldUnprocessed, WellFormed, IdsIncrease, AllProcessed;
    ValidIncreases(t);
    UngistedIsPending(t.messages, c.chatId, c.batchSize);
    NothingPendingIff(t.messages, c.chatId, GistKind);
  }

  lemma NothingLeftToRemember(c: Config, t: Tables)
    ensures PendingFor(t.messages, c.chatId, Summary) == [] ==> Remembers(c, t)
  {
    hide PendingFor, AllProcessed;
    NothingPendingIff(t.messages, c.chatId, Summary);
  }

  // ---------------------------------------------------------------- one step of a job

  /** What a step of a job inside the guard leaves behind. */
  ghost predicate GoodStep(c: Config, t: Tables, task: Task, t': Tables, pc: Pc, drainedEnd: bool) {
    && WellFormed(t')
    && InPlace(task.(pc := pc)) && Knows(c, t', task.(pc := pc))
    && EndedClean(c, t', drainedEnd)
    && (task.job.Consolidate? ==> Keeps(c, t, t'))
  }

  lemma HarmlessStep(c: Config, t: Tables, task: Task, t': Tables, pc: Pc, drainedEnd: bool)
    requires Harmless(c, t, t') && EndedClean(c, t, drainedEnd)
    requires InPlace(task.(pc := pc)) && Knows(c, t', task.(pc := pc))
    ensures GoodStep(c, t, task, t', pc, drainedEnd)
  {
    hide WellFormed, EndedClean, Keeps, Knows, InPlace;
    HarmlessKeeps(c, t, t');
    KeepsEndedClean(c, t, t', drainedEnd);
  }

  lemma UnchangedStep(c: Config, t: Tables, task: Task, pc: Pc, drainedEnd: bool)
    requires WellFormed(t) && EndedClean(c, t, drainedEnd)
    requires InPlace(task.(pc := pc)) && Knows(c, t, task.(pc := pc))
    ensures GoodStep(c, t, task, t, pc, drainedEnd)
  {
    hide WellFormed, HasChat, AllProcessed, Inactive, EndedClean, Knows, InPlace;
  }

  lemma SaveStep(c: Config, t: Tables, task: Task, choice: Choice, pc: Pc, drainedEnd: bool)
    requires WellFormed(t) && Open(c, t) && InPlace(task.(pc := pc)) && (pc.Saving? || pc.Done?) && !task.job.Consolidate?
    requires MessageSaved(t, c.chatId, choice.role, choice.content, choice.at).Some?
    ensures GoodStep(c, t, task, MessageSaved(t, c.chatId, choice.role, choice.content, choice.at).value, pc, drainedEnd)
  {
    hide WellFormed, HasChat, Inactive, Update, AllProcessed;
    SaveKeepsSchema(t, c.chatId, choice.role, choice.content, choice.at);
    SaveTouches(c, t, c.chatId, choice.at);
  }

  lemma MemoryStepIsGood(c: Config, t: Tables, task: Task, choice: Choice, drainedEnd: bool)
    requires WellFormed(t) && EndedClean(c, t, drainedEnd) && InPlace(task) && task.pc.Memory? && c.batchSize > 0
    requires !choice.raises
    ensures var (t', pc) := StepJob(c, t, task, choice); GoodStep(c, t, task, t', pc, drainedEnd)
  {
    hide WellFormed, HasChat, AllProcessed, EndedClean, PendingFor, SelectBatch, GoodStep, ChatNamed;
    NothingLeftToRemember(c, t);
    UnchangedStep(c, t, task, StepJob(c, t, task, choice).1, drainedEnd);
  }

  lemma ExtractingStepIsGood(c: Config, t: Tables, task: Task, choice: Choice, drainedEnd: bool)
    requires WellFormed(t) && EndedClean(c, t, drainedEnd) && InPlace(task) && task.pc.Extracting? && c.batchSize > 0
    requires !choice.raises
    ensures var (t', pc) := StepJob(c, t, task, choice); GoodStep(c, t, task, t', pc, drainedEnd)
  {
    hide WellFormed, HasChat, AllProcessed, EndedClean, StateUpserted, GoodStep, ChatNamed, Harmless;
    var (t', pc) := StepJob(c, t, task, choice);
    if choice.answer.Raises? || StateUpserted(t, c.chatId, choice.answer.memory, choice.answer.at).None? {
      UnchangedStep(c, t, task, pc, drainedEnd);
    } else {
      UpsertIsHarmless(c, t, c.chatId, choice.answer.memory, choice.answer.at);
      HarmlessStep(c, t, task, t', pc, drainedEnd);
    }
  }

  lemma MarkingStepIsGood(c: Config, t: Tables, task: Task, choice: Choice, drainedEnd: bool)
    requires WellFormed(t) && EndedClean(c, t, drainedEnd) && InPlace(task) && task.pc.Marking? && c.batchSize > 0
    requires !choice.raises
    ensures var (t', pc) := StepJob(c, t, task, choice); GoodStep(c, t, task, t', pc, drainedEnd)
  {
    hide WellFormed, HasChat, AllProcessed, EndedClean, GoodStep, Harmless, MarkProcessed, MessageIds;
    MarkingIsHarmless(c, t, MessageIds(task.pc.batch), Summary);
    HarmlessStep(c, t, task, StepJob(c, t, task, choice).0, Memory, drainedEnd);
  }

  lemma GistingStepIsGood(c: Config, t: Tables, task: Task, choice: Choice, drainedEnd: bool)
    requires WellFormed(t) && EndedClean(c, t, drainedEnd) && InPlace(task) && task.pc.Gisting? && Knows(c, t, task)
    requires !choice.raises && c.batchSize > 0
    ensures var (t', pc) := StepJob(c, t, task, choice); GoodStep(c, t, task, t', pc, drainedEnd)
  {
    hide WellFormed, HasChat, AllProcessed, EndedClean, GoodStep, MarkProcessed, MessageIds, OldUnprocessed, HasUser,
         Texts, Inactive;
    var batch := OldUnprocessed(t.messages, c.chatId, 0, c.batchSize, GistKind);
    var (t', pc) := StepJob(c, t, task, choice);
    if batch == [] {
      NothingLeftToGist(c, t);
      UnchangedStep(c, t, task, pc, drainedEnd);
    } else if HasUser(batch) {
      UnchangedStep(c, t, task, pc, drainedEnd);
    } else {
      MarkingIsHarmless(c, t, MessageIds(batch), GistKind);
      HarmlessStep(c, t, task, t', pc, drainedEnd);
    }
  }

  lemma SummarisingStepIsGood(c: Config, t: Tables, task: Task, choice: Choice, drainedEnd: bool)
    requires WellFormed(t) && EndedClean(c, t, drainedEnd) && InPlace(task) && task.pc.Summarising? && Knows(c, t, task)
    requires !choice.raises && c.batchSize > 0
    ensures var (t', pc) := StepJob(c, t, task, choice); GoodStep(c, t, task, t', pc, drainedEnd)
  {
    hide WellFormed, HasChat, AllProcessed, EndedClean, GoodStep, MessageIds, GistInserted, GistOf, Usable, Texts, Inactive;
    UsableIsThere(choice.summary);
    var (t', pc) := StepJob(c, t, task, choice);
    if pc.Raised? {
      UnchangedStep(c, t, task, pc, drainedEnd);
    } else {
      GistIsHarmless(c, t, GistOf(c.chatId, task.pc.title, task.pc.batch, choice.summary.value), MessageIds(task.pc.batch));
      HarmlessStep(c, t, task, t', pc, drainedEnd);
    }
  }

  lemma DeactivatingStepIsGood(c: Config, t: Tables, task: Task)
    requires WellFormed(t) && InPlace(task) && task.pc.Deactivating? && Knows(c, t, task)
    ensures GoodStep(c, t, task, SetActive(t, c.chatId, false), Done, task.pc.drained)
  {
    hide WellFormed, HasChat, AllProcessed, Inactive, Update;
    SetActiveKeepsSchema(t, c.chatId, false);
  }

  /** The stepping job knows what it has to, and what is known of the chat stays true. */
  lemma OwnStep(c: Config, t: Tables, task: Task, choice: Choice, drainedEnd: bool)
    requires WellFormed(t) && EndedClean(c, t, drainedEnd) && InPlace(task) && Knows(c, t, task) && Holds(task.pc)
    requires c.batchSize > 0
    ensures var (t', pc) := StepJob(c, t, task, choice);
            GoodStep(c, t, task, t', pc, if task.pc.Deactivating? && pc.Done? then task.pc.drained else drainedEnd)
  {
    hide WellFormed, HasChat, AllProcessed, EndedClean, GoodStep, MessageSaved, Inactive, PendingFor, SelectBatch,
         StateUpserted, GistInserted, OldUnprocessed, HasUser, ChatNamed, SetActive, MarkProcessed, MessageIds, GistOf, Usable;
    if choice.raises {
      UnchangedStep(c, t, task, Broken(task), drainedEnd);
    } else {
      match task.pc {
        case Checking => UnchangedStep(c, t, task, if Active(c, t) then Saving(None) else Raised, drainedEnd);
        case Saving(_) =>
          var pc := StepJob(c, t, task, choice).1;
          if (task.job.Turn? && choice.finished) || pc.Raised? {
            UnchangedStep(c, t, task, pc, drainedEnd);
          } else {
            SaveStep(c, t, task, choice, pc, drainedEnd);
          }
        case Memory => MemoryStepIsGood(c, t, task, choice, drainedEnd);
        case Extracting(_) => ExtractingStepIsGood(c, t, task, choice, drainedEnd);
        case Marking(_) => MarkingStepIsGood(c, t, task, choice, drainedEnd);
        case Gisting(_, _) => GistingStepIsGood(c, t, task, choice, drainedEnd);
        case Summarising(_, _, _) => SummarisingStepIsGood(c, t, task, choice, drainedEnd);
        case Deactivating(_) => DeactivatingStepIsGood(c, t, task);
        case _ => UnchangedStep(c, t, task, Done, drainedEnd);
      }
    }
  }

  // ---------------------------------------------------------------- the lock

  lemma InsideAfter(tasks: map<nat, Task>, tid: nat, task: Task)
    ensures Inside(tasks[tid := task]) == if Holds(task.pc) then Inside(tasks) + {tid} else Inside(tasks) - {tid}
  {
    hide Holds;
  }

  lemma EnterLocked(s: State, tid: nat, pc: Pc)
    requires Locked(s) && tid in s.tasks && s.tasks[tid].pc.Waiting? && MayStep(s, tid) && Holds(pc)
    requires Acquire(s.guard, Owner(tid, s.tasks[tid].job)).Some?
    ensures Locked(s.(guard := Acquire(s.guard, Owner(tid, s.tasks[tid].job)).value,
                      tasks := s.tasks[tid := s.tasks[tid].(pc := pc)]))
  {
    var inside, inside' := Inside(s.tasks), Inside(s.tasks[tid := s.tasks[tid].(pc := pc)]);
    InsideAfter(s.tasks, tid, s.tasks[tid].(pc := pc));
    assert tid !in inside && |inside + {tid}| == |inside| + 1;
  }

  lemma StayLocked(s: State, tid: nat, pc: Pc, t: Tables, drainedEnd: bool)
    requires Locked(s) && tid in s.tasks && Holds(s.tasks[tid].pc) && Holds(pc)
    ensures Locked(At(s.(tables := t, drainedEnd := drainedEnd), tid, s.tasks[tid], pc))
  {
    hide Holds;
    InsideAfter(s.tasks, tid, s.tasks[tid].(pc := pc));
    assert Inside(s.tasks) + {tid} == Inside(s.tasks);
  }

  /** One of several jobs inside releases the lock once, and the others still hold it. */
  lemma LeaveLocked(s: State, tid: nat, pc: Pc, t: Tables, drainedEnd: bool)
    requires Locked(s) && tid in s.tasks && Holds(s.tasks[tid].pc) && !Holds(pc)
    ensures Locked(At(s.(tables := t, drainedEnd := drainedEnd), tid, s.tasks[tid], pc))
  {
    hide Holds;
    var inside := Inside(s.tasks);
    InsideAfter(s.tasks, tid, s.tasks[tid].(pc := pc));
    assert tid in inside && |inside - {tid}| == |inside| - 1;
  }

  /** Whoever is inside together may overlap. */
  lemma TogetherInside(s: State, a: nat, b: nat)
    requires Locked(s) && a in Inside(s.tasks) && b in Inside(s.tasks) && a != b
    ensures MayOverlap(s.tasks[a].job, s.tasks[b].job)
  {
  }

  // ---------------------------------------------------------------- every step of every interleaving

  /** The others keep what they know: they are consolidations, which know nothing, or the stepping job is one, which
      takes nothing away. */
  lemma OthersKnow(c: Config, t: Tables, t': Tables, stepping: Task, other: Task)
    requires Knows(c, t, other) && InPlace(other)
    requires Holds(other.pc) ==> MayOverlap(stepping.job, other.job)
    requires stepping.job.Consolidate? ==> Keeps(c, t, t')
    ensures Knows(c, t', other)
  {
    hide AllProcessed, Open, Keeps;
    if stepping.job.Consolidate? {
      KeepsWhatIsKnown(c, t, t', other);
    }
  }

  lemma JobStep(c: Config, s: State, tid: nat, choice: Choice)
    requires Inv(c, s) && tid in s.tasks && Holds(s.tasks[tid].pc)
    ensures Inv(c, Stepped(c, s, tid, choice))
  {
    hide StepJob, WellFormed, Locked, InPlace, Knows, EndedClean, Holds, Inside, MayOverlap, Keeps;
    var task := s.tasks[tid];
    var (t, pc) := StepJob(c, s.tables, task, choice);
    var drainedEnd := if task.pc.Deactivating? && pc.Done? then task.pc.drained else s.drainedEnd;
    OwnStep(c, s.tables, task, choice, s.drainedEnd);
    if Holds(pc) {
      StayLocked(s, tid, pc, t, drainedEnd);
    } else {
      LeaveLocked(s, tid, pc, t, drainedEnd);
    }
    forall other | other in s.tasks && other != tid ensures Knows(c, t, s.tasks[other]) {
      AreInside(s.tasks, tid, other);
      if Holds(s.tasks[other].pc) {
        TogetherInside(s, tid, other);
      }
      OthersKnow(c, s.tables, t, task, s.tasks[other]);
    }
  }

  lemma AreInside(tasks: map<nat, Task>, a: nat, b: nat)
    requires a in tasks && b in tasks
    ensures Holds(tasks[a].pc) ==> a in Inside(tasks)
    ensures Holds(tasks[b].pc) ==> b in Inside(tasks)
  {
    hide Holds;
  }

  lemma EntryIsInside(job: Job)
    ensures Holds(Entry(job)) && InPlace(Task(job, Entry(job)))
    ensures forall c, t :: Knows(c, t, Task(job, Entry(job)))
  {
  }

  lemma EnterStep(c: Config, s: State, tid: nat)
    requires Inv(c, s) && tid in s.tasks && s.tasks[tid].pc.Waiting? && MayStep(s, tid)
    requires Acquire(s.guard, Owner(tid, s.tasks[tid].job)).Some?
    ensures Inv(c, s.(guard := Acquire(s.guard, Owner(tid, s.tasks[tid].job)).value,
                      tasks := s.tasks[tid := s.tasks[tid].(pc := Entry(s.tasks[tid].job))]))
  {
    hide WellFormed, Locked, InPlace, Knows, EndedClean, Acquire, Entry, Holds;
    EntryIsInside(s.tasks[tid].job);
    EnterLocked(s, tid, Entry(s.tasks[tid].job));
  }

  /** A write that keeps what is known leaves the invariant. */
  lemma WriteStep(c: Config, s: State, t: Tables)
    requires Inv(c, s) && WellFormed(t) && Keeps(c, s.tables, t)
    ensures Inv(c, s.(tables := t))
  {
    hide WellFormed, InPlace, Knows, EndedClean, Keeps;
    KeepsEndedClean(c, s.tables, t, s.drainedEnd);
    forall tid | tid in s.tasks ensures Knows(c, t, s.tasks[tid]) {
      KeepsWhatIsKnown(c, s.tables, t, s.tasks[tid]);
    }
  }

  /** A job that is and stays outside the guard. */
  lemma OutsideLocked(s: State, tid: nat, task: Task)
    requires Locked(s) && !Holds(task.pc) && (tid in s.tasks ==> !Holds(s.tasks[tid].pc))
    ensures Locked(s.(tasks := s.tasks[tid := task]))
  {
    hide Holds;
    InsideAfter(s.tasks, tid, task);
    assert Inside(s.tasks) - {tid} == Inside(s.tasks);
  }

  lemma OutsideStep(c: Config, s: State, tid: nat, task: Task)
    requires Inv(c, s) && !Holds(task.pc) && (tid in s.tasks ==> !Holds(s.tasks[tid].pc))
    requires InPlace(task) && Knows(c, s.tables, task)
    ensures Inv(c, s.(tasks := s.tasks[tid := task]))
  {
    hide WellFormed, EndedClean, Locked, InPlace, Knows, Holds;
    OutsideLocked(s, tid, task);
  }

  /** A job outside the guard gets to another point outside it. */
  lemma IdleStep(c: Config, s: State, tid: nat, pc: Pc)
    requires Inv(c, s) && tid in s.tasks && !Holds(s.tasks[tid].pc) && (pc.Done? || pc.Raised?)
    ensures Inv(c, s.(tasks := s.tasks[tid := s.tasks[tid].(pc := pc)]))
  {
    hide Inv;
    OutsideStep(c, s, tid, s.tasks[tid].(pc := pc));
  }

  lemma EditStep(c: Config, s: State, tid: nat, choice: Choice)
    requires Inv(c, s) && tid in s.tasks && s.tasks[tid].pc.Editing?
    ensures Inv(c, Edited(s, tid, choice))
  {
    BatchSizeIsPositive(c, s);
    hide Inv, WellFormed, Keeps, ContentUpdated;
    var id := s.tasks[tid].pc.id;
    var s1 := s.(tables := Edited(s, tid, choice).tables);
    if !choice.raises && !choice.finished {
      EditKeeps(c, s.tables, id, choice.content);
      ContentKeepsSchema(s.tables, id, choice.content);
      WriteStep(c, s, s1.tables);
    } else {
      assert s1 == s;
    }
    IdleStep(c, s1, tid, if choice.raises then Raised else Done);
  }

  lemma BeginStep(c: Config, s: State, tid: nat, job: Job)
    requires Inv(c, s) && tid !in s.tasks
    ensures Inv(c, s.(tasks := s.tasks[tid := Task(job, Waiting)]))
  {
    hide Inv;
    OutsideStep(c, s, tid, Task(job, Waiting));
  }

  lemma RestartStep(c: Config, s: State)
    requires Inv(c, s)
    ensures Inv(c, s.(guard := Free, tasks := map[]))
  {
    hide WellFormed, EndedClean;
  }

  lemma AdvanceStep(c: Config, s: State, tid: nat, choice: Choice)
    requires Inv(c, s)
    ensures Inv(c, Next(c, s, Advance(tid, choice)))
  {
    BatchSizeIsPositive(c, s);
    hide Inv, Stepped, Edited, WellFormed, Acquire, Entry, MayStep, Holds;
    if tid in s.tasks && MayStep(s, tid) {
      if s.tasks[tid].pc.Waiting? {
        if Acquire(s.guard, Owner(tid, s.tasks[tid].job)).Some? {
          EnterStep(c, s, tid);
        }
      } else if Holds(s.tasks[tid].pc) {
        JobStep(c, s, tid, choice);
      } else if s.tasks[tid].pc.Editing? {
        EditStep(c, s, tid, choice);
      }
    }
  }

  lemma NextKeepsInv(c: Config, s: State, e: Event)
    requires Inv(c, s)
    ensures Inv(c, Next(c, s, e))
  {
    BatchSizeIsPositive(c, s);
    hide Inv, Stepped, Edited, WellFormed, Acquire, Entry, MayStep, Holds, Harmless, Keeps, SetActive, ChatCreated, Delete;
    match e {
      case Begin(tid, job) =>
        if tid !in s.tasks {
          BeginStep(c, s, tid, job);
        }
      case Advance(tid, choice) => AdvanceStep(c, s, tid, choice);
      case Reactivate =>
        SetActiveKeepsSchema(s.tables, c.chatId, true);
        ReactivateKeeps(c, s.tables);
        WriteStep(c, s, SetActive(s.tables, c.chatId, true));
      case Create(title, modelName, now) =>
        CreateChatKeepsSchema(s.tables, c.chatId, title, modelName, now);
        CreateKeeps(c, s.tables, title, modelName, now);
        WriteStep(c, s, ChatCreated(s.tables, c.chatId, title, modelName, now));
      case Drop =>
        DeleteKeepsSchema(s.tables, c.chatId);
        DropKeeps(c, s.tables);
        WriteStep(c, s, Delete(s.tables, c.chatId));
      case Outside(after) =>
        if Harmless(c, s.tables, after) {
          HarmlessKeeps(c, s.tables, after);
          HarmlessIsWellFormed(c, s.tables, after);
          WriteStep(c, s, after);
        }
      case Restart => RestartStep(c, s);
    }
  }

  lemma BatchSizeIsPositive(c: Config, s: State)
    requires Inv(c, s)
    ensures c.batchSize > 0 && WellFormed(s.tables)
  {
    hide WellFormed;
  }

  lemma HarmlessIsWellFormed(c: Config, t: Tables, t': Tables)
    requires Harmless(c, t, t')
    ensures WellFormed(t')
  {
    hide WellFormed;
  }

  /** In every interleaving: the lock is held once for every job inside, all of them on one thread and all but one
      of them consolidations; while the chat is inactive every message has its gist, and is in memory when the end
      that closed it had drained memory. */
  lemma {:induction false} RunKeepsInv(c: Config, s: State, events: seq<Event>)
    requires Inv(c, s)
    ensures Inv(c, Run(c, s, events))
    decreases |events|
  {
    BatchSizeIsPositive(c, s);
    hide Inv, Next;
    if events != [] {
      NextKeepsInv(c, s, events[0]);
      RunKeepsInv(c, Next(c, s, events[0]), events[1..]);
    }
  }
}
