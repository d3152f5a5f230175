/** What the guard of a chat guarantees over runs, and which jobs it lets in together. */
module GuardedRuns {
  import opened Results
  import opened Rows
  import opened Tables
  import opened Schema
  import opened MemoryBatches
  import opened ChatEnd
  import opened ChatGuard

  /** Only saving adds to a transcript. */
  lemma StepTexts(c: Config, t: Tables, task: Task, choice: Choice)
    requires c.batchSize > 0
    ensures !task.pc.Saving? ==> Texts(StepJob(c, t, task, choice).0.messages, c.chatId) == Texts(t.messages, c.chatId)
    ensures task.pc.Saving? && StepJob(c, t, task, choice).0 != t ==> HasChat(t.chats, c.chatId)
  {
    hide HasChat, PendingFor, SelectBatch, OldUnprocessed, HasUser, ChatNamed, MarkProcessed, MessageIds, GistOf, Usable, Texts,
         Inactive, HasState, Update;
    UsableIsThere(choice.summary);
    match task.pc {
      case Marking(batch) => MarkKeepsTexts(t.messages, c.chatId, MessageIds(batch), Summary);
      case Gisting(_, _) =>
        MarkKeepsTexts(t.messages, c.chatId, MessageIds(OldUnprocessed(t.messages, c.chatId, 0, c.batchSize, GistKind)), GistKind);
      case Summarising(_, _, batch) => MarkKeepsTexts(t.messages, c.chatId, MessageIds(batch), GistKind);
      case _ =>
    }
  }

  /** Only the last step of an end changes the activity of the chat, and it opens nothing. */
  lemma StepActivity(c: Config, t: Tables, task: Task, choice: Choice)
    requires c.batchSize > 0
    ensures var t' := StepJob(c, t, task, choice).0;
            && (HasChat(t'.chats, c.chatId) <==> HasChat(t.chats, c.chatId))
            && (Active(c, t') ==> Active(c, t))
            && (Active(c, t) && !Active(c, t') ==> task.pc.Deactivating? && !choice.raises)
  {
    hide HasChat, PendingFor, SelectBatch, OldUnprocessed, HasUser, ChatNamed, MarkProcessed, MessageIds, GistOf, Usable,
         Inactive, HasState, Update;
    UsableIsThere(choice.summary);
    SaveTouches(c, t, c.chatId, choice.at);
    UpdateKeepsChats(ChatIs(c.chatId), SetActiveFlag(false), t.chats);
    DeactivatedIsInactive(t, c.chatId);
  }

  /** What the known chat row becomes when it is created again: it keeps its activity. */
  lemma CreateActivity(c: Config, t: Tables, title: Option<string>, modelName: Option<string>, now: int)
    ensures var t' := ChatCreated(t, c.chatId, title, modelName, now);
            && HasChat(t'.chats, c.chatId)
            && (Active(c, t) ==> Active(c, t'))
            && (HasChat(t.chats, c.chatId) && !Active(c, t) ==> !Active(c, t'))
  {
    hide HasChat, Update, Inactive;
    UpdateKeepsChats(ChatIs(c.chatId), Rename(title, modelName), t.chats);
    ActivityKept(ChatIs(c.chatId), Rename(title, modelName), t.chats, c.chatId);
    NewChatIsActive(t.chats, Chat(c.chatId, title, now, now, modelName, true));
  }

  lemma DeletedIsGone(t: Tables, chatId: string)
    ensures !HasChat(Delete(t, chatId).chats, chatId)
    ensures Outline(Delete(t, chatId).messages, chatId) == {}
  {
    hide MessageIds;
  }

  /** A step of a job: nothing, a step inside the guard, or the edit of a turn that has left it. */
  lemma StepOfTask(c: Config, s: State, tid: nat, choice: Choice)
    requires c.batchSize > 0
    ensures var t, t' := s.tables, Next(c, s, Advance(tid, choice)).tables;
            || t' == t
            || (tid in s.tasks && Holds(s.tasks[tid].pc) && t' == StepJob(c, t, s.tasks[tid], choice).0)
            || (tid in s.tasks && s.tasks[tid].pc.Editing?
                && t' == t.(messages := ContentUpdated(t.messages, s.tasks[tid].pc.id, choice.content)))
  {
    hide StepJob, MayStep, Holds, Acquire, ContentUpdated;
  }

  lemma SameTextsSameOutline(a: seq<Message>, b: seq<Message>, chatId: string)
    requires Texts(a, chatId) == Texts(b, chatId)
    ensures Outline(a, chatId) == Outline(b, chatId)
  {
    forall x | x in Outline(a, chatId) ensures x in Outline(b, chatId) {
      var m :| m in a && m.chatId == chatId && x == (m.id, m.role, m.createdAt);
      assert (m.id, m.role, m.content, m.createdAt) in Texts(b, chatId);
    }
    forall x | x in Outline(b, chatId) ensures x in Outline(a, chatId) {
      var m :| m in b && m.chatId == chatId && x == (m.id, m.role, m.createdAt);
      assert (m.id, m.role, m.content, m.createdAt) in Texts(a, chatId);
    }
  }

  lemma EditKeepsOutline(messages: seq<Message>, id: int, content: string, chatId: string)
    ensures Outline(ContentUpdated(messages, id, content), chatId) == Outline(messages, chatId)
  {
    var after := ContentUpdated(messages, id, content);
    forall x | x in Outline(after, chatId) ensures x in Outline(messages, chatId) {
      var m :| m in after && m.chatId == chatId && x == (m.id, m.role, m.createdAt);
      var i :| 0 <= i < |after| && after[i] == m;
      assert messages[i] in messages;
    }
    forall x | x in Outline(messages, chatId) ensures x in Outline(after, chatId) {
      var m :| m in messages && m.chatId == chatId && x == (m.id, m.role, m.createdAt);
      var i :| 0 <= i < |messages| && messages[i] == m;
      assert after[i] in after;
    }
  }

  /** What a step of a job does to the messages of an inactive chat: an edit at most. */
  lemma AdvanceOutline(c: Config, s: State, tid: nat, choice: Choice)
    requires Inv(c, s)
    ensures var t, t' := s.tables, Next(c, s, Advance(tid, choice)).tables;
            Active(c, t) || Outline(t'.messages, c.chatId) == Outline(t.messages, c.chatId)
  {
    BatchSizeIsPositive(c, s);
    var t, t' := s.tables, Next(c, s, Advance(tid, choice)).tables;
    hide WellFormed, Locked, EndedClean, StepJob, Texts, Outline, MayStep, Holds, HasChat, Inactive, Next, ContentUpdated;
    StepOfTask(c, s, tid, choice);
    if tid in s.tasks {
      StepTexts(c, t, s.tasks[tid], choice);
      if Texts(t'.messages, c.chatId) == Texts(t.messages, c.chatId) {
        SameTextsSameOutline(t'.messages, t.messages, c.chatId);
      }
      if s.tasks[tid].pc.Editing? {
        EditKeepsOutline(t.messages, s.tasks[tid].pc.id, choice.content, c.chatId);
      }
    }
  }

  /** No step adds a message to an inactive chat. */
  lemma SavesOnlyWhileActive(c: Config, s: State, e: Event)
    requires Inv(c, s) && !(Outline(Next(c, s, e).tables.messages, c.chatId) <= Outline(s.tables.messages, c.chatId))
    ensures Active(c, s.tables)
  {
    BatchSizeIsPositive(c, s);
    match e {
      case Advance(tid, choice) => AdvanceOutline(c, s, tid, choice);
      case Drop => DeletedIsGone(s.tables, c.chatId);
      case Outside(after) =>
        OutsideOutline(c, s, after);
      case _ =>
    }
  }

  lemma OutsideOutline(c: Config, s: State, after: Tables)
    requires c.batchSize > 0
    ensures var t' := Next(c, s, Outside(after)).tables;
            && Texts(t'.messages, c.chatId) == Texts(s.tables.messages, c.chatId)
            && Outline(t'.messages, c.chatId) == Outline(s.tables.messages, c.chatId)
  {
    hide WellFormed, HasChat, Inactive, AllProcessed, Texts, Outline;
    var t' := Next(c, s, Outside(after)).tables;
    SameTextsSameOutline(t'.messages, s.tables.messages, c.chatId);
  }

  /** Only an end that has passed both phases without an exception makes a chat inactive. */
  lemma DeactivatedOnlyAfterBothPhases(c: Config, s: State, e: Event)
    requires Inv(c, s) && Active(c, s.tables)
    requires HasChat(Next(c, s, e).tables.chats, c.chatId) && !Active(c, Next(c, s, e).tables)
    ensures e.Advance? && !e.choice.raises && e.tid in s.tasks
    ensures s.tasks[e.tid].job.End? && s.tasks[e.tid].pc.Deactivating?
    ensures Gisted(c, s.tables) && (s.tasks[e.tid].pc.drained ==> Remembers(c, s.tables))
  {
    hide WellFormed, Locked, EndedClean, StepJob, Texts, MayStep, Holds, Acquire, HasChat, Inactive, Delete, Update, Stepped,
         AllProcessed, SetActive, ChatCreated;
    match e {
      case Advance(tid, choice) =>
        StepOfTask(c, s, tid, choice);
        if tid in s.tasks {
          StepActivity(c, s.tables, s.tasks[tid], choice);
        }
      case Drop => DeletedIsGone(s.tables, c.chatId);
      case Reactivate => ReactivatedIsActive(c, s.tables);
      case Create(title, modelName, now) => CreateActivity(c, s.tables, title, modelName, now);
      case _ =>
    }
  }

  lemma ReactivatedIsActive(c: Config, t: Tables)
    ensures Active(c, t) ==> Active(c, SetActive(t, c.chatId, true))
  {
    hide Update, Inactive;
    ActivityKept(ChatIs(c.chatId), SetActiveFlag(true), t.chats, c.chatId);
  }

  lemma InactiveStays(c: Config, s: State, e: Event)
    requires c.batchSize > 0 && !e.Reactivate? && !e.Drop?
    requires HasChat(s.tables.chats, c.chatId) && !Active(c, s.tables)
    ensures var t' := Next(c, s, e).tables; HasChat(t'.chats, c.chatId) && !Active(c, t')
  {
    hide WellFormed, StepJob, Texts, MayStep, Holds, Acquire, HasChat, Inactive, Delete, Update, Stepped, AllProcessed, SetActive,
         ChatCreated;
    match e {
      case Advance(tid, choice) =>
        StepOfTask(c, s, tid, choice);
        if tid in s.tasks {
          StepActivity(c, s.tables, s.tasks[tid], choice);
        }
      case Create(title, modelName, now) => CreateActivity(c, s.tables, title, modelName, now);
      case _ =>
    }
  }

  /** What is neither saved nor dropped is still there. */
  lemma OutlineStays(c: Config, s: State, e: Event)
    requires Inv(c, s) && !Active(c, s.tables) && !e.Drop?
    ensures Outline(Next(c, s, e).tables.messages, c.chatId) == Outline(s.tables.messages, c.chatId)
  {
    BatchSizeIsPositive(c, s);
    hide WellFormed, Locked, EndedClean, Outline, MayStep, Stepped, Edited, Acquire, Harmless, HasChat, Inactive, Delete, Update;
    match e {
      case Advance(tid, choice) => AdvanceOutline(c, s, tid, choice);
      case Outside(after) => OutsideOutline(c, s, after);
      case _ =>
    }
  }

  /** Neither reactivated nor deleted. */
  ghost predicate Untouched(events: seq<Event>) {
    Reactivate !in events && Drop !in events
  }

  /** Until it is reactivated or deleted, an inactive chat stays inactive, and no message of it comes, goes or changes
      its author or time. */
  lemma {:induction false} FrozenWhileInactive(c: Config, s: State, events: seq<Event>)
    requires Inv(c, s) && HasChat(s.tables.chats, c.chatId) && !Active(c, s.tables) && Untouched(events)
    ensures var s' := Run(c, s, events);
            && HasChat(s'.tables.chats, c.chatId) && !Active(c, s'.tables)
            && Outline(s'.tables.messages, c.chatId) == Outline(s.tables.messages, c.chatId)
    decreases |events|
  {
    BatchSizeIsPositive(c, s);
    hide Inv, Next, Outline, HasChat, Inactive, WellFormed;
    if events != [] {
      NextKeepsInv(c, s, events[0]);
      OutlineStays(c, s, events[0]);
      InactiveStays(c, s, events[0]);
      FrozenWhileInactive(c, Next(c, s, events[0]), events[1..]);
    }
  }

  // ---------------------------------------------------------------- when the words are frozen too

  /** The chat has a message with this id. */
  ghost predicate Has(c: Config, t: Tables, id: int) {
    exists x :: x in Texts(t.messages, c.chatId) && x.0 == id
  }

  /** No turn has still to overwrite a message of the chat with its traced answer. */
  ghost predicate NoEditLeft(c: Config, s: State) {
    forall tid :: tid in s.tasks && s.tasks[tid].pc.Editing? ==> !Has(c, s.tables, s.tasks[tid].pc.id)
  }

  lemma EditOfOthers(c: Config, t: Tables, id: int, content: string)
    requires !Has(c, t, id)
    ensures Texts(ContentUpdated(t.messages, id, content), c.chatId) == Texts(t.messages, c.chatId)
  {
    forall m | m in t.messages && m.chatId == c.chatId ensures m.id != id {
      assert (m.id, m.role, m.content, m.createdAt) in Texts(t.messages, c.chatId);
    }
    EditedElsewhere(t.messages, id, content, c.chatId);
    TextsOfRows(t.messages, c.chatId);
    TextsOfRows(ContentUpdated(t.messages, id, content), c.chatId);
  }

  lemma TextsOfRows(messages: seq<Message>, chatId: string)
    ensures Texts(messages, chatId) == Texts(Filter(InChat(chatId), messages), chatId)
  {
  }

  /** A job inside the guard of an inactive chat neither touches its words nor leaves an edit to do. */
  lemma NoNewEdit(c: Config, t: Tables, task: Task, choice: Choice)
    requires c.batchSize > 0 && HasChat(t.chats, c.chatId) && !Active(c, t) && Knows(c, t, task)
    ensures Texts(StepJob(c, t, task, choice).0.messages, c.chatId) == Texts(t.messages, c.chatId)
    ensures !StepJob(c, t, task, choice).1.Editing?
  {
    StepTexts(c, t, task, choice);
    hide HasChat, PendingFor, SelectBatch, OldUnprocessed, HasUser, ChatNamed, MarkProcessed, MessageIds, GistOf, Usable, Texts,
         Inactive, StateUpserted, GistInserted, MessageSaved, SetActive, AllProcessed;
  }

  /** Nothing but its own steps brings a job to an edit. */
  lemma TaskAfter(c: Config, s: State, e: Event, tid: nat)
    requires c.batchSize > 0 && tid in Next(c, s, e).tasks && Next(c, s, e).tasks[tid].pc.Editing?
    ensures tid in s.tasks
    ensures s.tasks[tid].pc == Next(c, s, e).tasks[tid].pc
            || (e.Advance? && e.tid == tid && Holds(s.tasks[tid].pc) && StepJob(c, s.tables, s.tasks[tid], e.choice).1.Editing?)
  {
    hide StepJob, MayStep, Holds, Acquire, Harmless, SetActive, ChatCreated, Delete, ContentUpdated;
  }

  lemma WordsStay(c: Config, s: State, e: Event)
    requires Inv(c, s) && HasChat(s.tables.chats, c.chatId) && !Active(c, s.tables) && !e.Drop? && !e.Reactivate?
    requires NoEditLeft(c, s)
    ensures Texts(Next(c, s, e).tables.messages, c.chatId) == Texts(s.tables.messages, c.chatId)
  {
    BatchSizeIsPositive(c, s);
    hide WellFormed, Locked, EndedClean, StepJob, Texts, MayStep, Holds, HasChat, Inactive, Delete, Update, Stepped, Edited, Acquire,
         Harmless, ContentUpdated, Has, Knows;
    match e {
      case Advance(tid, choice) =>
        StepOfTask(c, s, tid, choice);
        if tid in s.tasks {
          NoNewEdit(c, s.tables, s.tasks[tid], choice);
          if s.tasks[tid].pc.Editing? {
            EditOfOthers(c, s.tables, s.tasks[tid].pc.id, choice.content);
          }
        }
      case Outside(after) => OutsideOutline(c, s, after);
      case _ =>
    }
  }

  lemma NoEditStays(c: Config, s: State, e: Event)
    requires Inv(c, s) && HasChat(s.tables.chats, c.chatId) && !Active(c, s.tables) && !e.Drop? && !e.Reactivate?
    requires NoEditLeft(c, s)
    ensures NoEditLeft(c, Next(c, s, e))
  {
    BatchSizeIsPositive(c, s);
    WordsStay(c, s, e);
    hide WellFormed, Locked, EndedClean, StepJob, Texts, HasChat, Inactive, Next, Knows;
    var s' := Next(c, s, e);
    forall tid | tid in s'.tasks && s'.tasks[tid].pc.Editing? ensures !Has(c, s'.tables, s'.tasks[tid].pc.id) {
      TaskAfter(c, s, e, tid);
      if s.tasks[tid].pc != s'.tasks[tid].pc {
        NoNewEdit(c, s.tables, s.tasks[tid], e.choice);
      }
    }
  }

  lemma {:induction false} WordsFrozen(c: Config, s: State, events: seq<Event>)
    requires Inv(c, s) && HasChat(s.tables.chats, c.chatId) && !Active(c, s.tables) && Untouched(events)
    requires NoEditLeft(c, s)
    ensures Texts(Run(c, s, events).tables.messages, c.chatId) == Texts(s.tables.messages, c.chatId)
    decreases |events|
  {
    BatchSizeIsPositive(c, s);
    hide Inv, Next, Texts, HasChat, Inactive, WellFormed, NoEditLeft;
    if events != [] {
      NextKeepsInv(c, s, events[0]);
      WordsStay(c, s, events[0]);
      NoEditStays(c, s, events[0]);
      InactiveStays(c, s, events[0]);
      WordsFrozen(c, Next(c, s, events[0]), events[1..]);
    }
  }

  function Overwrite(content: string): Choice {
    Choice(false, false, User, content, 0, Raises, None)
  }

  const BREAK := Choice(true, false, User, "", 0, Raises, None)

  /** The edit, once the event loop is free, changes the words. */
  lemma EditChanges(c: Config, s: State, tid: nat) returns (e: Event)
    requires c.batchSize > 0 && tid in s.tasks && s.tasks[tid].pc.Editing? && LoopFree(s, tid)
    requires Has(c, s.tables, s.tasks[tid].pc.id)
    ensures e.Advance? && Texts(Next(c, s, e).tables.messages, c.chatId) != Texts(s.tables.messages, c.chatId)
  {
    hide LoopFree, Next, Texts, ContentUpdated;
    var id := s.tasks[tid].pc.id;
    var x :| x in Texts(s.tables.messages, c.chatId) && x.0 == id;
    e := Advance(tid, Overwrite(x.2 + "."));
    EditNext(c, s, tid, x.2 + ".");
    NewWords(s.tables.messages, id, x.2 + ".", c.chatId);
    assert |x.2 + "."| == |x.2| + 1;
  }

  lemma EditNext(c: Config, s: State, tid: nat, content: string)
    requires c.batchSize > 0 && tid in s.tasks && s.tasks[tid].pc.Editing? && LoopFree(s, tid)
    ensures Next(c, s, Advance(tid, Overwrite(content))).tables.messages
            == ContentUpdated(s.tables.messages, s.tasks[tid].pc.id, content)
  {
    hide LoopFree, StepJob, ContentUpdated, Acquire;
  }

  lemma NewWords(messages: seq<Message>, id: int, content: string, chatId: string)
    ensures forall y :: y in Texts(ContentUpdated(messages, id, content), chatId) && y.0 == id ==> y.2 == content
  {
    var after := ContentUpdated(messages, id, content);
    forall y | y in Texts(after, chatId) && y.0 == id ensures y.2 == content {
      var m :| m in after && m.chatId == chatId && y == (m.id, m.role, m.content, m.createdAt);
      var i :| 0 <= i < |after| && after[i] == m;
    }
  }

  /** A synchronous job of the event loop can be broken off, and then the loop is free. */
  lemma FreeTheLoop(c: Config, s: State, tid: nat, busy: nat)
    requires c.batchSize > 0 && Locked(s) && tid in s.tasks && tid !in Inside(s.tasks)
    requires busy in Inside(s.tasks) && Owner(busy, s.tasks[busy].job).Loop? && !s.tasks[busy].job.Consolidate?
    ensures var s' := Next(c, s, Advance(busy, BREAK));
            && s'.tables == s.tables && tid in s'.tasks && s'.tasks[tid] == s.tasks[tid] && LoopFree(s', tid)
  {
    hide Release;
    assert LoopFree(s, busy);
    var s' := Next(c, s, Advance(busy, BREAK));
    assert s' == At(s, busy, s.tasks[busy], Raised);
    InsideAfter(s.tasks, busy, s.tasks[busy].(pc := Raised));
  }

  /** An inactive chat keeps its words too, until it is reactivated or deleted, exactly when no turn has still to
      overwrite one of its messages. */
  lemma WordsFrozenIff(c: Config, s: State)
    requires Inv(c, s) && HasChat(s.tables.chats, c.chatId) && !Active(c, s.tables)
    ensures (forall events :: Untouched(events) ==>
               Texts(Run(c, s, events).tables.messages, c.chatId) == Texts(s.tables.messages, c.chatId))
            <==> NoEditLeft(c, s)
  {
    BatchSizeIsPositive(c, s);
    LockedNow(c, s);
    hide Inv, Run, Next, Texts, HasChat, Inactive, WellFormed, Locked, LoopFree, Has;
    if NoEditLeft(c, s) {
      forall events | Untouched(events)
        ensures Texts(Run(c, s, events).tables.messages, c.chatId) == Texts(s.tables.messages, c.chatId)
      {
        WordsFrozen(c, s, events);
      }
    } else {
      var tid :| tid in s.tasks && s.tasks[tid].pc.Editing? && Has(c, s.tables, s.tasks[tid].pc.id);
      var events := EditedRun(c, s, tid);
      assert Untouched(events);
    }
  }

  lemma LockedNow(c: Config, s: State)
    requires Inv(c, s)
    ensures Locked(s)
  {
    hide Locked;
  }

  lemma EditedRun(c: Config, s: State, tid: nat) returns (events: seq<Event>)
    requires c.batchSize > 0 && Locked(s) && tid in s.tasks && s.tasks[tid].pc.Editing?
    requires Has(c, s.tables, s.tasks[tid].pc.id)
    ensures Untouched(events) && Texts(Run(c, s, events).tables.messages, c.chatId) != Texts(s.tables.messages, c.chatId)
  {
    hide Run, Next, Texts, Locked, Has;
    assert tid !in Inside(s.tasks);
    if LoopFree(s, tid) {
      var e := EditChanges(c, s, tid);
      RunOne(c, s, [e]);
      RunNone(c, Next(c, s, e));
      assert [e][1..] == [];
      events := [e];
    } else {
      var busy :| busy in Inside(s.tasks) && busy != tid && Owner(busy, s.tasks[busy].job).Loop? && !s.tasks[busy].job.Consolidate?;
      var b := Advance(busy, BREAK);
      FreeTheLoop(c, s, tid, busy);
      var s1 := Next(c, s, b);
      SameHas(c, s.tables, s1.tables, s.tasks[tid].pc.id);
      var e := EditChanges(c, s1, tid);
      events := [b, e];
      RunOne(c, s, events);
      RunOne(c, s1, events[1..]);
      RunNone(c, Next(c, s1, e));
      assert events[1..] == [e] && events[1..][1..] == [];
    }
  }

  lemma SameHas(c: Config, t: Tables, t': Tables, id: int)
    requires Has(c, t, id) && t' == t
    ensures Has(c, t', id)
  {
  }

  // ---------------------------------------------------------------- who is inside together

  const QUIET := Choice(false, false, User, "", 0, Raises, None)

  /** The process has just started. */
  function Start(t: Tables, drainedEnd: bool): State {
    State(t, Free, map[], drainedEnd)
  }

  predicate BothInside(s: State, a: nat, b: nat, jobA: Job, jobB: Job) {
    && a != b && a in s.tasks && b in s.tasks
    && Holds(s.tasks[a].pc) && Holds(s.tasks[b].pc)
    && s.tasks[a].job == jobA && s.tasks[b].job == jobB
  }

  /** A consolidation enters and is suspended; the other job follows. */
  function Overlapping(first: nat, a: Job, second: nat, b: Job): seq<Event> {
    [Begin(first, a), Begin(second, b), Advance(first, QUIET), Advance(second, QUIET)]
  }

  lemma Enters(c: Config, s: State, tid: nat, task: Task, choice: Choice)
    requires c.batchSize > 0 && tid in s.tasks && s.tasks[tid] == task && task.pc.Waiting?
    requires LoopFree(s, tid) && Acquire(s.guard, Owner(tid, task.job)).Some?
    ensures Next(c, s, Advance(tid, choice))
            == State(s.tables, Acquire(s.guard, Owner(tid, task.job)).value, s.tasks[tid := Task(task.job, Entry(task.job))],
                     s.drainedEnd)
  {
    hide Stepped, LoopFree, Entry;
  }

  lemma NobodyInTheWay(s: State, tid: nat)
    requires forall other :: other in s.tasks && other != tid && Holds(s.tasks[other].pc) ==> s.tasks[other].job.Consolidate?
    ensures LoopFree(s, tid)
  {
    hide Holds;
  }

  lemma OverlapRuns(c: Config, t: Tables, drainedEnd: bool, first: nat, second: nat, b: Job)
    requires c.batchSize > 0 && first != second && Owner(0, b).Loop?
    ensures var s := Run(c, Start(t, drainedEnd), Overlapping(first, Consolidate, second, b));
            s == State(t, Held(Loop, 2), map[first := Task(Consolidate, Memory), second := Task(b, Entry(b))], drainedEnd)
  {
    hide Next, Run, Entry, LoopFree;
    var events := Overlapping(first, Consolidate, second, b);
    var s0 := Start(t, drainedEnd);
    var waiting := map[first := Task(Consolidate, Waiting), second := Task(b, Waiting)];
    var s2 := State(t, Free, waiting, drainedEnd);
    var s3 := State(t, Held(Loop, 1), waiting[first := Task(Consolidate, Entry(Consolidate))], drainedEnd);
    BothBegin(c, s0, first, second, b);
    NobodyInTheWay(s2, first);
    NobodyInTheWay(s3, second);
    Enters(c, s2, first, Task(Consolidate, Waiting), QUIET);
    ConsolidateEntry();
    Enters(c, s3, second, Task(b, Waiting), QUIET);
    RunOne(c, s2, events[2..]);
    RunOne(c, s3, events[3..]);
    assert events[2..][1..] == events[3..] && events[3..][1..] == [];
    var s4 := State(t, Held(Loop, 2), s3.tasks[second := Task(b, Entry(b))], drainedEnd);
    assert Next(c, s2, events[2]) == s3 && Next(c, s3, events[3]) == s4;
    RunNone(c, s4);
    assert s4.tasks == map[first := Task(Consolidate, Memory), second := Task(b, Entry(b))];
  }

  lemma ConsolidateEntry()
    ensures Entry(Consolidate) == Memory
  {
  }

  lemma BothBegin(c: Config, s: State, first: nat, second: nat, b: Job)
    requires c.batchSize > 0 && first != second && s.tasks == map[]
    ensures var events := Overlapping(first, Consolidate, second, b);
            Run(c, s, events)
            == Run(c, s.(tasks := map[first := Task(Consolidate, Waiting), second := Task(b, Waiting)]), events[2..])
  {
    hide Stepped, Run, Acquire, MayStep;
    var events := Overlapping(first, Consolidate, second, b);
    RunOne(c, s, events);
    RunOne(c, s.(tasks := map[first := Task(Consolidate, Waiting)]), events[1..]);
    assert events[1..][1..] == events[2..];
    assert map[first := Task(Consolidate, Waiting)][second := Task(b, Waiting)]
           == map[first := Task(Consolidate, Waiting), second := Task(b, Waiting)];
  }

  /** What the lock needs of a state; nothing about the store. */
  ghost predicate Orderly(s: State) {
    Locked(s) && forall tid :: tid in s.tasks ==> InPlace(s.tasks[tid])
  }

  lemma StepInPlace(c: Config, t: Tables, task: Task, choice: Choice)
    requires c.batchSize > 0 && InPlace(task) && Holds(task.pc)
    ensures InPlace(task.(pc := StepJob(c, t, task, choice).1))
  {
    hide HasChat, PendingFor, SelectBatch, OldUnprocessed, HasUser, ChatNamed, MarkProcessed, MessageIds, GistOf, Usable,
         Inactive, StateUpserted, GistInserted, MessageSaved, SetActive;
    UsableIsThere(choice.summary);
  }

  lemma NextKeepsOrder(c: Config, s: State, e: Event)
    requires c.batchSize > 0 && Orderly(s)
    ensures Orderly(Next(c, s, e))
  {
    hide StepJob, Locked, InPlace, MayStep, Holds, Acquire, Entry, Harmless, SetActive, ChatCreated, Delete;
    match e {
      case Begin(tid, job) =>
        if tid !in s.tasks {
          WaitingIsOrderly(s, tid, job);
        }
      case Advance(tid, choice) =>
        if tid in s.tasks && MayStep(s, tid) {
          var task := s.tasks[tid];
          if task.pc.Waiting? {
            if Acquire(s.guard, Owner(tid, task.job)).Some? {
              EntryIsInside(task.job);
              EnterLocked(s, tid, Entry(task.job));
            }
          } else if Holds(task.pc) {
            var (t, pc) := StepJob(c, s.tables, task, choice);
            var drainedEnd := if task.pc.Deactivating? && pc.Done? then task.pc.drained else s.drainedEnd;
            StepInPlace(c, s.tables, task, choice);
            if Holds(pc) {
              StayLocked(s, tid, pc, t, drainedEnd);
            } else {
              LeaveLocked(s, tid, pc, t, drainedEnd);
            }
          } else if task.pc.Editing? {
            EditIsOrderly(s, tid, choice);
          }
        }
      case Restart => NothingIsOrderly(s.(guard := Free, tasks := map[]));
      case _ => SameTasks(s, Next(c, s, e));
    }
  }

  lemma EditIsOrderly(s: State, tid: nat, choice: Choice)
    requires Orderly(s) && tid in s.tasks && s.tasks[tid].pc.Editing?
    ensures Orderly(Edited(s, tid, choice))
  {
    hide ContentUpdated;
    InsideAfter(s.tasks, tid, s.tasks[tid].(pc := if choice.raises then Raised else Done));
    assert Inside(s.tasks) - {tid} == Inside(s.tasks);
  }

  lemma WaitingIsOrderly(s: State, tid: nat, job: Job)
    requires Orderly(s) && tid !in s.tasks
    ensures Orderly(s.(tasks := s.tasks[tid := Task(job, Waiting)]))
  {
    InsideAfter(s.tasks, tid, Task(job, Waiting));
    assert Inside(s.tasks) - {tid} == Inside(s.tasks);
  }

  lemma NothingIsOrderly(s: State)
    requires s.guard == Free && s.tasks == map[]
    ensures Orderly(s)
  {
  }

  lemma SameTasks(s: State, s': State)
    requires Orderly(s) && s'.guard == s.guard && s'.tasks == s.tasks
    ensures Orderly(s')
  {
    hide InPlace;
  }

  lemma {:induction false} RunKeepsOrder(c: Config, s: State, events: seq<Event>)
    requires c.batchSize > 0 && Orderly(s)
    ensures Orderly(Run(c, s, events))
    decreases |events|
  {
    hide Orderly, Next;
    if events != [] {
      NextKeepsOrder(c, s, events[0]);
      RunKeepsOrder(c, Next(c, s, events[0]), events[1..]);
    }
  }

  /** Whose turn it may be: the steps that a worker does, which are those of turns and of ends from the API, and the memory work of
      a consolidation, may come at any time; a step on the event loop waits until no pre-persisted message, upload or end from
      the interface is half-way through. */
  lemma MayStepIff(s: State, tid: nat)
    requires tid in s.tasks
    ensures var t := s.tasks[tid];
            MayStep(s, tid) <==>
            || (!t.pc.Editing? && t.job in [Turn, End(false)])
            || (t.job == Consolidate && (t.pc.Memory? || t.pc.Extracting? || t.pc.Marking?))
            || (forall other :: other in s.tasks && other != tid && s.tasks[other].job in [Persist, Upload, End(true)] ==>
                  var pc := s.tasks[other].pc; pc.Waiting? || pc.Editing? || pc.Done? || pc.Raised?)
  {
  }

  /** The jobs that take the lock on the event loop: pre-persisted messages, uploads, consolidations, and ends that come from
      the interface. */
  lemma OverlapTable(jobA: Job, jobB: Job)
    ensures MayOverlap(jobA, jobB) <==>
            || (jobA == Consolidate && jobB in [Persist, Upload, End(true), Consolidate])
            || (jobB == Consolidate && jobA in [Persist, Upload, End(true), Consolidate])
  {
  }

  /** The lock lets two jobs in together exactly when one of them is a consolidation and the other takes it on the event loop
      too; turns and ends from the API are always alone. */
  lemma OverlapIff(c: Config, t: Tables, drainedEnd: bool, jobA: Job, jobB: Job)
    requires c.batchSize > 0
    ensures (exists events: seq<Event>, a: nat, b: nat :: BothInside(Run(c, Start(t, drainedEnd), events), a, b, jobA, jobB))
            <==> || (jobA == Consolidate && jobB in [Persist, Upload, End(true), Consolidate])
                 || (jobB == Consolidate && jobA in [Persist, Upload, End(true), Consolidate])
  {
    hide Run, Locked, InPlace;
    OverlapTable(jobA, jobB);
    var s := Start(t, drainedEnd);
    NothingIsOrderly(s);
    forall events: seq<Event>, a: nat, b: nat | BothInside(Run(c, s, events), a, b, jobA, jobB)
      ensures MayOverlap(jobA, jobB)
    {
      var s' := Run(c, s, events);
      RunKeepsOrder(c, s, events);
      AreInside(s'.tasks, a, b);
      TogetherInside(s', a, b);
    }
    if MayOverlap(jobA, jobB) {
      EntryIsInside(jobA);
      EntryIsInside(jobB);
      if jobA.Consolidate? {
        OverlapRuns(c, t, drainedEnd, 0, 1, jobB);
        assert BothInside(Run(c, s, Overlapping(0, Consolidate, 1, jobB)), 0, 1, jobA, jobB);
      } else {
        OverlapRuns(c, t, drainedEnd, 1, 0, jobA);
        assert BothInside(Run(c, s, Overlapping(1, Consolidate, 0, jobA)), 0, 1, jobA, jobB);
      }
    }
  }

  // ---------------------------------------------------------------- one batch, two extractions

  predicate Memorises(job: Job) {
    job.End? || job.Consolidate?
  }

  /** Both have taken the same messages to the extractor. */
  predicate BothExtract(s: State, a: nat, b: nat, jobA: Job, jobB: Job) {
    && BothInside(s, a, b, jobA, jobB)
    && s.tasks[a].pc.Extracting? && s.tasks[a].pc == s.tasks[b].pc
  }

  lemma Selects(c: Config, s: State, tid: nat)
    requires c.batchSize > 0 && tid in s.tasks && s.tasks[tid].pc.Memory? && MayStep(s, tid)
    requires SelectBatch(PendingFor(s.tables.messages, c.chatId, Summary), c.profile) != []
    ensures var batch := SelectBatch(PendingFor(s.tables.messages, c.chatId, Summary), c.profile);
            Next(c, s, Advance(tid, QUIET)) == s.(tasks := s.tasks[tid := Task(s.tasks[tid].job, Extracting(batch))])
  {
    hide MayStep, SelectBatch, PendingFor;
  }

  /** A consolidation and whatever overlaps it select the same batch. */
  lemma BothSelect(c: Config, t: Tables, drainedEnd: bool, first: nat, second: nat, b: Job)
    requires c.batchSize > 0 && first != second && Owner(0, b).Loop? && Memorises(b)
    requires SelectBatch(PendingFor(t.messages, c.chatId, Summary), c.profile) != []
    ensures var batch := SelectBatch(PendingFor(t.messages, c.chatId, Summary), c.profile);
            var events := Overlapping(first, Consolidate, second, b) + [Advance(first, QUIET), Advance(second, QUIET)];
            Run(c, Start(t, drainedEnd), events).tasks
            == map[first := Task(Consolidate, Extracting(batch)), second := Task(b, Extracting(batch))]
  {
    hide Next, Run, SelectBatch, PendingFor;
    var more := [Advance(first, QUIET), Advance(second, QUIET)];
    var batch := SelectBatch(PendingFor(t.messages, c.chatId, Summary), c.profile);
    OverlapRuns(c, t, drainedEnd, first, second, b);
    RunConcat(c, Start(t, drainedEnd), Overlapping(first, Consolidate, second, b), more);
    var s0 := State(t, Held(Loop, 2), map[first := Task(Consolidate, Memory), second := Task(b, Memory)], drainedEnd);
    Selects(c, s0, first);
    var s1 := s0.(tasks := s0.tasks[first := Task(Consolidate, Extracting(batch))]);
    RunOne(c, s0, more);
    Selects(c, s1, second);
    var s2 := s1.(tasks := s1.tasks[second := Task(b, Extracting(batch))]);
    RunOne(c, s1, more[1..]);
    RunNone(c, s2);
    assert more[1..][1..] == [];
  }

  /** While a batch is pending, two jobs can take it to the extractor at the same time exactly when both do memory
      work on behalf of the event loop and one of them is a consolidation. */
  lemma SameBatchIff(c: Config, t: Tables, drainedEnd: bool, jobA: Job, jobB: Job)
    requires c.batchSize > 0
    requires SelectBatch(PendingFor(t.messages, c.chatId, Summary), c.profile) != []
    ensures (exists events: seq<Event>, a: nat, b: nat :: BothExtract(Run(c, Start(t, drainedEnd), events), a, b, jobA, jobB))
            <==> jobA in [End(true), Consolidate] && jobB in [End(true), Consolidate] && (jobA == Consolidate || jobB == Consolidate)
  {
    hide Run, Locked, SelectBatch, PendingFor;
    OverlapTable(jobA, jobB);
    var s := Start(t, drainedEnd);
    NothingIsOrderly(s);
    forall events: seq<Event>, a: nat, b: nat | BothExtract(Run(c, s, events), a, b, jobA, jobB)
      ensures MayOverlap(jobA, jobB) && Memorises(jobA) && Memorises(jobB)
    {
      var s' := Run(c, s, events);
      RunKeepsOrder(c, s, events);
      AreInside(s'.tasks, a, b);
      TogetherInside(s', a, b);
    }
    if MayOverlap(jobA, jobB) && Memorises(jobA) && Memorises(jobB) {
      if jobA.Consolidate? {
        BothSelect(c, t, drainedEnd, 0, 1, jobB);
        assert BothExtract(Run(c, s, Overlapping(0, Consolidate, 1, jobB) + [Advance(0, QUIET), Advance(1, QUIET)]), 0, 1, jobA, jobB);
      } else {
        BothSelect(c, t, drainedEnd, 1, 0, jobA);
        assert BothExtract(Run(c, s, Overlapping(1, Consolidate, 0, jobA) + [Advance(1, QUIET), Advance(0, QUIET)]), 0, 1, jobA, jobB);
      }
    }
  }
}
