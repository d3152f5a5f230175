/** A turn's last edit may arrive after the chat has been ended. */
module LateEdit {
  import opened Results
  import opened Rows
  import opened Tables
  import opened Schema
  import opened Recency
  import opened MemoryBatches
  import opened ChatEnd
  import CG = ChatGuard
  import GR = GuardedRuns
  import LoneEnd

  /** Ending a chat leaves the words of every chat alone. */
  lemma EndKeepsTexts(t: Tables, chatId: string, profile: Profile, size: nat, answers: nat -> Extraction,
                      summaries: nat -> Option<GistSummary>, id: string)
    requires size > 0
    ensures CG.Texts(EndChat(t, chatId, profile, size, answers, summaries).0.messages, id) == CG.Texts(t.messages, id)
  {
    hide PendingFor, MarkProcessed, MessageIds, Consume, Finalize, SetActive, HasChat, MemoryTables, GistTables, ChatNamed, CG.Texts,
         GistsAdded, MemoryOnly;
    var pending := PendingFor(t.messages, chatId, Summary);
    MemoryMessages(t, chatId, pending, profile, answers, 0);
    CG.MarkKeepsTexts(t.messages, id, MessageIds(pending[..Consume(pending, profile, answers, 0).0]), Summary);
    var t1 := MemoryTables(t, chatId, pending, profile, answers, 0);
    if HasChat(t1.chats, chatId) {
      var title, ungisted := ChatNamed(t1.chats, chatId).title, PendingFor(t1.messages, chatId, GistKind);
      GistMessages(t1, chatId, title, ungisted, size, summaries, 0);
      CG.MarkKeepsTexts(t1.messages, id, MessageIds(ungisted[..Finalize(ungisted, size, summaries, 0).0]), GistKind);
      ActiveFlagOnly(GistTables(t1, chatId, title, ungisted, size, summaries, 0), chatId, false);
    }
  }

  function Say(content: string, at: int): CG.Choice {
    CG.Choice(false, false, Assistant, content, at, Raises, None)
  }

  const RETURN := CG.Choice(false, true, Assistant, "", 0, Raises, None)

  /** A turn that saves its answer and returns. */
  function Answering(content: string, at: int): seq<CG.Event> {
    [CG.Begin(0, CG.Turn), CG.Advance(0, GR.QUIET), CG.Advance(0, GR.QUIET), CG.Advance(0, Say(content, at)), CG.Advance(0, RETURN)]
  }

  function Working(t: Tables, pc: CG.Pc, drainedEnd: bool): CG.State {
    CG.State(t, CG.Held(CG.Worker(0), 1), map[0 := CG.Task(CG.Turn, pc)], drainedEnd)
  }

  lemma WorkStep(c: CG.Config, t: Tables, pc: CG.Pc, choice: CG.Choice, drainedEnd: bool)
    requires c.batchSize > 0 && CG.Holds(pc) && !pc.Deactivating?
    ensures var (t', pc') := CG.StepJob(c, t, CG.Task(CG.Turn, pc), choice);
            CG.Next(c, Working(t, pc, drainedEnd), CG.Advance(0, choice))
            == if CG.Holds(pc') then Working(t', pc', drainedEnd)
               else CG.State(t', CG.Free, map[0 := CG.Task(CG.Turn, pc')], drainedEnd)
  {
    hide CG.StepJob;
    assert map[0 := CG.Task(CG.Turn, pc)][0 := CG.Task(CG.Turn, CG.StepJob(c, t, CG.Task(CG.Turn, pc), choice).1)]
           == map[0 := CG.Task(CG.Turn, CG.StepJob(c, t, CG.Task(CG.Turn, pc), choice).1)];
  }

  lemma TurnEnters(c: CG.Config, t: Tables, drainedEnd: bool, rest: seq<CG.Event>)
    requires c.batchSize > 0
    ensures CG.Run(c, GR.Start(t, drainedEnd), [CG.Begin(0, CG.Turn), CG.Advance(0, GR.QUIET)] + rest)
            == CG.Run(c, Working(t, CG.Checking, drainedEnd), rest)
  {
    hide CG.Run, CG.Stepped, CG.Edited;
    var events := [CG.Begin(0, CG.Turn), CG.Advance(0, GR.QUIET)] + rest;
    var waiting := CG.State(t, CG.Free, map[0 := CG.Task(CG.Turn, CG.Waiting)], drainedEnd);
    CG.RunOne(c, GR.Start(t, drainedEnd), events);
    assert CG.Next(c, GR.Start(t, drainedEnd), events[0]) == waiting;
    CG.RunOne(c, waiting, events[1..]);
    assert CG.Next(c, waiting, events[1]).tasks == map[0 := CG.Task(CG.Turn, CG.Checking)];
    assert events[1..][0] == events[1] && events[1..][1..] == rest;
  }

  /** It has left the guard, and may still overwrite what it saved. */
  lemma TurnReturns(c: CG.Config, t: Tables, drainedEnd: bool, content: string, at: int)
    requires c.batchSize > 0 && HasChat(t.chats, c.chatId) && CG.Active(c, t)
    ensures var saved := MessageSaved(t, c.chatId, Assistant, content, at);
            && saved.Some?
            && CG.Run(c, GR.Start(t, drainedEnd), Answering(content, at))
               == CG.State(saved.value, CG.Free, map[0 := CG.Task(CG.Turn, CG.Editing(t.nextMessageId))], drainedEnd)
  {
    hide CG.Run, CG.Next, HasChat, Inactive;
    var rest := [CG.Advance(0, GR.QUIET), CG.Advance(0, Say(content, at)), CG.Advance(0, RETURN)];
    assert Answering(content, at) == [CG.Begin(0, CG.Turn), CG.Advance(0, GR.QUIET)] + rest;
    TurnEnters(c, t, drainedEnd, rest);
    var saved := MessageSaved(t, c.chatId, Assistant, content, at).value;
    WorkStep(c, t, CG.Checking, GR.QUIET, drainedEnd);
    WorkStep(c, t, CG.Saving(None), Say(content, at), drainedEnd);
    WorkStep(c, saved, CG.Saving(Some(t.nextMessageId)), RETURN, drainedEnd);
    CG.RunOne(c, Working(t, CG.Checking, drainedEnd), rest);
    CG.RunOne(c, Working(t, CG.Saving(None), drainedEnd), rest[1..]);
    CG.RunOne(c, Working(saved, CG.Saving(Some(t.nextMessageId)), drainedEnd), rest[2..]);
    CG.RunNone(c, CG.State(saved, CG.Free, map[0 := CG.Task(CG.Turn, CG.Editing(t.nextMessageId))], drainedEnd));
    assert rest[1..][1..] == rest[2..] && rest[2..][1..] == [];
  }

  const ENTERING: seq<CG.Event> := [CG.Begin(1, CG.End(false)), CG.Advance(1, GR.QUIET)]

  /** An end on a worker thread enters the guard meanwhile. */
  lemma EndEnters(c: CG.Config, t: Tables, turn: CG.Task, drainedEnd: bool)
    requires c.batchSize > 0
    ensures CG.Run(c, CG.State(t, CG.Free, map[0 := turn], drainedEnd), ENTERING)
            == CG.State(t, CG.Held(CG.Worker(1), 1), map[0 := turn, 1 := CG.Task(CG.End(false), CG.Memory)], drainedEnd)
  {
    hide CG.Run, CG.Stepped, CG.Edited;
    var s0 := CG.State(t, CG.Free, map[0 := turn], drainedEnd);
    var s1 := CG.State(t, CG.Free, map[0 := turn, 1 := CG.Task(CG.End(false), CG.Waiting)], drainedEnd);
    var s2 := CG.State(t, CG.Held(CG.Worker(1), 1), map[0 := turn, 1 := CG.Task(CG.End(false), CG.Memory)], drainedEnd);
    CG.RunOne(c, s0, ENTERING);
    assert CG.Next(c, s0, ENTERING[0]) == s1;
    CG.RunOne(c, s1, ENTERING[1..]);
    assert CG.Next(c, s1, ENTERING[1]).tasks == s2.tasks;
    CG.RunNone(c, s2);
    assert ENTERING[1..][0] == ENTERING[1] && ENTERING[1..][1..] == [];
  }

  lemma SavedIsThere(t: Tables, chatId: string, content: string, at: int)
    requires HasChat(t.chats, chatId)
    ensures (t.nextMessageId, Assistant, content, at) in CG.Texts(MessageSaved(t, chatId, Assistant, content, at).value.messages, chatId)
  {
    var m := NewMessage(t, chatId, Assistant, content, at);
    assert m in MessageSaved(t, chatId, Assistant, content, at).value.messages;
  }

  /** From every store in which the chat is active: a turn answers and returns, the API ends the chat, and the words of
      the inactive chat still change, without reactivation or deletion. */
  lemma WordsOfEndedChatChange(c: CG.Config, t: Tables, drainedEnd: bool, content: string, at: int, memory: string, summary: GistSummary)
      returns (before: seq<CG.Event>, after: seq<CG.Event>)
    requires c.batchSize > 0 && WellFormed(t) && HasChat(t.chats, c.chatId) && CG.Active(c, t)
    requires Usable(Some(summary))
    ensures var s := CG.Run(c, GR.Start(t, drainedEnd), before);
            && HasChat(s.tables.chats, c.chatId) && !CG.Active(c, s.tables)
            && GR.Untouched(after)
            && CG.Texts(CG.Run(c, s, after).tables.messages, c.chatId) != CG.Texts(s.tables.messages, c.chatId)
  {
    hide CG.Run, CG.Next, HasChat, Inactive, WellFormed, Usable, CG.Texts, EndChat, CG.Locked, GR.Untouched, MessageSaved;
    var start := GR.Start(t, drainedEnd);
    TurnReturns(c, t, drainedEnd, content, at);
    SaveKeepsSchema(t, c.chatId, Assistant, content, at);
    SavedKeepsChat(t, c, content, at);
    var t1 := MessageSaved(t, c.chatId, Assistant, content, at).value;
    var turn := CG.Task(CG.Turn, CG.Editing(t.nextMessageId));
    EndEnters(c, t1, turn, drainedEnd);
    before := Answering(content, at) + ENTERING;
    CG.RunConcat(c, start, Answering(content, at), ENTERING);
    var s1 := CG.Run(c, start, before);
    EndIsReady(s1);
    var answers: nat -> Extraction := (_: nat) => Accepted(memory, at);
    var summaries: nat -> Option<GistSummary> := (_: nat) => Some(summary);
    var ending := LoneEnd.EndAlone(c, s1, 1, answers, summaries);
    EndsUnlessRaised(t1, c.chatId, c.profile, c.batchSize, answers, summaries);
    EndedMeans(t1, c.chatId, c.profile, c.batchSize, answers, summaries);
    EndKeepsTexts(t1, c.chatId, c.profile, c.batchSize, answers, summaries, c.chatId);
    CG.RunConcat(c, start, before, ending);
    before := before + ending;
    var s := CG.Run(c, start, before);
    EndedTasks(s1, EndChat(t1, c.chatId, c.profile, c.batchSize, answers, summaries).0);
    EndKeepsChat(t1, c.chatId, c.profile, c.batchSize, answers, summaries);
    SavedIsThere(t, c.chatId, content, at);
    GR.NothingIsOrderly(start);
    GR.RunKeepsOrder(c, start, before);
    HasSaved(c, s.tables, t.nextMessageId, content, at);
    after := GR.EditedRun(c, s, 0);
  }

  lemma HasSaved(c: CG.Config, t: Tables, id: int, content: string, at: int)
    requires (id, Assistant, content, at) in CG.Texts(t.messages, c.chatId)
    ensures GR.Has(c, t, id)
  {
    hide CG.Texts;
  }

  lemma SavedKeepsChat(t: Tables, c: CG.Config, content: string, at: int)
    requires HasChat(t.chats, c.chatId)
    ensures var saved := MessageSaved(t, c.chatId, Assistant, content, at); saved.Some? && HasChat(saved.value.chats, c.chatId)
  {
    hide HasChat, Update, Inactive;
    CG.SaveTouches(c, t, c.chatId, at);
  }

  lemma EndIsReady(s: CG.State)
    requires 1 in s.tasks && s.tasks[1] == CG.Task(CG.End(false), CG.Memory)
    ensures LoneEnd.Ready(s, 1)
  {
  }

  lemma EndedTasks(s: CG.State, t: Tables)
    requires 0 in s.tasks && 1 in s.tasks
    ensures var s' := LoneEnd.Stand(s, 1, t, CG.Done); s'.tables == t && 0 in s'.tasks && s'.tasks[0] == s.tasks[0]
  {
  }

  lemma EndKeepsChat(t: Tables, chatId: string, profile: Profile, size: nat, answers: nat -> Extraction,
                     summaries: nat -> Option<GistSummary>)
    requires size > 0 && HasChat(t.chats, chatId)
    ensures HasChat(EndChat(t, chatId, profile, size, answers, summaries).0.chats, chatId)
  {
    hide HasChat, PendingFor, MemoryTables, GistTables, Consume, Finalize, ChatNamed, MarkProcessed, MessageIds, Update;
    var pending := PendingFor(t.messages, chatId, Summary);
    MemoryMessages(t, chatId, pending, profile, answers, 0);
    var t1 := MemoryTables(t, chatId, pending, profile, answers, 0);
    if HasChat(t1.chats, chatId) {
      var title, ungisted := ChatNamed(t1.chats, chatId).title, PendingFor(t1.messages, chatId, GistKind);
      GistMessages(t1, chatId, title, ungisted, size, summaries, 0);
      var t2 := GistTables(t1, chatId, title, ungisted, size, summaries, 0);
      UpdateKeepsChats(ChatIs(chatId), SetActiveFlag(false), t2.chats);
    }
  }
}
