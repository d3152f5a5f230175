/** What a turn, a pre-persisted message, an upload and a consolidation leave when nothing interrupts them. */
module LoneJobs {
  import opened Results
  import opened Rows
  import opened Tables
  import opened Schema
  import opened Compensation
  import opened MemoryBatches
  import opened ChatEnd
  import opened ChatGuard
  import opened LoneEnd

  /** A message to be saved. */
  datatype Line = Line(role: Role, content: string, at: int)

  function Say(line: Line): Choice {
    Choice(false, false, line.role, line.content, line.at, Raises, None)
  }

  const FINISH := Choice(false, true, User, "", 0, Raises, None)

  /** One save after another. */
  function Saves(chatId: string, lines: seq<Line>): seq<Write> {
    seq(|lines|, i requires 0 <= i < |lines| => Save(chatId, lines[i].role, lines[i].content, lines[i].at))
  }

  lemma SaveKeepsChat(t: Tables, chatId: string, line: Line)
    requires HasChat(t.chats, chatId)
    ensures var saved := MessageSaved(t, chatId, line.role, line.content, line.at);
            && saved == Some(Do(t, Save(chatId, line.role, line.content, line.at)))
            && HasChat(saved.value.chats, chatId) && saved.value.nextMessageId == t.nextMessageId + 1
  {
    hide HasChat, Update;
    UpdateKeepsChats(ChatIs(chatId), Touch(line.at), t.chats);
  }

  lemma SavesStep(t: Tables, chatId: string, lines: seq<Line>)
    requires lines != []
    ensures DoAll(t, Saves(chatId, lines))
            == DoAll(Do(t, Save(chatId, lines[0].role, lines[0].content, lines[0].at)), Saves(chatId, lines[1..]))
  {
    hide Do;
    assert Saves(chatId, lines)[1..] == Saves(chatId, lines[1..]);
  }

  /** The saves of a turn inside the guard, and its return: what it saved last is what it may still overwrite. */
  lemma {:induction false} SavingAlone(c: Config, s: State, tid: nat, lines: seq<Line>) returns (events: seq<Event>)
    requires c.batchSize > 0 && Ready(s, tid) && s.tasks[tid].job.Turn? && s.tasks[tid].pc.Saving? && HasChat(s.tables.chats, c.chatId)
    ensures Alone(events, tid)
    ensures var t := DoAll(s.tables, Saves(c.chatId, lines));
            Run(c, s, events) == Stand(s, tid, t, if lines != [] then Editing(s.tables.nextMessageId + |lines| - 1)
                                                  else if s.tasks[tid].pc.last.Some? then Editing(s.tasks[tid].pc.last.value)
                                                  else Done)
    decreases |lines|
  {
    hide Run, HasChat, MessageSaved, Saves, DoAll, Do, Holds, Owner, LoopFree;
    if lines == [] {
      NoSaves(s.tables, c.chatId);
      StepAlone(c, s, tid, FINISH);
      events := [Advance(tid, FINISH)];
    } else {
      var e := Advance(tid, Say(lines[0]));
      SaveKeepsChat(s.tables, c.chatId, lines[0]);
      var t1 := MessageSaved(s.tables, c.chatId, lines[0].role, lines[0].content, lines[0].at).value;
      var saving := Saving(Some(s.tables.nextMessageId));
      StepAlone(c, s, tid, e.choice);
      SavingHolds(s.tables.nextMessageId);
      StandReady(s, tid, t1, saving);
      var rest := SavingAlone(c, Stand(s, tid, t1, saving), tid, lines[1..]);
      RunConcat(c, s, [e], rest);
      AloneConcat([e], rest, tid);
      events := [e] + rest;
      SavesStep(s.tables, c.chatId, lines);
      StandTwice(s, tid, t1, saving, DoAll(s.tables, Saves(c.chatId, lines)), Editing(s.tables.nextMessageId + |lines| - 1));
    }
  }

  lemma NoSaves(t: Tables, chatId: string)
    ensures DoAll(t, Saves(chatId, [])) == t
  {
  }

  lemma SavingHolds(id: int)
    ensures Holds(Saving(Some(id))) && Holds(Saving(None)) && Holds(Leaving)
  {
  }

  /** A turn that entered the guard: of a chat that is not active it does nothing; otherwise it saves its messages in order and
      leaves the guard, with the last of them still to be overwritten. */
  lemma TurnAlone(c: Config, s: State, tid: nat, lines: seq<Line>) returns (events: seq<Event>)
    requires c.batchSize > 0 && Ready(s, tid) && s.tasks[tid] == Task(Turn, Checking) && HasChat(s.tables.chats, c.chatId)
    ensures Alone(events, tid)
    ensures Run(c, s, events) ==
            if forall x :: x in s.tables.chats && x.id == c.chatId ==> !x.active then Stand(s, tid, s.tables, Raised)
            else Stand(s, tid, DoAll(s.tables, Saves(c.chatId, lines)),
                       if lines == [] then Done else Editing(s.tables.nextMessageId + |lines| - 1))
  {
    hide Run, HasChat, Saves, DoAll, Holds, Owner, LoopFree;
    StepAlone(c, s, tid, FINISH);
    events := [Advance(tid, FINISH)];
    if Active(c, s.tables) {
      SavingHolds(0);
      StandReady(s, tid, s.tables, Saving(None));
      var rest := SavingAlone(c, Stand(s, tid, s.tables, Saving(None)), tid, lines);
      RunConcat(c, s, events, rest);
      AloneConcat(events, rest, tid);
      events := events + rest;
      StandTwice(s, tid, s.tables, Saving(None), DoAll(s.tables, Saves(c.chatId, lines)),
                 if lines == [] then Done else Editing(s.tables.nextMessageId + |lines| - 1));
    }
  }

  /** The edit that a turn has left over changes the text of its last message, and nothing else. */
  lemma EditAlone(c: Config, s: State, tid: nat, id: int, content: string)
    requires c.batchSize > 0 && tid in s.tasks && s.tasks[tid].pc == Editing(id) && LoopFree(s, tid)
    ensures Run(c, s, [Advance(tid, Say(Line(Assistant, content, 0)))])
            == s.(tables := Do(s.tables, Edit(id, content)), tasks := s.tasks[tid := Task(s.tasks[tid].job, Done)])
    ensures Run(c, s, [Advance(tid, FINISH)]) == s.(tasks := s.tasks[tid := Task(s.tasks[tid].job, Done)])
  {
    hide Run, LoopFree, ContentUpdated;
    var e, f := Advance(tid, Say(Line(Assistant, content, 0))), Advance(tid, FINISH);
    RunOne(c, s, [e]);
    RunOne(c, s, [f]);
    RunNone(c, Next(c, s, e));
    RunNone(c, Next(c, s, f));
    assert [e][1..] == [] && [f][1..] == [];
  }

  /** A message persisted before its turn is one save, in a chat that is active. */
  lemma PersistAlone(c: Config, s: State, tid: nat, line: Line)
    requires c.batchSize > 0 && Ready(s, tid) && s.tasks[tid] == Task(Persist, Checking) && HasChat(s.tables.chats, c.chatId)
    ensures Run(c, s, [Advance(tid, FINISH)] + if Active(c, s.tables) then [Advance(tid, Say(line))] else []) ==
            if forall x :: x in s.tables.chats && x.id == c.chatId ==> !x.active then Stand(s, tid, s.tables, Raised)
            else Stand(s, tid, Do(s.tables, Save(c.chatId, line.role, line.content, line.at)), Done)
  {
    hide Run, HasChat, MessageSaved, Do, Holds, Owner, LoopFree;
    StepAlone(c, s, tid, FINISH);
    if Active(c, s.tables) {
      SavingHolds(0);
      StandReady(s, tid, s.tables, Saving(None));
      SaveKeepsChat(s.tables, c.chatId, line);
      StepAlone(c, Stand(s, tid, s.tables, Saving(None)), tid, Say(line));
      RunConcat(c, s, [Advance(tid, FINISH)], [Advance(tid, Say(line))]);
      StandTwice(s, tid, s.tables, Saving(None), Do(s.tables, Save(c.chatId, line.role, line.content, line.at)), Done);
    } else {
      assert [Advance(tid, FINISH)] + [] == [Advance(tid, FINISH)];
    }
  }

  /** An upload does nothing to these tables. */
  lemma UploadAlone(c: Config, s: State, tid: nat)
    requires c.batchSize > 0 && Ready(s, tid) && s.tasks[tid] == Task(Upload, Uploading)
    ensures Run(c, s, [Advance(tid, FINISH)]) == Stand(s, tid, s.tables, Done)
  {
    hide Run;
    StepAlone(c, s, tid, FINISH);
  }

  /** A consolidation does the memory phase of an end and nothing else, and releases the lock whatever came of it. */
  lemma ConsolidationAlone(c: Config, s: State, tid: nat, answers: nat -> Extraction) returns (events: seq<Event>)
    requires c.batchSize > 0 && WellFormed(s.tables) && Ready(s, tid) && s.tasks[tid] == Task(Consolidate, Memory)
    ensures Alone(events, tid)
    ensures var pending := PendingFor(s.tables.messages, c.chatId, Summary);
            Run(c, s, events) == Stand(s, tid, MemoryTables(s.tables, c.chatId, pending, c.profile, answers, 0), Done)
  {
    hide Run, PendingFor, WellFormed, MemoryTables, Consume, Holds, Owner, LoopFree;
    var t := MemoryTables(s.tables, c.chatId, PendingFor(s.tables.messages, c.chatId, Summary), c.profile, answers, 0);
    var drained;
    events, drained := MemoryAlone(c, s, tid, answers, 0);
    SavingHolds(0);
    StandReady(s, tid, t, Leaving);
    StepAlone(c, Stand(s, tid, t, Leaving), tid, FINISH);
    RunConcat(c, s, events, [Advance(tid, FINISH)]);
    AloneConcat(events, [Advance(tid, FINISH)], tid);
    events := events + [Advance(tid, FINISH)];
    StandTwice(s, tid, t, Leaving, t, Done);
  }

  /** An exception leaves the tables as they are and ends the job; a consolidation has still to give back the lock. */
  lemma BrokenOff(c: Config, s: State, tid: nat, choice: Choice)
    requires c.batchSize > 0 && Ready(s, tid) && choice.raises
    ensures Run(c, s, [Advance(tid, choice)])
            == Stand(s, tid, s.tables, if s.tasks[tid].job.Consolidate? && s.tasks[tid].pc != Leaving then Leaving else Raised)
  {
    hide Run, Owner, LoopFree;
    ReadyMayStep(s, tid);
    var e := Advance(tid, choice);
    RunOne(c, s, [e]);
    RunNone(c, Next(c, s, e));
    assert [e][1..] == [];
  }
}
