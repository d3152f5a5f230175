/** An end that no other job interrupts does exactly what the chat-end action does. */
module LoneEnd {
  import opened Results
  import opened Rows
  import opened Tables
  import opened Schema
  import opened MemoryBatches
  import opened ChatEnd
  import opened ChatGuard

  /** Only this job moves, and no call it makes is broken off. */
  ghost predicate Alone(events: seq<Event>, tid: nat) {
    forall e :: e in events ==> e.Advance? && e.tid == tid && !e.choice.raises
  }

  /** A job inside the guard that its thread may continue. */
  ghost predicate Ready(s: State, tid: nat) {
    tid in s.tasks && Holds(s.tasks[tid].pc) && (Owner(tid, s.tasks[tid].job).Loop? ==> LoopFree(s, tid))
  }

  lemma ReadyMayStep(s: State, tid: nat)
    requires Ready(s, tid)
    ensures MayStep(s, tid)
  {
  }

  /** Where an exception takes the job in the memory phase. */
  function Failing(job: Job): Pc {
    if job.Consolidate? then Leaving else Raised
  }

  /** The state in which the job has reached a point with these tables. */
  function Stand(s: State, tid: nat, t: Tables, pc: Pc): State
    requires tid in s.tasks
  {
    At(s.(tables := t), tid, s.tasks[tid], pc)
  }

  function Told(answer: Extraction, summary: Option<GistSummary>): Choice {
    Choice(false, false, User, "", 0, answer, summary)
  }

  lemma StandReady(s: State, tid: nat, t: Tables, pc: Pc)
    requires Ready(s, tid) && Holds(pc)
    ensures Ready(Stand(s, tid, t, pc), tid)
  {
    InsideAfter(s.tasks, tid, s.tasks[tid].(pc := pc));
  }

  lemma StandTwice(s: State, tid: nat, t: Tables, pc: Pc, t': Tables, pc': Pc)
    requires tid in s.tasks && Holds(pc)
    ensures Stand(Stand(s, tid, t, pc), tid, t', pc') == Stand(s, tid, t', pc')
  {
    hide Holds;
    assert s.tasks[tid := s.tasks[tid].(pc := pc)][tid := s.tasks[tid].(pc := pc')] == s.tasks[tid := s.tasks[tid].(pc := pc')];
  }

  /** One step before the last. */
  lemma StepAlone(c: Config, s: State, tid: nat, choice: Choice)
    requires c.batchSize > 0 && Ready(s, tid) && !s.tasks[tid].pc.Deactivating?
    ensures var (t, pc) := StepJob(c, s.tables, s.tasks[tid], choice);
            Run(c, s, [Advance(tid, choice)]) == Stand(s, tid, t, pc)
  {
    hide StepJob, Run, MayStep, Owner, LoopFree;
    ReadyMayStep(s, tid);
    var e := Advance(tid, choice);
    RunOne(c, s, [e]);
    RunNone(c, Next(c, s, e));
    assert [e][1..] == [];
  }

  lemma AloneConcat(a: seq<Event>, b: seq<Event>, tid: nat)
    requires Alone(a, tid) && Alone(b, tid)
    ensures Alone(a + b, tid)
  {
  }

  /** The next batch: selected, extracted, and unless that fails or is refused, marked. */
  lemma BatchAlone(c: Config, s: State, tid: nat, answer: Extraction) returns (events: seq<Event>)
    requires c.batchSize > 0 && WellFormed(s.tables) && Ready(s, tid) && s.tasks[tid].pc.Memory?
    requires SelectBatch(PendingFor(s.tables.messages, c.chatId, Summary), c.profile) != []
    ensures Alone(events, tid)
    ensures var batch := SelectBatch(PendingFor(s.tables.messages, c.chatId, Summary), c.profile);
            Run(c, s, events) ==
            if answer.Raises? then Stand(s, tid, s.tables, Failing(s.tasks[tid].job))
            else
              var t := Remembered(s.tables, c.chatId, answer.memory, answer.at);
              if answer.Rejected? then Stand(s, tid, t, AfterMemory(c, t, s.tasks[tid].job, false))
              else Stand(s, tid, MarkedIn(t, batch, Summary), Memory)
  {
    hide Run, SelectBatch, PendingFor, WellFormed, MayStep, AfterMemory, Remembered, MarkedIn, HasChat, StateUpserted;
    var t, batch := s.tables, SelectBatch(PendingFor(s.tables.messages, c.chatId, Summary), c.profile);
    var e := Advance(tid, Told(answer, None));
    SomethingPending(PendingFor(t.messages, c.chatId, Summary), c.profile);
    BatchHasChat(t, c.chatId, Summary);
    StepAlone(c, s, tid, e.choice);
    var s1 := Stand(s, tid, t, Extracting(batch));
    StandReady(s, tid, t, Extracting(batch));
    StepAlone(c, s1, tid, e.choice);
    RunConcat(c, s, [e], [e]);
    events := [e] + [e];
    if answer.Raises? {
      StandTwice(s, tid, t, Extracting(batch), t, Failing(s.tasks[tid].job));
    } else {
      var t1 := Remembered(t, c.chatId, answer.memory, answer.at);
      RememberedWhenListed(t, c.chatId, answer.memory, answer.at);
      if answer.Rejected? {
        StandTwice(s, tid, t, Extracting(batch), t1, AfterMemory(c, t1, s.tasks[tid].job, false));
      } else {
        StandTwice(s, tid, t, Extracting(batch), t1, Marking(batch));
        var s2 := Stand(s, tid, t1, Marking(batch));
        StandReady(s, tid, t1, Marking(batch));
        StepAlone(c, s2, tid, e.choice);
        RunConcat(c, s, events, [e]);
        StandTwice(s, tid, t1, Marking(batch), MarkedIn(t1, batch, Summary), Memory);
        events := events + [e];
      }
    }
  }

  lemma SomethingPending(pending: seq<Message>, profile: Profile)
    requires SelectBatch(pending, profile) != []
    ensures pending != []
  {
    BatchIsHead(pending, profile);
  }

  lemma PendingAfterBatch(t: Tables, chatId: string, profile: Profile, memory: string, at: int)
    requires WellFormed(t)
    ensures var pending := PendingFor(t.messages, chatId, Summary);
            var batch := SelectBatch(pending, profile);
            && batch <= pending
            && PendingFor(MarkedIn(Remembered(t, chatId, memory, at), batch, Summary).messages, chatId, Summary) == pending[|batch|..]
  {
    hide WellFormed, MarkProcessed, MessageIds, SelectBatch, Stalls, PendingFor, Remembered, IdsIncrease, MemoryOnly;
    var pending := PendingFor(t.messages, chatId, Summary);
    BatchIsHead(pending, profile);
    ValidIncreases(t);
    RememberedOnly(t, chatId, memory, at);
    RestIsPending(t.messages, chatId, Summary, SelectBatch(pending, profile));
  }

  /** The memory phase, batch after batch. */
  lemma {:induction false} MemoryAlone(c: Config, s: State, tid: nat, answers: nat -> Extraction, k: nat)
      returns (events: seq<Event>, drained: bool)
    requires c.batchSize > 0 && WellFormed(s.tables) && Ready(s, tid) && s.tasks[tid].pc.Memory?
    ensures Alone(events, tid)
    ensures var pending := PendingFor(s.tables.messages, c.chatId, Summary);
            var t := MemoryTables(s.tables, c.chatId, pending, c.profile, answers, k);
            Run(c, s, events) == Stand(s, tid, t, if Consume(pending, c.profile, answers, k).1.Failed? then Failing(s.tasks[tid].job)
                                                  else AfterMemory(c, t, s.tasks[tid].job, drained))
    decreases |PendingFor(s.tables.messages, c.chatId, Summary)|
  {
    hide Run, SelectBatch, PendingFor, WellFormed, MayStep, AfterMemory, Remembered, MarkedIn, MemoryTables, Consume, Holds;
    var t, pending := s.tables, PendingFor(s.tables.messages, c.chatId, Summary);
    var batch, answer := SelectBatch(pending, c.profile), answers(k);
    if batch == [] {
      NoBatch(t, c.chatId, pending, c.profile, answers, k);
      var e := Advance(tid, Told(answer, None));
      StepAlone(c, s, tid, e.choice);
      events, drained := [e], pending == [];
    } else {
      MemoryStep(t, c.chatId, pending, c.profile, answers, k);
      events := BatchAlone(c, s, tid, answer);
      drained := false;
      if Consumes(answer) {
        var t1 := MarkedIn(Remembered(t, c.chatId, answer.memory, answer.at), batch, Summary);
        MarkedStaysWellFormed(t, c.chatId, answer.memory, answer.at, batch);
        PendingAfterBatch(t, c.chatId, c.profile, answer.memory, answer.at);
        MemoryHolds();
        StandReady(s, tid, t1, Memory);
        var rest;
        rest, drained := MemoryAlone(c, Stand(s, tid, t1, Memory), tid, answers, k + 1);
        RunConcat(c, s, events, rest);
        AloneConcat(events, rest, tid);
        events := events + rest;
        var t' := MemoryTables(t, c.chatId, pending, c.profile, answers, k);
        StandTwice(s, tid, t1, Memory, t', if Consume(pending, c.profile, answers, k).1.Failed? then Failing(s.tasks[tid].job)
                                           else AfterMemory(c, t', s.tasks[tid].job, drained));
      }
    }
  }

  lemma MemoryHolds()
    ensures Holds(Memory)
  {
  }

  /** The next batch of the gist phase: marked when no user speaks in it, otherwise summarised and stored. */
  lemma GistBatchAlone(c: Config, s: State, tid: nat, summary: Option<GistSummary>) returns (events: seq<Event>)
    requires c.batchSize > 0 && WellFormed(s.tables) && Ready(s, tid) && s.tasks[tid].pc.Gisting?
    requires HasChat(s.tables.chats, c.chatId)
    requires PendingFor(s.tables.messages, c.chatId, GistKind) != []
    ensures Alone(events, tid)
    ensures var batch := Limit(PendingFor(s.tables.messages, c.chatId, GistKind), c.batchSize);
            var t, pc := s.tables, s.tasks[tid].pc;
            && batch != []
            && (HasUser(batch) && Usable(summary) ==> summary.Some?)
            && Run(c, s, events) ==
               if !HasUser(batch) then Stand(s, tid, MarkedIn(t, batch, GistKind), pc)
               else if !Usable(summary) then Stand(s, tid, t, Raised)
               else Stand(s, tid, Stored(t, c.chatId, pc.title, batch, summary.value), pc)
  {
    hide Run, PendingFor, WellFormed, MayStep, MarkedIn, HasChat, GistInserted, OldUnprocessed, HasUser, Usable, Stored, GistOf,
         MessageIds, IdsIncrease, GistsAdded;
    var t, pc := s.tables, s.tasks[tid].pc;
    ValidIncreases(t);
    UngistedIsPending(t.messages, c.chatId, c.batchSize);
    UsableIsThere(summary);
    var batch := OldUnprocessed(t.messages, c.chatId, 0, c.batchSize, GistKind);
    var e := Advance(tid, Told(Raises, summary));
    StepAlone(c, s, tid, e.choice);
    events := [e];
    if HasUser(batch) {
      var asked := Summarising(pc.drained, pc.title, batch);
      StandReady(s, tid, t, asked);
      StepAlone(c, Stand(s, tid, t, asked), tid, e.choice);
      RunConcat(c, s, [e], [e]);
      events := [e] + [e];
      if Usable(summary) {
        StoredWhenListed(t, c.chatId, pc.title, batch, summary.value);
        StandTwice(s, tid, t, asked, Stored(t, c.chatId, pc.title, batch, summary.value), pc);
      } else {
        StandTwice(s, tid, t, asked, t, Raised);
      }
    }
  }

  /** What one batch of the gist phase leaves. */
  lemma GistBatchLeaves(t: Tables, chatId: string, title: Option<string>, batch: seq<Message>, s: Option<GistSummary>)
    requires WellFormed(t) && HasChat(t.chats, chatId) && batch != [] && batch <= PendingFor(t.messages, chatId, GistKind)
    requires !HasUser(batch) || s.Some?
    ensures var t' := if HasUser(batch) then Stored(t, chatId, title, batch, s.value) else MarkedIn(t, batch, GistKind);
            && WellFormed(t') && HasChat(t'.chats, chatId)
            && PendingFor(t'.messages, chatId, GistKind) == PendingFor(t.messages, chatId, GistKind)[|batch|..]
  {
    hide PendingFor, WellFormed, HasChat, GistInserted, HasUser, GistOf, MessageIds, IdsIncrease, GistsAdded, MarkProcessed, Stored;
    ValidIncreases(t);
    RestIsPending(t.messages, chatId, GistKind, batch);
    if HasUser(batch) {
      StoredGist(t, chatId, title, batch, s.value);
      StoredWhenListed(t, chatId, title, batch, s.value);
      GistKeepsSchema(t, GistOf(chatId, title, batch, s.value), MessageIds(batch));
    } else {
      MarkKeepsSchema(t, MessageIds(batch), GistKind);
    }
  }

  /** The gist phase, batch after batch. */
  lemma {:induction false} GistsAlone(c: Config, s: State, tid: nat, summaries: nat -> Option<GistSummary>, k: nat)
      returns (events: seq<Event>)
    requires c.batchSize > 0 && WellFormed(s.tables) && Ready(s, tid) && s.tasks[tid].pc.Gisting?
    requires HasChat(s.tables.chats, c.chatId)
    ensures Alone(events, tid)
    ensures var pending, pc := PendingFor(s.tables.messages, c.chatId, GistKind), s.tasks[tid].pc;
            Run(c, s, events)
            == Stand(s, tid, GistTables(s.tables, c.chatId, pc.title, pending, c.batchSize, summaries, k),
                     if Finalize(pending, c.batchSize, summaries, k).1.Failed? then Raised else Deactivating(pc.drained))
    decreases |PendingFor(s.tables.messages, c.chatId, GistKind)|
  {
    hide Run, PendingFor, WellFormed, MayStep, MarkedIn, HasChat, GistTables, Finalize, Holds, HasUser, Usable, Stored, IdsIncrease,
         OldUnprocessed;
    var t, pc, pending := s.tables, s.tasks[tid].pc, PendingFor(s.tables.messages, c.chatId, GistKind);
    if pending == [] {
      NothingToGist(t, c.chatId, pc.title, pending, c.batchSize, summaries, k);
      ValidIncreases(t);
      UngistedIsPending(t.messages, c.chatId, c.batchSize);
      var e := Advance(tid, Told(Raises, None));
      StepAlone(c, s, tid, e.choice);
      events := [e];
    } else {
      var batch := Limit(pending, c.batchSize);
      events := GistBatchAlone(c, s, tid, summaries(k));
      GistStep(t, c.chatId, pc.title, pending, c.batchSize, summaries, k);
      if !HasUser(batch) || Usable(summaries(k)) {
        GistBatchLeaves(t, c.chatId, pc.title, batch, summaries(k));
        var t1 := if HasUser(batch) then Stored(t, c.chatId, pc.title, batch, summaries(k).value) else MarkedIn(t, batch, GistKind);
        StandReady(s, tid, t1, pc);
        var rest := GistsAlone(c, Stand(s, tid, t1, pc), tid, summaries, k + 1);
        RunConcat(c, s, events, rest);
        AloneConcat(events, rest, tid);
        events := events + rest;
        StandTwice(s, tid, t1, pc, GistTables(t, c.chatId, pc.title, pending, c.batchSize, summaries, k),
                   if Finalize(pending, c.batchSize, summaries, k).1.Failed? then Raised else Deactivating(pc.drained));
      }
    }
  }

  lemma LastStep(c: Config, s: State, tid: nat)
    requires c.batchSize > 0 && Ready(s, tid) && s.tasks[tid].pc.Deactivating?
    ensures Run(c, s, [Advance(tid, Told(Raises, None))])
            == Stand(s, tid, SetActive(s.tables, c.chatId, false), Done).(drainedEnd := s.tasks[tid].pc.drained)
  {
    hide Run, MayStep, SetActive, Owner, LoopFree;
    ReadyMayStep(s, tid);
    var e := Advance(tid, Told(Raises, None));
    RunOne(c, s, [e]);
    RunNone(c, Next(c, s, e));
    assert [e][1..] == [];
  }

  /** An end that entered the guard and is not interrupted leaves exactly what the chat-end action leaves, for all
      answers of the extractor and all summaries, and it is done exactly when the action succeeds. */
  lemma EndAlone(c: Config, s: State, tid: nat, answers: nat -> Extraction, summaries: nat -> Option<GistSummary>)
      returns (events: seq<Event>)
    requires c.batchSize > 0 && WellFormed(s.tables) && Ready(s, tid) && s.tasks[tid].pc.Memory? && s.tasks[tid].job.End?
    ensures Alone(events, tid)
    ensures var (t, ended) := EndChat(s.tables, c.chatId, c.profile, c.batchSize, answers, summaries);
            var s' := Run(c, s, events);
            s' == Stand(s, tid, t, if ended then Done else Raised).(drainedEnd := s'.drainedEnd)
  {
    hide Run, PendingFor, WellFormed, MayStep, HasChat, MemoryTables, GistTables, Finalize, Consume, SetActive, ChatNamed, Holds;
    var pending := PendingFor(s.tables.messages, c.chatId, Summary);
    var t1 := MemoryTables(s.tables, c.chatId, pending, c.profile, answers, 0);
    var drained;
    events, drained := MemoryAlone(c, s, tid, answers, 0);
    if !Consume(pending, c.profile, answers, 0).1.Failed? && HasChat(t1.chats, c.chatId) {
      var title := ChatNamed(t1.chats, c.chatId).title;
      var gisting := Gisting(drained, title);
      MemoryLeaves(s.tables, c.chatId, pending, c.profile, answers, 0);
      PhasesHold(drained, title);
      StandReady(s, tid, t1, gisting);
      var s1 := Stand(s, tid, t1, gisting);
      var more := GistsAlone(c, s1, tid, summaries, 0);
      RunConcat(c, s, events, more);
      AloneConcat(events, more, tid);
      events := events + more;
      var ungisted := PendingFor(t1.messages, c.chatId, GistKind);
      var t2 := GistTables(t1, c.chatId, title, ungisted, c.batchSize, summaries, 0);
      if Finalize(ungisted, c.batchSize, summaries, 0).1.Failed? {
        StandTwice(s, tid, t1, gisting, t2, Raised);
      } else {
        StandTwice(s, tid, t1, gisting, t2, Deactivating(drained));
        StandReady(s, tid, t2, Deactivating(drained));
        LastStep(c, Stand(s, tid, t2, Deactivating(drained)), tid);
        RunConcat(c, s, events, [Advance(tid, Told(Raises, None))]);
        AloneConcat(events, [Advance(tid, Told(Raises, None))], tid);
        events := events + [Advance(tid, Told(Raises, None))];
        StandTwice(s, tid, t2, Deactivating(drained), SetActive(t2, c.chatId, false), Done);
      }
    }
  }

  lemma PhasesHold(drained: bool, title: Option<string>)
    ensures Holds(Gisting(drained, title)) && Holds(Deactivating(drained))
  {
  }
}
