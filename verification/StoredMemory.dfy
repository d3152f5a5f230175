/** Which memory state a chat is left with when it is ended. */
module StoredMemory {
  import opened Results
  import opened Rows
  import opened Tables
  import opened Schema
  import opened Compensation
  import opened Statements
  import opened Recency
  import opened MemoryBatches
  import opened ChatEnd

  /** What is pending: the messages of the transcript without the flag, in its order. */
  lemma PendingIs(messages: seq<Message>, chatId: string)
    ensures PendingFor(messages, chatId, Summary) == Filter((m: Message) => !m.summarized, Listing(messages, chatId))
    ensures PendingFor(messages, chatId, GistKind) == Filter((m: Message) => !m.gistProcessed, Listing(messages, chatId))
  {
    hide Listing;
    FilterAgree(Pending(Summary), (m: Message) => !m.summarized, Listing(messages, chatId));
    FilterAgree(Pending(GistKind), (m: Message) => !m.gistProcessed, Listing(messages, chatId));
  }

  /** The first n batches of the plan are consumed, and the next one, if there is one, is not. */
  ghost predicate StopsAfter(plan: seq<seq<Message>>, answers: nat -> Extraction, k: nat, n: nat) {
    && n <= |plan|
    && (forall i: nat :: k <= i < k + n ==> answers(i).Accepted? || answers(i).Noop?)
    && (n < |plan| ==> answers(k + n).Rejected? || answers(k + n).Raises?)
  }

  /** The last answer that came back without an exception: the refusal that ended the phase, or the last that was
      consumed. */
  function LastAnswer(plan: seq<seq<Message>>, answers: nat -> Extraction, k: nat, n: nat): Option<nat> {
    if n < |plan| && answers(k + n).Rejected? then Some(k + n)
    else if n > 0 then Some(k + n - 1)
    else None
  }

  /** The chat has this one state, or what it had before. */
  ghost predicate LeftWith(before: seq<MemoryState>, after: seq<MemoryState>, chatId: string, answers: nat -> Extraction,
                           last: Option<nat>)
  {
    if last.None? then after == before
    else
      && !answers(last.value).Raises?
      && Filter((s: MemoryState) => s.chatId == chatId, after)
         == [MemoryState(chatId, answers(last.value).memory, answers(last.value).at)]
      && Filter((s: MemoryState) => s.chatId != chatId, after) == Filter((s: MemoryState) => s.chatId != chatId, before)
  }

  lemma RememberedState(t: Tables, chatId: string, memory: string, at: int)
    requires WellFormed(t) && HasChat(t.chats, chatId)
    ensures var t' := Remembered(t, chatId, memory, at);
            && WellFormed(t') && HasChat(t'.chats, chatId)
            && Filter((s: MemoryState) => s.chatId == chatId, t'.memoryStates) == [MemoryState(chatId, memory, at)]
            && Filter((s: MemoryState) => s.chatId != chatId, t'.memoryStates)
               == Filter((s: MemoryState) => s.chatId != chatId, t.memoryStates)
  {
    assert StateKeys(t.memoryStates) && !(forall c :: c in t.chats ==> c.id != chatId);
    hide *;
    StoredState(t, chatId, memory, at);
    RememberingIs(t, chatId, memory, at);
    UpsertKeepsSchema(t, chatId, memory, at);
  }

  lemma RememberingIs(t: Tables, chatId: string, memory: string, at: int)
    requires HasChat(t.chats, chatId)
    ensures StateUpserted(t, chatId, memory, at) == Some(Remembered(t, chatId, memory, at))
    ensures Do(t, Remember(chatId, memory, at)) == Remembered(t, chatId, memory, at)
    ensures Remembered(t, chatId, memory, at).chats == t.chats
  {
    hide HasChat, HasState, Update;
  }

  lemma ConsumedFirst(pending: seq<Message>, profile: Profile, answers: nat -> Extraction, k: nat, n: nat)
    requires StopsAfter(BatchPlan(pending, profile), answers, k, n)
    ensures var batch, plan := SelectBatch(pending, profile), BatchPlan(pending, profile);
            if batch == [] then n == 0 && LastAnswer(plan, answers, k, n) == None
            else
              && batch <= pending
              && (answers(k).Raises? ==> LastAnswer(plan, answers, k, n) == None)
              && (answers(k).Rejected? ==> LastAnswer(plan, answers, k, n) == Some(k))
              && (!answers(k).Raises? && !answers(k).Rejected? ==>
                    var rest := BatchPlan(pending[|batch|..], profile);
                    && n > 0
                    && StopsAfter(rest, answers, k + 1, n - 1)
                    && LastAnswer(plan, answers, k, n)
                       == if LastAnswer(rest, answers, k + 1, n - 1).Some? then LastAnswer(rest, answers, k + 1, n - 1) else Some(k))
  {
    hide SelectBatch;
    BatchIsHead(pending, profile);
  }

  /** The phase stops somewhere. */
  lemma {:induction false} Stop(plan: seq<seq<Message>>, answers: nat -> Extraction, k: nat) returns (n: nat)
    ensures StopsAfter(plan, answers, k, n)
  {
    n := 0;
    if plan != [] && (answers(k).Accepted? || answers(k).Noop?) {
      var rest := Stop(plan[1..], answers, k + 1);
      n := rest + 1;
    }
  }

  /** Over the memory phase. */
  lemma {:induction false} StateAfterMemory(t: Tables, chatId: string, pending: seq<Message>, profile: Profile,
                                            answers: nat -> Extraction, k: nat, n: nat)
    requires WellFormed(t) && (pending != [] ==> HasChat(t.chats, chatId))
    requires StopsAfter(BatchPlan(pending, profile), answers, k, n)
    ensures var t' := MemoryTables(t, chatId, pending, profile, answers, k);
            LeftWith(t.memoryStates, t'.memoryStates, chatId, answers, LastAnswer(BatchPlan(pending, profile), answers, k, n))
    decreases |pending|
  {
    hide SelectBatch, Remembered, MarkProcessed, MessageIds, Filter, Stalls, BatchPlan, StopsAfter, LastAnswer, WellFormed, HasChat;
    var batch := SelectBatch(pending, profile);
    ConsumedFirst(pending, profile, answers, k, n);
    if batch != [] && !answers(k).Raises? {
      RememberedState(t, chatId, answers(k).memory, answers(k).at);
      if !answers(k).Rejected? {
        var t1 := Remembered(t, chatId, answers(k).memory, answers(k).at);
        MarkKeepsSchema(t1, MessageIds(batch), Summary);
        StateAfterMemory(MarkedIn(t1, batch, Summary), chatId, pending[|batch|..], profile, answers, k + 1, n - 1);
      }
    }
  }

  /** When a chat is ended, successfully or not, it is left with the state of the last answer that did not raise: that of
      the refused batch, else that of the last one consumed; with what it had, if no batch got that far. */
  lemma StateAfterEnd(t: Tables, chatId: string, profile: Profile, size: nat, answers: nat -> Extraction,
                      summaries: nat -> Option<GistSummary>, n: nat)
    requires WellFormed(t) && size > 0
    requires StopsAfter(BatchPlan(PendingFor(t.messages, chatId, Summary), profile), answers, 0, n)
    ensures var plan := BatchPlan(PendingFor(t.messages, chatId, Summary), profile);
            LeftWith(t.memoryStates, EndChat(t, chatId, profile, size, answers, summaries).0.memoryStates, chatId, answers,
                     LastAnswer(plan, answers, 0, n))
  {
    hide WellFormed, MemoryTables, GistTables, Consume, Finalize, HasChat, PendingFor, ChatNamed, StopsAfter, LastAnswer, LeftWith,
         BatchPlan, Filter, Update, MarkProcessed, MessageIds;
    var pending := PendingFor(t.messages, chatId, Summary);
    if pending != [] {
      BatchHasChat(t, chatId, Summary);
    }
    StateAfterMemory(t, chatId, pending, profile, answers, 0, n);
    var t1 := MemoryTables(t, chatId, pending, profile, answers, 0);
    if HasChat(t1.chats, chatId) {
      GistMessages(t1, chatId, ChatNamed(t1.chats, chatId).title, PendingFor(t1.messages, chatId, GistKind), size, summaries, 0);
    }
  }
}
