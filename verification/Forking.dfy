/** What a committed fork is: an isomorphic copy of one chat that leaves every other row alone. */
module Forking {
  import opened Results
  import opened Rows
  import opened Provenance
  import opened Tables

  lemma {:induction false} IdMapFacts(ms: seq<Message>, first: int)
    requires forall i, j :: 0 <= i < j < |ms| ==> ms[i].id != ms[j].id
    ensures IdMap(ms, first).Keys == MessageIds(ms)
    ensures forall i :: 0 <= i < |ms| ==> ms[i].id in IdMap(ms, first) && IdMap(ms, first)[ms[i].id] == first + i
  {
    if ms != [] {
      var init, last := ms[..|ms| - 1], ms[|ms| - 1];
      IdMapFacts(init, first);
      assert ms == init + [last];
      forall i | 0 <= i < |init| ensures ms[i].id in IdMap(ms, first) && IdMap(ms, first)[ms[i].id] == first + i {
        assert init[i] == ms[i];
      }
    }
  }

  lemma {:induction false} IdMapInjective(ms: seq<Message>, first: int)
    ensures forall k :: k in IdMap(ms, first) ==> first <= IdMap(ms, first)[k] < first + |ms|
    ensures Injective(IdMap(ms, first))
  {
    if ms != [] {
      IdMapInjective(ms[..|ms| - 1], first);
    }
  }

  /** The id map of a fork is a bijection from the chat's messages to the new ids. */
  lemma ForkIdMap(messages: seq<Message>, source: string, next: int)
    requires MessageKeys(messages, next)
    ensures var ms, ids := Listing(messages, source), IdMap(Listing(messages, source), next);
            && ids.Keys == MessageIds(ms)
            && Injective(ids)
            && (forall i :: 0 <= i < |ms| ==> ms[i].id in ids && ids[ms[i].id] == next + i)
            && (forall k :: k in ids ==> next <= ids[k] < next + |ms|)
  {
    ListingFacts(messages, source);
    IdMapFacts(Listing(messages, source), next);
    IdMapInjective(Listing(messages, source), next);
  }

  lemma CopiesOnlyRenamed(ms: seq<Message>, target: string, first: int)
    ensures forall i :: 0 <= i < |ms| ==>
              Copies(ms, target, first)[i] == ms[i].(id := first + i, chatId := target, summarized := true)
  {
  }

  lemma CopiesInTarget(ms: seq<Message>, target: string, first: int)
    ensures forall m :: m in Copies(ms, target, first) ==> m.chatId == target && first <= m.id < first + |ms|
  {
  }

  lemma CopiesChrono(ms: seq<Message>, target: string, first: int)
    requires Sorted(Chrono, ms)
    ensures Sorted(Chrono, Copies(ms, target, first))
  {
    var cs := Copies(ms, target, first);
    forall i, j | 0 <= i < j < |cs| ensures Chrono(cs[i], cs[j]) {
      assert Chrono(ms[i], ms[j]);
    }
  }

  lemma NoRowsYet(t: Tables, chatId: string)
    requires ChatReferences(t) && !HasChat(t.chats, chatId)
    ensures forall m :: m in t.messages ==> m.chatId != chatId
    ensures forall g :: g in t.gists ==> g.chatId != chatId
    ensures forall x :: x in t.inspections ==> x.chatId != chatId
    ensures forall s :: s in t.memoryStates ==> s.chatId != chatId
    ensures forall d :: d in t.chatDocuments ==> d.chatId != chatId
  {
  }

  lemma OrderedListing(rows: seq<Message>)
    requires Sorted(Chrono, rows)
    ensures Sort(Chrono, rows) == rows
  {
    ChronoIsOrder();
    SortOfSorted(Chrono, rows);
  }

  /** Appended rows of a chat that had none are that chat's rows. */
  lemma AppendedRows(messages: seq<Message>, added: seq<Message>, chatId: string)
    requires forall m :: m in messages ==> m.chatId != chatId
    requires forall m :: m in added ==> m.chatId == chatId
    ensures Filter(InChat(chatId), messages + added) == added
  {
    FilterConcat(InChat(chatId), messages, added);
    FilterNone(InChat(chatId), messages);
    FilterAll(InChat(chatId), added);
  }

  /** The same case split as Fork, with the transaction's tables spelled out. */
  lemma ForkUnfolded(t: Tables, source: string, target: string, now: int)
    ensures var gists := ForkGists(Filter(GistIn(source), t.gists), ForkRenaming(t, source, target), t.nextGistId);
            var inspections := ForkInspections(InspectionsOf(t.inspections, source), ForkRenaming(t, source, target));
            Fork(t, source, target, now) ==
            if !HasChat(t.chats, source) then Err(ChatNotFound)
            else if HasChat(t.chats, target) then Err(ChatExists)
            else if gists.None? || inspections.None? then Err(StaleProvenance)
            else Ok(Tables(
                      t.chats + [Chat(target, ChatNamed(t.chats, source).title, now, now,
                                      ChatNamed(t.chats, source).modelName, true)],
                      t.messages + Copies(Listing(t.messages, source), target, t.nextMessageId),
                      t.memoryStates,
                      t.gists + gists.value,
                      t.inspections + inspections.value,
                      t.chatDocuments,
                      t.nextMessageId + |Listing(t.messages, source)|,
                      t.nextGistId + |gists.value|))
  {
    hide HasChat, ChatNamed, Listing, ForkGists, ForkInspections, InspectionsOf, Filter, Sort, Copies, IdMap;
  }

  /** The tables of a committed fork, part by part. */
  lemma ForkParts(t: Tables, source: string, target: string, now: int)
    requires Fork(t, source, target, now).Ok?
    ensures var t', ren := Fork(t, source, target, now).value, ForkRenaming(t, source, target);
            var ms := Listing(t.messages, source);
            var gists := ForkGists(Filter(GistIn(source), t.gists), ren, t.nextGistId);
            var inspections := ForkInspections(InspectionsOf(t.inspections, source), ren);
            && HasChat(t.chats, source) && !HasChat(t.chats, target)
            && gists.Some? && inspections.Some?
            && ren == Renaming(IdMap(ms, t.nextMessageId), source, target)
            && (exists title, model :: t'.chats == t.chats + [Chat(target, title, now, now, model, true)])
            && t'.messages == t.messages + Copies(ms, target, t.nextMessageId)
            && t'.gists == t.gists + gists.value
            && t'.inspections == t.inspections + inspections.value
            && t'.memoryStates == t.memoryStates
            && t'.chatDocuments == t.chatDocuments
            && t'.nextMessageId == t.nextMessageId + |ms|
            && t'.nextGistId == t.nextGistId + |gists.value|
  {
    var chat := ChatNamed(t.chats, source);
    hide ForkGists, ForkInspections, Filter, Sort, Copies, IdMap, Listing, InspectionsOf, ChatNamed;
    assert Fork(t, source, target, now).value.chats
           == t.chats + [Chat(target, chat.title, now, now, chat.modelName, true)];
  }

  lemma CopiesListed(messages: seq<Message>, source: string, target: string, next: int)
    requires MessageKeys(messages, next)
    requires forall m :: m in messages ==> m.chatId != target
    ensures var copies := Copies(Listing(messages, source), target, next);
            Listing(messages + copies, target) == copies
  {
    ListingFacts(messages, source);
    CopiesChrono(Listing(messages, source), target, next);
    var copies := Copies(Listing(messages, source), target, next);
    CopiesInTarget(Listing(messages, source), target, next);
    AppendedRows(messages, copies, target);
    OrderedListing(copies);
  }

  /** The fork's transcript is the source transcript, message by message in the same order, with
      `summarized` forced and nothing else but the identity changed. */
  lemma ForkCopiesTranscript(t: Tables, source: string, target: string, now: int)
    requires WellFormed(t) && Fork(t, source, target, now).Ok?
    ensures var t' := Fork(t, source, target, now).value;
            var ids := ForkRenaming(t, source, target).ids;
            var ms, copies := Listing(t.messages, source), Listing(t'.messages, target);
            && ids.Keys == MessageIds(ms)
            && Injective(ids)
            && |copies| == |ms|
            && (forall i :: 0 <= i < |ms| ==>
                  ms[i].id in ids && copies[i] == ms[i].(id := ids[ms[i].id], chatId := target, summarized := true))
  {
    hide Fork, Listing, Copies, IdMap, Filter, MessageKeys, ChatReferences, GistKeys, InspectionKeys, ChatKeys,
         StateKeys, DocumentKeys, HasChat, ForkGists, ForkInspections, InspectionsOf, MessageIds, Injective;
    ForkParts(t, source, target, now);
    NoRowsYet(t, target);
    ForkIdMap(t.messages, source, t.nextMessageId);
    CopiesListed(t.messages, source, target, t.nextMessageId);
    CopiesOnlyRenamed(Listing(t.messages, source), target, t.nextMessageId);
  }

  // ---------------------------------------------------------------- gists and inspections

  ghost predicate ColumnFollows(before: Option<int>, after: Option<int>, ids: map<int, int>) {
    if before.None? then after.None? else before.value in ids && after == Some(ids[before.value])
  }

  /** Every recognised id at any depth of the document is renamed, and nothing else in it changes. */
  ghost predicate JsonFollows(before: JsonColumn, after: JsonColumn, ren: Renaming) {
    && before.Decoded?
    && after.Decoded?
    && Skeleton(after.value) == Skeleton(before.value)
    && MarksFollow(Marks(before.value), Marks(after.value), ren)
  }

  ghost predicate GistFollows(before: Gist, after: Gist, ren: Renaming) {
    && after.chatId == ren.target
    && ColumnFollows(before.startMessageId, after.startMessageId, ren.ids)
    && ColumnFollows(before.endMessageId, after.endMessageId, ren.ids)
    && JsonFollows(before.metadata, after.metadata, ren)
    && after == before.(id := after.id, chatId := after.chatId, startMessageId := after.startMessageId,
                        endMessageId := after.endMessageId, metadata := after.metadata)
  }

  ghost predicate InspectionFollows(before: Inspection, after: Inspection, ren: Renaming) {
    && before.assistantMessageId in ren.ids
    && JsonFollows(before.payload, after.payload, ren)
    && after == Inspection(ren.ids[before.assistantMessageId], ren.target, before.traceId, after.payload,
                           before.createdAt)
  }

  /** The provenance of a gist can be renamed: endpoints and recognised ids belong to the chat. */
  ghost predicate ColumnCurrent(column: JsonColumn, ren: Renaming) {
    column.Decoded? && AllRemap(Marks(column.value), ren)
  }

  ghost predicate GistCurrent(g: Gist, ren: Renaming) {
    && (g.startMessageId.Some? ==> g.startMessageId.value in ren.ids)
    && (g.endMessageId.Some? ==> g.endMessageId.value in ren.ids)
    && ColumnCurrent(g.metadata, ren)
  }

  lemma RemapJsonExact(column: JsonColumn, ren: Renaming)
    ensures RemapJson(column, ren).Some? <==> ColumnCurrent(column, ren)
    ensures RemapJson(column, ren).Some? ==> JsonFollows(column, RemapJson(column, ren).value, ren)
  {
    if column.Decoded? {
      RemapExact(column.value, ren);
    }
  }

  lemma ForkGistExact(g: Gist, ren: Renaming, id: int)
    ensures var out := ForkGist(g, ren, id);
            && (out.Some? <==> GistCurrent(g, ren))
            && (out.Some? ==> out.value.id == id && GistFollows(g, out.value, ren))
  {
    hide RemapJson, ColumnCurrent, JsonFollows;
    RemapJsonExact(g.metadata, ren);
  }

  lemma {:induction false} ForkGistsExact(gs: seq<Gist>, ren: Renaming, first: int)
    ensures ForkGists(gs, ren, first).Some? <==> forall g :: g in gs ==> GistCurrent(g, ren)
    ensures var out := ForkGists(gs, ren, first);
            out.Some? ==>
              && |out.value| == |gs|
              && forall i :: 0 <= i < |gs| ==> out.value[i].id == first + i && GistFollows(gs[i], out.value[i], ren)
  {
    hide ForkGist, GistCurrent, GistFollows;
    if gs != [] {
      ForkGistExact(gs[0], ren, first);
      ForkGistsExact(gs[1..], ren, first + 1);
      assert forall g :: g in gs <==> g == gs[0] || g in gs[1..];
      forall i | 0 < i < |gs| ensures gs[i] == gs[1..][i - 1] {
      }
    }
  }

  lemma {:induction false} ForkInspectionsExact(xs: seq<Inspection>, ren: Renaming)
    ensures ForkInspections(xs, ren).Some? <==>
            forall x :: x in xs && x.assistantMessageId in ren.ids ==> ColumnCurrent(x.payload, ren)
    ensures var out := ForkInspections(xs, ren);
            out.Some? ==>
              && (forall y :: y in out.value ==> exists x :: x in xs && InspectionFollows(x, y, ren))
              && (forall x :: x in xs && x.assistantMessageId in ren.ids ==>
                    exists y :: y in out.value && InspectionFollows(x, y, ren))
  {
    if xs != [] {
      var head, tail := xs[0], xs[1..];
      ForkInspectionsExact(tail, ren);
      assert forall x :: x in xs <==> x == head || x in tail;
      var out := ForkInspections(xs, ren);
      if head.assistantMessageId in ren.ids {
        RemapJsonExact(head.payload, ren);
        if out.Some? {
          assert InspectionFollows(head, out.value[0], ren);
          assert forall y :: y in out.value <==> y == out.value[0] || y in ForkInspections(tail, ren).value;
        }
      }
    }
  }

  lemma ForkedRowsInTarget(gs: seq<Gist>, xs: seq<Inspection>, ren: Renaming, first: int)
    requires ForkGists(gs, ren, first).Some? && ForkInspections(xs, ren).Some?
    ensures forall g :: g in ForkGists(gs, ren, first).value ==> g.chatId == ren.target
    ensures forall g :: g in ForkGists(gs, ren, first).value ==> first <= g.id < first + |gs|
    ensures forall y :: y in ForkInspections(xs, ren).value ==> y.chatId == ren.target
  {
    ForkGistsExact(gs, ren, first);
    ForkInspectionsExact(xs, ren);
  }

  /** Every row of every table that belongs to another chat stays as and where it was. */
  lemma ForkLeavesOthers(t: Tables, source: string, target: string, now: int)
    requires WellFormed(t) && Fork(t, source, target, now).Ok?
    ensures var t' := Fork(t, source, target, now).value;
            && Filter(ChatOther(target), t'.chats) == t.chats
            && Filter(MessageElsewhere(target), t'.messages) == t.messages
            && Filter(GistElsewhere(target), t'.gists) == t.gists
            && Filter(InspectionElsewhere(target), t'.inspections) == t.inspections
            && t'.memoryStates == t.memoryStates
            && t'.chatDocuments == t.chatDocuments
  {
    var t', ren := Fork(t, source, target, now).value, ForkRenaming(t, source, target);
    var ms := Listing(t.messages, source);
    var gs, xs := Filter(GistIn(source), t.gists), InspectionsOf(t.inspections, source);
    var newGists, newInspections := ForkGists(gs, ren, t.nextGistId).value, ForkInspections(xs, ren).value;
    hide Fork, ForkGists, ForkInspections, Copies, Filter, Listing, InspectionsOf, ForkRenaming;
    ForkParts(t, source, target, now);
    NoRowsYet(t, target);
    CopiesInTarget(ms, target, t.nextMessageId);
    ForkedRowsInTarget(gs, xs, ren, t.nextGistId);
    KeepOnly(ChatOther(target), t.chats, t'.chats[|t.chats|..]);
    KeepOnly(MessageElsewhere(target), t.messages, Copies(ms, target, t.nextMessageId));
    KeepOnly(GistElsewhere(target), t.gists, newGists);
    KeepOnly(InspectionElsewhere(target), t.inspections, newInspections);
  }

  lemma AppendedGists(gists: seq<Gist>, added: seq<Gist>, chatId: string)
    requires forall g :: g in gists ==> g.chatId != chatId
    requires forall g :: g in added ==> g.chatId == chatId
    ensures Filter(GistIn(chatId), gists + added) == added
  {
    FilterConcat(GistIn(chatId), gists, added);
    FilterNone(GistIn(chatId), gists);
    FilterAll(GistIn(chatId), added);
  }

  /** The gists of the new chat are exactly the remapped ones. */
  lemma ForkedGists(t: Tables, source: string, target: string, now: int)
    requires WellFormed(t) && Fork(t, source, target, now).Ok?
    ensures ForkGists(Filter(GistIn(source), t.gists), ForkRenaming(t, source, target), t.nextGistId)
            == Some(Filter(GistIn(target), Fork(t, source, target, now).value.gists))
  {
    var gs, ren := Filter(GistIn(source), t.gists), ForkRenaming(t, source, target);
    assert ChatReferences(t);
    hide *;
    ForkParts(t, source, target, now);
    var added := ForkGists(gs, ren, t.nextGistId).value;
    NoRowsYet(t, target);
    ForkedRowsInTarget(gs, InspectionsOf(t.inspections, source), ren, t.nextGistId);
    AppendedGists(t.gists, added, target);
  }

  /** The fork's gists are the source's, in order, each following its original. */
  lemma ForkCarriesGists(t: Tables, source: string, target: string, now: int)
    requires WellFormed(t) && Fork(t, source, target, now).Ok?
    ensures var gs := Filter(GistIn(source), t.gists);
            var copies := Filter(GistIn(target), Fork(t, source, target, now).value.gists);
            && |copies| == |gs|
            && forall i :: 0 <= i < |gs| ==> GistFollows(gs[i], copies[i], ForkRenaming(t, source, target))
  {
    hide *;
    ForkedGists(t, source, target, now);
    ForkGistsExact(Filter(GistIn(source), t.gists), ForkRenaming(t, source, target), t.nextGistId);
  }

  lemma ForkedInspections(t: Tables, source: string, target: string, now: int)
    requires WellFormed(t) && Fork(t, source, target, now).Ok?
    ensures var added := ForkInspections(InspectionsOf(t.inspections, source), ForkRenaming(t, source, target));
            && added.Some?
            && forall y :: y in Fork(t, source, target, now).value.inspections && y.chatId == target <==> y in added.value
  {
    var ren := ForkRenaming(t, source, target);
    assert ChatReferences(t);
    hide *;
    ForkParts(t, source, target, now);
    NoRowsYet(t, target);
    ForkedRowsInTarget(Filter(GistIn(source), t.gists), InspectionsOf(t.inspections, source), ren, t.nextGistId);
  }

  /** The fork's answer inspections are exactly the followers of the source's inspections of its own
      messages. */
  lemma ForkCarriesInspections(t: Tables, source: string, target: string, now: int)
    requires WellFormed(t) && Fork(t, source, target, now).Ok?
    ensures var t', ren := Fork(t, source, target, now).value, ForkRenaming(t, source, target);
            && (forall y :: y in t'.inspections && y.chatId == target ==>
                  exists x :: x in t.inspections && x.chatId == source && InspectionFollows(x, y, ren))
            && (forall x :: x in t.inspections && x.chatId == source && x.assistantMessageId in ren.ids ==>
                  exists y :: y in t'.inspections && y.chatId == target && InspectionFollows(x, y, ren))
  {
    var ren, xs := ForkRenaming(t, source, target), InspectionsOf(t.inspections, source);
    assert forall x :: x in xs <==> x in t.inspections && x.chatId == source;
    hide *;
    ForkedInspections(t, source, target, now);
    ForkInspectionsExact(xs, ren);
  }

  /** A fork commits exactly when the source exists, the target does not, and all provenance is current. */
  lemma ForkSucceedsIff(t: Tables, source: string, target: string, now: int)
    requires WellFormed(t)
    ensures var ren := ForkRenaming(t, source, target);
            Fork(t, source, target, now).Ok? <==>
            && HasChat(t.chats, source)
            && !HasChat(t.chats, target)
            && (forall g :: g in t.gists && g.chatId == source ==> GistCurrent(g, ren))
            && (forall x :: x in t.inspections && x.chatId == source && x.assistantMessageId in ren.ids ==>
                  ColumnCurrent(x.payload, ren))
  {
    var ren := ForkRenaming(t, source, target);
    ForkGistsExact(Filter(GistIn(source), t.gists), ren, t.nextGistId);
    ForkInspectionsExact(InspectionsOf(t.inspections, source), ren);
  }

  // ---------------------------------------------------------------- delete_chat undoes it

  /** Deleting a fresh fork restores every table; only the id counters have moved. */
  lemma DeleteUndoesFork(t: Tables, source: string, target: string, now: int)
    requires WellFormed(t) && Fork(t, source, target, now).Ok?
    ensures var t' := Fork(t, source, target, now).value;
            Delete(t', target) == t.(nextMessageId := t'.nextMessageId, nextGistId := t'.nextGistId)
  {
    var t' := Fork(t, source, target, now).value;
    var copies := Copies(Listing(t.messages, source), target, t.nextMessageId);
    var doomed := MessageIds(copies);
    hide Fork, Copies, Filter, Listing, ForkGists, ForkInspections, InspectionsOf;
    ForkParts(t, source, target, now);
    ForkLeavesOthers(t, source, target, now);
    NoRowsYet(t, target);
    FilterAll(StateElsewhere(target), t.memoryStates);
    FilterAll(DocumentElsewhere(target), t.chatDocuments);
    CopiesInTarget(Listing(t.messages, source), target, t.nextMessageId);
    AppendedRows(t.messages, copies, target);
    OldIdsSurvive(t.messages, copies, t.nextMessageId);
    forall x | x in t'.inspections
      ensures InspectionSurvives(doomed, target)(x) == InspectionElsewhere(target)(x)
    {
      assert InspectionElsewhere(target)(x) ==> x in Filter(InspectionElsewhere(target), t'.inspections);
    }
    FilterAgree(InspectionSurvives(doomed, target), InspectionElsewhere(target), t'.inspections);
  }

  lemma OldIdsSurvive(messages: seq<Message>, added: seq<Message>, next: int)
    requires forall m :: m in messages ==> m.id < next
    requires forall m :: m in added ==> m.id >= next
    ensures MessageIds(messages) !! MessageIds(added)
  {
  }

  lemma KeepOnly<T(!new)>(p: T -> bool, kept: seq<T>, added: seq<T>)
    requires forall x :: x in kept ==> p(x)
    requires forall x :: x in added ==> !p(x)
    ensures Filter(p, kept + added) == kept
  {
    FilterConcat(p, kept, added);
    FilterAll(p, kept);
    FilterNone(p, added);
  }
}
