# Verified model of the memory chatbot's stored state, protocols and evaluation tools

The repository is a chat application with long-term memory: chats, messages, gists and documents in
SQLite, background processing that summarises old messages, and evaluation tools that replay
benchmarks against it. This project models the parts that carry state from one call to the next, and
the splitting and ranking algorithms, and proves what they keep.

The tables are sequences of rows in insertion order with their AUTOINCREMENT counters; timestamps are
integers; everything outside (language models, judges, embeddings, the indexer, clocks, uuids, crashes)
is a parameter that may answer in any way. A transaction is a value that is assigned to the table field
only where the source commits.

What the definitions of the model mean is stated once more in the columns, keys and constants of the source, without
those definitions: transactions in `Statements`, queries in `Queries`, provenance keys in `RenamedKeys`, gist rows in
`EndedGists`, cache keys in `EvalKeys`, and elsewhere in the lemmas whose names end in `Is`, `Are` or `Iff`.

| file | what it models |
|---|---|
| `Text`, `Results`, `Rows` | Python's whitespace and `int()`, options and results, selection and ordering of rows |
| `Provenance`, `RenamedKeys` | the recursive remapping of message and chat ids inside JSON documents, as a whole and key by key |
| `Tables`, `Schema`, `Statements`, `Queries` | the relational schema, its queries and statements, the keys every statement keeps, and what each leaves or selects, row by row |
| `Forking`, `Lineage`, `DrillDown` | what a fork copies, forks of forks, and gist drill-down across a fork |
| `Database`, `Compensation` | the class whose methods run those statements as transactions, and the interface's fork action with the writes of others before the fork is taken back |
| `Recency` | the recent-message window and the draining of everything older |
| `Pagination` | keyset pages of the chat list, on a store that may change between pages |
| `Upload` | the idempotent upload protocol, its interleavings, crashes and retries |
| `MemoryBatches`, `ChatEnd`, `StoredMemory`, `EndedFork`, `EndedGists` | memory batches, the two phases of ending a chat, the memory state and the gists that are left, and a fork of the ended chat |
| `ChatGuard`, `GuardedRuns`, `LoneEnd`, `LoneJobs`, `LateEdit` | the jobs of one process under the chat's re-entrant lock, what it guarantees and whom it lets in together, jobs that no other interrupts, and an edit that comes after an end |
| `EvalLog`, `EvalKeys` | the resumable evaluation log over a lifetime of crashed and resumed invocations, and what its cache keys compare |
| `ContextSplitter`, `SpanSplitter` | the text splitters, as loops over strings |
| `Terms`, `Ranking`, `Retrieval`, `HybridPool` | lexical terms and scores, stable ranks, rank fusion over exact reals, retrieval from a bounded pool, and which pools are large enough |
| `ConnectionGuard` | the timed health-check cache and its ping rate |
| `FrozenRows` | the validation of frozen answer rows against their manifest |

## Where the code does not do what is expected of it

Seven expectations turned out not to hold of the code. Each has a concrete case and the condition under
which the code does meet it.

- *A chat ends only when every pending message is in memory* (contract text at
  src/actions/chat_end.py:23-39, and the docstring of `process_all_for_chat_end`). The memory phase
  returns normally after a refused batch (src/memory/short_term.py:356-362), and it offers no batch at
  all when the oldest units that fit hold no user message while a later one does
  (src/memory/short_term.py:563-603). The chat then becomes inactive with messages that memory has
  never taken: `ChatEnd.EndedWithPendingMemory`, `MemoryBatches.StalledExample`. It does take them exactly
  when the batches, which follow from the messages and the profile alone, cover everything pending and each is
  consumed (`ChatEnd.EndedMeans`, `MemoryBatches.ConsumedIff`). The gist phase does meet its contract
  (`ChatEnd.FinalizedIff`).
- *The guard lets one job of a chat in at a time* (src/lifecycle/operation_guard.py:20-25). The lock is
  re-entrant, and a consolidation takes it on the event-loop thread and keeps it while its worker runs
  (src/api_routes.py:157-160). Pre-persisted messages, uploads and ends from the interface take it on that
  thread too (app.py:141, app.py:745, app.py:269), turns and ends from the API on a worker. Two jobs can be
  inside together exactly when both take the lock on the event loop and one of them is a consolidation
  (`GuardedRuns.OverlapIff`); if both do memory work, both can take the same batch to the extractor
  (`GuardedRuns.SameBatchIff`). What the guard is there for survives the overlap: `ChatGuard.RunKeepsInv`,
  and in `GuardedRuns` `SavesOnlyWhileActive`, `DeactivatedOnlyAfterBothPhases` and `FrozenWhileInactive`.
- *The transcript of an ended chat does not change.* A turn overwrites the text of its answer after it has left
  the guard (app.py:207-215), and a chat that is ended in between changes afterwards
  (`LateEdit.WordsOfEndedChatChange`, from every store in which the chat is active). What stays is which messages
  there are, with their authors and times (`GuardedRuns.FrozenWhileInactive`); the words stay exactly when no turn
  has still to overwrite one of the chat's messages (`GuardedRuns.WordsFrozenIff`).
- *Gist drill-down commutes with a fork.* It does exactly when the chat's timestamps follow its message
  ids or run strictly against them (`DrillDown.DrillDownIff`); with one backdated message it does not
  (`DrillDown.BackdatedDrillDown`).
- *A normal return of an upload means that the document is Ready.* Between processes a retry can set the record
  back to Indexing before the first call returns (`Upload.UnguardedReturnMayNotBeReady`). A call at its last step
  returns a Ready document, and leaves it so, exactly when the document is Ready and no other call has still to
  start indexing it or to record a failure (`Upload.ReturnsReadyIff`, `Upload.StaysReadyIff`); and its record keeps its
  number of chunks exactly when, besides, no call has still to record another number, as one that was indexing at the
  same time may (`Upload.RecordStaysIff`, `Upload.ReadyMayBeRecounted`). The guard, which is
  process-local and never lets in two uploads to one chat (`GuardedRuns.OverlapIff`), sees to that
  (`Upload.GuardedIsSafe`, `Upload.GuardedReturnIsReady`).
- *An invocation of the evaluation never generates a second answer under one key, and the report shows what is
  completed.* An invocation that resumes never does. One that does not resume keeps the log in order exactly when no
  case generates under a key that already carries an answer (`EvalLog.FreshInvocationIff`), so that running the same
  thing twice breaks it (`EvalLog.FreshRunRepeats`). The report goes by identity, which names neither the judge nor
  the configuration: it shows a failure exactly when the case failed in the last run or was skipped by it while the
  report showed one (`EvalLog.RunReport`), whatever has been completed before (`EvalLog.FailureHidesCompletion`).
- *The candidate pool does not change what is retrieved.* It does not in the lexical and embedding modes
  (`Retrieval.PoolIsTransparent`). In the hybrid mode it does not exactly when the best fused chunks are in the pool
  (`HybridPool.TransparentIff`), and a pool of 59 + 2 · top_k chunks is the smallest that guarantees it for every
  query (`HybridPool.SettingsTransparent`, `HybridPool.RetrieveHiding`). The defaults, 50 and 8, are below it.

## Model

| member | source | states |
|---|---|---|
| `Provenance.RemapExact` | src/database.py:1586-1624 | remapping succeeds iff every id in a recognised position, at any depth, can be renamed and every list key holds a list; it then renames those marks in place and changes nothing else |
| `Provenance.Determined` | src/database.py:1586-1624 | shape and marks are the whole document, so the previous row leaves nothing unsaid |
| `Provenance.RemapComposes` | src/database.py:1552-1624 | remapping by f then g is remapping by g after f, failures included, through a fresh middle chat id |
| `Provenance.RemapInverts` | src/database.py:1552-1624 | remapping back by the inverse map with the chat ids swapped restores the document, exactly when it is well typed and did not mention the new chat |
| `RenamedKeys.RenamedAnywhere` | src/database.py:1586-1624 | at any depth, in every object that is reached past no key of message ids: ids under the six id keys and in the lists under the three list keys are renamed, the source chat under the two chat keys becomes the new one, and every other text, number, flag and null stays |
| `RenamedKeys.MemberRenamed` | src/database.py:1586-1624 | the eleven keys by name, with what each does to the value under it and when that fails |
| `RenamedKeys.OtherIds` | src/database.py:1552-1562 | an id that is no JSON number is read as `int` reads it: flags, floats without their fraction, the digits of a text |
| `Forking.ForkIdMap` | src/database.py:575-602 | the id map is a bijection from the chat's messages to the new ids, in listing order |
| `Forking.ForkCopiesTranscript` | src/database.py:575-602 | the new transcript is the old one, message by message in order, new ids, `summarized` set, all else kept |
| `Forking.ForkCarriesGists` | src/database.py:604-668 | the new chat's gists are the old ones in order, endpoints and metadata following the id map |
| `Forking.ForkCarriesInspections` | src/database.py:670-704 | the new chat's inspections are exactly the followers of those attached to the chat's own messages |
| `Forking.ForkLeavesOthers` | src/database.py:537-704 | every row of every other chat is as and where it was |
| `Forking.ForkSucceedsIff` | src/database.py:547-704 | a fork commits iff the source exists, the target does not, and all provenance is current |
| `Forking.DeleteUndoesFork` | src/database.py:756-765 | deleting a fresh fork restores every table, counters aside |
| `Statements.ForkedChatRow` | src/database.py:547-573 | the new chat is active, made now, with the title and the model of its source; the counters move by the rows copied |
| `Statements.FailedFork` | src/database.py:556-573 | a missing source and a taken target are the reasons named, and a failed fork leaves every table alone |
| `Schema.ForkKeepsSchema` | src/database.py:136-265 | a fork keeps primary keys, counters and foreign keys |
| `Schema.DeleteKeepsSchema` | src/database.py:756-765 | deletion keeps them and leaves no trace of the chat |
| `Schema.SaveKeepsSchema` | src/database.py:1130-1151 | so does saving a message |
| `Schema.MarkKeepsSchema` | src/database.py:1303-1314 | so does marking messages |
| `Schema.UpsertKeepsSchema` | src/database.py:1280-1293 | so does storing a memory state, inserted or replaced |
| `Schema.GistKeepsSchema` | src/database.py:1316-1369 | so does storing a gist with the flags of its messages |
| `Schema.ChatUpdateKeepsSchema` | src/database.py:474-505 | so does changing title, model or activity of a chat |
| `Schema.ContentKeepsSchema` | src/database.py:1153-1159 | so does overwriting the text of a message |
| `Schema.InspectionKeepsSchema` | src/database.py:767-795 | so does storing an inspection, inserted or replaced |
| `Schema.LinkKeepsSchema` | src/database.py:909-929 | so does linking a document, inserted or selected anew |
| `Schema.DropKeepsSchema` | src/database.py:953-962 | so does dropping a document with its links |
| `Schema.FourDeletes` | src/database.py:756-765 | the first three deletions of a chat change nothing about the end result: the cascades of the last subsume them |
| `Statements.CreatedRow` | src/database.py:402-421 | a chat made anew is active; an existing one gets the title and model that are given and keeps the rest |
| `Statements.ChatRowChanges` | src/database.py:474-505 | a new title moves the time of its chat, a new model and a new activity do not; one row and the columns named change |
| `Statements.SavedRow` | src/database.py:1130-1151 | a saved message has the next id and no flag and moves the time of its chat; without the chat nothing happens |
| `Statements.FlaggedRows` | src/database.py:1303-1314 | marking sets the one flag of the messages named, an edit the text of one, and nothing else |
| `Statements.StoredState` | src/database.py:1280-1293 | afterwards the chat has exactly one memory state, the one stored; other chats keep theirs |
| `Statements.AddedGist` | src/database.py:1316-1369 | the gist as given, under the next id, with the flags of its messages |
| `Statements.InspectedRow` | src/database.py:767-795 | a second inspection of a message replaces the trace and keeps chat and time; a first one needs message and chat |
| `Statements.LinkedRow` | src/database.py:909-929 | a second link only says whether the document is selected; a first one needs chat and record |
| `Statements.DroppedLinks` | src/database.py:953-962 | exactly the links of the dropped document go |
| `Statements.RemovedRows` | src/database.py:756-765 | exactly the rows that name the chat go, and the inspections of its messages |
| `Lineage.ForkForkable` | src/database.py:537-704 | a fork can be forked again to any free id |
| `Lineage.ForkOfForkTranscript` | src/database.py:575-602 | the transcript of a fork of a fork is the image of the original under the composed map |
| `Lineage.ForkOfForkGist` | src/database.py:604-668 | and so is every gist |
| `DrillDown.DrillDownIff` | src/database.py:731-754 | drill-down spans commute with a fork iff times follow ids or strictly oppose them |
| `DrillDown.BackdatedDrillDown` | src/database.py:575-602 | a fork of three messages, one backdated, after which a span shows other messages |
| `DrillDown.BetweenIsMonotone` | src/database.py:731-754 | only monotone id sequences keep betweenness |
| `DrillDown.SpanOfListing` | src/database.py:731-754 | a span is the transcript restricted to its ids |
| `Queries.SpanRows` | src/database.py:731-754 | a span holds the messages from one id to the other, both included, in either order of the two, by time |
| `Database.Database.ForkChat` | src/database.py:537-704 | the copying loops commit exactly what `Fork` says, or nothing |
| `Database.Database.DeleteChat` | src/database.py:756-765 | the four statements one by one, each with its cascades, leave what the last alone would |
| `Database.CopyMessages` | src/database.py:585-602 | the message loop: rows appended and map filled as specified |
| `Database.CopyGists` | src/database.py:623-668 | the gist loop, stopping at the first that cannot be remapped |
| `Database.CopyInspections` | src/database.py:679-704 | the inspection loop, skipping other chats' messages |
| `Database.ForkAndSwitch` | app.py:282-310 | with any transactions of others while the front end is awaited: the fork stands with them when the interface switched; otherwise it is deleted after them, and when none of them named it they alone stand, as if there had been no fork, but for the ids it used up |
| `Compensation.DeleteCommutes` | src/database.py:756-765 | deleting a chat commutes with every transaction that names another chat: of the fourteen that write to these tables, forks, deletions, edits, inspections and document links included; for an inspection the chat must have only inspections of its own messages, as every fork has |
| `Compensation.CompensationIsExact` | app.py:296-301 | deleting a fork after arbitrary such transactions leaves what they would have left had there been no fork, but for the ids it used up |
| `Compensation.NamedWriteLeaves` | src/database.py:756-765 | a transaction that names the fork itself is undone by the deletion, but for ids, flags set on messages of others, and a trace replaced for another chat |
| `Compensation.ForkedRowsStay` | src/database.py:756-765 | a fork made of the fork in the meantime stays, row by row |
| `Recency.WindowIsTail` | src/database.py:1161-1176 | `recent_messages` is the tail of the transcript, in order |
| `Recency.OldIsHead` | src/database.py:1241-1268 | `old_messages` is the head that the window leaves |
| `Recency.HistorySplits` | src/database.py:1161-1268 | old followed by recent is the transcript, for every window |
| `Queries.TranscriptRows` | src/database.py:715-729 | the messages of the chat, each once, by time and then by id |
| `Queries.RecentAndOldRows` | src/database.py:1161-1268 | the last k, all when there are fewer or k is negative, and the first n of the others |
| `Queries.PendingRows` | src/database.py:1201-1239 | the pending messages of either kind among the others, by the flag of that kind |
| `Queries.InspectionRows` | src/database.py:797-822 | the inspections of the chat, in the order of their messages |
| `Recency.OldUnprocessedIsPendingHead` | src/database.py:1213-1239 | a batch is the oldest pending messages outside the window |
| `Recency.BatchIsNextStretch` | src/database.py:1213-1239 | the next batch continues where the last stopped, and stays out of the window |
| `Recency.PendingAfterMark` | src/database.py:1303-1314 | marking the oldest pending leaves the others pending in order |
| `Recency.SaveListing` | src/database.py:1130-1159 | a saved message is sorted into the transcript by its time, behind all of the same time |
| `Recency.DrainedInOrderIff` | src/database.py:1201-1314 | over any run with saves and other workers, the batches put together are a prefix of the transcript exactly when nothing is saved with a time before a message already processed |
| `Recency.BatchIsPendingOutside` | src/database.py:1213-1239 | a batch holds pending messages from outside the newest k, each once |
| `Recency.NeverFetchedTwice` | src/database.py:1201-1314 | whatever timestamps messages are saved with, no message is fetched twice |
| `Recency.DrainCompletes` | src/database.py:1201-1314 | without further saves everything outside the window is drained in as many rounds as there are messages |
| `Queries.DrainingIsWriting` | src/database.py:1130-1314 | the runs of the drain are runs of the transactions: a save is a save, and a worker marks exactly what it fetched |
| `Pagination.PageIsFront` | src/chainlit_data_layer.py:61-82 | a page is the front of what remains after its cursor, and `hasNextPage` is true iff more remains |
| `Pagination.PageSays` | src/database.py:436-472 | a page, chat by chat: matching chats behind the cursor, later updated first and at one time greater id first, as many as are asked for; those not on it come later, and there is a next page iff there are any |
| `Pagination.UntouchedSeenOnce` | src/chainlit_data_layer.py:61-82 | as long as the chats that cursors name are kept as they were listed, an untouched matching chat is listed exactly once, however all others move |
| `Pagination.UntouchedIsListed` | src/chainlit_data_layer.py:61-82 | even when the chats that cursors name are touched or deleted between pages, an untouched matching chat is listed at least once |
| `Pagination.WalkIsListing` | src/database.py:436-472 | on a still store the pages are the one ordered listing, and the walk ends |
| `Upload.RunKeepsInv` | src/chat_service.py:301-392 | under any interleaving, crash and retry, bindings are kept and histories only grow |
| `Upload.OneDocumentPerOperation` | src/chat_service.py:301-392 | calls under one operation id that return, return the same document |
| `Upload.OneRecordPerOperation` | src/database.py:1042-1089 | operation row and record appear together, and never a second record |
| `Upload.LateClaim` | src/database.py:1042-1089 | an operation claimed since it was looked up: the call goes on with the document of the claim, or raises, and makes no record |
| `Upload.DeletionsAre` | src/database.py:953-962 | a deleted record takes its links with it, and a deleted chat its own |
| `Upload.ReturnedWasReady` | src/chat_service.py:377-392 | a returned document has been Ready and linked during the run |
| `Upload.FinishedStays` | src/chat_service.py:301-392 | a call that has returned or raised is over, whatever happens later |
| `Upload.ForeignOperationRaises` | src/chat_service.py:307-317 | in every run, a call whose operation id belongs to another chat or kind never gets as far as a document, and no step of it changes anything |
| `Upload.StaysReadyIff` | src/chat_service.py:361-392 | a Ready document stays Ready through all interleavings, exactly when no call has still to start indexing it or to record a failure |
| `Upload.ReturnsReadyIff` | src/chat_service.py:377-392 | a call at its last step returns a Ready and linked document, now and later, under the same exact condition |
| `Upload.SafeRun` | src/chat_service.py:319-328 | under that condition the indexer is not called for the document again, whatever calls arrive from whatever process |
| `Upload.RecordStaysIff` | src/chat_service.py:361-388 | the record of a Ready document keeps its name, its status and its number of chunks, whatever calls do, exactly when no call has still to start indexing it, to record a failure, or to record another number |
| `Upload.ReadyMayBeRecounted` | src/chat_service.py:361-388 | a two-process run after which a document that is Ready, with a returned call and nobody about to take that away, still gets another number of chunks |
| `Upload.RetriesWhileReady` | src/chat_service.py:319-328 | while a document stays Ready, retries from whatever process do not call the indexer, and those that return, return this document |
| `Upload.RetryReturns` | src/chat_service.py:319-328 | a retry that is let run returns the document after linking it, and changes nothing else |
| `Upload.GuardedIsSafe` | src/chat_service.py:301-392 | under the guard no other call endangers the document of a call at its last step |
| `Upload.GuardedReturnIsReady` | src/chat_service.py:301-392 | with the guard, a return means Ready and linked, unless that document is administered or that chat deleted |
| `Upload.GuardedReturnsStayReady` | src/chat_service.py:301-392 | and it stays so in every later state of a guarded run, whatever happens to other documents and chats |
| `Upload.UnguardedReturnMayNotBeReady` | src/chat_service.py:361-388 | a two-process run in which a call returns while its record says Indexing |
| `Upload.ChatService.IndexDocumentFile` | src/chat_service.py:301-392 | one uninterrupted call does the steps of the protocol; for an operation that is foreign, known or new: its result, the one record it changes with status and number of chunks, the one link it makes, and whether the indexer runs |
| `Upload.ChatService.IndexAndRecord` | src/chat_service.py:361-392 | the indexer's answer decides the recorded status and number of chunks and the result; the name and every other record stay |
| `MemoryBatches.UnitsCover` | src/memory/short_term.py:622-642 | conversation units partition the pending messages in order |
| `MemoryBatches.UnitsAre` | src/memory/short_term.py:622-642 | a user message and the answer right after it are one unit, and nothing else is |
| `MemoryBatches.BatchIsHead` | src/memory/short_term.py:519-535 | a batch is a non-empty head of what is pending, except in a stall |
| `MemoryBatches.BatchIs` | src/memory/short_term.py:519-535 | the oldest units that fit when a user speaks in them, nothing when one speaks only later, everything at once when none speaks |
| `MemoryBatches.BatchFits` | src/memory/short_term.py:582-598 | it keeps both limits unless its first unit alone breaks one, and has no room for the next unit |
| `MemoryBatches.TotalsAre` | src/memory/short_term.py:644-648 | units weigh what their messages weigh, however they are divided |
| `MemoryBatches.PlanIsHead` | src/memory/short_term.py:519-535 | the batches that will be offered follow from messages and profile alone; together they are a head of what is pending, and all of it unless a stall comes up |
| `MemoryBatches.ConsumedIff` | src/memory/short_term.py:335-362 | everything is consumed iff the planned batches cover everything pending and each of them is accepted or a no-op |
| `MemoryBatches.OnlyRefusalsLeavePending` | src/memory/short_term.py:319-362 | if every unit has a user message, only refusals leave anything |
| `MemoryBatches.StalledExample` | src/memory/short_term.py:563-603 | a stall: a normal return with nothing consumed |
| `ChatEnd.FinalizedIff` | src/memory/previous_chat_gist.py:159-211 | the gist phase returns iff nothing is left |
| `ChatEnd.UngistedIsPending` | src/database.py:1207-1239 | without a raw window the fetched batch is the head of what has no gist |
| `ChatEnd.ChatEndAction.ProcessMemory` | src/memory/short_term.py:319-362 | the loop commits batch by batch the memory states and marks of `MemoryTables`, with the count and outcome of `Consume` |
| `ChatEnd.MemoryMessages` | src/memory/short_term.py:399-457 | what the memory phase leaves: exactly the consumed messages marked, no other table and no other chat's state touched |
| `StoredMemory.StateAfterEnd` | src/memory/short_term.py:399-457 | an ended chat is left with the state of the last answer that did not raise: of the refused batch, else of the last consumed; with what it had, if there is none |
| `ChatEnd.ChatEndAction.FinalizeChat` | src/memory/previous_chat_gist.py:159-252 | the loop commits the gists and marks of `GistTables`, with the count and outcome of `Finalize`; a missing chat fails |
| `ChatEnd.GistMessages` | src/memory/previous_chat_gist.py:177-252 | what the gist phase leaves: exactly the covered messages marked, gists of this chat appended, nothing else touched |
| `ChatEnd.ChatEndAction.Execute` | src/actions/chat_end.py:71-97 | both phases, then the flag, or a failure with the progress made |
| `ChatEnd.EndedMeans` | src/actions/chat_end.py:76-97 | failure leaves the chat rows alone; success means inactive and all gisted, and all in memory iff no batch was refused or stalled |
| `ChatEnd.EndKeepsSchema` | src/actions/chat_end.py:76-97 | ending a chat keeps primary and foreign keys, however it goes |
| `ChatEnd.EndsUnlessRaised` | src/actions/chat_end.py:76-89 | only an exception or an invalid summary keeps a chat open |
| `ChatEnd.EndedWithPendingMemory` | src/memory/short_term.py:356-362 | after a refused batch the chat ends with messages not in memory |
| `ChatEnd.EndLeavesOthers` | src/actions/chat_end.py:76-97 | transcripts, gists and memory states of other chats are untouched |
| `EndedFork.EndKeepsForkable` | src/memory/previous_chat_gist.py:213-252 | ending a chat, successfully or not, makes it neither more nor less forkable: whatever the answers and summaries, its new gists are provenance that a fork can rename |
| `EndedFork.GistIsCurrent` | src/memory/previous_chat_gist.py:222-246 | every id that the gist of a batch names, in its columns and in its metadata, is a message of the batch |
| `EndedGists.PhaseTells` | src/memory/previous_chat_gist.py:177-252 | one gist for each batch in which a user speaks, in order, up to the first blank summary; each with its texts, times, least and greatest id and nine metadata members |
| `EndedGists.EndedChatTells` | src/memory/previous_chat_gist.py:213-252 | the same of an ended chat, and in a fork of it the copies of these gists say the same by the ids of the fork: under `source_message_ids` exactly the new ids of the batch in order |
| `ChatGuard.RunKeepsInv` | src/lifecycle/operation_guard.py:12-25 | in every interleaving the lock is held once for each job inside, all on one thread and all but one of them consolidations; an inactive chat has all its gists, and is in memory if its end drained it |
| `ChatGuard.NextKeepsInv` | src/chat_service.py:404-448 | the same for every single step |
| `ChatGuard.LeaveLocked` | src/lifecycle/operation_guard.py:20-25 | a job that leaves releases the lock once, and the others inside still hold it |
| `GuardedRuns.OverlapIff` | src/api_routes.py:150-162 | two jobs can be inside together exactly when one is a consolidation and the other a pre-persisted message, an upload, a consolidation or an end from the interface |
| `GuardedRuns.SameBatchIff` | src/api_routes.py:157-160 | while a batch is pending, two jobs can take it to the extractor at once exactly when one is a consolidation and the other a consolidation or an end from the interface |
| `GuardedRuns.MayStepIff` | src/api_routes.py:150-162 | which steps may come at any time, and which wait for the event loop |
| `ChatGuard.OutsideIsHarmless` | src/chat_service.py:430-471 | the unguarded writes that may come at any time include memory, gists, flags, title, model, inspections and documents of the chat, and every transaction on another chat, edits of its messages included |
| `GuardedRuns.SavesOnlyWhileActive` | src/chat_service.py:414-448 | no step adds a message to an inactive chat, overlapping jobs included |
| `GuardedRuns.DeactivatedOnlyAfterBothPhases` | src/actions/chat_end.py:78-89 | only an end that passed both phases makes a chat inactive |
| `GuardedRuns.FrozenWhileInactive` | src/api_routes.py:139-148 | until reactivated or deleted, an inactive chat stays inactive with the same messages, authors and times |
| `GuardedRuns.WordsFrozenIff` | app.py:207-215 | its texts stay the same too, over all such runs, exactly when no turn has still to overwrite one of its messages |
| `LateEdit.WordsOfEndedChatChange` | app.py:207-215 | a turn answers and returns, the API ends the chat, and the text of the inactive chat still changes |
| `LateEdit.EndKeepsTexts` | src/actions/chat_end.py:76-97 | ending a chat changes no text of any chat |
| `LoneJobs.TurnAlone` | src/chat_service.py:414-428 | an uninterrupted turn saves its messages in order, or nothing when the chat is not active, and leaves the guard with the last still to be overwritten |
| `LoneJobs.EditAlone` | app.py:207-215 | that edit changes the text of one message, and nothing else |
| `LoneJobs.PersistAlone` | src/chat_service.py:430-448 | a pre-persisted message is one save, in a chat that is active |
| `LoneJobs.ConsolidationAlone` | src/api_routes.py:150-162 | a consolidation does the memory phase of an end and nothing else, and gives the lock back whatever came of it |
| `LoneEnd.EndAlone` | src/actions/chat_end.py:71-97 | an end that nothing interrupts leaves, step by step, exactly the tables of `ChatEnd.EndChat`, for all answers and summaries, and is done iff it succeeds |
| `EvalLog.FindAnswer` | evals/mab_answer_eval/runner.py:724-735 | some row with an answer under the key, or none exists |
| `EvalLog.FoundAnswerIsLast` | evals/mab_answer_eval/runner.py:724-735 | and it is the last such row |
| `EvalLog.FoundCompletionIsLast` | evals/mab_answer_eval/runner.py:738-751 | the last completed row under both keys |
| `EvalLog.ResultsFile.RunEvaluation` | evals/mab_answer_eval/runner.py:412-602 | the loop appends and counts exactly what `Evaluate` says |
| `EvalLog.ResultsFile.RunCase` | evals/mab_answer_eval/runner.py:418-602 | one round of it, with every exception path |
| `EvalLog.HistoryKeeps` | evals/mab_answer_eval/runner.py:412-602 | over any sequence of crashed invocations that resume or never generate under a key that carries an answer: one generated answer per key, one answer text, one completed row per pair of keys, labelled with its judge |
| `EvalLog.EvaluateKeeps` | evals/mab_answer_eval/runner.py:418-602 | the same for one invocation that resumes or uses unseen keys |
| `EvalLog.PrefixKeeps` | evals/mab_answer_eval/artifacts.py:21-26 | a log cut off anywhere still has it |
| `EvalLog.NeverRelabelled` | evals/mab_answer_eval/runner.py:448-461 | the branch that corrects a completed row is unreachable |
| `EvalLog.CompletedRunIsQuiet` | evals/mab_answer_eval/runner.py:434-463 | when all cases are completed for a judge: no calls, no appends |
| `EvalLog.SuccessfulRunCompletes` | evals/mab_answer_eval/runner.py:465-558 | a run in which nothing fails completes every case |
| `EvalLog.RerunIsFree` | evals/mab_answer_eval/runner.py:412-602 | so that resuming it once more is free |
| `EvalLog.CompletedOnlyWhenJudged` | evals/mab_answer_eval/runner.py:533-558 | a completed row carries a scored and judged answer, the cached one if there is one |
| `EvalLog.GeneratesForUnanswered` | evals/mab_answer_eval/runner.py:466-500 | a resumed run generates for exactly the cases without an answer |
| `EvalKeys.AnswerKeysAgreeIff` | evals/mab_answer_eval/runner.py:665-683 | two answers share a cache key iff manifest, case, mode, answer model and configuration are the same |
| `EvalKeys.JudgeKeysAgreeIff` | evals/mab_answer_eval/runner.py:686-704 | two judgements share one iff question, references, rubric, answer, endpoint and judge are |
| `EvalKeys.IdentitiesAgreeIff` | evals/mab_answer_eval/runner.py:707-721 | two results share a line of the report iff manifest, case, mode and answer model are |
| `EvalKeys.RunCalls` | evals/mab_answer_eval/runner.py:418-602 | a resumed run asks for each case without an answer in the log, asks the judge for each that it has not judged and can, and skips the rest: all as the log was when it began |
| `EvalKeys.NewSettingsAskAgain` | evals/mab_answer_eval/runner.py:665-683 | under a configuration, model, mode or manifest that no row was written under, one generation for every case |
| `EvalKeys.NewJudgeJudgesAgain` | evals/mab_answer_eval/runner.py:686-704 | with a judge or endpoint that no row was judged by, no generation and one judgement for every case |
| `EvalKeys.AppendedColumns` | evals/mab_answer_eval/runner.py:465-602 | the rows of a case, column by column, on every log in order |
| `EvalLog.FreshInvocationIff` | evals/mab_answer_eval/runner.py:413-434 | on every log that can be reached, an uncrashed invocation that does not resume keeps the invariant exactly when no case generates an answer under a key that carries one, in the log or from earlier in the run |
| `EvalLog.HistoryGrounded` | evals/mab_answer_eval/runner.py:465-602 | in every log there can be, an answer under a key goes back to a generated one |
| `EvalLog.FreshRunRepeats` | evals/mab_answer_eval/runner.py:413-434 | an invocation run twice without resuming: the smallest log that is out of order |
| `EvalLog.LatestResults` | evals/mab_answer_eval/artifacts.py:47-57 | one row per identity, its last, in order of first appearance |
| `EvalLog.FirstSeenOrder` | evals/mab_answer_eval/artifacts.py:47-57 | what order of first appearance means |
| `EvalLog.LatestIsLast` | evals/mab_answer_eval/artifacts.py:47-57 | what the last row means |
| `EvalLog.CaseReport` | evals/mab_answer_eval/runner.py:604-620 | after a resumed case the report shows a failure exactly when the case failed now, or was skipped while the report showed one |
| `EvalLog.RunReport` | evals/mab_answer_eval/runner.py:604-620 | the same for every case of a whole resumed run |
| `EvalLog.FailureHidesCompletion` | evals/mab_answer_eval/runner.py:604-620 | another judge or configuration hides a completed result exactly so; the result is still in the log and is not computed again |
| `ContextSplitter.FirstMatch` | evals/memory_agent_bench/loader.py:198 | the leftmost blank-line match at or after a position |
| `ContextSplitter.MatchIff` | evals/memory_agent_bench/loader.py:198 | a match starts exactly where a blank line does, and takes in the longest |
| `ContextSplitter.PiecesAre` | evals/memory_agent_bench/loader.py:198 | the first blank line, taken whole, ends the first piece, and the rest is split after it |
| `ContextSplitter.PiecesHaveNoBlankLine` | evals/memory_agent_bench/loader.py:198 | no piece contains a blank line |
| `ContextSplitter.ParagraphsKeepText` | evals/memory_agent_bench/loader.py:196-200 | paragraphs keep all text, whitespace aside, are trimmed, and leave room for separators |
| `ContextSplitter.SplitContext` | evals/memory_agent_bench/loader.py:192-223 | error iff the limit is under 100; chunks within the limit, starting with text, made of verbatim pieces of paragraphs with a blank line between any two, holding all text in order, no paragraph that fits cut, neighbours that would not have fitted together, a bound on their number, and accepted by a session iff the context is not blank |
| `ContextSplitter.ChunkCount` | evals/memory_agent_bench/loader.py:201-223 | the bound on the number of chunks |
| `ContextSplitter.AcceptedIff` | evals/memory_agent_bench/schemas.py:14-18 | the session constructor accepts iff there is something to say |
| `SpanSplitter.SplitOversized` | evals/longmemeval_adapter/span_retriever.py:276-307 | the loop with its break yields the payloads in order, numbered on |
| `SpanSplitter.PayloadsAt` | evals/longmemeval_adapter/span_retriever.py:291-306 | piece k starts at k strides, and exactly the last reaches the end, so the break always fires |
| `SpanSplitter.PayloadCount` | evals/longmemeval_adapter/span_retriever.py:291-306 | one piece plus the excess over the stride, rounded up |
| `SpanSplitter.SplitIsLossless` | evals/longmemeval_adapter/span_retriever.py:276-307 | with overlaps removed the payloads are the message |
| `SpanSplitter.EachPieceAdds` | evals/longmemeval_adapter/span_retriever.py:287-292 | every later piece adds a character |
| `SpanSplitter.PiecesFitIff` | evals/longmemeval_adapter/span_retriever.py:286-287 | all pieces keep the limit iff the prefix leaves room for one character |
| `SpanSplitter.TakeWindow` | evals/longmemeval_adapter/span_retriever.py:167-177 | the inner loop takes the longest window that fits |
| `SpanSplitter.WindowFits` | evals/longmemeval_adapter/span_retriever.py:167-177 | a window keeps both limits and could not have taken one message more |
| `SpanSplitter.TruncationIdle` | evals/longmemeval_adapter/span_retriever.py:180-191 | the truncations of a window change nothing |
| `SpanSplitter.SplitSession` | evals/longmemeval_adapter/span_retriever.py:136-197 | the outer loop renders the plan of windows and oversized messages |
| `SpanSplitter.SessionBounded` | evals/longmemeval_adapter/span_retriever.py:136-197 | spans are numbered 0, 1, 2, … and keep the message limit, always; they keep the character limit when the role prefixes fit |
| `SpanSplitter.ShownIff` | evals/longmemeval_adapter/span_retriever.py:153-196 | which messages are in some span, both directions, for any roles |
| `SpanSplitter.EveryMessageShown` | evals/longmemeval_adapter/span_retriever.py:136-197 | with the roles that can be stored, every message is in some span, whatever the limits asked for |
| `SpanSplitter.StoredRolesFit` | evals/longmemeval_adapter/span_retriever.py:136-197 | and every span keeps all limits |
| `SpanSplitter.NextStarts` | evals/longmemeval_adapter/span_retriever.py:195-196 | where the next piece starts: neighbouring windows share exactly the overlap, as far as the first is longer than it |
| `SpanSplitter.SpanIs` | evals/longmemeval_adapter/span_retriever.py:153-196 | span k names the first and last message of a window, counts them and shows them line by line, or shows a piece of one long message |
| `SpanSplitter.PieceText` | evals/longmemeval_adapter/span_retriever.py:276-307 | which characters piece k shows, when neighbours share 150, or all but one of those there is room for |
| `SpanSplitter.FormatIs` | evals/longmemeval_adapter/span_retriever.py:264-266 | a line for each message: role, colon, space, text |
| `SpanSplitter.ClampIs` | evals/longmemeval_adapter/span_retriever.py:149-151 | the limits that are used for those asked for |
| `Ranking.ScoreRanks` | evals/memory_agent_bench/raw_replay.py:383-397 | the array filled in place is a permutation of 1..n in the order of score, tie breaker and position |
| `Ranking.RankOrder` | evals/memory_agent_bench/raw_replay.py:383-397 | better scores first, equal scores by tie breaker, greater first, and by position without any |
| `Ranking.FusedRange` | evals/memory_agent_bench/raw_replay.py:407-413 | scores lie in (0, 1], and are 1 only for rank 1 twice |
| `Ranking.FusedIs` | evals/memory_agent_bench/raw_replay.py:400-413 | the constants of the fusion: half of 61 over 60 plus each rank |
| `Ranking.FusedFalls` | evals/memory_agent_bench/raw_replay.py:407-413 | better in one list and no worse in the other is better fused |
| `Ranking.HybridDominance` | evals/memory_agent_bench/raw_replay.py:146-149 | ahead in both rankings is ahead in the hybrid ranking |
| `Terms.TokenIff` | evals/memory_agent_bench/raw_replay.py:363-369 | the tokens of a text are exactly its maximal runs of token characters |
| `Terms.TermIff` | evals/memory_agent_bench/raw_replay.py:363-369 | a term is a token of the lower-cased text, of two characters or more, none of the twenty stop words |
| `Terms.LowerIs` | evals/memory_agent_bench/raw_replay.py:363-369 | lower-casing, character by character |
| `Terms.ScoreRange` | evals/memory_agent_bench/raw_replay.py:372-375 | a lexical score lies in [0, 1], is 0 iff no term is shared, and 1 iff the query has terms and all are covered |
| `Terms.ScoreOfText` | evals/memory_agent_bench/raw_replay.py:363-375 | a query of n words scores k / n against a text of the first k of them |
| `Retrieval.RawReplayRetriever.Retrieve` | evals/memory_agent_bench/raw_replay.py:118-212 | per mode, the best eligible chunks of the pool by the lexical, the embedding or the hybrid ranking, scored by that ranking's scores, with the recorded pool and ranks, and the error path |
| `Retrieval.RawReplayRetriever.PoolIndexes` | evals/memory_agent_bench/raw_replay.py:253-276 | the pool of each mode, the hybrid one in order of the active ranks |
| `Retrieval.RawReplayRetriever.Score` | evals/memory_agent_bench/raw_replay.py:181-189 | the list before it is sorted and cut |
| `Retrieval.CutIsTop` | evals/memory_agent_bench/raw_replay.py:191-195 | sorting and cutting gives the best ranked |
| `Retrieval.PoolIsTransparent` | evals/memory_agent_bench/raw_replay.py:161-195 | in the lexical and the embedding mode the result is the global best by that ranking |
| `Retrieval.EligibleIff` | evals/memory_agent_bench/raw_replay.py:181-189 | which chunks may be retrieved, mode by mode |
| `Retrieval.TiesAre` | evals/memory_agent_bench/raw_replay.py:142-149 | equal scores go by message id, the greater first; without an id, or with 0, a chunk counts as -1 |
| `Retrieval.CutIs` | evals/memory_agent_bench/raw_replay.py:191-195 | how many are retrieved |
| `HybridPool.TransparentIff` | evals/memory_agent_bench/raw_replay.py:161-195 | in the hybrid mode the result is the global best exactly when every chunk of the best fused ranks is in the pool |
| `HybridPool.SettingsTransparent` | evals/memory_agent_bench/raw_replay.py:97-114 | with a pool of at least 59 + 2 · limit it is the global best for every query on every replay |
| `HybridPool.RetrieveHiding` | evals/memory_agent_bench/raw_replay.py:118-212 | for every smaller pool there are a replay and a query, with the lexical scores the texts really have, for which `Retrieve` does not return the global best |
| `HybridPool.RankingUnique` | evals/memory_agent_bench/raw_replay.py:383-397 | scores and tie breakers determine the ranks |
| `ConnectionGuard.ConnectionGuard.CheckServer` | src/connection_guard.py:98-122 | the new state and whether the call raises, in every case |
| `ConnectionGuard.ConnectionGuard.MarkServerUnreachable` | src/connection_guard.py:124-128 | the unhealthy stamp replaces the healthy one |
| `ConnectionGuard.RunKeepsInv` | src/connection_guard.py:98-128 | over any run never both stamps, and pings a cache lifetime apart |
| `ConnectionGuard.FailureIsRemembered` | src/connection_guard.py:105-119 | after a failed ping or an error elsewhere every check within the lifetime raises without a ping, and the first after it pings |
| `ConnectionGuard.SuccessIsRemembered` | src/connection_guard.py:100-122 | after a successful one every check within the lifetime passes without a ping, and the first after it pings |
| `ConnectionGuard.FirstCalls` | src/connection_guard.py:98-128 | a new guard pings |
| `ConnectionGuard.RateBound` | src/connection_guard.py:98-122 | at most T / ttl + 1 pings start within any interval of length T |
| `ConnectionGuard.PingRate` | src/connection_guard.py:80-128 | the same over any run of a new guard |
| `FrozenRows.CheckRow` | evals/longmemeval_answer_eval.py:958-997 | a row passes iff every check of it holds |
| `FrozenRows.RowOkIff` | evals/longmemeval_answer_eval.py:958-997 | the checks by name: one status, six values that agree, five that are filled, a reference, three objects |
| `FrozenRows.Validate` | evals/longmemeval_answer_eval.py:942-979 | accepts iff the rows cover the cases, one valid row each, and returns them in manifest order |
| `FrozenRows.AcceptsIff` | evals/longmemeval_answer_eval.py:950-979 | accepted iff the row ids are a permutation of the case ids and every row is valid |
| `FrozenRows.AcceptedIsPermutation` | evals/longmemeval_answer_eval.py:979 | what is returned is the same rows |

## Left out

- HTTP routes, the Chainlit and React interfaces and sessions: transport; of `app.py` only the fork that is deleted again, the edit after a turn, and which jobs its handlers run on the event loop.
- Language model, judge, embedding and indexer calls, Chroma: parameters that answer in any way; the indexer returns the id it was given.
- SQL text, PRAGMAs, migrations, connection errors, disk errors and the text formats of timestamps.
- SQLite's largest AUTOINCREMENT value, and a uuid that repeats: drawing one that is taken makes the upload raise.
- `LIKE` search and `require_messages`: an arbitrary predicate on chats, fixed during a walk.
- `int()` on digits outside ASCII, and the JSON numbers NaN and infinity, which Python also accepts.
- JSON objects with repeated keys: a decoded object has each key once, but no proof needs it.
- `record_operation_once`: taken to write rows of other kinds than uploads, as its callers do.
- Online memory updates after an answer: in `ChatGuard` they mark any messages and store any memory at any time; only the chat-end batches are modelled as selection.
- The long-term memory rows that an extraction writes, and what it makes of the memory state it read: an answer holds the state it stores.
- Text of the gist extractor: a summary is any text, topics and facts; the JSON text of its lists is a string.
- A consolidation request that is cancelled while its worker runs, which releases the lock early; and the event loop standing still while it waits for a worker to release the lock.
- In `ChatGuard`, what an upload does to documents: `Upload` has it.
- The chat lock across processes: it is process-local in the code; only the upload is modelled without it.
- A write to the evaluation log that fails half-way: an append happens or the process dies before it; hashes are taken to be injective.
- The dry run, the limit on cases and the mode check at the head of `run_evaluation`: the cases are a parameter.
- Rows of the evaluation log without an identity, timings, scores and verdict texts.
- Floating-point rounding in fused scores and in the clock: exact reals.
- `query_centered_text`, and what the embedding backend makes of texts: arbitrary similarities stand for it; candidates are identified by their place in the replay.
- Lower-casing outside ASCII, except for the two characters that turn into token characters: the others never do.
- The text of error messages, and which of several failing checks is reported.
- The judge-only and LongMemEval run loops, which repeat the idea of the modelled one.
- Provenance.RemapComposes: assumes that the document does not mention the middle chat's id, which is a fresh uuid.
- Upload.ChatService.IndexDocumentFile: the result is the document's id; the name and the number of chunks, which the call returns too, are those of the record.
- ConnectionGuard.RunKeepsInv: covers calls that follow one another; concurrent calls are not modelled, and an address that cannot be parsed raises before any request is sent.
