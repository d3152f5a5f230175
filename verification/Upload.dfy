/** Idempotent document upload: database transactions, the retry protocol, and its interleavings. */
module Upload {
  import opened Results

  // ---------------------------------------------------------------- tables and transactions

  datatype Status = Uploading | Indexing | Ready | Failed | Deleted

  datatype Document = Document(fileName: string, status: Status, chunkCount: int)

  datatype Operation = Operation(kind: string, scope: Option<string>, resultRef: Option<string>)

  /** operation_results, document_records and chat_documents by primary key, and the chats they refer to. */
  datatype Store = Store(operations: map<string, Operation>, documents: map<string, Document>,
                         links: set<(string, string)>, chats: set<string>)

  const UPLOAD := "document_upload"

  /** Is this row the upload of this chat, with a document to show for it? */
  predicate BelongsTo(row: Operation, chat: string) {
    row.kind == UPLOAD && row.scope == Some(chat) && row.resultRef.Some? && row.resultRef.value != ""
  }

  datatype Claim = Claimed(store: Store) | AlreadyClaimed(doc: string) | Refused

  /** claim_document_upload: the operation row and its document row are inserted together or not at all. */
  function ClaimUpload(s: Store, op: string, chat: string, doc: string, fileName: string): Claim {
    if op in s.operations then
      if BelongsTo(s.operations[op], chat) then AlreadyClaimed(s.operations[op].resultRef.value) else Refused
    else if doc in s.documents then Refused
    else Claimed(s.(operations := s.operations[op := Operation(UPLOAD, Some(chat), Some(doc))],
                    documents := s.documents[doc := Document(fileName, Uploading, 0)]))
  }

  /** update_document_status: an UPDATE, so a missing row is left missing. */
  function SetStatus(s: Store, doc: string, status: Status, chunks: Option<int>): Store {
    if doc !in s.documents then s
    else
      var d := s.documents[doc];
      s.(documents := s.documents[doc := d.(status := status,
                                            chunkCount := if chunks.Some? then chunks.value else d.chunkCount)])
  }

  /** associate_document_with_chat: both foreign keys must hold. */
  function Associate(s: Store, chat: string, doc: string): Option<Store> {
    if chat in s.chats && doc in s.documents then Some(s.(links := s.links + {(chat, doc)})) else None
  }

  // ---------------------------------------------------------------- one call, step by step

  datatype Call = Call(chat: string, op: string, fileName: string) {
    /** An empty operation id is no operation id. */
    predicate Keyed() {
      op != ""
    }
  }

  /** Where a call stands between two database or indexer calls. */
  datatype Pc =
    | LookUp
    | ClaimOrCreate
    | Read(doc: string)
    | Start(doc: string)
    | Index(doc: string)
    | MarkFailed(doc: string)
    | LinkFailed(doc: string)
    | MarkReady(doc: string, chunks: int)
    | Link(doc: string)
    | Returned(doc: string)
    | Raised

  predicate Finished(pc: Pc) {
    pc.Returned? || pc.Raised?
  }

  /** What the environment decides at a step: the uuid drawn, the indexer's answer (None when it
      raises), and whether a status write goes through. */
  datatype Choice = Choice(freshId: string, indexed: Option<int>, commits: bool)

  /** Who a document record was created for. */
  datatype Owner = ForOperation(op: string) | ForCall(tid: nat)

  /** The store with its history: the owner of every record ever created, which documents have been
      Ready, which links have been made, which records were hard-deleted, and the indexer's calls. */
  datatype World = World(store: Store, owner: map<string, Owner>, everReady: set<string>,
                         everLinked: set<(string, string)>, hardDeleted: set<string>, indexerCalls: seq<string>)

  function WithStatus(w: World, doc: string, status: Status, chunks: Option<int>): World {
    w.(store := SetStatus(w.store, doc, status, chunks),
       everReady := if status == Ready && doc in w.store.documents then w.everReady + {doc} else w.everReady)
  }

  function WithLink(w: World, chat: string, doc: string): Option<World> {
    var s :- Associate(w.store, chat, doc);
    Some(w.(store := s, everLinked := w.everLinked + {(chat, doc)}))
  }

  /** One atomic step of index_document_file. */
  function StepCall(w: World, tid: nat, call: Call, pc: Pc, choice: Choice): (World, Pc) {
    match pc
    case LookUp =>
      if call.Keyed() && call.op in w.store.operations then
        var row := w.store.operations[call.op];
        if row.kind != UPLOAD || row.scope != Some(call.chat) then (w, Raised)
        else (w, Read(if row.resultRef.Some? then row.resultRef.value else ""))
      else (w, ClaimOrCreate)
    case ClaimOrCreate =>
      var doc := choice.freshId;
      if call.Keyed() then
        match ClaimUpload(w.store, call.op, call.chat, doc, call.fileName)
        case Refused => (w, Raised)
        case AlreadyClaimed(existing) => (w, Read(existing))
        case Claimed(s) =>
          // uuid4 does not repeat itself and is never empty
          if doc in w.owner || doc == "" then (w, Raised)
          else (w.(store := s, owner := w.owner[doc := ForOperation(call.op)]), Start(doc))
      else if doc in w.store.documents || doc in w.owner || doc == "" then (w, Raised)
      else (w.(store := w.store.(documents := w.store.documents[doc := Document(call.fileName, Uploading, 0)]),
               owner := w.owner[doc := ForCall(tid)]), Start(doc))
    case Read(doc) =>
      if doc !in w.store.documents then (w, Raised)
      else if w.store.documents[doc].status == Ready then (w, Link(doc))
      else (w, Start(doc))
    case Start(doc) => (WithStatus(w, doc, Indexing, None), Index(doc))
    case Index(doc) =>
      var w' := w.(indexerCalls := w.indexerCalls + [doc]);
      if choice.indexed.Some? then (w', MarkReady(doc, choice.indexed.value)) else (w', MarkFailed(doc))
    case MarkFailed(doc) => (WithStatus(w, doc, Failed, None), LinkFailed(doc))
    case LinkFailed(doc) =>
      var linked := WithLink(w, call.chat, doc);
      (if linked.Some? then linked.value else w, Raised)
    case MarkReady(doc, chunks) =>
      if choice.commits then (WithStatus(w, doc, Ready, Some(chunks)), Link(doc)) else (w, LinkFailed(doc))
    case Link(doc) =>
      var linked := WithLink(w, call.chat, doc);
      if linked.Some? then (linked.value, Returned(doc)) else (w, Raised)
    case Returned(_) => (w, pc)
    case Raised => (w, pc)
  }

  // ---------------------------------------------------------------- all calls together

  datatype Task = Task(call: Call, pc: Pc)

  datatype State = State(world: World, tasks: map<nat, Task>)

  datatype Event =
    | Begin(tid: nat, call: Call)
    | Advance(tid: nat, choice: Choice)
    | Crash(tid: nat)
    | OtherOperation(op: string, row: Operation)
    | ApiStatus(doc: string, status: Status)
    | HardDelete(doc: string)
    | AddChat(chat: string)
    | DropChat(chat: string)

  function Next(s: State, e: Event): State {
    var w := s.world;
    match e
    case Begin(tid, call) =>
      if tid in s.tasks then s else s.(tasks := s.tasks[tid := Task(call, LookUp)])
    case Advance(tid, choice) =>
      if tid !in s.tasks then s
      else
        var t := s.tasks[tid];
        var (w', pc) := StepCall(w, tid, t.call, t.pc, choice);
        State(w', s.tasks[tid := t.(pc := pc)])
    case Crash(tid) =>
      if tid in s.tasks && !Finished(s.tasks[tid].pc) then s.(tasks := s.tasks[tid := s.tasks[tid].(pc := Raised)])
      else s
    case OtherOperation(op, row) =>
      // record_operation_once, for anything but uploads
      if op in w.store.operations || row.kind == UPLOAD then s
      else s.(world := w.(store := w.store.(operations := w.store.operations[op := row])))
    case ApiStatus(doc, status) => s.(world := WithStatus(w, doc, status, None))
    case HardDelete(doc) =>
      if doc !in w.store.documents then s
      else s.(world := w.(store := w.store.(documents := w.store.documents - {doc},
                                            links := set l | l in w.store.links && l.1 != doc),
                          hardDeleted := w.hardDeleted + {doc}))
    case AddChat(chat) => s.(world := w.(store := w.store.(chats := w.store.chats + {chat})))
    case DropChat(chat) =>
      s.(world := w.(store := w.store.(chats := w.store.chats - {chat},
                                       links := set l | l in w.store.links && l.0 != chat)))
  }

  function Run(s: State, events: seq<Event>): State
    decreases |events|
  {
    if events == [] then s else Run(Next(s, events[0]), events[1..])
  }

  const INITIAL := State(World(Store(map[], map[], {}, {}), map[], {}, {}, {}, []), map[])

  // ---------------------------------------------------------------- what every step keeps

  function OwnerOf(tid: nat, call: Call): Owner {
    if call.Keyed() then ForOperation(call.op) else ForCall(tid)
  }

  function DocOf(pc: Pc): Option<string> {
    match pc
    case LookUp => None
    case ClaimOrCreate => None
    case Raised => None
    case Read(d) => Some(d)
    case Start(d) => Some(d)
    case Index(d) => Some(d)
    case MarkFailed(d) => Some(d)
    case LinkFailed(d) => Some(d)
    case MarkReady(d, _) => Some(d)
    case Link(d) => Some(d)
    case Returned(d) => Some(d)
  }

  /** Operation rows and record owners name each other; a record exists until it is hard-deleted. */
  ghost predicate Bound(w: World) {
    && (forall o :: o in w.store.operations && w.store.operations[o].kind == UPLOAD ==>
          && w.store.operations[o].resultRef.Some?
          && w.store.operations[o].resultRef.value in w.owner
          && w.owner[w.store.operations[o].resultRef.value] == ForOperation(o))
    && (forall d :: d in w.owner && w.owner[d].ForOperation? ==>
          && w.owner[d].op in w.store.operations
          && w.store.operations[w.owner[d].op].kind == UPLOAD
          && w.store.operations[w.owner[d].op].resultRef == Some(d))
    && (forall d :: d in w.owner ==> d in w.store.documents || d in w.hardDeleted)
    && (forall d :: d in w.store.documents ==> d in w.owner)
    && (forall d :: d in w.store.documents && w.store.documents[d].status == Ready ==> d in w.everReady)
  }

  /** A call works on the one document of its operation, in the chat the operation belongs to. */
  ghost predicate OnItsDocument(w: World, tid: nat, t: Task) {
    DocOf(t.pc).Some? ==>
      var d := DocOf(t.pc).value;
      && d in w.owner
      && w.owner[d] == OwnerOf(tid, t.call)
      && (t.call.Keyed() ==>
            t.call.op in w.store.operations &&
            w.store.operations[t.call.op] == Operation(UPLOAD, Some(t.call.chat), Some(d)))
      && (t.pc.Link? ==> d in w.everReady || d !in w.store.documents)
      && (t.pc.Returned? ==> d in w.everReady)
      && (t.pc.Returned? ==> (t.call.chat, d) in w.everLinked)
  }

  ghost predicate Inv(s: State) {
    && Bound(s.world)
    && forall tid :: tid in s.tasks ==> OnItsDocument(s.world, tid, s.tasks[tid])
  }

  /** Rows of operation_results are never changed, and the histories only grow. */
  ghost predicate Grows(w: World, w': World) {
    && (forall o :: o in w.store.operations ==> o in w'.store.operations && w'.store.operations[o] == w.store.operations[o])
    && (forall d :: d in w.owner ==> d in w'.owner && w'.owner[d] == w.owner[d])
    && (forall d :: d in w.owner && d !in w.store.documents ==> d !in w'.store.documents)
    && w.everReady <= w'.everReady
    && w.everLinked <= w'.everLinked
    && w.hardDeleted <= w'.hardDeleted
  }

  lemma GrowsReflexive(w: World)
    ensures Grows(w, w)
  {
  }

  lemma StatusKeeps(w: World, doc: string, status: Status, chunks: Option<int>)
    requires Bound(w)
    ensures Bound(WithStatus(w, doc, status, chunks)) && Grows(w, WithStatus(w, doc, status, chunks))
  {
  }

  lemma LinkKeeps(w: World, chat: string, doc: string)
    requires Bound(w) && WithLink(w, chat, doc).Some?
    ensures Bound(WithLink(w, chat, doc).value) && Grows(w, WithLink(w, chat, doc).value)
    ensures (chat, doc) in WithLink(w, chat, doc).value.everLinked
  {
  }

  /** A new record for an upload operation: row and record appear in the same step. */
  lemma ClaimKeeps(w: World, tid: nat, call: Call, choice: Choice)
    requires Bound(w) && call.Keyed()
    ensures var (w', pc) := StepCall(w, tid, call, ClaimOrCreate, choice);
            Bound(w') && Grows(w, w') && OnItsDocument(w', tid, Task(call, pc))
  {
    var (w', pc) := StepCall(w, tid, call, ClaimOrCreate, choice);
    if pc.Start? {
      assert w'.owner == w.owner[pc.doc := ForOperation(call.op)];
      assert pc.doc !in w.owner;
    }
  }

  /** A new record for a call without an operation id. */
  lemma CreateKeeps(w: World, tid: nat, call: Call, choice: Choice)
    requires Bound(w) && !call.Keyed()
    ensures var (w', pc) := StepCall(w, tid, call, ClaimOrCreate, choice);
            Bound(w') && Grows(w, w') && OnItsDocument(w', tid, Task(call, pc))
  {
    var (w', pc) := StepCall(w, tid, call, ClaimOrCreate, choice);
    if pc.Start? {
      assert w'.owner == w.owner[pc.doc := ForCall(tid)];
    }
  }

  /** The steps that write a status or a link. */
  lemma WriteKeeps(w: World, tid: nat, call: Call, pc: Pc, choice: Choice)
    requires Bound(w) && OnItsDocument(w, tid, Task(call, pc))
    requires pc.Start? || pc.MarkFailed? || pc.LinkFailed? || pc.MarkReady? || pc.Link?
    ensures var (w', pc') := StepCall(w, tid, call, pc, choice);
            Bound(w') && Grows(w, w') && OnItsDocument(w', tid, Task(call, pc'))
  {
    hide Bound;
    var d := DocOf(pc).value;
    GrowsReflexive(w);
    if pc.Link? || pc.LinkFailed? {
      if WithLink(w, call.chat, d).Some? {
        LinkKeeps(w, call.chat, d);
      }
    } else {
      StatusKeeps(w, d, Indexing, None);
      StatusKeeps(w, d, Failed, None);
      if pc.MarkReady? {
        StatusKeeps(w, d, Ready, Some(pc.chunks));
      }
    }
  }

  /** The steps that leave the store alone. */
  lemma ReadKeeps(w: World, tid: nat, call: Call, pc: Pc, choice: Choice)
    requires Bound(w) && OnItsDocument(w, tid, Task(call, pc)) && !pc.ClaimOrCreate?
    requires !(pc.Start? || pc.MarkFailed? || pc.LinkFailed? || pc.MarkReady? || pc.Link?)
    ensures var (w', pc') := StepCall(w, tid, call, pc, choice);
            Bound(w') && Grows(w, w') && OnItsDocument(w', tid, Task(call, pc'))
  {
    if pc.LookUp? {
      LookUpKeeps(w, tid, call, choice);
    }
    hide Bound;
    GrowsReflexive(w);
  }

  lemma LookUpKeeps(w: World, tid: nat, call: Call, choice: Choice)
    requires Bound(w)
    ensures StepCall(w, tid, call, LookUp, choice).0 == w
    ensures OnItsDocument(w, tid, Task(call, StepCall(w, tid, call, LookUp, choice).1))
  {
  }

  lemma StepKeeps(w: World, tid: nat, call: Call, pc: Pc, choice: Choice)
    requires Bound(w) && OnItsDocument(w, tid, Task(call, pc))
    ensures var (w', pc') := StepCall(w, tid, call, pc, choice);
            Bound(w') && Grows(w, w') && OnItsDocument(w', tid, Task(call, pc'))
  {
    hide *;
    if pc.Start? || pc.MarkFailed? || pc.LinkFailed? || pc.MarkReady? || pc.Link? {
      WriteKeeps(w, tid, call, pc, choice);
    } else if pc != ClaimOrCreate {
      ReadKeeps(w, tid, call, pc, choice);
    } else if call.Keyed() {
      ClaimKeeps(w, tid, call, choice);
    } else {
      CreateKeeps(w, tid, call, choice);
    }
  }

  lemma OthersKeep(w: World, w': World, tid: nat, t: Task)
    requires Grows(w, w') && OnItsDocument(w, tid, t)
    ensures OnItsDocument(w', tid, t)
  {
  }

  /** Events that are not a call's own step. */
  lemma EnvironmentKeeps(s: State, e: Event)
    requires Bound(s.world) && !e.Advance?
    ensures Bound(Next(s, e).world) && Grows(s.world, Next(s, e).world)
  {
    if e.ApiStatus? {
      StatusKeeps(s.world, e.doc, e.status, None);
    }
  }

  lemma NextKeepsInv(s: State, e: Event)
    requires Inv(s)
    ensures Inv(Next(s, e)) && Grows(s.world, Next(s, e).world)
  {
    hide Bound, StepCall, OnItsDocument, Grows, Finished, WithStatus;
    var s' := Next(s, e);
    if e.Advance? && e.tid in s.tasks {
      var t := s.tasks[e.tid];
      StepKeeps(s.world, e.tid, t.call, t.pc, e.choice);
      forall tid | tid in s'.tasks && tid != e.tid ensures OnItsDocument(s'.world, tid, s'.tasks[tid]) {
        OthersKeep(s.world, s'.world, tid, s.tasks[tid]);
      }
    } else if e.Advance? {
      GrowsReflexive(s.world);
    } else {
      EnvironmentKeeps(s, e);
      forall tid | tid in s'.tasks ensures OnItsDocument(s'.world, tid, s'.tasks[tid]) {
        if tid in s.tasks && s'.tasks[tid] == s.tasks[tid] {
          OthersKeep(s.world, s'.world, tid, s.tasks[tid]);
        } else {
          IdleIsOnItsDocument(s'.world, tid, s'.tasks[tid]);
        }
      }
    }
  }

  lemma IdleIsOnItsDocument(w: World, tid: nat, t: Task)
    requires t.pc.LookUp? || t.pc.Raised?
    ensures OnItsDocument(w, tid, t)
  {
  }

  lemma GrowsTransitive(a: World, b: World, c: World)
    requires Grows(a, b) && Grows(b, c)
    ensures Grows(a, c)
  {
  }

  /** In every interleaving of calls, crashes, retries and administration, the invariant holds and
      the bindings of the past stand. */
  lemma {:induction false} RunKeepsInv(s: State, events: seq<Event>)
    requires Inv(s)
    ensures Inv(Run(s, events)) && Grows(s.world, Run(s, events).world)
    decreases |events|
  {
    hide Inv, Grows, Next;
    if events == [] {
      GrowsReflexive(s.world);
    } else {
      NextKeepsInv(s, events[0]);
      RunKeepsInv(Next(s, events[0]), events[1..]);
      GrowsTransitive(s.world, Next(s, events[0]).world, Run(s, events).world);
    }
  }

  lemma InitialInv()
    ensures Inv(INITIAL)
  {
  }

  /** When the operation has been claimed since the call looked it up, it goes on with the document of the claim if that is
      an upload of its chat, and raises otherwise; the record it would have made is not made. */
  lemma LateClaim(w: World, tid: nat, call: Call, choice: Choice)
    requires call.op != "" && call.op in w.store.operations
    ensures var row := w.store.operations[call.op];
            StepCall(w, tid, call, ClaimOrCreate, choice)
            == (w, if row.kind == "document_upload" && row.scope == Some(call.chat) && row.resultRef.Some? && row.resultRef.value != ""
                   then Read(row.resultRef.value) else Raised)
  {
  }

  /** A deleted record takes its links with it, and a deleted chat takes its own. */
  lemma DeletionsAre(s: State, doc: string, chat: string)
    ensures var before, after := s.world.store, Next(s, HardDelete(doc)).world.store;
            && after.operations == before.operations && after.chats == before.chats
            && (forall d :: d in after.documents <==> d in before.documents && d != doc)
            && (forall d :: d in after.documents ==> after.documents[d] == before.documents[d])
            && (doc in before.documents ==> forall l :: l in after.links <==> l in before.links && l.1 != doc)
            && (doc !in before.documents ==> after == before)
    ensures var before, after := s.world.store, Next(s, DropChat(chat)).world.store;
            && after.operations == before.operations && after.documents == before.documents
            && (forall c :: c in after.chats <==> c in before.chats && c != chat)
            && (forall l :: l in after.links <==> l in before.links && l.0 != chat)
  {
    hide StepCall;
  }

  /** A new chat; a status set by hand, which changes nothing but the status; and an operation of another kind, recorded once. */
  lemma OtherWritesAre(s: State, doc: string, status: Status, chat: string, op: string, row: Operation)
    ensures var before, after := s.world.store, Next(s, AddChat(chat)).world.store;
            after == Store(before.operations, before.documents, before.links, before.chats + {chat})
    ensures var before, after := s.world.store, Next(s, ApiStatus(doc, status)).world.store;
            && after.operations == before.operations && after.links == before.links && after.chats == before.chats
            && (forall d :: d in after.documents <==> d in before.documents)
            && (forall d :: d in after.documents ==>
                  after.documents[d] == if d != doc then before.documents[d]
                                        else Document(before.documents[d].fileName, status, before.documents[d].chunkCount))
    ensures var before, after := s.world.store, Next(s, OtherOperation(op, row)).world.store;
            && after.documents == before.documents && after.links == before.links && after.chats == before.chats
            && (row.kind == "document_upload" || op in before.operations ==> after.operations == before.operations)
            && (row.kind != "document_upload" && op !in before.operations ==> after.operations == before.operations[op := row])
  {
    hide StepCall;
  }

  // ---------------------------------------------------------------- what callers can rely on

  /** An operation id stands for one document for ever: calls with the same id that return, whenever
      and in whatever process, return the same document, and it is the one the operation row names. */
  lemma OneDocumentPerOperation(s: State, events: seq<Event>, i: nat, j: nat)
    requires Inv(s) && i in s.tasks && s.tasks[i].pc.Returned? && s.tasks[i].call.Keyed()
    requires j in Run(s, events).tasks
    requires var t := Run(s, events).tasks[j]; t.pc.Returned? && t.call.op == s.tasks[i].call.op
    ensures var d, op := s.tasks[i].pc.doc, s.tasks[i].call.op;
            && Run(s, events).tasks[j].pc.doc == d
            && op in s.world.store.operations
            && op in Run(s, events).world.store.operations
            && s.world.store.operations[op] == Run(s, events).world.store.operations[op]
            && s.world.store.operations[op].resultRef == Some(d)
            && Run(s, events).tasks[j].call.chat == s.tasks[i].call.chat
  {
    hide Run, Next, Bound;
    RunKeepsInv(s, events);
    assert OnItsDocument(s.world, i, s.tasks[i]);
    assert OnItsDocument(Run(s, events).world, j, Run(s, events).tasks[j]);
  }

  /** The operation row and the document record exist together, and no second record is ever created
      for the operation. */
  lemma OneRecordPerOperation(events: seq<Event>, op: string)
    ensures var w := Run(INITIAL, events).world;
            && (op in w.store.operations && w.store.operations[op].kind == UPLOAD <==>
                exists d :: d in w.owner && w.owner[d] == ForOperation(op))
            && (forall d, e :: d in w.owner && e in w.owner && w.owner[d] == w.owner[e] == ForOperation(op) ==> d == e)
            && (forall d :: d in w.owner ==> d in w.store.documents || d in w.hardDeleted)
  {
    hide Run, Next, OnItsDocument;
    InitialInv();
    RunKeepsInv(INITIAL, events);
    var w := Run(INITIAL, events).world;
    assert Bound(w);
    if op in w.store.operations && w.store.operations[op].kind == UPLOAD {
      assert w.owner[w.store.operations[op].resultRef.value] == ForOperation(op);
    }
  }

  /** A call that has returned, or raised, is over: nothing that happens later changes that, a crash included. */
  lemma {:induction false} FinishedStays(s: State, events: seq<Event>, i: nat)
    requires i in s.tasks && Finished(s.tasks[i].pc)
    ensures i in Run(s, events).tasks && Run(s, events).tasks[i] == s.tasks[i]
    decreases |events|
  {
    if events != [] {
      FinishedStep(s, events[0], i);
      hide Next;
      FinishedStays(Next(s, events[0]), events[1..], i);
    }
  }

  lemma FinishedStep(s: State, e: Event, i: nat)
    requires i in s.tasks && Finished(s.tasks[i].pc)
    ensures i in Next(s, e).tasks && Next(s, e).tasks[i] == s.tasks[i]
  {
  }

  /** A crash ends a call where it stands, and leaves the tables and every other call alone. */
  lemma CrashIs(s: State, i: nat)
    ensures var s' := Next(s, Crash(i));
            && s'.world == s.world
            && (forall j :: j in s'.tasks <==> j in s.tasks)
            && (forall j :: j in s.tasks && j != i ==> s'.tasks[j] == s.tasks[j])
            && (i in s.tasks ==> s'.tasks[i].call == s.tasks[i].call && (s'.tasks[i].pc == s.tasks[i].pc || s'.tasks[i].pc == Raised))
            && (i in s.tasks && s.tasks[i].pc.Returned? ==> s'.tasks[i].pc.Returned?)
            && (i in s.tasks && !s.tasks[i].pc.Returned? ==> s'.tasks[i].pc.Raised?)
  {
  }

  /** A call that returned saw its document Ready during the run, and linked it to its chat. */
  lemma ReturnedWasReady(events: seq<Event>, tid: nat)
    requires tid in Run(INITIAL, events).tasks && Run(INITIAL, events).tasks[tid].pc.Returned?
    ensures var s := Run(INITIAL, events);
            && s.tasks[tid].pc.doc in s.world.everReady
            && (s.tasks[tid].call.chat, s.tasks[tid].pc.doc) in s.world.everLinked
  {
    hide Run, Next, Bound;
    InitialInv();
    RunKeepsInv(INITIAL, events);
    assert OnItsDocument(Run(INITIAL, events).world, tid, Run(INITIAL, events).tasks[tid]);
  }

  /** The operation id is taken by another chat or by another kind of operation. */
  predicate Foreign(s: Store, call: Call) {
    && call.Keyed() && call.op in s.operations
    && (s.operations[call.op].kind != UPLOAD || s.operations[call.op].scope != Some(call.chat))
  }

  /** Reusing such an id is refused in every run: the call never gets as far as a document, and no step of its own
      changes anything. */
  lemma ForeignOperationRaises(s: State, events: seq<Event>, tid: nat, choice: Choice)
    requires Inv(s) && tid in Run(s, events).tasks && Foreign(s.world.store, Run(s, events).tasks[tid].call)
    ensures var s' := Run(s, events);
            && (s'.tasks[tid].pc.LookUp? || s'.tasks[tid].pc.ClaimOrCreate? || s'.tasks[tid].pc.Raised?)
            && Next(s', Advance(tid, choice)).world == s'.world
  {
    hide Run, Bound;
    RunKeepsInv(s, events);
    var s' := Run(s, events);
    assert OnItsDocument(s'.world, tid, s'.tasks[tid]);
  }

  // ---------------------------------------------------------------- when a Ready document stays Ready

  predicate IsReady(w: World, d: string) {
    d in w.store.documents && w.store.documents[d].status == Ready
  }

  /** A call that is about to take the document out of Ready, if the indexer fails it. */
  predicate Endangers(pc: Pc, d: string) {
    pc == Start(d) || pc == Index(d) || pc == MarkFailed(d)
  }

  ghost predicate Safe(s: State, d: string) {
    forall i :: i in s.tasks ==> !Endangers(s.tasks[i].pc, d)
  }

  /** Administration of the document: its status set by hand, or its record deleted. */
  predicate Touches(e: Event, d: string) {
    (e.ApiStatus? && e.doc == d) || (e.HardDelete? && e.doc == d)
  }

  ghost predicate Untouched(events: seq<Event>, d: string) {
    forall e :: e in events ==> !Touches(e, d)
  }

  lemma StepKeepsReady(w: World, tid: nat, call: Call, pc: Pc, choice: Choice, d: string)
    requires IsReady(w, d) && d in w.owner && !Endangers(pc, d)
    ensures var (w', pc') := StepCall(w, tid, call, pc, choice);
            && IsReady(w', d) && !Endangers(pc', d)
            && multiset(w'.indexerCalls)[d] == multiset(w.indexerCalls)[d]
  {
    if pc.ClaimOrCreate? {
      ClaimKeepsReady(w, tid, call, choice, d);
    } else {
      RowsKeepReady(w, pc, call.chat, d);
      hide WithStatus, WithLink, ClaimUpload;
      if pc.Index? {
        OtherCall(w.indexerCalls, pc.doc, d);
      }
    }
  }

  lemma OtherCall(calls: seq<string>, doc: string, d: string)
    requires doc != d
    ensures multiset(calls + [doc])[d] == multiset(calls)[d]
  {
  }

  /** Statuses of other documents, Ready itself, and links. */
  lemma RowsKeepReady(w: World, pc: Pc, chat: string, d: string)
    requires IsReady(w, d)
    ensures pc.Start? || pc.MarkFailed? ==>
              forall status :: pc.doc != d ==> IsReady(WithStatus(w, pc.doc, status, None), d)
                                                 && WithStatus(w, pc.doc, status, None).indexerCalls == w.indexerCalls
    ensures pc.MarkReady? ==> var w' := WithStatus(w, pc.doc, Ready, Some(pc.chunks));
                              IsReady(w', d) && w'.indexerCalls == w.indexerCalls
    ensures pc.Link? || pc.LinkFailed? ==>
              var w' := WithLink(w, chat, pc.doc); w'.Some? ==> IsReady(w'.value, d) && w'.value.indexerCalls == w.indexerCalls
  {
  }

  /** A new record is another document's. */
  lemma ClaimKeepsReady(w: World, tid: nat, call: Call, choice: Choice, d: string)
    requires IsReady(w, d) && d in w.owner
    ensures var (w', pc') := StepCall(w, tid, call, ClaimOrCreate, choice);
            IsReady(w', d) && !Endangers(pc', d) && w'.indexerCalls == w.indexerCalls
  {
  }

  lemma SafeStep(s: State, e: Event, d: string)
    requires Inv(s) && IsReady(s.world, d) && Safe(s, d) && !Touches(e, d)
    ensures IsReady(Next(s, e).world, d) && Safe(Next(s, e), d)
    ensures multiset(Next(s, e).world.indexerCalls)[d] == multiset(s.world.indexerCalls)[d]
  {
    hide StepCall, OnItsDocument;
    if e.Advance? && e.tid in s.tasks {
      StepKeepsReady(s.world, e.tid, s.tasks[e.tid].call, s.tasks[e.tid].pc, e.choice, d);
    }
  }

  /** With nobody about to take it away, a Ready document stays Ready through every interleaving of calls from
      whatever processes, and the indexer is not called for it again. */
  lemma {:induction false} SafeRun(s: State, events: seq<Event>, d: string)
    requires Inv(s) && IsReady(s.world, d) && Safe(s, d) && Untouched(events, d)
    ensures Inv(Run(s, events)) && IsReady(Run(s, events).world, d) && Safe(Run(s, events), d)
    ensures multiset(Run(s, events).world.indexerCalls)[d] == multiset(s.world.indexerCalls)[d]
    decreases |events|
  {
    hide Inv, Next, Safe, Touches, IsReady;
    if events != [] {
      assert events[0] in events;
      NextKeepsInv(s, events[0]);
      SafeStep(s, events[0], d);
      SafeRun(Next(s, events[0]), events[1..], d);
    }
  }

  /** A call about to take Ready away needs at most two steps of its own to do it. */
  lemma TakenAway(s: State, i: nat, d: string) returns (events: seq<Event>)
    requires IsReady(s.world, d) && i in s.tasks && Endangers(s.tasks[i].pc, d)
    ensures Untouched(events, d) && forall e :: e in events ==> e.Advance? && e.tid == i
    ensures d in Run(s, events).world.store.documents && !IsReady(Run(s, events).world, d)
    ensures Run(s, events).world.store.chats == s.world.store.chats
    ensures forall j :: j in s.tasks && j != i ==> j in Run(s, events).tasks && Run(s, events).tasks[j] == s.tasks[j]
  {
    var e := Advance(i, FAILING);
    if s.tasks[i].pc.Index? {
      events := [e, e];
      OneEvent(Next(s, e), e);
      TwoEvents(s, e, e);
    } else {
      events := [e];
      OneEvent(s, e);
    }
  }

  const FAILING := Choice("", None, true)

  lemma OneEvent(s: State, e: Event)
    ensures Run(s, [e]) == Next(s, e)
  {
    hide Next;
    assert [e][1..] == [];
  }

  lemma TwoEvents(s: State, e: Event, f: Event)
    ensures Run(s, [e, f]) == Next(Next(s, e), f)
  {
    hide Next;
    assert [e, f][1..] == [f];
    OneEvent(Next(s, e), f);
  }

  lemma {:induction false} RunConcat(s: State, a: seq<Event>, b: seq<Event>)
    ensures Run(s, a + b) == Run(Run(s, a), b)
    decreases |a|
  {
    hide Next;
    if a == [] {
      assert a + b == b;
    } else {
      assert (a + b)[1..] == a[1..] + b;
      RunConcat(Next(s, a[0]), a[1..], b);
    }
  }

  /** A Ready document stays Ready, whatever calls do, exactly when no call is about to take that away. */
  lemma StaysReadyIff(s: State, d: string)
    requires Inv(s) && IsReady(s.world, d)
    ensures (forall events :: Untouched(events, d) ==> IsReady(Run(s, events).world, d)) <==> Safe(s, d)
  {
    hide Inv, Run, IsReady, Untouched;
    if Safe(s, d) {
      forall events | Untouched(events, d) ensures IsReady(Run(s, events).world, d) {
        SafeRun(s, events, d);
      }
    } else {
      var i :| i in s.tasks && Endangers(s.tasks[i].pc, d);
      var events := TakenAway(s, i, d);
      assert Untouched(events, d) && !IsReady(Run(s, events).world, d);
    }
  }

  /** Nobody is about to take Ready away, or to record another number of chunks. */
  ghost predicate Steady(s: State, d: string)
    requires d in s.world.store.documents
  {
    && Safe(s, d)
    && forall i :: i in s.tasks && s.tasks[i].pc.MarkReady? && s.tasks[i].pc.doc == d ==>
         s.tasks[i].pc.chunks == s.world.store.documents[d].chunkCount
  }

  ghost predicate RecordIs(w: World, d: string, record: Document) {
    d in w.store.documents && w.store.documents[d] == record
  }

  lemma StepKeepsRecord(w: World, tid: nat, call: Call, pc: Pc, choice: Choice, d: string)
    requires IsReady(w, d) && d in w.owner && !Endangers(pc, d)
    requires pc.MarkReady? && pc.doc == d ==> pc.chunks == w.store.documents[d].chunkCount
    ensures var (w', pc') := StepCall(w, tid, call, pc, choice);
            && RecordIs(w', d, w.store.documents[d])
            && !(pc'.MarkReady? && pc'.doc == d)
  {
    hide ClaimUpload;
    if pc.ClaimOrCreate? {
      ClaimKeepsRecord(w, tid, call, choice, d);
    }
  }

  lemma ClaimKeepsRecord(w: World, tid: nat, call: Call, choice: Choice, d: string)
    requires d in w.store.documents && d in w.owner
    ensures var (w', pc') := StepCall(w, tid, call, ClaimOrCreate, choice);
            RecordIs(w', d, w.store.documents[d]) && !pc'.MarkReady?
  {
  }

  lemma SteadyStep(s: State, e: Event, d: string)
    requires Inv(s) && IsReady(s.world, d) && Steady(s, d) && !Touches(e, d)
    ensures IsReady(Next(s, e).world, d) && Steady(Next(s, e), d)
    ensures RecordIs(Next(s, e).world, d, s.world.store.documents[d])
  {
    hide StepCall, OnItsDocument;
    SafeStep(s, e, d);
    if e.Advance? && e.tid in s.tasks {
      StepKeepsRecord(s.world, e.tid, s.tasks[e.tid].call, s.tasks[e.tid].pc, e.choice, d);
    }
  }

  lemma {:induction false} SteadyRun(s: State, events: seq<Event>, d: string)
    requires Inv(s) && IsReady(s.world, d) && Steady(s, d) && Untouched(events, d)
    ensures RecordIs(Run(s, events).world, d, s.world.store.documents[d])
    decreases |events|
  {
    hide Inv, Next, Steady, Touches;
    if events != [] {
      assert events[0] in events;
      NextKeepsInv(s, events[0]);
      SteadyStep(s, events[0], d);
      SteadyRun(Next(s, events[0]), events[1..], d);
    }
  }

  /** The record of a Ready document keeps its name, its status and its number of chunks, whatever calls do, exactly when no call
      is about to take Ready away or to record another number. */
  lemma RecordStaysIff(s: State, d: string)
    requires Inv(s) && IsReady(s.world, d)
    ensures (forall events :: Untouched(events, d) ==> RecordIs(Run(s, events).world, d, s.world.store.documents[d]))
            <==> Steady(s, d)
  {
    hide Inv, Run, Untouched, Next;
    if Steady(s, d) {
      forall events | Untouched(events, d) ensures RecordIs(Run(s, events).world, d, s.world.store.documents[d]) {
        SteadyRun(s, events, d);
      }
    } else if !Safe(s, d) {
      var i :| i in s.tasks && Endangers(s.tasks[i].pc, d);
      var events := TakenAway(s, i, d);
    } else {
      var i :| i in s.tasks && s.tasks[i].pc.MarkReady? && s.tasks[i].pc.doc == d &&
               s.tasks[i].pc.chunks != s.world.store.documents[d].chunkCount;
      var events := Recounted(s, i, d);
    }
  }

  lemma Recounted(s: State, i: nat, d: string) returns (events: seq<Event>)
    requires d in s.world.store.documents && i in s.tasks && s.tasks[i].pc.MarkReady? && s.tasks[i].pc.doc == d
    ensures Untouched(events, d) && d in Run(s, events).world.store.documents
    ensures Run(s, events).world.store.documents[d].chunkCount == s.tasks[i].pc.chunks
  {
    events := [Advance(i, FAILING)];
    OneEvent(s, events[0]);
  }

  predicate ReadyAndLinked(w: World, chat: string, doc: string) {
    IsReady(w, doc) && (chat, doc) in w.store.links
  }

  predicate Drops(e: Event, chat: string) {
    e.DropChat? && e.chat == chat
  }

  /** No administration of the document, and its chat is not deleted. */
  ghost predicate Undisturbed(events: seq<Event>, d: string, chat: string) {
    Untouched(events, d) && forall e :: e in events ==> !Drops(e, chat)
  }

  /** A call of the chat that is at its last step for the document, or past it. */
  ghost predicate Ending(s: State, i: nat, d: string) {
    && i in s.tasks
    && (s.tasks[i].pc == Link(d) || s.tasks[i].pc.Raised? ||
        (s.tasks[i].pc == Returned(d) && (s.tasks[i].call.chat, d) in s.world.store.links))
  }

  lemma EndingStep(s: State, e: Event, i: nat, d: string)
    requires Ending(s, i, d) && !Touches(e, d) && !Drops(e, s.tasks[i].call.chat)
    ensures Ending(Next(s, e), i, d) && Next(s, e).tasks[i].call == s.tasks[i].call
  {
    if e.Advance? && e.tid in s.tasks {
      LinksStay(s.world, e.tid, s.tasks[e.tid].call, s.tasks[e.tid].pc, e.choice);
    }
  }

  lemma LinksStay(w: World, tid: nat, call: Call, pc: Pc, choice: Choice)
    ensures w.store.links <= StepCall(w, tid, call, pc, choice).0.store.links
  {
  }

  lemma {:induction false} EndingRun(s: State, events: seq<Event>, i: nat, d: string)
    requires Ending(s, i, d) && Undisturbed(events, d, s.tasks[i].call.chat)
    ensures Ending(Run(s, events), i, d) && Run(s, events).tasks[i].call == s.tasks[i].call
    decreases |events|
  {
    hide Next, Touches, Drops;
    if events != [] {
      assert events[0] in events;
      EndingStep(s, events[0], i, d);
      EndingRun(Next(s, events[0]), events[1..], i, d);
    }
  }

  /** Every state in which the call has returned shows the document Ready and linked. */
  ghost predicate ReturnsReady(s: State, i: nat, d: string)
    requires i in s.tasks
  {
    forall events :: Undisturbed(events, d, s.tasks[i].call.chat) ==> ReadyIfReturned(Run(s, events), i, d)
  }

  predicate ReadyIfReturned(s: State, i: nat, d: string) {
    i in s.tasks && s.tasks[i].pc.Returned? ==> ReadyAndLinked(s.world, s.tasks[i].call.chat, d)
  }

  /** A call at its last step returns a Ready document, now and later, in every interleaving of any number of
      processes, exactly when the document is Ready and no call is about to take that away. */
  lemma ReturnsReadyIff(s: State, i: nat, d: string)
    requires Inv(s) && i in s.tasks && s.tasks[i].pc == Link(d) && d in s.world.store.documents
    ensures ReturnsReady(s, i, d) <==> IsReady(s.world, d) && Safe(s, d)
  {
    hide Inv, Run, Next, IsReady;
    var chat := s.tasks[i].call.chat;
    if IsReady(s.world, d) && Safe(s, d) {
      forall events | Undisturbed(events, d, chat) ensures ReadyIfReturned(Run(s, events), i, d) {
        SafeRun(s, events, d);
        EndingRun(s, events, i, d);
      }
    } else {
      var events: seq<Event> := [];
      if IsReady(s.world, d) {
        var j :| j in s.tasks && Endangers(s.tasks[j].pc, d);
        events := TakenAway(s, j, d);
      } else {
        EmptyRun(s);
      }
      var s' := Run(s, events);
      ReturnsAnyway(s', i, d);
      RunConcat(s, events, [AddChat(chat), Advance(i, FAILING)]);
      assert Undisturbed(events + [AddChat(chat), Advance(i, FAILING)], d, chat);
      assert !ReadyIfReturned(Run(s, events + [AddChat(chat), Advance(i, FAILING)]), i, d);
    }
  }

  lemma EmptyRun(s: State)
    ensures Run(s, []) == s
  {
  }

  lemma ReturnsAnyway(s: State, i: nat, d: string)
    requires i in s.tasks && s.tasks[i].pc == Link(d) && d in s.world.store.documents && !IsReady(s.world, d)
    ensures !ReadyIfReturned(Run(s, [AddChat(s.tasks[i].call.chat), Advance(i, FAILING)]), i, d)
  {
    TwoEvents(s, AddChat(s.tasks[i].call.chat), Advance(i, FAILING));
  }

  // ---------------------------------------------------------------- retries

  ghost predicate ReadyThroughout(s: State, events: seq<Event>, d: string)
    decreases |events|
  {
    IsReady(s.world, d) && (events != [] ==> ReadyThroughout(Next(s, events[0]), events[1..], d))
  }

  /** About to call the indexer. */
  predicate Calls(s: State, j: nat, d: string) {
    j in s.tasks && (s.tasks[j].pc == Start(d) || s.tasks[j].pc == Index(d))
  }

  /** A call that has returned under an operation id whose row names the document. */
  predicate Repeats(s: State, j: nat, store: Store, d: string) {
    && j in s.tasks && s.tasks[j].pc.Returned? && s.tasks[j].call.Keyed()
    && s.tasks[j].call.op in store.operations && store.operations[s.tasks[j].call.op].resultRef == Some(d)
  }

  lemma NoNewCalls(s: State, e: Event, d: string, j: nat)
    requires Inv(s) && IsReady(s.world, d) && !Calls(s, j, d)
    ensures !Calls(Next(s, e), j, d)
  {
    hide OnItsDocument;
  }

  /** While a document stays Ready, a call that was not already about to index it never is: retries, from whatever
      process, do not call the indexer, and those that return, return this document. */
  lemma {:induction false} RetriesWhileReady(s: State, events: seq<Event>, d: string, j: nat)
    requires Inv(s) && ReadyThroughout(s, events, d) && !Calls(s, j, d)
    ensures !Calls(Run(s, events), j, d)
    ensures Repeats(Run(s, events), j, s.world.store, d) ==> Run(s, events).tasks[j].pc.doc == d
    decreases |events|
  {
    hide Next, Bound, Grows;
    if events == [] {
      assert j in s.tasks ==> OnItsDocument(s.world, j, s.tasks[j]);
    } else {
      NextKeepsInv(s, events[0]);
      NoNewCalls(s, events[0], d, j);
      RowsStay(s.world, Next(s, events[0]).world);
      RetriesWhileReady(Next(s, events[0]), events[1..], d, j);
    }
  }

  lemma RowsStay(w: World, w': World)
    requires Grows(w, w')
    ensures forall o :: o in w.store.operations ==> o in w'.store.operations && w'.store.operations[o] == w.store.operations[o]
  {
  }

  /** A retry that is let run returns in three steps, and does nothing but link the document. */
  lemma RetryReturns(w: World, tid: nat, call: Call, choice: Choice, d: string)
    requires call.Keyed() && call.op in w.store.operations && call.chat in w.store.chats
    requires w.store.operations[call.op] == Operation(UPLOAD, Some(call.chat), Some(d)) && IsReady(w, d)
    ensures Alone(w, tid, call, choice, 3) == (WithLink(w, call.chat, d).value, Returned(d))
  {
    OneMore(w, tid, call, choice, 0);
    OneMore(w, tid, call, choice, 1);
    OneMore(w, tid, call, choice, 2);
    hide Alone;
    NotStarted(w, tid, call, choice);
  }

  lemma NotStarted(w: World, tid: nat, call: Call, choice: Choice)
    ensures Alone(w, tid, call, choice, 0) == (w, LookUp)
  {
  }

  // ---------------------------------------------------------------- under the per-chat guard

  predicate Busy(t: Task) {
    !t.pc.LookUp? && !Finished(t.pc)
  }

  /** guarded_chat_operation: a call enters only when no other upload to its chat is inside. */
  ghost predicate Guarded(s: State, e: Event) {
    e.Advance? && e.tid in s.tasks && s.tasks[e.tid].pc.LookUp? ==>
      forall j :: j in s.tasks && Busy(s.tasks[j]) ==> s.tasks[j].call.chat != s.tasks[e.tid].call.chat
  }

  ghost predicate GuardedRun(s: State, events: seq<Event>)
    decreases |events|
  {
    events != [] ==> Guarded(s, events[0]) && GuardedRun(Next(s, events[0]), events[1..])
  }

  ghost predicate Exclusive(s: State) {
    forall i, j :: i in s.tasks && j in s.tasks && i != j && Busy(s.tasks[i]) && Busy(s.tasks[j]) ==>
      s.tasks[i].call.chat != s.tasks[j].call.chat
  }

  lemma GuardedKeepsExclusive(s: State, e: Event)
    requires Exclusive(s) && Guarded(s, e)
    ensures Exclusive(Next(s, e))
  {
    hide WithStatus, WithLink, ClaimUpload;
  }

  /** The guard lets nobody endanger the document of a call at its last step. */
  lemma GuardedIsSafe(s: State, i: nat, d: string)
    requires Inv(s) && Exclusive(s) && i in s.tasks && s.tasks[i].pc == Link(d)
    ensures Safe(s, d)
  {
    hide Bound;
    forall j | j in s.tasks ensures !Endangers(s.tasks[j].pc, d) {
      assert OnItsDocument(s.world, i, s.tasks[i]) && OnItsDocument(s.world, j, s.tasks[j]);
    }
  }

  predicate AtEnd(pc: Pc, d: string) {
    pc == Link(d) || pc == Returned(d)
  }

  /** Where a call is at its last step for the document, or past it, the document is Ready and safe. */
  ghost predicate Settled(s: State, d: string) {
    && d !in s.world.hardDeleted
    && forall i :: i in s.tasks && AtEnd(s.tasks[i].pc, d) ==> IsReady(s.world, d) && Safe(s, d) && Ending(s, i, d)
  }

  /** A step that brings a call to its last step finds the document Ready, or makes it so. */
  lemma ReachesEnd(w: World, tid: nat, call: Call, pc: Pc, choice: Choice, d: string)
    requires Bound(w) && OnItsDocument(w, tid, Task(call, pc)) && d !in w.hardDeleted
    requires !AtEnd(pc, d) && AtEnd(StepCall(w, tid, call, pc, choice).1, d)
    ensures StepCall(w, tid, call, pc, choice).1 == Link(d) && IsReady(StepCall(w, tid, call, pc, choice).0, d)
  {
  }

  lemma NotDeletedBy(s: State, e: Event, d: string)
    requires d !in s.world.hardDeleted && !Touches(e, d)
    ensures d !in Next(s, e).world.hardDeleted
  {
  }

  lemma SettledStep(s: State, e: Event, d: string, chat: string)
    requires Inv(s) && Exclusive(s) && Settled(s, d) && Guarded(s, e) && !Touches(e, d) && !Drops(e, chat)
    requires forall i :: i in s.tasks && AtEnd(s.tasks[i].pc, d) ==> s.tasks[i].call.chat == chat
    ensures Settled(Next(s, e), d)
  {
    hide StepCall, Bound, OnItsDocument, Guarded, Exclusive, IsReady, Touches, Drops, Next, Safe, Ending;
    var s' := Next(s, e);
    NextKeepsInv(s, e);
    GuardedKeepsExclusive(s, e);
    NotDeletedBy(s, e, d);
    forall i | i in s'.tasks && AtEnd(s'.tasks[i].pc, d) ensures IsReady(s'.world, d) && Safe(s', d) && Ending(s', i, d) {
      if i in s.tasks && AtEnd(s.tasks[i].pc, d) {
        SafeStep(s, e, d);
        EndingStep(s, e, i, d);
      } else {
        Arrives(s, e, i, d);
        GuardedIsSafe(s', i, d);
        LinkIsEnding(s', i, d);
      }
    }
  }

  lemma LinkIsEnding(s: State, i: nat, d: string)
    requires i in s.tasks && s.tasks[i].pc == Link(d)
    ensures Ending(s, i, d)
  {
  }

  lemma Arrives(s: State, e: Event, i: nat, d: string)
    requires Inv(s) && d !in s.world.hardDeleted && (i in s.tasks ==> !AtEnd(s.tasks[i].pc, d))
    requires i in Next(s, e).tasks && AtEnd(Next(s, e).tasks[i].pc, d)
    ensures Next(s, e).tasks[i].pc == Link(d) && IsReady(Next(s, e).world, d)
  {
    hide StepCall, Bound, OnItsDocument, IsReady;
    assert e.Advance? && e.tid == i && i in s.tasks;
    ReachesEnd(s.world, i, s.tasks[i].call, s.tasks[i].pc, e.choice, d);
  }

  /** The chat whose calls the document was recorded for, once it is recorded. */
  predicate RecordedFor(s: State, d: string, chat: string) {
    d in s.world.owner ==>
      match s.world.owner[d]
      case ForOperation(op) => op in s.world.store.operations ==> s.world.store.operations[op].scope == Some(chat)
      case ForCall(tid) => tid in s.tasks ==> s.tasks[tid].call.chat == chat
  }

  lemma RecordedForChat(s: State, d: string, chat: string, i: nat)
    requires Inv(s) && RecordedFor(s, d, chat) && i in s.tasks && DocOf(s.tasks[i].pc) == Some(d)
    ensures s.tasks[i].call.chat == chat
  {
    hide Bound;
    assert OnItsDocument(s.world, i, s.tasks[i]);
  }

  lemma RecordedBefore(s: State, e: Event, d: string, chat: string)
    requires Inv(s) && RecordedFor(Next(s, e), d, chat)
    ensures RecordedFor(s, d, chat)
  {
    hide StepCall, OnItsDocument, Bound;
    NextKeepsInv(s, e);
  }

  lemma {:induction false} RecordedAlways(s: State, events: seq<Event>, d: string, chat: string)
    requires Inv(s) && RecordedFor(Run(s, events), d, chat)
    ensures RecordedFor(s, d, chat)
    decreases |events|
  {
    hide Inv, Next, RecordedFor;
    if events != [] {
      NextKeepsInv(s, events[0]);
      RecordedAlways(Next(s, events[0]), events[1..], d, chat);
      RecordedBefore(s, events[0], d, chat);
    }
  }

  /** With the guard in force, and no administration of the document or deletion of its chat, a call that returned
      leaves its document Ready and linked in every state that follows. */
  lemma {:induction false} GuardedReturnsStayReady(s: State, events: seq<Event>, d: string, chat: string)
    requires Inv(s) && Exclusive(s) && Settled(s, d) && GuardedRun(s, events) && Undisturbed(events, d, chat)
    requires RecordedFor(Run(s, events), d, chat)
    ensures Settled(Run(s, events), d)
    decreases |events|
  {
    hide Inv, Exclusive, Settled, Guarded, Next, Touches, Drops, RecordedFor;
    if events != [] {
      var e := events[0];
      assert e in events;
      RecordedAlways(s, events, d, chat);
      forall i | i in s.tasks && AtEnd(s.tasks[i].pc, d) ensures s.tasks[i].call.chat == chat {
        RecordedForChat(s, d, chat, i);
      }
      SettledStep(s, e, d, chat);
      NextKeepsInv(s, e);
      GuardedKeepsExclusive(s, e);
      GuardedReturnsStayReady(Next(s, e), events[1..], d, chat);
    }
  }

  /** Under the guard a return means Ready and linked, whatever happens to other documents and chats. */
  lemma GuardedReturnIsReady(events: seq<Event>, tid: nat)
    requires tid in Run(INITIAL, events).tasks && Run(INITIAL, events).tasks[tid].pc.Returned?
    requires var t := Run(INITIAL, events).tasks[tid];
             GuardedRun(INITIAL, events) && Undisturbed(events, t.pc.doc, t.call.chat)
    ensures var s := Run(INITIAL, events);
            ReadyAndLinked(s.world, s.tasks[tid].call.chat, s.tasks[tid].pc.doc)
  {
    hide Run, Next, Bound, GuardedRun, Undisturbed, Safe, IsReady;
    InitialInv();
    RunKeepsInv(INITIAL, events);
    var s := Run(INITIAL, events);
    assert OnItsDocument(s.world, tid, s.tasks[tid]);
    GuardedReturnsStayReady(INITIAL, events, s.tasks[tid].pc.doc, s.tasks[tid].call.chat);
  }

  // ---------------------------------------------------------------- without the guard

  const FIRST := Call("chat", "op", "notes.txt")
  const GO := Choice("doc", Some(3), true)

  /** Two processes upload under one operation id.  The second reads the record before the first has
      finished, and marks it Indexing after the first marked it Ready. */
  const RACE: seq<Event> := [
    AddChat("chat"), Begin(1, FIRST), Begin(2, FIRST),
    Advance(1, GO), Advance(1, GO), Advance(1, GO), Advance(1, GO),
    Advance(2, GO), Advance(2, GO),
    Advance(1, GO), Advance(2, GO), Advance(1, GO)]

  lemma RunStep(s: State, events: seq<Event>, k: nat)
    requires k < |events|
    ensures Run(s, events[k..]) == Run(Next(s, events[k]), events[k + 1..])
  {
    hide Next;
    assert events[k..][0] == events[k] && events[k..][1..] == events[k + 1..];
  }

  /** The first call is about to record success; the second has not looked yet. */
  const MIDWAY := State(
    World(Store(map["op" := Operation(UPLOAD, Some("chat"), Some("doc"))],
                map["doc" := Document("notes.txt", Indexing, 0)], {}, {"chat"}),
          map["doc" := ForOperation("op")], {}, {}, {}, ["doc"]),
    map[1 := Task(FIRST, MarkReady("doc", 3)), 2 := Task(FIRST, LookUp)])

  const STARTED := State(World(Store(map[], map[], {}, {"chat"}), map[], {}, {}, {}, []),
                         map[1 := Task(FIRST, LookUp), 2 := Task(FIRST, LookUp)])

  lemma Started()
    ensures Next(Next(Next(INITIAL, RACE[0]), RACE[1]), RACE[2]) == STARTED
  {
  }

  /** The first call has claimed the operation. */
  const CLAIMED := State(
    World(Store(map["op" := Operation(UPLOAD, Some("chat"), Some("doc"))],
                map["doc" := Document("notes.txt", Uploading, 0)], {}, {"chat"}),
          map["doc" := ForOperation("op")], {}, {}, {}, []),
    map[1 := Task(FIRST, Start("doc")), 2 := Task(FIRST, LookUp)])

  lemma StartedToClaimed()
    ensures Next(Next(STARTED, RACE[3]), RACE[4]) == CLAIMED
  {
    var s1 := Next(STARTED, Advance(1, GO));
    assert s1.tasks == map[1 := Task(FIRST, ClaimOrCreate), 2 := Task(FIRST, LookUp)];
  }

  lemma ClaimedToMidway()
    ensures Next(Next(CLAIMED, RACE[5]), RACE[6]) == MIDWAY
  {
    var s1 := Next(CLAIMED, Advance(1, GO));
    assert s1.tasks == map[1 := Task(FIRST, Index("doc")), 2 := Task(FIRST, LookUp)];
  }

  lemma RaceToMidway()
    ensures Run(INITIAL, RACE[..7]) == MIDWAY
  {
    hide Run, Next;
    Started();
    StartedToClaimed();
    ClaimedToMidway();
    SevenSteps(INITIAL, RACE[..7]);
  }

  lemma SevenSteps(s: State, events: seq<Event>)
    requires |events| == 7
    ensures Run(s, events) == Next(Next(Next(Next(Next(Next(Next(s, events[0]), events[1]), events[2]), events[3]), events[4]),
                                        events[5]), events[6])
  {
    hide Next;
    var s1 := Next(s, events[0]);
    var s2 := Next(s1, events[1]);
    var s3 := Next(s2, events[2]);
    var s4 := Next(s3, events[3]);
    var s5 := Next(s4, events[4]);
    var s6 := Next(s5, events[5]);
    assert events[0..] == events && events[7..] == [];
    RunStep(s, events, 0);
    RunStep(s1, events, 1);
    RunStep(s2, events, 2);
    RunStep(s3, events, 3);
    RunStep(s4, events, 4);
    RunStep(s5, events, 5);
    RunStep(s6, events, 6);
  }

  /** The rest of the race: both calls advance in turn. */
  function RaceEnd(): State {
    Next(Next(Next(Next(Next(MIDWAY, Advance(2, GO)), Advance(2, GO)), Advance(1, GO)), Advance(2, GO)), Advance(1, GO))
  }

  lemma RaceFromMidway()
    ensures Run(MIDWAY, RACE[7..]) == RaceEnd()
  {
    hide Next;
    var s8 := Next(MIDWAY, Advance(2, GO));
    var s9 := Next(s8, Advance(2, GO));
    var s10 := Next(s9, Advance(1, GO));
    var s11 := Next(s10, Advance(2, GO));
    RunStep(MIDWAY, RACE, 7);
    RunStep(s8, RACE, 8);
    RunStep(s9, RACE, 9);
    RunStep(s10, RACE, 10);
    RunStep(s11, RACE, 11);
  }

  /** Across processes, where the guard does not reach, a normal return does not imply Ready. */
  lemma UnguardedReturnMayNotBeReady()
    ensures var s := Run(INITIAL, RACE);
            && 1 in s.tasks && s.tasks[1].pc == Returned("doc")
            && "doc" in s.world.store.documents
            && s.world.store.documents["doc"].status == Indexing
  {
    hide Run;
    RaceToMidway();
    assert RACE == RACE[..7] + RACE[7..];
    RunConcat(INITIAL, RACE[..7], RACE[7..]);
    RaceFromMidway();
    var s8 := Next(MIDWAY, Advance(2, GO));
    assert s8.tasks[2].pc == Read("doc");
    var s9 := Next(s8, Advance(2, GO));
    assert s9.tasks[2].pc == Start("doc");
    var s10 := Next(s9, Advance(1, GO));
    assert s10.tasks[1].pc == Link("doc");
  }

  const FOUR := Choice("doc", Some(4), true)

  /** From midway the second call gets as far as the indexer and is told four chunks; then the first records three, and
      returns. */
  const RECOUNT: seq<Event> := [Advance(2, GO), Advance(2, GO), Advance(2, GO), Advance(2, FOUR), Advance(1, GO), Advance(1, GO)]

  /** Both have been told. */
  const BOTH_INDEXED := State(
    World(Store(map["op" := Operation(UPLOAD, Some("chat"), Some("doc"))],
                map["doc" := Document("notes.txt", Indexing, 0)], {}, {"chat"}),
          map["doc" := ForOperation("op")], {}, {}, {}, ["doc", "doc"]),
    map[1 := Task(FIRST, MarkReady("doc", 3)), 2 := Task(FIRST, MarkReady("doc", 4))])

  lemma BothAreTold()
    ensures Run(MIDWAY, RECOUNT[..4]) == BOTH_INDEXED
  {
    var events := RECOUNT[..4];
    var s1 := Next(MIDWAY, RECOUNT[0]);
    assert s1.tasks == map[1 := Task(FIRST, MarkReady("doc", 3)), 2 := Task(FIRST, Read("doc"))];
    var s2 := Next(s1, RECOUNT[1]);
    assert s2.tasks == map[1 := Task(FIRST, MarkReady("doc", 3)), 2 := Task(FIRST, Start("doc"))];
    var s3 := Next(s2, RECOUNT[2]);
    assert s3.tasks == map[1 := Task(FIRST, MarkReady("doc", 3)), 2 := Task(FIRST, Index("doc"))];
    assert Next(s3, RECOUNT[3]) == BOTH_INDEXED;
    hide Next;
    assert events[0..] == events && events[4..] == [];
    RunStep(MIDWAY, events, 0);
    RunStep(s1, events, 1);
    RunStep(s2, events, 2);
    RunStep(s3, events, 3);
  }

  lemma FirstReturns()
    ensures var s := Next(Next(BOTH_INDEXED, Advance(1, GO)), Advance(1, GO));
            && 1 in s.tasks && s.tasks[1].pc == Returned("doc")
            && RecordIs(s.world, "doc", Document("notes.txt", Ready, 3)) && Safe(s, "doc")
            && RecordIs(Next(s, Advance(2, FOUR)).world, "doc", Document("notes.txt", Ready, 4))
  {
    var s1 := Next(BOTH_INDEXED, Advance(1, GO));
    assert s1.tasks == map[1 := Task(FIRST, Link("doc")), 2 := Task(FIRST, MarkReady("doc", 4))];
    var s2 := Next(s1, Advance(1, GO));
    assert s2.tasks == map[1 := Task(FIRST, Returned("doc")), 2 := Task(FIRST, MarkReady("doc", 4))];
  }

  /** Two processes: a call has returned, its document is Ready with three chunks and nobody is about to take that away; yet
      the next step of the other call records four. */
  lemma ReadyMayBeRecounted()
    ensures var s := Run(INITIAL, RACE[..7] + RECOUNT);
            && 1 in s.tasks && s.tasks[1].pc == Returned("doc")
            && RecordIs(s.world, "doc", Document("notes.txt", Ready, 3)) && Safe(s, "doc")
            && RecordIs(Next(s, Advance(2, FOUR)).world, "doc", Document("notes.txt", Ready, 4))
  {
    hide Run, Next, RecordIs, Safe;
    RaceToMidway();
    RunConcat(INITIAL, RACE[..7], RECOUNT);
    BothAreTold();
    assert RECOUNT == RECOUNT[..4] + [Advance(1, GO), Advance(1, GO)];
    RunConcat(MIDWAY, RECOUNT[..4], [Advance(1, GO), Advance(1, GO)]);
    TwoEvents(BOTH_INDEXED, Advance(1, GO), Advance(1, GO));
    FirstReturns();
  }

  // ---------------------------------------------------------------- one caller at a time

  /** n steps of one call with nothing in between. */
  function Alone(w: World, tid: nat, call: Call, choice: Choice, n: nat): (World, Pc) {
    if n == 0 then (w, LookUp)
    else
      var (w', pc) := Alone(w, tid, call, choice, n - 1);
      StepCall(w', tid, call, pc, choice)
  }

  lemma OneMore(w: World, tid: nat, call: Call, choice: Choice, n: nat)
    ensures var (w', pc) := Alone(w, tid, call, choice, n);
            Alone(w, tid, call, choice, n + 1) == StepCall(w', tid, call, pc, choice)
  {
    hide StepCall;
  }

  lemma {:induction false} AloneKeeps(w: World, tid: nat, call: Call, choice: Choice, n: nat)
    requires Bound(w)
    ensures var (w', pc) := Alone(w, tid, call, choice, n);
            Bound(w') && Grows(w, w') && OnItsDocument(w', tid, Task(call, pc))
  {
    hide Bound, Grows, StepCall;
    if n == 0 {
      GrowsReflexive(w);
    } else {
      AloneKeeps(w, tid, call, choice, n - 1);
      var (w', pc) := Alone(w, tid, call, choice, n - 1);
      StepKeeps(w', tid, call, pc, choice);
      GrowsTransitive(w, w', StepCall(w', tid, call, pc, choice).0);
    }
  }

  /** The call repeats an upload of its chat whose record still exists. */
  predicate Resumes(s: Store, call: Call, doc: string) {
    && call.Keyed()
    && call.op in s.operations
    && s.operations[call.op] == Operation(UPLOAD, Some(call.chat), Some(doc))
    && call.chat in s.chats
    && doc in s.documents
  }

  /** The one record that an attempt to index changes, and how: a failure says so, a success is Ready with the number of
      chunks, and a success that could not be recorded leaves it Indexing.  Its name stays, and without a success its count. */
  ghost predicate Recorded(before: map<string, Document>, after: map<string, Document>, doc: string, choice: Choice) {
    after == if doc !in before then before
             else before[doc := Document(before[doc].fileName,
                                         if choice.indexed.None? then Failed else if choice.commits then Ready else Indexing,
                                         if choice.indexed.Some? && choice.commits then choice.indexed.value
                                         else before[doc].chunkCount)]
  }

  class ChatService {
    var world: World

    constructor ()
      ensures world == INITIAL.world
    {
      world := INITIAL.world;
    }

    /** index_document_file as it is written: the reads and writes of one uninterrupted call.  It
        takes exactly the steps of the protocol above. */
    method IndexDocumentFile(tid: nat, call: Call, choice: Choice) returns (result: Option<string>, ghost steps: nat)
      requires Bound(world)
      modifies this
      ensures Alone(old(world), tid, call, choice, steps)
              == (world, if result.Some? then Returned(result.value) else Raised)
      ensures Bound(world) && Grows(old(world), world)
      ensures result.Some? ==> ReadyAndLinked(world, call.chat, result.value)
      ensures result.Some? && call.Keyed() ==>
                && call.op in world.store.operations
                && world.store.operations[call.op] == Operation(UPLOAD, Some(call.chat), result)
      // the retry of a finished upload returns the same document without indexing
      ensures forall d :: Resumes(old(world.store), call, d) && old(world.store.documents)[d].status == Ready ==>
                result == Some(d) && world.indexerCalls == old(world.indexerCalls)
      // the retry of an unfinished one completes it, however the earlier call was interrupted
      ensures forall d :: Resumes(old(world.store), call, d) && choice.indexed.Some? && choice.commits ==>
                result == Some(d)
      ensures world.store.chats == old(world.store.chats)
      // what it leaves in the tables, when the operation id is taken by somebody else, known, or new
      ensures Foreign(old(world.store), call) ==> result == None && world == old(world)
      ensures call.op != "" && call.op in old(world.store.operations) && !Foreign(old(world.store), call) ==>
                var row := old(world.store.operations)[call.op];
                var doc := if row.resultRef.Some? then row.resultRef.value else "";
                && world.store.operations == old(world.store.operations)
                && (doc !in old(world.store.documents) ==> result == None && world == old(world))
                && (doc in old(world.store.documents) && old(world.store.documents)[doc].status == Ready ==>
                      && world.store.documents == old(world.store.documents) && world.indexerCalls == old(world.indexerCalls)
                      && world.store.links == old(world.store.links) + (if call.chat in old(world.store.chats) then {(call.chat, doc)} else {})
                      && result == if call.chat in old(world.store.chats) then Some(doc) else None)
                && (doc in old(world.store.documents) && old(world.store.documents)[doc].status != Ready ==>
                      && Recorded(old(world.store.documents), world.store.documents, doc, choice)
                      && world.store.links == old(world.store.links) + (if call.chat in old(world.store.chats) then {(call.chat, doc)} else {})
                      && world.indexerCalls == old(world.indexerCalls) + [doc]
                      && result == if choice.indexed.Some? && choice.commits && call.chat in old(world.store.chats) then Some(doc) else None)
      ensures call.op == "" || call.op !in old(world.store.operations) ==>
                var doc := choice.freshId;
                if doc == "" || doc in old(world.store.documents) || doc in old(world.owner) then result == None && world == old(world)
                else
                  && world.store.operations == (if call.op == "" then old(world.store.operations)
                                                else old(world.store.operations)[call.op := Operation("document_upload", Some(call.chat), Some(doc))])
                  && Recorded(old(world.store.documents)[doc := Document(call.fileName, Uploading, 0)], world.store.documents, doc, choice)
                  && world.store.links == old(world.store.links) + (if call.chat in old(world.store.chats) then {(call.chat, doc)} else {})
                  && world.indexerCalls == old(world.indexerCalls) + [doc]
                  && result == if choice.indexed.Some? && choice.commits && call.chat in old(world.store.chats) then Some(doc) else None
    {
      hide Bound, Grows, OnItsDocument;
      var doc: string;
      var known := false;
      result, steps := None, 1;
      if call.Keyed() && call.op in world.store.operations {
        var row := world.store.operations[call.op];
        if row.kind != UPLOAD || row.scope != Some(call.chat) {
          AloneKeeps(old(world), tid, call, choice, steps);
          return;
        }
        doc := if row.resultRef.Some? then row.resultRef.value else "";
        known := true;
        assert Alone(old(world), tid, call, choice, 1) == (world, Read(doc));
      } else {
        // uuid4, then the claim or the plain insert
        doc := choice.freshId;
        assert Alone(old(world), tid, call, choice, 1) == (world, ClaimOrCreate);
        steps := 2;
        if doc in world.store.documents || doc in world.owner || doc == "" {
          AloneKeeps(old(world), tid, call, choice, steps);
          return;
        }
        if call.Keyed() {
          world := world.(store := ClaimUpload(world.store, call.op, call.chat, doc, call.fileName).store,
                          owner := world.owner[doc := ForOperation(call.op)]);
        } else {
          world := world.(store := world.store.(documents :=
                            world.store.documents[doc := Document(call.fileName, Uploading, 0)]),
                          owner := world.owner[doc := ForCall(tid)]);
        }
        assert Alone(old(world), tid, call, choice, 2) == (world, Start(doc));
      }
      if known {
        steps := 2;
        if doc !in world.store.documents {
          AloneKeeps(old(world), tid, call, choice, steps);
          return;
        }
        if world.store.documents[doc].status == Ready {
          result, steps := Finish(old(world), tid, call, choice, doc, steps);
          return;
        }
      }
      result, steps := IndexAndRecord(old(world), tid, call, choice, doc, steps);
    }

    /** From the Indexing mark to the end: the indexer's answer decides the status that is recorded. */
    method IndexAndRecord(ghost w0: World, tid: nat, call: Call, choice: Choice, doc: string, ghost n: nat)
        returns (result: Option<string>, ghost steps: nat)
      requires Bound(w0) && Alone(w0, tid, call, choice, n) == (world, Start(doc))
      modifies this
      ensures Alone(w0, tid, call, choice, steps) == (world, if result.Some? then Returned(result.value) else Raised)
      ensures Bound(world) && Grows(w0, world)
      ensures result.Some? && call.Keyed() ==>
                && call.op in world.store.operations
                && world.store.operations[call.op] == Operation(UPLOAD, Some(call.chat), result)
      ensures result == if choice.indexed.Some? && choice.commits && call.chat in old(world.store.chats)
                           && doc in old(world.store.documents) then Some(doc) else None
      ensures result.Some? ==> ReadyAndLinked(world, call.chat, doc)
      ensures choice.indexed.None? && doc in old(world.store.documents) ==>
                doc in world.store.documents && world.store.documents[doc].status == Failed
      ensures result.None? && call.chat in old(world.store.chats) && doc in old(world.store.documents) ==>
                (call.chat, doc) in world.store.links
      ensures Recorded(old(world.store.documents), world.store.documents, doc, choice)
      ensures world.indexerCalls == old(world.indexerCalls) + [doc]
      ensures world.store.operations == old(world.store.operations) && world.store.chats == old(world.store.chats)
      ensures world.store.links == old(world.store.links) +
                                   if call.chat in old(world.store.chats) && doc in old(world.store.documents) then {(call.chat, doc)} else {}
    {
      hide Bound, Grows, OnItsDocument, Alone;
      OneMore(w0, tid, call, choice, n);
      world := WithStatus(world, doc, Indexing, None);
      OneMore(w0, tid, call, choice, n + 1);
      world := world.(indexerCalls := world.indexerCalls + [doc]);
      steps := n + 2;
      OneMore(w0, tid, call, choice, steps);
      if choice.indexed.None? {
        assert Alone(w0, tid, call, choice, steps) == (world, MarkFailed(doc));
        world := WithStatus(world, doc, Failed, None);
        steps := LinkAndRaise(w0, tid, call, choice, doc, steps + 1);
        return None, steps;
      }
      assert Alone(w0, tid, call, choice, steps) == (world, MarkReady(doc, choice.indexed.value));
      if !choice.commits {
        steps := LinkAndRaise(w0, tid, call, choice, doc, steps + 1);
        return None, steps;
      }
      world := WithStatus(world, doc, Ready, choice.indexed);
      result, steps := Finish(w0, tid, call, choice, doc, steps + 1);
    }

    /** The association that ends a successful call; it fails when the chat or the record is gone. */
    method Finish(ghost w0: World, tid: nat, call: Call, choice: Choice, doc: string, ghost n: nat)
        returns (result: Option<string>, ghost steps: nat)
      requires Bound(w0) && Alone(w0, tid, call, choice, n) == (world, Link(doc))
      modifies this
      ensures steps == n + 1
      ensures Alone(w0, tid, call, choice, steps) == (world, if result.Some? then Returned(result.value) else Raised)
      ensures Bound(world) && Grows(w0, world)
      ensures result.Some? && call.Keyed() ==>
                && call.op in world.store.operations
                && world.store.operations[call.op] == Operation(UPLOAD, Some(call.chat), result)
      ensures result == if call.chat in old(world.store.chats) && doc in old(world.store.documents) then Some(doc) else None
      ensures result.Some? ==> (call.chat, doc) in world.store.links
      ensures world.store.documents == old(world.store.documents) && world.indexerCalls == old(world.indexerCalls)
      ensures world.store.operations == old(world.store.operations) && world.store.chats == old(world.store.chats)
      ensures world.store.links == old(world.store.links) +
                                   if call.chat in old(world.store.chats) && doc in old(world.store.documents) then {(call.chat, doc)} else {}
    {
      hide Bound, Grows;
      var linked := WithLink(world, call.chat, doc);
      if linked.Some? {
        world := linked.value;
        result := Some(doc);
      } else {
        result := None;
      }
      steps := n + 1;
      AloneKeeps(w0, tid, call, choice, steps);
    }

    /** The association on the way out of a failed call. */
    method LinkAndRaise(ghost w0: World, tid: nat, call: Call, choice: Choice, doc: string, ghost n: nat)
        returns (ghost steps: nat)
      requires Bound(w0) && Alone(w0, tid, call, choice, n) == (world, LinkFailed(doc))
      modifies this
      ensures steps == n + 1
      ensures Alone(w0, tid, call, choice, steps) == (world, Raised)
      ensures Bound(world) && Grows(w0, world)
      ensures world.store.documents == old(world.store.documents) && world.indexerCalls == old(world.indexerCalls)
      ensures world.store.operations == old(world.store.operations) && world.store.chats == old(world.store.chats)
      ensures world.store.links == old(world.store.links) +
                                   if call.chat in old(world.store.chats) && doc in old(world.store.documents) then {(call.chat, doc)} else {}
    {
      hide Bound, Grows, OnItsDocument;
      var linked := WithLink(world, call.chat, doc);
      if linked.Some? {
        world := linked.value;
      }
      steps := n + 1;
      AloneKeeps(w0, tid, call, choice, steps);
    }
  }
}
