# Collaboration server: a model and its proofs

A Dafny model of how the collaborative editor keeps one document the same for
everyone and keeps it safe: browsers on sockets, rooms on several server instances, a
bus between the instances, a writer per room, and the store behind them.

A document is a finite set of operations. Applying or merging updates is set union; a
step 1 says what its sender has, a step 2 carries what that lacks, and the update
listener of a document fires exactly when a transaction added something and carries
only what is new. This is the one thing assumed about Yjs; everything else is the
repository's own logic.

Code that changes fields in place is a class here. Each method is proved to take the
class's abstract value where a specification function says, and the properties below
are lemmas about those functions over whole runs.

| module (file) | what it models |
|---|---|
| `Crdt` (Crdt.dfy) | documents as sets of operations |
| `Room` (Room.dfy) | recording, publishing and fan-out of updates in one room |
| `Browser` (Browser.dfy) | the document half of a browser tab |
| `Session` (Session.dfy) | users, sockets and rooms: the two-way sync session |
| `Writer` (Writer.dfy) | batching, retry, close and compaction trigger of a writer |
| `StoreContract`, `MemoryStore`, `PostgresStore`, `StoreEquivalence` (Stores.dfy) | both stores, one operation at a time |
| `Transactions` (Transactions.dfy) | the SQL statements of several instances interleaved |
| `LateCommits` (LateCommits.dfy) | what becomes of an append that commits after a compaction read the log |
| `InterruptedLoads` (InterruptedLoads.dfy) | what a load misses when compactions commit between its statements |
| `LogLength` (LogLength.dfy) | writers' row counts against the log they share |
| `Cluster` (Cluster.dfy) | instances, channel, writers and store; durability |
| `Refinement` (Refinement.dfy) | the cluster on the real tables refines the cluster with one store |
| `Convergence` (Convergence.dfy) | agreement between instances in careful runs |
| `Openings` (Openings.dfy) | what a room always and possibly ends up with, from any state, while others open, close and die |
| `Outcomes` (Outcomes.dfy) | schedules that reach each of these outcomes, hence the exact conditions |
| `System` (System.dfy) | session and cluster moving together |
| `Termination` (Termination.dfy) | messages run out |
| `Registry` (Registry.dfy) | room lifetime across shared loads and leaving sockets |
| `Connection` (Connection.dfy) | one socket's frames: limits, authentication, queue |
| `RateLimit` (RateLimit.dfy) | the token bucket |
| `Backpressure` (Backpressure.dfy) | outbound buffer policy |
| `Provider` (Provider.dfy) | the browser's reconnect machine |
| `Bytes`, `Protocol`, `BusCodec`, `RedisBus` (Framing.dfy) | frames, bus frames, listener map and echo filter |

## What the proofs found

The model keeps the code as it is. Where the code does less than its comments say, what it
does is proved instead: for the first three points below with the exact condition, and for the
first four with a run in which it falls short.

- **The store is read before the subscription.** The comment at
  `apps/server/src/rooms/registry.ts:71` says an edit made meanwhile is applied on top of the
  read; the read at line 66 has already finished by then, and the state request at line 80 is
  what closes the gap. It does so only while some other room that has the edit stays open:
  a room that closes leaves with its last batch unflushed. `Convergence.StaleReopen` is such
  a run. A careful run, in the convergence theorems, is one in which a room closes (or its
  instance dies) only when every other room is open and its state request has been handled
  here, and the store is read only when it holds everything recorded or some instance has the
  document open.
  - For runs that are not careful, `Outcomes.AlwaysIff` and `Outcomes.SometimesIff` say, from
    any state and with any number of openings under way, what an instance ends up with in every
    and in some order of what follows; `Outcomes.DepartureAlwaysHarmlessIff` says when a close
    or a crash is harmless in every order; and `Convergence.ColdOpenConvergesIffStoreSuffices`
    covers a document nobody has open. `Outcomes.ClosingInTheWindowCanLose` is a run in which a
    close is not harmless.
  - The order matters for an operation that only one other instance has, one still opening that
    may yet share it, and for no other (`Outcomes.OrderMattersIff`); `Outcomes.OrderDecides` is a
    run that gets there.
- **A row's number is taken when it is inserted, not when it commits.** A compaction can read
  the log up to a cutoff above a row that has not committed yet, although the comment at
  `apps/server/src/persistence/postgres-store.ts:101` says other instances' updates survive.
  If that row commits before the compaction's delete, it is deleted unread and gone for good;
  if it commits later, it sits at or below the snapshot, hidden from every load until another
  compaction has gone through. `LateCommits.LateCommitFate` tells the two apart for every
  interleaving, `LateCommits.CompactionCanLoseACommit` and
  `LateCommits.CompactionCanHideACommit` are runs of each kind, and
  `LateCommits.NothingElseVanishes` shows that there is no third.
- **A load is two statements.** A compaction that commits between them takes the rows it
  folded: `InterruptedLoads.LoadMissesExactly` gives exactly what is missed in every run,
  hidden and deleted rows included; `InterruptedLoads.LoadReturnsEverythingIff` is the exact
  condition where no append undercuts a compaction, and `InterruptedLoads.LoadCanMissACommit` a
  run that misses something.
- **A crash can take edits older than `debounceMs`.** The comment at
  `apps/server/src/persistence/writer.ts:18` names that bound; it holds for a writer with
  nothing queued or being appended (`Writer.CalmWriterLosesNothingOlder`), and not while an
  append is slow (`Writer.HeldCanBeOlder`).
- **Presence takes slots of the 32-frame queue** while a document loads, so it can displace
  document frames: `Connection.QueueKeepsIffRoom`. The room's step 1 repairs what was
  displaced (`Session.LinkEntered`).
- **A token fetch that fails after `destroy` still arms the reconnect timer.**
  `Provider.DestroyedArmsIffFetchFails` says when, `Provider.DestroyedCanArm` is such a run;
  it opens nothing (`Provider.DestroyedOpensNothing`).

## Model

| member | source | states |
|---|---|---|
| `System.EveryoneConverges` | apps/server/src/rooms/room.ts:91-177 | End to end: in every careful run of users, sockets, rooms, bus, writers, store and crashing instances together, once nothing is in flight every connected user on every instance holds exactly the set of operations any room ever recorded |
| `System.NextKeepsSane` | apps/server/src/rooms/room.ts:60-168 | Every event of the combined system keeps the coupling of both views of each room, the session links, durability and the placing of cursors, with no condition on the run |
| `Termination.MessageProcessingTerminates` | apps/server/src/rooms/room.ts:91-125 | From any state that any run reaches, careful or not, there is no infinite schedule of deliveries, entries into a room, departures and steps of openings that have read the store, whatever the order; a closing room counts among the departures |
| `Termination.DeliveryDescends` | apps/web/src/collab/provider.ts:190-213 | Handing over any frame or bus message lowers the pair (operations still missing somewhere, ranked messages in flight): state request above update, step 1 above step 2 and update |
| `Termination.ProgressDescends` | apps/server/src/rooms/registry.ts:64-88 | Each step of an opening, of a join or of a leave, and each delivery lowers the triple (steps of opening to come, operations still missing somewhere, ranked messages in flight) |
| `Termination.DeliveriesEndInAgreement` | apps/server/src/rooms/room.ts:111-168 | Stop a careful run anywhere, deliver what is left in any order: with nothing left to deliver, every connected user has everything recorded |
| `Session.NothingGoesMissing` | apps/server/src/ws/connection.ts:97-101 | In every reachable state of a connected user, each operation of the room is in the user's document, in flight to it, or an unread step 1 of the user will fetch it; and the same the other way round with the room's step 1, despite the 32-frame cap and earlier lost sockets |
| `Session.SessionConverges` | apps/web/src/collab/provider.ts:190-222 | With nothing in flight or queued on the connection the user's document equals the room's, after any number of offline periods |
| `Session.PeersConverge` | apps/server/src/rooms/room.ts:161-177 | Any two connected, silent users of one room hold the same document |
| `Session.LinkEntered` | apps/server/src/rooms/room.ts:60-67 | The step 1 the room sends on add makes good whatever the cap dropped while the document loaded |
| `Session.LinkStep1Answered` | apps/server/src/rooms/room.ts:91-104 | The reply to a step 1 carries enough that everything the room has is then with the user or on its way |
| `Session.LinkQueues` | apps/server/src/ws/connection.ts:97-101 | A frame queued or dropped while loading keeps the link: the user's own step 1 stays at the head of what is unread |
| `Session.LinkSkips` | apps/server/src/ws/connection.ts:112-114 | A presence frame refused by its own budget leaves the link as it was and the socket open |
| `Session.CrashKeepsInv` | apps/server/src/rooms/room.ts:132-141 | An instance that dies takes its rooms' clients and its ends of the sockets along and keeps the session invariant of everybody else |
| `Session.ApplyKeepsInv` | apps/server/src/rooms/room.ts:161-177 | Applying an update at a room and fanning it out keeps the link of every client of that room and leaves other rooms' clients alone |
| `Session.NextKeepsInv` | apps/server/src/ws/connection.ts:149-171 | Every event (edit, connect, read, refuse, enter, drain, close, leave, bus message, reopening) keeps the invariant of the whole session system |
| `Browser.CollabDocument.OnOpen` | apps/web/src/collab/provider.ts:130-144 | An opened socket is sent the token first and then a step 1 with what the tab has |
| `Browser.CollabDocument.OnFrame` | apps/web/src/collab/provider.ts:190-202 | A step 1 is answered with what its sender lacks; step 2 and update are merged and not echoed |
| `Browser.CollabDocument.OnDocUpdate` | apps/web/src/collab/provider.ts:215-222 | Only updates that did not come from the server go up, and only on an open socket |
| `Browser.CollabDocument.SendFrame` | apps/web/src/collab/provider.ts:243-246 | Nothing is sent unless the socket is open |
| `Browser.SessionUsersAreTabs` | apps/web/src/collab/provider.ts:130-222 | Connecting, editing and reading in the session system are what the tab's methods do |
| `Browser.HandshakeEqualises` | apps/server/src/rooms/room.ts:60-104 | The two crossed handshakes leave tab and room with the union of their documents; each is sent exactly what it lacked and the room records exactly what the tab brought |
| `Room.Room.constructor` | apps/server/src/rooms/room.ts:36-49 | A new room is empty and has called nothing |
| `Room.Room.HydrateFrom` | apps/server/src/rooms/room.ts:56-58 | Stored state is merged with origin HYDRATE: nothing recorded or published |
| `Room.Room.Add` | apps/server/src/rooms/room.ts:60-67 | The client joins the set and is sent a step 1 of the room's document; nothing else changes |
| `Room.Room.Remove` | apps/server/src/rooms/room.ts:80-82 | The client leaves the set; document and logs unchanged |
| `Room.Room.HandleSync` | apps/server/src/rooms/room.ts:91-104 | A step 1 is answered to that client alone; step 2 and update are applied with the client as origin |
| `Room.Room.Receive` | apps/server/src/rooms/room.ts:111-125 | A bus update is applied as remote; a state request is answered with the whole document if and only if there are clients |
| `Room.Room.RequestState` | apps/server/src/rooms/room.ts:128-130 | Publishes one empty state request and nothing else |
| `Room.Room.ApplyUpdate` | apps/server/src/rooms/room.ts:161-177 | The update listener fires only for something new and sees only what is new |
| `Room.Room.OnDocUpdate` | apps/server/src/rooms/room.ts:161-177 | Records and publishes a local update once, then sends it to every client but the origin, in order |
| `Room.FanOutReaches` | apps/server/src/rooms/room.ts:174-176 | Every client of the room but the origin gets the update exactly once; the origin and outsiders get nothing |
| `Room.FanOutStaysInRoom` | apps/server/src/rooms/room.ts:174-176 | Fan-out sends that one frame to clients of the room only |
| `Room.DistinctWithout` | apps/server/src/rooms/room.ts:80-81 | Removing a client keeps the others, once each, and shrinks the set by one exactly if it was there |
| `Room.RecordedExactlyWhenLocalAndNew` | apps/server/src/rooms/room.ts:161-168 | What is recorded and published is exactly what a local client newly brought; hydrated and remote updates never are; recorded operations are disjoint from what the room had |
| `Room.BusTrafficIsNeverRecorded` | apps/server/src/rooms/room.ts:111-125 | No bus message is ever recorded or, but for the answer to a state request, published |
| `Registry.RoomLifetime` | apps/server/src/rooms/registry.ts:27-62 | For every interleaving of joins, loads, failures, closes and leaves: one load and one live room per document at most and never both; a room with a client is the one both the registry and the bus listener point at; a registered room has a client; every added client is removed exactly once, also if its socket closed during the load; a client that was removed has a socket that is not open; and every open client waits for the load of its document or is in the room registered for it |
| `Registry.ClosedRoomsStayEmpty` | apps/server/src/rooms/registry.ts:33-41 | A closed room stays closed and never gains a client, in any continuation of any run |
| `Registry.OpenClientsKeepTheirRoom` | apps/server/src/ws/connection.ts:162-168 | Over every run, an open client whose join has resumed and gone on is a member of the room registered for its document, and the bus listener is that room |
| `Registry.KeptIffOpen` | apps/server/src/ws/connection.ts:162-168 | A join that resumes keeps its place in the room if and only if its socket is still open |
| `Registry.StepKeepsInv` | apps/server/src/rooms/registry.ts:27-88 | Every step of join, load, leave and socket close keeps the lifetime invariant |
| `Registry.RoomRegistry.constructor` | apps/server/src/rooms/registry.ts:12-21 | A new registry has no rooms, loads or listeners |
| `Registry.RoomRegistry.Join` | apps/server/src/rooms/registry.ts:27-62 | Adds to the open room, or waits on the load in flight, or starts the one load |
| `Registry.RoomRegistry.Add` | apps/server/src/rooms/room.ts:60-61 | The client enters the room's client set |
| `Registry.RoomRegistry.StoreAnswered` | apps/server/src/rooms/registry.ts:66-73 | Makes the room and points the bus listener at it; waiting joins unchanged |
| `Registry.RoomRegistry.StoreFailed` | apps/server/src/ws/connection.ts:151-160 | A rejected load leaves no load behind and closes the socket of every join that waited on it |
| `Registry.RoomRegistry.Refuse` | apps/server/src/ws/connection.ts:158-159 | Each waiting join closes its socket |
| `Registry.RoomRegistry.Loaded` | apps/server/src/rooms/registry.ts:74-87 | The room enters the map, the load leaves it, and every waiting join adds its client |
| `Registry.RoomRegistry.AddAll` | apps/server/src/rooms/registry.ts:27-31 | The joins that awaited one load add their clients in turn |
| `Registry.RoomRegistry.JoinResumes` | apps/server/src/ws/connection.ts:162-168 | After its await a join keeps the room, or leaves it if the client gave up meanwhile |
| `Registry.RoomRegistry.OnSocketClosed` | apps/server/src/ws/connection.ts:189-196 | A closing socket leaves its room exactly if its join had settled |
| `Registry.RoomRegistry.LeaveRoom` | apps/server/src/rooms/registry.ts:33-38 | The last client out takes the map entry and the listener along |
| `Registry.ConfinedKeepsInv` | apps/server/src/rooms/registry.ts:13-15 | A step confined to one document's slots, load, room and clients keeps the invariant of every other document |
| `Registry.LoadDoneEffect` | apps/server/src/rooms/registry.ts:74-76 | Every client that waited, and no other, is in the room, added once |
| `Connection.HandledInOrder` | apps/server/src/ws/connection.ts:83-104 | Over every run: what has been dispatched is the first 32 frames accepted while loading followed by every frame accepted since, in order of arrival; before joining nothing is |
| `Connection.OpenIff` | apps/server/src/ws/connection.ts:106-126 | Over every run the socket is open if and only if nothing outside closed it, the first frame was a token that verifies, and every document frame since was within the document budget: a client that lost an edit does not stay on |
| `Connection.OpenMeansNothingRefused` | apps/server/src/ws/connection.ts:117-125 | While the socket is open no verdict of the document budget has gone against it |
| `Connection.PresenceNeverCloses` | apps/server/src/ws/connection.ts:112-115 | No presence frame of an authenticated client closes its socket |
| `Connection.StateFollowsEvents` | apps/server/src/ws/connection.ts:30-42 | Over every run who the client is, whether it has gone and what both budgets hold follow from the frames: each budget starts at two seconds of its rate and is charged with the frames of its kind alone |
| `Connection.AcceptedIffAffordable` | apps/server/src/ws/connection.ts:112-118 | A frame is let through if and only if its budget can pay one token for presence, and for anything else its size or the floor if it is smaller |
| `Connection.SmallFramesAreLimited` | apps/server/src/ws/connection.ts:116-118 | In any window that ends with a document frame let through, the frames let through, however small, number at most two seconds of bytes and what the window earned, in units of the floor |
| `Connection.JoinedIff` | apps/server/src/ws/connection.ts:149-168 | The join went through if and only if its room was ready while the socket was open |
| `Connection.UnauthenticatedCostsATimer` | apps/server/src/ws/connection.ts:50-58 | Until a token verifies nothing is queued or handled; the closing timer runs only for an unauthenticated socket that has not gone, and no such socket stays open without it |
| `Connection.PresenceNeverCostsEdits` | apps/server/src/ws/connection.ts:112-126 | Removing every presence frame from a run changes no verdict of the document budget |
| `Connection.QueueKeepsIffRoom` | apps/server/src/ws/connection.ts:97-101 | Over every run, of the frames accepted while loading, presence included, the n-th is handled on joining, in the n-th place, if and only if n is below 32 |
| `Connection.Connection.constructor` | apps/server/src/ws/connection.ts:24-48 | A new connection is unauthenticated, both budgets full at twice the rate |
| `Connection.Connection.OnFrame` | apps/server/src/ws/connection.ts:83-104 | Limits, authentication, queueing and dispatch in that order, with every branch's whole effect on the connection |
| `Connection.Connection.CheckLimits` | apps/server/src/ws/connection.ts:112-126 | Presence is charged one token on its own budget; everything else its size, floored, on the document budget, and overdrawing that closes the socket |
| `Connection.Connection.Authenticate` | apps/server/src/ws/connection.ts:128-147 | A token that verifies sets the user and clears the timer; any other closes the socket |
| `Connection.Connection.OnAuthTimeout` | apps/server/src/ws/connection.ts:55-58 | The timer has run out and the socket is closed |
| `Connection.Connection.Join` | apps/server/src/ws/connection.ts:149-171 | Dispatches the queue in order and empties it, unless the socket has closed |
| `Connection.Connection.Dispatch` | apps/server/src/ws/connection.ts:173-187 | The frame is handed on once |
| `Connection.Connection.OnSocketClosed` | apps/server/src/ws/connection.ts:189-196 | Timer cleared, nothing else handled |
| `RateLimit.TokenBucket.constructor` | apps/server/src/ws/rate-limit.ts:12-17 | A new bucket is full |
| `RateLimit.TokenBucket.TakeTokens` | apps/server/src/ws/rate-limit.ts:20-29 | Refills by the clock up to capacity, then spends the cost if and only if it is there |
| `RateLimit.TokensAreLeastAllowance` | apps/server/src/ws/rate-limit.ts:20-29 | The bucket is exact: what a request finds is the minimum, over every past starting point and the bucket's creation, of capacity plus earnings minus what was accepted since |
| `RateLimit.WindowBound` | apps/server/src/ws/rate-limit.ts:1-7 | No window of any run admits more than capacity plus rate times its length |
| `RateLimit.RefusedIffSomeWindowOverruns` | apps/server/src/ws/rate-limit.ts:19-29 | A request is refused if and only if admitting it would overrun the bound for some window |
| `Backpressure.Client.constructor` | apps/server/src/ws/client.ts:30-33 | A new client has an open socket and nothing buffered |
| `Backpressure.Client.SendFrame` | apps/server/src/ws/client.ts:41-55 | Written, or the socket is closed because the buffer is over hardBytes; never skipped on an open socket |
| `Backpressure.Client.SendPresenceFrame` | apps/server/src/ws/client.ts:61-78 | Written, or counted as dropped because the buffer is over softBytes |
| `Backpressure.Client.CloseSocket` | apps/server/src/ws/client.ts:80-82 | The socket takes nothing more |
| `Backpressure.NoGapOnTheWire` | apps/server/src/ws/client.ts:35-55 | However the buffer drains, the document frames written are a prefix of those offered, and all of them while the socket is open |
| `Backpressure.KeptIffNeverTooFarBehind` | apps/server/src/ws/client.ts:35-55 | Unless somebody closed it, the socket is open and has been given every document frame if and only if none of them found more than hardBytes in the buffer |
| `Backpressure.OpenIff` | apps/server/src/ws/client.ts:41-55 | The socket is open if and only if nobody closed it and no document frame found more than hardBytes in the buffer |
| `Backpressure.PresenceWrittenIffTimely` | apps/server/src/ws/client.ts:57-78 | The presence frames written are exactly those offered on an open socket with at most softBytes in the buffer |
| `Backpressure.BufferAccounts` | apps/server/src/ws/client.ts:44-64 | The buffer holds what was written and has not left |
| `Backpressure.PresenceIsThinnedOnly` | apps/server/src/ws/client.ts:57-78 | The presence frames written are a subsequence of those offered |
| `Backpressure.DropsAreCounted` | apps/server/src/ws/client.ts:25-28 | On an open socket written plus dropped presence is what was offered, and the warning is out exactly if something was dropped |
| `Backpressure.BufferIsBounded` | apps/server/src/ws/client.ts:44-65 | The buffer never exceeds the hard limit and one frame; and when it exceeds softBytes and one frame the last frame written was a document frame |
| `Writer.DocumentWriter.constructor` | apps/server/src/persistence/writer.ts:29-34 | A new writer holds nothing; its row count is what the load reported |
| `Writer.DocumentWriter.RecordUpdate` | apps/server/src/persistence/writer.ts:36-46 | The update is pending; a full batch is flushed at once, otherwise the timer is armed |
| `Writer.DocumentWriter.CloseWriter` | apps/server/src/persistence/writer.ts:48-51 | Closed, and what was pending is queued |
| `Writer.DocumentWriter.OnTimer` | apps/server/src/persistence/writer.ts:72-76 | The timer flushes |
| `Writer.DocumentWriter.Flush` | apps/server/src/persistence/writer.ts:53-66 | Timer cleared, pending moved to the end of the queue as one batch, or nothing if there is none |
| `Writer.DocumentWriter.Schedule` | apps/server/src/persistence/writer.ts:72-76 | Arms the timer unless it is armed or the writer closed |
| `Writer.DocumentWriter.Begin` | apps/server/src/persistence/writer.ts:64-65 | The next batch of the chain is being appended |
| `Writer.DocumentWriter.AppendSucceeded` | apps/server/src/persistence/writer.ts:81-112 | One more row; compaction starts exactly at the threshold |
| `Writer.DocumentWriter.AppendThrew` | apps/server/src/persistence/writer.ts:84-109 | Back to the end of pending with the timer armed, or dropped if the writer is closed |
| `Writer.DocumentWriter.CompactionSettled` | apps/server/src/persistence/writer.ts:114-123 | The count is reset only if the compaction succeeded |
| `Writer.NextMovesHeld` | apps/server/src/persistence/writer.ts:36-124 | For every event, exactly how what the writer owes the store changes |
| `Writer.RecordFlushesIffFull` | apps/server/src/persistence/writer.ts:36-46 | After any run, a record that brings the sizes of the pending updates to maxBatchBytes sends all of them off as one batch; any other record queues nothing and waits with the timer armed |
| `Writer.PendingStaysSmall` | apps/server/src/persistence/writer.ts:40-43 | In a run without failed appends less than a full batch is ever pending |
| `Writer.RecordLeavesSmall` | apps/server/src/persistence/writer.ts:40-43 | After every record, also after failures, nothing or less than a full batch is pending |
| `Writer.WrittenInOrder` | apps/server/src/persistence/writer.ts:60-65 | Over every run, what has been handed to the store, then what is queued, then what is pending is exactly what came in, in that order, each once; a refused batch rejoins at the end |
| `Writer.RefusedBatchRejoins` | apps/server/src/persistence/writer.ts:104-108 | A refused batch is pending again as one update with all its operations, a batch of one as that very update |
| `Writer.CompactsIffDue` | apps/server/src/persistence/writer.ts:112-116 | After any run, an append is followed by a compaction if and only if the rows appended since the last successful one, with those found on opening, reach compactAfter |
| `Writer.NothingLeaks` | apps/server/src/persistence/writer.ts:36-124 | Over every run, recorded equals stored plus held plus dropped |
| `Writer.DropsNeedCloseAndFailure` | apps/server/src/persistence/writer.ts:87-96 | Nothing is dropped unless an append fails after close |
| `Writer.CloseSettlesEverything` | apps/server/src/persistence/writer.ts:48-51 | When the promise of close resolves with no later record, pending is empty and everything recorded is stored or was dropped |
| `Writer.RunKeepsOrder` | apps/server/src/persistence/writer.ts:36-110 | In every run pendingBytes is the sum of the pending sizes and an open writer with something pending has its timer armed, due debounceMs after the oldest |
| `Writer.NoUpdateWaitsLonger` | apps/server/src/persistence/writer.ts:68-76 | No update stays pending in an open writer longer than debounceMs at a stretch, also with failing appends; a batch put back after a failure starts a new stretch |
| `Writer.CalmWriterLosesNothingOlder` | apps/server/src/persistence/writer.ts:14-19 | In a run without failures, an open writer with nothing queued or being appended holds only pending updates, each recorded at most debounceMs ago |
| `Writer.HeldCanBeOlder` | apps/server/src/persistence/writer.ts:14-19 | While an append is slow a writer holds an update of any age, in a timely run without failures and for all options |
| `StoreContract.ContentIsWhatWasAppended` | apps/server/src/persistence/memory-store.ts:9-14 | The contract is a grow-only set: content is exactly the union of the appends, and a document exists exactly if it was appended to |
| `MemoryStore.MemoryDocumentStore.constructor` | apps/server/src/persistence/memory-store.ts:15-16 | A new store is empty |
| `MemoryStore.MemoryDocumentStore.Load` | apps/server/src/persistence/memory-store.ts:18-29 | Null for a document without content, otherwise snapshot and updates merged with the number of updates |
| `MemoryStore.MemoryDocumentStore.Append` | apps/server/src/persistence/memory-store.ts:31-35 | The update is added to that document's list only |
| `MemoryStore.MemoryDocumentStore.Compact` | apps/server/src/persistence/memory-store.ts:37-46 | Everything is folded into the snapshot and the number folded returned |
| `MemoryStore.StepRefines` | apps/server/src/persistence/memory-store.ts:18-46 | Each operation of the memory store is a step of the grow-only contract with the same reply |
| `MemoryStore.RepliesRefine` | apps/server/src/persistence/memory-store.ts:18-46 | For every sequence of operations the replies are the contract's |
| `PostgresStore.PostgresDocumentStore.constructor` | apps/server/src/persistence/postgres-store.ts:14-27 | Empty tables |
| `PostgresStore.PostgresDocumentStore.Load` | apps/server/src/persistence/postgres-store.ts:29-60 | Snapshot and the rows above it, merged, with the number of rows; null if there are neither |
| `PostgresStore.PostgresDocumentStore.CollectParts` | apps/server/src/persistence/postgres-store.ts:47-49 | The snapshot first, then the rows in order |
| `PostgresStore.PostgresDocumentStore.Append` | apps/server/src/persistence/postgres-store.ts:62-80 | One new row with the next number |
| `PostgresStore.PostgresDocumentStore.Compact` | apps/server/src/persistence/postgres-store.ts:82-147 | Snapshot through the largest number, that document's rows deleted, their number returned; nothing if there are none |
| `PostgresStore.MaxSeqIsMax` | apps/server/src/persistence/postgres-store.ts:91-94 | The cutoff is the largest number among the document's rows, absent exactly if it has none |
| `PostgresStore.DeleteTakesTheSelection` | apps/server/src/persistence/postgres-store.ts:129-132 | The delete removes exactly the rows that were read, as many of them, and no other document's |
| `PostgresStore.CompactKeepsValid` | apps/server/src/persistence/postgres-store.ts:82-147 | After a compaction no row is at or below its snapshot and the rows are still numbered in order |
| `PostgresStore.CompactSeen` | apps/server/src/persistence/postgres-store.ts:82-147 | A compaction changes nothing a load shows of any document but the row count of its own |
| `PostgresStore.AppendSeen` | apps/server/src/persistence/postgres-store.ts:62-80 | An append adds its operations and one row to what a load shows of that document and changes no other |
| `PostgresStore.StepRefines` | apps/server/src/persistence/postgres-store.ts:29-147 | Each operation of the Postgres store is a step of the grow-only contract with the same reply |
| `PostgresStore.RepliesRefine` | apps/server/src/persistence/postgres-store.ts:29-147 | For every sequence of operations the replies are the contract's |
| `StoreEquivalence.StoresAgree` | apps/server/src/persistence/memory-store.ts:9-46 | For every sequence of appends, loads and compactions made one at a time the two stores give the same replies: content, null-ness, pending rows, rows folded |
| `Transactions.CompactionLosesNothing` | apps/server/src/persistence/postgres-store.ts:82-147 | However the statements of appends, compactions, rollbacks and loads interleave, snapshot plus rows above it is everything ever committed and no row is left at or below the snapshot, provided no append in flight holds a number at or below a cutoff when the tail is read |
| `LateCommits.LateCommitFate` | apps/server/src/persistence/postgres-store.ts:91-132 | The proviso is exact: let an append in flight when the tail is read and the compaction both commit, in any order and among any other statements until the next lock. Loads then miss its operation if and only if its number is not above the cutoff, and it is gone from the tables if and only if, besides, it committed before the delete |
| `LateCommits.CompactionCanLoseACommit` | apps/server/sql/schema.sql:19-25 | A run from empty tables after which a committed append has been deleted unread, and no continuation that does not insert it again ever shows it |
| `LateCommits.CompactionCanHideACommit` | apps/server/sql/schema.sql:19-25 | A run from empty tables after which a committed append is hidden from every load, and shown again after one more compaction |
| `LateCommits.NextCompactionRestores` | apps/server/src/persistence/postgres-store.ts:109-112 | From any tables, an uninterrupted compaction makes everything the tables still hold visible, rows at or below the old snapshot included |
| `LateCommits.NothingElseVanishes` | apps/server/src/persistence/postgres-store.ts:82-147 | In every run, clean or not, every committed operation is still in the tables or was deleted by a compaction that had not read it |
| `LateCommits.CleanRunsReadWhatTheyDelete` | apps/server/src/persistence/postgres-store.ts:109-132 | In a run that meets the proviso nothing is ever deleted unread |
| `LateCommits.GoneForGood` | apps/server/src/persistence/postgres-store.ts:29-147 | What is neither in the tables nor on its way there is never shown again, unless inserted again |
| `LateCommits.TailReadIsOvertaken` | apps/server/src/persistence/postgres-store.ts:109-112 | An append in flight when a tail is read, with an operation stored nowhere and carried by no other append in flight, is one whose fate LateCommitFate decides |
| `LateCommits.RaceIsReachable` | apps/server/sql/schema.sql:19-25 | The state in which both begin is reached by a run from empty tables |
| `Transactions.RollbackChangesNothing` | apps/server/src/persistence/postgres-store.ts:141-146 | A rollback at any statement leaves snapshot, rows and history as they were and gives up the lock |
| `InterruptedLoads.LoadReturnsEverythingIff` | apps/server/src/persistence/postgres-store.ts:32-41 | Over every run that meets the proviso: a load returns everything committed if and only if all that compactions committed since its first statement have folded is in the snapshot it read or in a surviving row |
| `InterruptedLoads.LoadMissesExactly` | apps/server/src/persistence/postgres-store.ts:32-41 | Over every run, with or without the proviso: what a load misses is exactly what is in snapshots committed since its first statement, was ever deleted unread, or is carried by rows at or below the snapshot it read, less what it returns; and it returns nothing uncommitted |
| `InterruptedLoads.UninterruptedLoadMisses` | apps/server/src/persistence/postgres-store.ts:32-41 | Over every run: a load during which no compaction commits returns everything committed if and only if it returns all that is hidden or was deleted unread |
| `InterruptedLoads.LoadMissesWhatWasFoldedBetween` | apps/server/src/persistence/postgres-store.ts:32-41 | Over every run that meets the proviso: what a load misses is exactly what was folded since its first statement less what the snapshot it read and the surviving rows hold |
| `InterruptedLoads.LoadIsExactWithoutCompaction` | apps/server/src/persistence/postgres-store.ts:32-41 | Over every run that meets the proviso: a load during which no compaction commits returns everything committed |
| `InterruptedLoads.LoadCanMissACommit` | apps/server/src/persistence/postgres-store.ts:32-41 | A run from empty tables in which a load between whose statements a compaction commits returns nothing of what is committed |
| `Transactions.NextKeepsInv` | apps/server/src/persistence/postgres-store.ts:62-147 | Every statement of every transaction keeps the invariant under the proviso |
| `Transactions.WholeCompaction` | apps/server/src/persistence/postgres-store.ts:82-147 | The statements of one undisturbed compaction fold every row there is into the snapshot, leave the log empty and give up the lock |
| `Refinement.TablesRefineTheStore` | apps/server/src/persistence/postgres-store.ts:29-147 | Every run of instances, writers and bus over the interleaved statements, under the proviso and with loads no compaction interrupts, is a run of the cluster with a store that takes an append and is read in one step |
| `Refinement.SettledWritersMeanCommitted` | apps/server/src/persistence/writer.ts:36-110 | Hence once every writer has settled a load returns exactly what any client ever brought in, unless a crash or a failed last append took it |
| `LogLength.SoleWriterKeepsTheLogShort` | apps/server/src/persistence/writer.ts:81-123 | A sole writer's count equals the rows above the snapshot, through failed appends and compactions and whatever earlier writers left behind, and there are fewer than compactAfter of them after every write whose compaction did not fail |
| `LogLength.SurvivorsNeverExceedTheCount` | apps/server/src/persistence/writer.ts:81-123 | With any number of writers, the surviving rows of each never exceed its own count |
| `Cluster.EveryOperationIsOwned` | apps/server/src/persistence/writer.ts:36-110 | In every run, crashes included, what was recorded is stored, held by some writer open or closing, or lost; every operation in a room or on the bus is one of those |
| `Cluster.LosslessRunsLoseNothing` | apps/server/src/persistence/writer.ts:87-96 | Operations are lost only by a crash or by an append failing after close |
| `Cluster.SettledWritersMeanStored` | apps/server/src/rooms/registry.ts:33-41 | Once every writer has settled, everything any client ever brought in is in the store, unless a crash or a failed last append took it |
| `Cluster.NextKeepsDurable` | apps/server/src/rooms/room.ts:161-168 | Every step of every instance keeps every operation owned |
| `Convergence.ClusterConverges` | apps/server/src/rooms/room.ts:111-168 | In every careful run, once the channel is drained every open room holds exactly everything ever recorded, whatever the order of openings and edits |
| `Convergence.DeliverKeepsOthers` | apps/server/src/rooms/room.ts:121-123 | When a room reaches another's state request, its answer takes over whatever it was relied on for |
| `Convergence.FinishKeepsInv` | apps/server/src/rooms/registry.ts:73-80 | Hydrating and asking for state leaves the opening room sure to get everything recorded |
| `Convergence.NextKeepsInv` | apps/server/src/rooms/registry.ts:64-88 | Every careful step keeps every room provided with every recorded operation: it has it, it is coming, or its request will fetch it |
| `Convergence.ColdOpenConvergesIffStoreSuffices` | apps/server/src/rooms/registry.ts:64-80 | An instance that opens a document nobody has open ends up with everything if and only if the store had everything when it was read |
| `Openings.ClosingInTheWindowConvergesIff` | apps/server/src/rooms/registry.ts:33-39 | For any number of instances: a room closes or dies while another instance is at any stage between its store read and its agreement with the rest, and no third instance still opening may come to publish anything recorded. However things go on, that instance ends up with everything if and only if each operation is one it has, read, has ahead on the channel, or that another remaining open room will publish in answer to a request |
| `Openings.DepartureIsHarmlessIff` | apps/server/src/rooms/registry.ts:33-39 | With all other rooms open, in each schedule everyone ends up with everything after a close or crash if and only if each of them is so provided without the one that left |
| `Openings.SettlingEndsExactly` | apps/server/src/rooms/registry.ts:64-80 | From any state in which no other instance still opening may come to publish the operation, every schedule of the openings under way and of deliveries leaves an instance with it if and only if the instance has it, read it, has it ahead on the channel, or another open room has yet to answer a request with it |
| `Openings.SettlingEndsBetween` | apps/server/src/rooms/registry.ts:64-80 | In every schedule: what an instance always gets it ends up with, and what it ends up with it could get |
| `Openings.ReachedIsFit` | apps/server/src/rooms/registry.ts:64-88 | Every state any run reaches, careful or not, is one of those the results about openings speak of |
| `Outcomes.AlwaysIff` | apps/server/src/rooms/registry.ts:64-80 | From any state, with any number of openings under way: an instance ends up with an operation in every schedule if and only if it has or has coming it, an open room will share it, or two other instances still opening have it |
| `Outcomes.SometimesIff` | apps/server/src/rooms/registry.ts:64-80 | From any such state: it does in some schedule if and only if it has or has coming the operation, or another instance, open or opening, has it and faces a request with it or will be asked by one yet to open |
| `Outcomes.OrderMattersIff` | apps/server/src/rooms/registry.ts:64-80 | What is always got can be got; and the two differ exactly when one other instance, still opening, is the only one that has the operation and may come to share it |
| `Outcomes.AgreementIff` | apps/server/src/rooms/room.ts:111-125 | From any state a run can reach: every schedule ends with every instance holding exactly what was recorded if and only if everything recorded is always got by everyone |
| `Outcomes.DepartureAlwaysHarmlessIff` | apps/server/src/rooms/registry.ts:33-39 | Whatever is opening, a close or crash leaves agreement in every schedule if and only if everything recorded is always got by everyone without the one that left |
| `Outcomes.ScheduleExists` | apps/server/src/rooms/registry.ts:64-88 | From any such state every opening can be finished and every message delivered |
| `Outcomes.ScheduleThatWithholds` | apps/server/src/rooms/registry.ts:64-80 | If an operation is not always got, some order of steps leads to a state from which it cannot be: its one carrier opens last |
| `Outcomes.ScheduleThatBrings` | apps/server/src/rooms/registry.ts:64-80 | If it can be got, some order of steps makes it sure |
| `Outcomes.OrderDecides` | apps/server/src/rooms/registry.ts:64-80 | A run from an empty system to a state with two openings from which one schedule leaves an instance with an edit and another without |
| `Outcomes.ClosingInTheWindowCanLose` | apps/server/src/rooms/registry.ts:33-39 | A run from an empty system in which the last other room closes between the store read and the subscription of an opening, and no schedule from there brings that instance the edit |
| `Openings.CarefulDeparturesSpareEveryone` | apps/server/src/rooms/registry.ts:33-39 | In careful runs a room nobody waits for leaves everyone provided with everything |
| `Openings.LeftAloneIsSparedIff` | apps/server/src/rooms/registry.ts:33-39 | An instance left alone is provided if and only if it has or has coming everything itself |
| `Openings.AnswerReaches` | apps/server/src/rooms/room.ts:121-123 | The answer to a state request makes every operation of the answering room sure for everyone else |
| `Convergence.StaleReopen` | apps/server/src/rooms/registry.ts:71-80 | A reachable, loss-free run after which a reopened room lacks an edit that is recorded but not yet flushed |
| `Provider.NeverStallsNorDoubles` | apps/web/src/collab/provider.ts:98-188 | In every reachable state a provider neither destroyed nor rejected has exactly one of: token fetch pending, socket not closed, reconnect timer armed; a rejected one has none |
| `Provider.StatusTellsWhatIsUnderWay` | apps/web/src/collab/provider.ts:108-184 | In every reachable state a live provider is offline exactly while it waits to reconnect, rejected exactly when nothing is under way, connecting while it fetches a token or its socket opens, connected and pinging while its socket is ready; a destroyed one has closed every socket and runs no timer for it |
| `Provider.RejectedIff` | apps/web/src/collab/provider.ts:172-177 | A live provider is rejected if and only if a socket of its was closed with DocumentNotSpecified |
| `Provider.RetryComesInTime` | apps/web/src/collab/provider.ts:270-278 | While a live provider waits to reconnect, n closes and failed fetches after a socket last proved stable, the wait still to go is at most 500 ms doubled n - 1 times and at most 15 s |
| `Provider.RetryBeginsBetween` | apps/web/src/collab/provider.ts:270-278 | When it begins, the wait is between half of that and all of it |
| `Provider.OpeningArmsStability` | apps/web/src/collab/provider.ts:131-133 | A socket that opened is due to count as stable exactly 5 s later, for as long as it neither closes nor is destroyed |
| `Provider.FetchRefreshesIffRefused` | apps/web/src/collab/provider.ts:117-118 | A live provider asks for a fresh token if and only if a socket was closed as Unauthorized since it last got one |
| `Provider.SocketRefreshedIffRefused` | apps/web/src/collab/provider.ts:115-128 | The socket a live provider opens next uses a token fetched afresh exactly in that case |
| `Provider.ProbeFollowsEvents` | apps/web/src/collab/provider.ts:206-259 | Over every run the pong timer is due 10 s after the first ping that no pong has answered, and a pong or the end of the socket calls it off |
| `Provider.OnlySilenceTimesOut` | apps/web/src/collab/provider.ts:248-259 | The pong timer fires only 10 s or more after a ping that no pong has answered |
| `Provider.SilenceIsNoticed` | apps/web/src/collab/provider.ts:248-259 | A ready socket with no ping outstanding is probed at its next ping, and while no pong comes it is closed when the 10 s are up |
| `Provider.FailedSocketIsDropped` | apps/web/src/collab/provider.ts:186-187 | A socket that reports an error is closed |
| `Provider.ReconnectsAreBounded` | apps/web/src/collab/provider.ts:270-278 | Counted on the events: over any stretch of T ms, 7500 times the firings of the reconnect timer are at most T + 37250 + 29750 for each firing of the stability timer |
| `Provider.DestroyedOpensNothing` | apps/web/src/collab/provider.ts:98-124 | After destroy no socket is ever opened and no connection attempted, whatever was under way |
| `Provider.DestroyedArmsIffFetchFails` | apps/web/src/collab/provider.ts:98-123 | Over every run after destroy the reconnect timer is ever armed if and only if a token fetch under way fails; with none under way it never is |
| `Provider.DestroyedCanArm` | apps/web/src/collab/provider.ts:119-123 | A run in which it is: destroy during the first token fetch, which then fails |
| `Provider.RefusedTokenIsReplaced` | apps/web/src/collab/provider.ts:115-123 | After an Unauthorized close the next socket is opened with a token fetched with the refresh flag, however many fetches fail first |
| `Provider.SilentServerIsDropped` | apps/web/src/collab/provider.ts:248-259 | While no pong comes the deadline of the first unanswered ping is never pushed back, and when it fires the socket is closed |
| `Provider.AttemptsAreBounded` | apps/web/src/collab/provider.ts:270-278 | Over any stretch of T ms, for every jitter, 7500 times the attempts is at most T + 37250 + 29750 per backoff reset, and each reset takes 5 s |
| `Provider.UnstableAttemptsAreBounded` | apps/web/src/collab/provider.ts:29-35 | If no socket survives its 5 s, at most (T + 37250) / 7500 attempts |
| `Provider.SchedulingIsFree` | apps/web/src/collab/provider.ts:270-278 | For every attempt number and jitter, what a delay falls short of 7.5 s is covered by what the backoff still has to grow |
| `Provider.CollabProvider.constructor` | apps/web/src/collab/provider.ts:79-90 | Starts with one token fetch |
| `Provider.CollabProvider.Connect` | apps/web/src/collab/provider.ts:108-117 | Nothing if destroyed, otherwise one more token fetch with the current refresh flag |
| `Provider.CollabProvider.OnToken` | apps/web/src/collab/provider.ts:117-128 | Refresh flag cleared; a socket is opened unless destroyed meanwhile |
| `Provider.CollabProvider.OnTokenFailed` | apps/web/src/collab/provider.ts:119-123 | Offline, flag kept, reconnect scheduled |
| `Provider.CollabProvider.OnOpen` | apps/web/src/collab/provider.ts:130-154 | Stability timer armed, backoff not reset yet |
| `Provider.CollabProvider.OnClose` | apps/web/src/collab/provider.ts:161-184 | All timers cleared, then rejected or rescheduled |
| `Provider.CollabProvider.Lose` | apps/web/src/collab/provider.ts:172-183 | Nothing if destroyed, rejected if terminal, otherwise offline and scheduled, with the refresh flag set by Unauthorized |
| `Provider.CollabProvider.OnError` | apps/web/src/collab/provider.ts:186-187 | The socket is closed |
| `Provider.CollabProvider.ScheduleReconnect` | apps/web/src/collab/provider.ts:270-278 | One more attempt counted, timer armed |
| `Provider.CollabProvider.ClearTimers` | apps/web/src/collab/provider.ts:280-291 | No timer left |
| `Provider.CollabProvider.OnReconnectTimer` | apps/web/src/collab/provider.ts:277-277 | Connects |
| `Provider.CollabProvider.OnStableTimer` | apps/web/src/collab/provider.ts:131-133 | The backoff starts over |
| `Provider.CollabProvider.OnPingTimer` | apps/web/src/collab/provider.ts:249-257 | Arms the pong timer unless one is outstanding |
| `Provider.CollabProvider.OnPong` | apps/web/src/collab/provider.ts:206-209 | The pong timer is cleared |
| `Provider.CollabProvider.OnPongTimer` | apps/web/src/collab/provider.ts:253-257 | The socket is closed |
| `Provider.CollabProvider.DestroyProvider` | apps/web/src/collab/provider.ts:98-106 | Destroyed, timers cleared, socket closed and let go |
| `Protocol.EncodeMessage` | packages/protocol/src/messages.ts:29-41 | The frame is the type byte and the payload |
| `Protocol.WireFormat` | packages/protocol/src/messages.ts:5-41 | The type byte of each message, 0 to 4, and the payload after it |
| `Protocol.DecodeUndoesEncode` | packages/protocol/src/messages.ts:29-61 | Every message survives the round trip |
| `Protocol.EncodeUndoesDecodeIff` | packages/protocol/src/messages.ts:43-61 | A frame that decodes re-encodes to itself if and only if it is not a ping or pong with trailing bytes |
| `Protocol.DecodesIff` | packages/protocol/src/messages.ts:43-61 | The frames that decode are exactly encodings, pings and pongs possibly with a tail |
| `BusCodec.EncodeBusMessage` | apps/server/src/cluster/messages.ts:34-44 | Fails exactly if the origin is over 255 bytes, otherwise kind, length, origin, payload |
| `BusCodec.WireFormat` | apps/server/src/cluster/messages.ts:6-44 | Kind byte 0, 1 or 2, length byte, origin, payload |
| `BusCodec.DecodeUndoesEncode` | apps/server/src/cluster/messages.ts:34-62 | Every kind, origin and payload survives the round trip |
| `BusCodec.EncodeUndoesDecode` | apps/server/src/cluster/messages.ts:46-62 | Every frame that decodes re-encodes to itself |
| `BusCodec.DecodesIffEncoded` | apps/server/src/cluster/messages.ts:46-62 | Exactly the encodings decode; truncated and unknown frames are rejected |
| `RedisBus.RedisDocumentBus.constructor` | apps/server/src/cluster/redis-bus.ts:20-29 | No listeners |
| `RedisBus.RedisDocumentBus.Subscribe` | apps/server/src/cluster/redis-bus.ts:47-49 | The channel's listener is this one |
| `RedisBus.RedisDocumentBus.Unsubscribe` | apps/server/src/cluster/redis-bus.ts:59-61 | The channel has no listener |
| `RedisBus.RedisDocumentBus.OnMessage` | apps/server/src/cluster/redis-bus.ts:81-98 | Calls the channel's listener exactly for well-formed messages of other instances |
| `RedisBus.ListenerHearsTheOthers` | apps/server/src/cluster/redis-bus.ts:69-98 | Over every sequence of publishes a listener hears exactly what the other instances published for its document, in order |
| `RedisBus.ListenerHearsWhileSubscribed` | apps/server/src/cluster/redis-bus.ts:47-98 | Over every sequence of subscribing, unsubscribing and relaying, a listener hears exactly what other instances published for a document while it was the one subscribed for it, in order |
| `Crdt.Merge` | apps/server/src/persistence/memory-store.ts:43-43 | The merge of several updates is the union of their operations |

## Left out

- Yjs, y-protocols and lib0: text ordering, gaps kept as pending structs and byte encodings are replaced by sets of operations.
- Presence: awareness states, who owns them and their refresh are not modelled; presence frames only take queue slots, tokens and buffer.
- Cluster.State: the bus is reliable and totally ordered per document; a Redis outage, `enableOfflineQueue` and reconnection are not modelled.
- Cluster.Next: an append counts as failed only if it did not commit; a commit whose acknowledgement is lost is not modelled (the retry stores the same set again).
- Cluster.Enabled: an append takes effect in one step there and its load sees one state; `Refinement` proves that the tables do the same in undisturbed runs, and what disturbed runs do to rooms is not followed beyond `LateCommits` and `InterruptedLoads`.
- Cluster.Deliver: a room that has just opened takes its first client in before the next bus message is delivered, because the waiting joins resume as microtasks.
- System.Next: one document at a time; documents share nothing but the sequence of row numbers, which `PostgresStore` models.
- Registry.Next: `closeAll` and shutdown are left out, and every statement about room lifetime holds up to it; the bus's own subscribe and unsubscribe calls never fail there.
- Registry.LoadDone: joins waiting on one load add their clients in one step, and a room's clients may still leave in any order afterwards; rooms and loads are identifiers into maps, not objects.
- Session.Frame: presence and pings are one kind, so a ping may be skipped there as presence over its budget is.
- Session.Stage: no new frame of a socket is handled between the room's step 1 and the end of its queue, as only microtasks lie between them.
- Room.Room: the sink, the bus and the clients are logs of the calls made on them.
- Connection.Connection: token checking is a Boolean on the frame; what the room does with a dispatched frame is in `Session`. Malformed and text frames are dropped before this point and are not modelled.
- Provider.State: which events come is free; the state also carries history (connection attempts, resets, a refused token) that no branch reads. Status listeners, `beforeunload` and the announce timer are left out.
- Provider.Delay: times are whole milliseconds; a jittered delay is any value from half the delay to all of it.
- RateLimit.Bucket: arithmetic is over the reals, so rounding of floating point is not modelled; the clock may run backwards and the results still hold.
- Backpressure.Client: the socket's own buffer is a number that only drains between calls.
- Protocol.Message: the token and the origin id are byte sequences; UTF-8 decoding, which replaces malformed bytes, is not modelled.
- Room.Room.Receive: awareness messages, and the presence half of the answer to a state request, are not in it, because presence is not modelled.
- Registry.RoomRegistry.StoreAnswered: the writer made with the loaded row count is not in it; `LogLength` opens writers with that count.
- Registry.RoomRegistry.Loaded: hydration and the state request are not in it; they are in `Room.Room.HydrateFrom`, `Room.Room.RequestState` and the finishing step of `Cluster`.
- Connection.Connection.Join: the leave of a client whose socket has closed is not in it; it is in `Registry.RoomRegistry.JoinResumes`.
- Connection.Connection.Dispatch: what each kind of frame does is not in it; sync frames are in `Room.Room.HandleSync`.
- Connection.Connection.OnSocketClosed: leaving the room is not in it; it is in `Registry.RoomRegistry.OnSocketClosed`.
- Provider.CollabProvider.OnOpen: the frames sent are not in it; they are in `Browser.CollabDocument.OnOpen`.
- Provider.CollabProvider.OnPingTimer: the ping frame is not in it, because nothing but its answer matters to the machine.
- Termination.Endless: edits, new sockets and new openings can go on for ever, so a store read, a connect or an edit is not among the steps shown to run out.
- HMAC tokens, the session endpoint, HTTP serving, configuration, logging, heartbeat sweep, React components and the editor binding: plumbing or user interface with no property of this kind.
