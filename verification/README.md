# Verified models of the session protocol, the agent loop and their parts

These Dafny modules model the stateful core of the repository and prove what it promises: the remote-session
protocol between the server and the client, the agent loop with its queues, the incremental frame decoder, the
publication of model catalogues, and fuzzy matching.

`dafny verify dfyconfig.toml` checks everything.

How the models are built:

- The asynchronous parts run on one thread. A step is one stretch of code between two awaits, and the steps of all
  suspended calls interleave freely. Services, stores, tools, models, transports and listeners do whatever their
  interfaces allow.
- Such a part has three modules. One holds the state machine (`Enabled`, `Next`, `Run`), its invariant and the theorems
  over all runs. One, whose name ends in History, says of the steps of a run what each leads to and where what there is
  comes from, without the functions that the machine is made of; for the catalogues, ModelPublication itself says this.
  One holds a class with the source's fields, whose methods are the source's handlers; each method is proved to be the
  step, or the function a step is made of.
- The agent loop is one class. `AgentProtocol` says, as an automaton, which action may come when; the methods of
  `AgentLoop.Agent` are proved to do nothing else, for every model, tool, hook and listener; `AgentRuns`,
  `AgentPolls` and `AgentAnswers` prove what acceptance means.

| module | models |
|---|---|
| Framing, Codec | length-prefixed frames, the in-place decoder, validated messages |
| LiveSessions, SessionHistory, LiveSessionManager | the lifetime of session runtimes on the server |
| Snapshots, SnapshotHistory, SnapshotPublisher | revision-stamped server snapshots, from the server to the client's store |
| Commands, Requests, RequestHistory, RequestHandling | requests and responses of client and server over FIFO channels |
| Leases, LeaseHistory, SessionLeases | the client's reference-counted leases on one session |
| ConnectionLifecycle, ConnectionHistory, ClientConnection | the client's connection attempts, handshake promises and transports |
| AgentProtocol, AgentRuns, AgentPolls, AgentAnswers, AgentQueue, AgentLoop | the agent loop, its tool batches and its queues |
| ModelPublication, ModelsImpl, ModelOverlay | refresh and publication of model catalogues, and the merged list |
| Fuzzy | the greedy matcher and its score |

What the proofs found:

- The client's lease tokens carry no generation. A token from before an invalidation, when it is given back later,
  takes away the reservation of another one. `Leases.CountIsReservationsIff` keeps account of what the count has lost
  this way, and `Leases.WhatIsLost` says on the steps of the run what that is; `Leases.GivingBackKeepsTheCountIff` says
  exactly when it loses something, `Leases.DetachOnlyForTheLastIff` exactly when a detach leaves another lease behind,
  and `Leases.AStaleLeaseDetachesAnother` is a run in which one does.
- An acquirer that met a detach gets its lease only after the session was attached again:
  `Leases.NoLeaseIsEarlyInOrder`. This rests on the order of continuations, which the code has: with the promise chains
  of packages/client/src/client.ts:151-187 and 238-239, an acquirer whose attach has taken effect goes on before one
  whose detach did so later. `Leases.LeaseWaitsForReattachIff` says without that order when a lease is early, and
  `Leases.AnOldAttachIsShared` is a run out of that order which shows that it is needed.
- A broadcast takes its revision before it lists the sessions and models. When a list call then fails, its targets
  stay behind until the next broadcast: `Snapshots.AFailedListLeavesTheClientBehind` is such a run, and the convergence
  theorems say that these clients, and no others, are behind.
- `attach` does not look at `disposing` again after `acquire` has returned, so a session that is being disposed can
  gain a connection: `LiveSessions.ADisposingSessionGainsAConnection` is such a run, and
  `LiveSessions.DisposingGainsIff` says exactly when. The other theorems on sessions hold all the same.
- A publication that is superseded while its store call is under way still reaches the store, and only then:
  `ModelPublication.StaleReachesTheStoreIff`. Its own update never takes effect.

## Model

| member | source | states |
|---|---|---|
| Framing.EncodeFrame | packages/protocol/src/framing.ts:28-39 | the frame is the big-endian length followed by the payload, or an error exactly when the payload is longer than 32 bits can say |
| Framing.FrameLayout | packages/protocol/src/framing.ts:28-39 | a frame is four bytes that spell the length of the payload, the most significant first, and then the payload |
| Framing.ParseUndoesFraming | packages/protocol/src/framing.ts:28-39 | parsing undoes encoding for any list of payloads within the limit, whatever bytes follow them |
| Framing.FramingUndoesParse | packages/protocol/src/framing.ts:73-144 | the frames a parse yields and what is left over spell the input again |
| Framing.ParseAppend | packages/protocol/src/framing.ts:73-144 | parsing is incremental: the frames of a + b are those of a followed by those of its rest + b |
| Framing.RestIsIncomplete | packages/protocol/src/framing.ts:73-144 | what a decoder holds after a push never contains a complete frame |
| Framing.PushSplits | packages/protocol/src/framing.ts:73-144 | push(a) then push(b) fails exactly when push(a + b) does, and otherwise yields the same frames and the same state |
| Framing.FeedIsOneParse | packages/protocol/src/framing.ts:73-144 | only the concatenation of the chunks matters: any chunking is one parse of it all |
| Framing.RoundTripUnderEveryChunking | packages/protocol/src/framing.ts:28-39 | encoded frames cut at any positions come back as exactly the payloads, and end() succeeds |
| Framing.EndSucceedsIffWholeFrames | packages/protocol/src/framing.ts:146-153 | end() succeeds if and only if the input was a whole number of frames within the limit |
| Framing.FailuresSayWhy | packages/protocol/src/framing.ts:73-153 | a push fails for a prefix above the limit and end() for a frame cut short; after either every call is refused as failed, after a clean end as ended |
| Framing.FailsIffTooLong | packages/protocol/src/framing.ts:88-93 | a stream fails if and only if in it whole frames within the limit are followed by four bytes that spell a length above it |
| Framing.NothingAfterFailure | packages/protocol/src/framing.ts:73-164 | a decoder that has failed or ended yields nothing and stays as it is, whatever it is fed |
| Framing.AssertCompleteFrame | packages/protocol/src/framing.ts:42-53 | accepts exactly the complete frames; otherwise it reports an incomplete prefix, a length over the limit, or not exactly one frame, by the first check that fails |
| Framing.CompleteFrameIffDecodesToOne | packages/protocol/src/framing.ts:42-53 | it accepts exactly the inputs for which a fresh decoder returns one frame and ends cleanly |
| Framing.FrameDecoder.constructor | packages/protocol/src/framing.ts:69-71 | a new decoder has received nothing and holds nothing |
| Framing.FrameDecoder.Push | packages/protocol/src/framing.ts:73-144 | the in-place decoder, with header array, payload blocks and offsets, does exactly what one step of the parser machine does |
| Framing.FrameDecoder.Advance | packages/protocol/src/framing.ts:79-142 | one round of the main loop gives one frame of the parse, uses up the chunk, or fails on a length over the limit |
| Framing.FrameDecoder.ReadPrefix | packages/protocol/src/framing.ts:81-89 | the header bytes of a chunk are taken in, and a complete header gives the length it declares |
| Framing.FrameDecoder.ReadPayload | packages/protocol/src/framing.ts:107-123 | the inner loop takes in as much payload as the chunk and the frame allow |
| Framing.FrameDecoder.AllocateIfNeeded | packages/protocol/src/framing.ts:108-114 | a new block is allocated only when the last one is full, of 65536 bytes or what the frame still lacks |
| Framing.FrameDecoder.TakePayload | packages/protocol/src/framing.ts:124-141 | a finished frame is handed out as the joined blocks, and the decoder waits for the next header |
| Framing.FrameDecoder.BufferBound | packages/protocol/src/framing.ts:98-141 | the payload blocks exceed the payload bytes received by less than 65536 bytes, and all but the last are full, whatever length was declared |
| Framing.FrameDecoder.End | packages/protocol/src/framing.ts:146-153 | end() succeeds exactly between two frames, and fails the decoder otherwise |
| Framing.FrameDecoder.Fail | packages/protocol/src/framing.ts:155-164 | failing drops all that was buffered |
| Framing.Concatenate | packages/protocol/src/framing.ts:128-135 | the blocks are copied into one array in order |
| Codec.EncodeProtocolMessage | packages/protocol/src/codec.ts:60-76 | the frame of the encoded message; a message that fails the schema is invalid, and one that the CBOR encoder refuses or that is too long cannot be encoded |
| Codec.EncodedFrameIsComplete | packages/protocol/src/codec.ts:68-71 | what encodeFrame builds within the limit always passes the check that follows it |
| Codec.MessagesRoundTrip | packages/protocol/src/codec.ts:60-126 | messages encoded and cut at any byte positions are decoded to exactly those messages, and end() succeeds |
| Codec.YieldsOnlyValidMessages | packages/protocol/src/codec.ts:102-115 | every message a decoder ever yields passed the schema check, whatever bytes came |
| Codec.OneBadPayloadFailsForGood | packages/protocol/src/codec.ts:102-115 | a payload that the codec or the schema rejects fails its push, and every later push is refused, whatever it is fed |
| Codec.PushFailsIff | packages/protocol/src/codec.ts:102-115 | a push of a decoder that has not failed fails if and only if the framing does or some payload is rejected, and then the decoder refuses everything |
| Codec.ValidatedMessageDecoder.Push | packages/protocol/src/codec.ts:102-115 | one bad frame or payload fails the whole push and the decoder; a failed decoder refuses |
| Codec.ValidatedMessageDecoder.End | packages/protocol/src/codec.ts:117-125 | ends exactly when the framing may end and nothing failed before |
| Fuzzy.MatchQuery | packages/tui/src/fuzzy.ts:16-68 | the greedy scan matches if and only if the query is a subsequence, and scores its leftmost embedding |
| Fuzzy.PointsMean | packages/tui/src/fuzzy.ts:34-65 | what each match is worth: for its run, for the gap before it, at the start of a word after white space or one of - _ . / :, and for its position |
| Fuzzy.StreakMeans | packages/tui/src/fuzzy.ts:37-47 | a streak is the length of the run of matches without a gap, one more for a match at the very start of the text |
| Fuzzy.ScoreNeverBelowBound | packages/tui/src/fuzzy.ts:34-65 | no embedding of m characters scores below -(5m(m+1)/2 + 10m + 100) |
| Fuzzy.BoundIsAttained | packages/tui/src/fuzzy.ts:34-65 | for every length some match scores as low as the exact minimum |
| Fuzzy.SwappedQuery | packages/tui/src/fuzzy.ts:75-81 | finds the letter-digit swap of the query if there is one |
| Fuzzy.SwapIsUnique | packages/tui/src/fuzzy.ts:75-81 | a query has at most one swap |
| Fuzzy.FuzzyMatchQuery | packages/tui/src/fuzzy.ts:12-93 | matches if and only if the query or its swap is a subsequence; a match of the query takes precedence, and one of the swap scores five points more |
| ModelOverlay.CurrentModels | packages/ai/src/models.ts:766-774 | the loop over the overlay computes the merged list |
| ModelOverlay.MergeKeepsBaselineOrder | packages/ai/src/models.ts:766-774 | the merged list starts with the baseline's ids in the baseline's order |
| ModelOverlay.MergeKeepsIdsUnique | packages/ai/src/models.ts:766-774 | ids stay unique when the baseline's are |
| ModelOverlay.MergeLookup | packages/ai/src/models.ts:766-774 | for each id it holds the last overlay entry if there is one, else the baseline's |
| ModelPublication.EveryRunKeepsTheChain | packages/ai/src/models.ts:338-365 | in every run store mutations never overlap, start in publish order, and effective updates have non-decreasing generations |
| ModelPublication.TakesEffectIff | packages/ai/src/models.ts:346-357 | when its turn comes, and again when the store has answered, a publication takes effect if and only if its refresh was neither superseded nor cancelled since it began |
| ModelPublication.RegistrationLeadsTo | packages/ai/src/models.ts:269-284 | the registered provider is the last one set and not deleted; a refresh belongs to the one registered when it begins |
| ModelPublication.SupersedingLeadsTo | packages/ai/src/models.ts:320-336 | when the generation is counted up, and which refresh is under way after each step |
| ModelPublication.AbortingLeadsTo | packages/ai/src/models.ts:320-329 | a refresh is superseded exactly when something supersedes it while it is under way; cancelled exactly when it is cancelled |
| ModelPublication.PublishingLeadsTo | packages/ai/src/models.ts:344-363 | a publication waits for the last one that is awaited, becomes the last one, and starts only when all earlier ones are settled |
| ModelPublication.NothingStaleTakesEffect | packages/ai/src/models.ts:320-365 | once a refresh is superseded none of its publications starts a store mutation or updates the catalogue again |
| ModelPublication.StaleReachesTheStoreIff | packages/ai/src/models.ts:349-357 | once a refresh is superseded, what a publication of it persists can still reach the store if and only if its store call was under way at that moment |
| ModelPublication.StaleStoresWereUnderWay | packages/ai/src/models.ts:349-357 | in every run a superseded publication's store call that returns with its write applied was under way at that moment, and the store changes in no other way |
| ModelPublication.UpdatesLandOnTheRegisteredProvider | packages/ai/src/models.ts:269-284 | what is visible only changes by an effective update, on the provider registered at that moment |
| ModelPublication.OverlayFollowsStore | packages/ai/src/models.ts:801-827 | what is visible was stored before; after a publication of the current generation the overlay equals the stored models |
| ModelsImpl.ProviderRefreshes.SetProvider | packages/ai/src/models.ts:269-272 | supersedes the refresh of the id and then registers |
| ModelsImpl.ProviderRefreshes.DeleteProvider | packages/ai/src/models.ts:274-277 | supersedes the refresh of the id and then unregisters |
| ModelsImpl.ProviderRefreshes.GetModels | packages/ai/src/models.ts:294-303 | the merged list of the registered provider, or nothing |
| ModelsImpl.ProviderRefreshes.SupersedeProviderRefresh | packages/ai/src/models.ts:320-329 | counts the generation up and aborts the refresh before it |
| ModelsImpl.ProviderRefreshes.BeginProviderRefresh | packages/ai/src/models.ts:331-336 | a new refresh supersedes the one before it |
| ModelsImpl.ProviderRefreshes.EndProviderRefresh | packages/ai/src/models.ts:431-435 | a finished refresh forgets its controller only while it is still the registered one |
| ModelsImpl.ProviderRefreshes.PublishProviderModels | packages/ai/src/models.ts:338-364 | queues behind the tail of the chain and becomes the tail |
| ModelsImpl.ProviderRefreshes.Resume | packages/ai/src/models.ts:346-357 | when its predecessor has settled: skip, mutate the store, or update |
| ModelsImpl.ProviderRefreshes.StoreReturned | packages/ai/src/models.ts:349-357 | when the store has answered: fail, skip, or update |
| ModelsImpl.ProviderRefreshes.ForgetTail | packages/ai/src/models.ts:361-363 | the tail is forgotten only while it is still the tail |
| LiveSessions.NeverAskedTwice | packages/server/src/sessions.ts:186-246 | until close() collects, the service is never asked for a runtime while one of that id is requested, open or being disposed |
| LiveSessions.DisposedExactlyOnce | packages/server/src/sessions.ts:152-169 | no runtime has dispose called twice in any run, close() included; once close() has collected, every runtime obtained had it called once |
| LiveSessions.DisposalStartsAtRest | packages/server/src/sessions.ts:324-345 | outside close() disposal starts only without connections and operations, on an idle or terminal session |
| LiveSessions.NoOperationAfterDisposal | packages/server/src/sessions.ts:171-184 | after disposal of a session has started no operation is in flight on it or starts on it |
| LiveSessions.EveryDisposableIsAhead | packages/server/src/sessions.ts:248-274 | in every state of every run a session that may be disposed has a handler ahead of it that will check it or attach to it |
| LiveSessions.NoDisposalIsLost | packages/server/src/sessions.ts:248-274 | with no handler ahead of it an open session has a connection, an operation or work to do, and each of its connections is alive and will leave it when it disconnects |
| LiveSessions.DisposingGainsIff | packages/server/src/sessions.ts:300-307 | a session that is being disposed gains a connection in a step if and only if an acquirer that holds it attaches with a new connection that is ready and open |
| LiveSessions.ADisposingSessionGainsAConnection | packages/server/src/sessions.ts:300-307 | a run in which that happens |
| SessionHistory.OperationStartsIff | packages/server/src/sessions.ts:309-316 | an operation may start if and only if its connection attached to a session of that id and has neither detached nor disconnected since, and the live session is neither terminal nor being disposed; it then counts there |
| SessionHistory.MembersAreAttached | packages/server/src/sessions.ts:300-307 | the ids a connection has are those of the sessions that it attached to, while ready and open, and has not left |
| SessionHistory.HeldWasUsable | packages/server/src/sessions.ts:186-207 | an acquirer holds a session only if it found it neither terminal nor being disposed, or waited for the opening in which it came to life |
| SessionHistory.LookLeadsTo | packages/server/src/sessions.ts:186-207 | what each look of acquire() leads to, by what the maps hold |
| SessionHistory.OpeningLeadsTo | packages/server/src/sessions.ts:209-246 | a runtime obtained while the server closes is disposed at once; otherwise its first snapshot decides whether it becomes the live session |
| SessionHistory.TerminalIff | packages/server/src/sessions.ts:265-269 | a session is terminal if and only if its runtime has reported an error |
| SessionHistory.DetachLeads | packages/server/src/sessions.ts:75-89 | a connection that detaches is out at once, and a broadcast is waited for exactly if others remain and the session is neither terminal nor being disposed |
| SessionHistory.MapHoldsOpenSessions | packages/server/src/sessions.ts:336-342 | the map never keeps a session whose disposal is over |
| SessionHistory.ConnectionsAreAttached | packages/server/src/sessions.ts:300-307 | a session that was not disposed has exactly the connections that attached to it and have neither detached nor disconnected since |
| SessionHistory.OperationsAreCounted | packages/server/src/sessions.ts:171-184 | a session counts exactly the operations that have started on it and not ended |
| SessionHistory.PhaseLeads | packages/server/src/sessions.ts:248-263 | a runtime is as idle as it last said; a change to idle is followed by an event while the server listens |
| SessionHistory.ClosingLeads | packages/server/src/sessions.ts:152-157 | the server closes from the call on, and has collected its sessions exactly when such a step came |
| SessionHistory.CollectingLeads | packages/server/src/sessions.ts:157-169 | the map is emptied, and every session that was in it has been told to dispose |
| LiveSessionManager.Manager.Acquire | packages/server/src/sessions.ts:186-207 | a look at the maps returns, waits for a disposal or an opening, opens, or throws |
| LiveSessionManager.Manager.ResumeAcquire | packages/server/src/sessions.ts:198-205 | the opener takes its entry out of the map; everybody gets the session, or the failure |
| LiveSessionManager.Manager.MaybeDispose | packages/server/src/sessions.ts:324-342 | disposes exactly when the server is not closing and the session is ready, unused and idle or terminal |
| LiveSessionManager.Manager.CreateResumes | packages/server/src/sessions.ts:209-214 | a runtime obtained while the server closes is disposed at once |
| LiveSessionManager.Manager.CreateRegisters | packages/server/src/sessions.ts:224-236 | an accepted runtime is registered as the live session of its id |
| LiveSessionManager.Manager.CreateRejects | packages/server/src/sessions.ts:237-245 | a runtime that fails its first snapshot is disposed and never registered |
| LiveSessionManager.Manager.Attach | packages/server/src/sessions.ts:300-307 | attaches a live connection, also to a session that is being disposed; otherwise checks for disposal |
| LiveSessionManager.Manager.DetachCommand | packages/server/src/sessions.ts:75-89 | leaves the session, and broadcasts first when others are still in it |
| LiveSessionManager.Manager.BeginOperation | packages/server/src/sessions.ts:171-177 | an operation starts exactly on an attached, live session that is neither terminal nor being disposed |
| LiveSessionManager.Manager.FinishOperation | packages/server/src/sessions.ts:180-183 | the operation is counted off and disposal is checked |
| LiveSessionManager.Manager.HandleRuntimeEvent | packages/server/src/sessions.ts:248-263 | every event of the runtime checks for disposal |
| LiveSessionManager.Manager.Terminate | packages/server/src/sessions.ts:265-269 | the first error makes the session terminal and unsubscribes; later ones do nothing |
| LiveSessionManager.Manager.DisposeSettles | packages/server/src/sessions.ts:336-342 | a finished disposal takes the session out of the map only while it is still the one there |
| LiveSessionManager.Manager.DisconnectPeer | packages/server/src/sessions.ts:122-132 | takes the connection out of all its sessions before it checks any for disposal |
| LiveSessionManager.Manager.CollectSessions | packages/server/src/sessions.ts:157-168 | close() empties the map and disposes each session that is not being disposed yet |
| Snapshots.ReadyConnectionsAreCoveredIff | packages/server/src/snapshots.ts:50-61 | a ready open connection was sent the server's revision or is about to be, and none beyond it, if and only if it was not missed by the last broadcast |
| Snapshots.ClientsConvergeIff | packages/server/src/server.ts:221-250 | once nothing is on the way to it, a ready client stores exactly the server's revision if and only if it was not missed |
| Snapshots.WhoIsMissed | packages/server/src/snapshots.ts:50-61 | missed are exactly the targets of a broadcast whose list call failed, with no broadcast started since |
| Snapshots.StoredNeverGetsOlder | packages/client/src/state.ts:100-104 | a client stores the newest revision delivered to it, which never decreases |
| Snapshots.HelloComesFirst | packages/server/src/server.ts:232-241 | the hello is the first message of a connection and the only hello |
| Snapshots.AFailedListLeavesTheClientBehind | packages/server/src/snapshots.ts:55-57 | a run in which a failing list call leaves a ready client at revision 0 while the server is at 1 |
| SnapshotHistory.RevisionCountsBroadcasts | packages/server/src/snapshots.ts:44-61 | the revision is the number of broadcasts whose turn came while the server was not closing and some connection was ready; every requested broadcast has had its turn or waits |
| SnapshotHistory.BroadcastsAreForTheReady | packages/server/src/snapshots.ts:50-55 | such a broadcast takes the next revision and is for exactly the connections ready then, each once |
| SnapshotHistory.BroadcastGoesOn | packages/server/src/snapshots.ts:56-61 | one broadcast at a time; after its lists it sends to one target after the other and ends with the last; a failed list ends it |
| SnapshotHistory.HandshakeGoesOn | packages/server/src/server.ts:221-250 | when the hello is sent and with which revision, when the connection is ready, and when it has to catch up |
| SnapshotHistory.ReadyUntilItFails | packages/server/src/server.ts:283-328 | a ready connection stays so until its protocol fails or it disconnects |
| SnapshotHistory.DepartureLeadsTo | packages/server/src/server.ts:271-328 | what a failed protocol, a failed list, a failed hello, a closed transport and a disconnect make of a connection |
| SnapshotHistory.AcceptLeadsTo | packages/server/src/server.ts:112-150 | connections are accepted only while the server is not closing, and begin with nothing sent |
| SnapshotPublisher.Server.RequestsBroadcast | packages/server/src/snapshots.ts:44-48 | broadcasts queue up behind each other |
| SnapshotPublisher.Server.PerformBroadcast | packages/server/src/snapshots.ts:50-55 | captures the ready connections and takes the next revision in one go, or does nothing |
| SnapshotPublisher.Server.ReadyConnections | packages/server/src/snapshots.ts:51-53 | exactly the ready connections, in order |
| SnapshotPublisher.Server.BroadcastResumes | packages/server/src/snapshots.ts:56-58 | a failing list call ends the broadcast |
| SnapshotPublisher.Server.SendToNext | packages/server/src/snapshots.ts:60-60 | the loop sends to one connection after the other |
| SnapshotPublisher.Server.SendMessage | packages/server/src/server.ts:293-306 | up to its await: the message goes out, and nothing is sent to a closed or disconnected connection |
| SnapshotPublisher.Server.BeginHandshake | packages/server/src/server.ts:186-199 | the revision of the hello is the one at its request |
| SnapshotPublisher.Server.SendHello | packages/server/src/server.ts:230-237 | the hello goes out only if the connection is still there and handshaking |
| SnapshotPublisher.Server.BecomeReady | packages/server/src/server.ts:238-243 | becoming ready and noticing a newer revision are one step |
| SnapshotPublisher.Server.SendCatchUp | packages/server/src/server.ts:243-248 | the catch-up snapshot carries the revision noticed then |
| SnapshotPublisher.ClientState.ApplyServerSnapshot | packages/client/src/state.ts:100-104 | an older revision is ignored |
| Requests.NothingRunsBeforeTheHello | packages/server/src/server.ts:185-269 | no command runs or is answered before the server's hello was sent, and nothing reaches the server out of order |
| Requests.AnsweredAtMostOnce | packages/server/src/server.ts:252-269 | each request gets at most one response, with its own id and command, on the attempt it was issued on |
| Requests.ResponsesAlwaysMatch | packages/client/src/client.ts:294-319 | the client never fails for a response without a request or whose result names another command than that of the request |
| Requests.SettledExactlyOnce | packages/client/src/client.ts:321-340 | every request promise settles exactly once, and none is pending after a disconnect |
| Requests.PendingIsOnItsWay | packages/client/src/client.ts:189-207 | a pending request or its response is on its way, unless the server has given up the connection |
| RequestHistory.ResponsesSayHowItEnded | packages/server/src/server.ts:252-269 | every response goes back to the end of that request's execution on that link: a result that carries what the service answered, by the command, or an error when it failed |
| RequestHistory.ExecutionsAreAnswered | packages/server/src/server.ts:252-269 | and every end of an execution is answered so while the connection is there |
| RequestHistory.ResolvedIff | packages/client/src/client.ts:294-319 | a promise is resolved if and only if a successful response to its request was delivered, and rejected otherwise |
| RequestHistory.MessageLeadsTo | packages/server/src/server.ts:170-219 | a request is executed when ready and deferred while handshaking, a hello begins the handshake, and a closing connection hears nothing |
| RequestHistory.HandshakeLeadsTo | packages/server/src/server.ts:221-250 | when the hello is sent, when the connection is ready, and what becomes of a deferred request |
| RequestHistory.RequestLeadsTo | packages/client/src/client.ts:189-207 | a request is pending under a new number and goes out on the current link; one that cannot be encoded is rejected alone |
| RequestHistory.LinksDieOnlyBy | packages/server/src/server.ts:293-341 | the server gives up a connection only for a failed protocol, its own closing, a message that cannot be sent or encoded, or a lost transport |
| RequestHistory.ClientIsConnectedIff | packages/client/src/connection.ts:162-204 | the client is connected by the hello on the attempt that it opened, and never disconnects for a response |
| RequestHistory.ConnectLeadsTo | packages/client/src/connection.ts:66-140 | each connect() begins an attempt on a link of its own, the hello goes out once its transport is open, and a client that fails or is disposed has nothing pending |
| RequestHistory.DeliveryLeadsTo | packages/client/src/connection.ts:142-204 | what each message of the server does to the client, by attempt and state |
| RequestHistory.FailureLeadsTo | packages/server/src/server.ts:315-328 | a failed protocol closes the connection with one hello_error, unless it was given up before |
| RequestHistory.DepartureLeadsTo | packages/server/src/server.ts:271-341 | what the server's closing, a disconnect, a lost transport and a message that cannot go out make of a connection |
| RequestHandling.PiClient.RequestCommand | packages/client/src/client.ts:189-207 | refused when disposed or not connected; otherwise a request is pending under a new id, is rejected when it cannot be encoded, and fails the connection when it cannot be sent |
| RequestHandling.PiClient.HandleServerMessage | packages/client/src/connection.ts:162-204 | messages of another attempt are ignored; handshake messages and responses are handled by the state |
| RequestHandling.PiClient.HandleResponseMessage | packages/client/src/client.ts:294-319 | takes the request, settles it, and fails the connection on a mismatch |
| RequestHandling.PiClient.TakePendingRequest | packages/client/src/client.ts:330-334 | returns and forgets the request of that id |
| RequestHandling.PiClient.RejectPendingRequests | packages/client/src/client.ts:336-340 | empties the map and rejects each promise that was in it once |
| RequestHandling.PiClient.FailConnection | packages/client/src/client.ts:321-328 | disconnecting rejects everything pending |
| RequestHandling.PiClient.DisposeAll | packages/client/src/client.ts:342-353 | disposing rejects everything pending and disconnects |
| RequestHandling.ServerConnection.ReceiveMessage | packages/server/src/server.ts:170-183 | messages for a closing connection are dropped |
| RequestHandling.ServerConnection.DispatchMessage | packages/server/src/server.ts:185-219 | a request is executed when ready, deferred while handshaking, and an offence before the hello |
| RequestHandling.ServerConnection.FailTheProtocol | packages/server/src/server.ts:315-328 | the first failure closes the connection with a hello_error |
| RequestHandling.ServerConnection.CloseConnection | packages/server/src/server.ts:330-341 | close() of the server closes a connection without a hello_error, while its transport is still open |
| RequestHandling.ServerConnection.SendHello | packages/server/src/server.ts:230-237 | the hello is sent, or the handshake ends without it |
| RequestHandling.ServerConnection.BecomeReady | packages/server/src/server.ts:238-243 | ready only after the hello was sent to a connection still handshaking |
| RequestHandling.ServerConnection.HandleDeferred | packages/server/src/server.ts:213-218 | a deferred request is executed if the handshake made the connection ready, and dropped otherwise |
| RequestHandling.ServerConnection.AnswerRequest | packages/server/src/server.ts:252-269 | an executed request is answered once, unless the connection is gone |
| Leases.CountIsReservationsIff | packages/client/src/client.ts:381-412 | in every state the count and what it has lost since the last invalidation make up the reservations; while it has lost nothing an exclusive reservation is the only one |
| Leases.WhatIsLost | packages/client/src/client.ts:395-400 | what the count has lost is how often, since the last invalidation, a token from before it was given back, less how often a reservation without a place was; it has lost something only after such a token was given back |
| Leases.GivingBackKeepsTheCountIff | packages/client/src/client.ts:395-400 | giving a token back keeps a right count right if and only if the token was reserved since the last invalidation or nothing is reserved |
| Leases.GivenBackOnce | packages/client/src/client.ts:395-400 | each token is given back at most once, whatever happens |
| Leases.DetachOnlyForTheLastIff | packages/client/src/client.ts:237-245 | a detach is sent with no other reservation if and only if the count and what it has lost come to one at most, for a lease reserved since the last invalidation, or to nothing, for an older one |
| Leases.AStaleLeaseDetachesAnother | packages/client/src/client.ts:237-245 | a run in which a lease from before an invalidation detaches the session under another lease |
| Leases.LeaseWaitsForReattachIff | packages/client/src/client.ts:151-187 | an acquirer that met a detach gets its lease, in every continuation, only after the detach settled and a later attach took effect, if and only if it does not join an attach that took effect before |
| Leases.NoLeaseIsEarlyInOrder | packages/client/src/client.ts:151-187 | if no acquirer overtakes one whose attach took effect earlier, no lease is early |
| Leases.AnOldAttachIsShared | packages/client/src/client.ts:151-187 | why the order is needed: a run out of it, in which a lease is early |
| LeaseHistory.LeasesAreAttached | packages/client/src/client.ts:151-187 | a lease comes from a look at a session that shows as attached, from the wait for an attach that the server has accepted, or from the creation of the session; apart from that only from a release that failed |
| LeaseHistory.AttachedIff | packages/client/src/state.ts:106-113 | a session shows as attached if and only if it was created or an attach took effect, and it was not removed or detached nor the connection lost since |
| LeaseHistory.AttachLeadsTo | packages/client/src/client.ts:166-176 | an acquirer has its lease exactly if the server accepted its attach; otherwise it gives up and its place is given back |
| LeaseHistory.AcquireLeadsTo | packages/client/src/client.ts:151-172 | when an acquirer is refused, and otherwise how it is counted and what it waits for |
| LeaseHistory.GoingOnLeadsTo | packages/client/src/client.ts:155-171 | what follows a detach that an acquirer met |
| LeaseHistory.CreationLeadsTo | packages/client/src/client.ts:141-145 | a created session is reserved for its creator alone |
| LeaseHistory.ReleaseLeadsTo | packages/client/src/client.ts:231-252 | a release marks, throws, detaches or gives back, by generation, attachment and count |
| LeaseHistory.ReleaseEnds | packages/client/src/client.ts:242-266 | a settled detach gives the place back, or leaves the lease as it was |
| LeaseHistory.InvalidationLeadsTo | packages/client/src/client.ts:321-328 | what an invalidation clears, when there is one, and that a lost connection leaves no request in flight |
| LeaseHistory.AnswersSettle | packages/client/src/client.ts:294-319 | an answer of the server settles the request it answers and touches no lease |
| LeaseHistory.WhatOthersWaitFor | packages/client/src/client.ts:155-252 | the attach and the detach that others join are the last ones sent, until the one who sent or joined them has gone on |
| SessionLeases.LeaseTable.ReserveSessionLease | packages/client/src/client.ts:381-393 | reserves, or throws on a conflict of modes |
| SessionLeases.LeaseTable.ReleaseSessionLease | packages/client/src/client.ts:395-400 | counts down to zero at the lowest, and gives up exclusiveness only of its own token |
| SessionLeases.LeaseTable.InvalidateSessionLeases | packages/client/src/client.ts:402-407 | nothing is reserved any more and the generation has changed |
| SessionLeases.LeaseTable.AcquireSession | packages/client/src/client.ts:151-172 | waits for a detach, shares or sends an attach, or has the lease at once |
| SessionLeases.LeaseTable.GoOnAfterDetach | packages/client/src/client.ts:155-171 | after the detach it attaches again unless the session shows as attached |
| SessionLeases.LeaseTable.GoOnAfterAttach | packages/client/src/client.ts:166-176 | the shared attach gives a lease, or gives the token back |
| SessionLeases.LeaseTable.ReleaseLease | packages/client/src/client.ts:231-252 | the last one detaches, others just give their token back, an invalidated one does neither |
| SessionLeases.LeaseTable.FinishRelease | packages/client/src/client.ts:242-266 | the token is given back only when the detach succeeded |
| SessionLeases.LeaseTable.RemoveSession | packages/client/src/client.ts:296-296 | a removed session invalidates its leases |
| SessionLeases.LeaseTable.LoseConnection | packages/client/src/client.ts:321-328 | a lost connection rejects what is in flight and invalidates the leases that are counted |
| ConnectionLifecycle.HandshakeSettlesOnce | packages/client/src/connection.ts:66-235 | each attempt's handshake promise settles at most once, and has settled unless that attempt is still connecting |
| ConnectionLifecycle.NoTransportIsLeaked | packages/client/src/connection.ts:119-140 | every transport ever produced is the current one, was closed by the client, or reported its own close |
| ConnectionLifecycle.LateCallbacksChangeNothing | packages/client/src/connection.ts:79-87 | a callback of a superseded attempt changes nothing, and its late transport is closed |
| ConnectionLifecycle.NoticesFollowTheState | packages/client/src/connection.ts:225-231 | the state changes told to listeners follow the state, attempt by attempt |
| ConnectionLifecycle.ToldMeans | packages/client/src/connection.ts:225-231 | connecting, then perhaps connected, then disconnected: exactly these sequences of notices are accepted |
| ConnectionHistory.FulfilledIff | packages/client/src/connection.ts:173-196 | an attempt is fulfilled if and only if the hello was the first message on its transport and no callback disconnected or threw, and rejected otherwise |
| ConnectionHistory.DataLeadsTo | packages/client/src/connection.ts:142-204 | a first hello connects, the messages after it are passed on and change nothing, and anything else disconnects and closes |
| ConnectionHistory.CallsLeadTo | packages/client/src/connection.ts:66-140 | what the other calls and callbacks of the current attempt lead to |
| ClientConnection.Connection.Connects | packages/client/src/connection.ts:66-90 | connects only when disconnected, under a new number |
| ClientConnection.Connection.FailOnly | packages/client/src/connection.ts:225-231 | rejects the handshake if it is still pending, and tells the listeners once |
| ClientConnection.Connection.FailAndCloseTransport | packages/client/src/connection.ts:218-223 | closes the transport the attempt had |
| ClientConnection.Connection.TransportOpened | packages/client/src/connection.ts:119-132 | a transport for another attempt is closed at once |
| ClientConnection.Connection.TransportNotOpened | packages/client/src/connection.ts:123-126 | a failing factory fails only its own attempt |
| ClientConnection.Connection.HandleChunk | packages/client/src/connection.ts:142-160 | the messages of a chunk are handled until the connection is lost |
| ClientConnection.Connection.BecomeConnected | packages/client/src/connection.ts:173-196 | the handshake is fulfilled only if no callback has disconnected meanwhile |
| ClientConnection.Connection.TransportClosed | packages/client/src/connection.ts:206-216 | the close of the current transport fails the attempt without closing it again |
| AgentRuns.TranscriptsAgree | packages/agent/src/agent-loop.ts:95-275 | at every model call the agent's state, unless it was assigned meanwhile, and the loop's context, unless a hook replaced it, are the old transcript followed by the messages ended so far; agent_end carries exactly those |
| AgentRuns.NothingDrainedIsLost | packages/agent/src/agent.ts:475-482 | when a run has ended, the messages that ended in it begin with the prompts, and all it drained from a queue is among them, in order |
| AgentRuns.RunIsBracketed | packages/agent/src/agent-loop.ts:109-118 | agent_start comes first and once, agent_end last and once |
| AgentRuns.TurnsAreBracketed | packages/agent/src/agent-loop.ts:170-275 | turn_end closes a turn that was started and has not ended; a turn starts, unless it is the first, and the run ends only after a turn has ended, so that a run has a turn |
| AgentRuns.TurnsNeverOverlap | packages/agent/src/agent-loop.ts:170-275 | a turn ends before the next one starts and before the run ends |
| AgentRuns.MessagesNeverOverlap | packages/agent/src/agent-loop.ts:314-371 | while a message is open only its updates and its end are emitted, no tool runs and no model is called |
| AgentRuns.EndsWhatWasStarted | packages/agent/src/agent-loop.ts:314-371 | a message is updated or ended only after that message was started, with none ended since |
| AgentRuns.NothingAfterToolEnd | packages/agent/src/agent-loop.ts:670-711 | after the end of a tool call nothing more comes from it in its turn |
| AgentRuns.ToolStartsFirst | packages/agent/src/agent-loop.ts:444-450 | a tool call is executed, updated or ended only after its start in the same turn, and updated only after its execution began |
| AgentRuns.StartedToolsEnd | packages/agent/src/agent-loop.ts:433-554 | every tool call that was started ends before its turn does |
| AgentRuns.OnlyWholeAnswersExecute | packages/agent/src/agent-loop.ts:192-214 | a tool is executed only for an answer of the same turn that was not cut off, failed or aborted |
| AgentRuns.ResultsArePrefix | packages/agent/src/agent-loop.ts:433-554 | the results of a turn are those of its first calls in order, of all unless aborted, of at least one if there are calls, of none when the answer failed |
| AgentRuns.ParallelResultsComeLast | packages/agent/src/agent-loop.ts:489-554 | in a parallel batch every tool event comes before the first result message |
| AgentRuns.FollowUpsComeLast | packages/agent/src/agent-loop.ts:259-268 | follow-ups are polled right after an empty steering poll, when every tool call of the turn asked to stop |
| AgentRuns.WhyTheRunEnds | packages/agent/src/agent-loop.ts:192-275 | a run ends right after a turn_end with a failed answer and no results, a hook that stops it, or an empty follow-up poll when every tool call of the last turn asked to stop |
| AgentPolls.EveryPollTakesWhatIsQueued | packages/agent/src/agent.ts:475-482 | every poll takes, by the mode, all that is then queued or the first of it; only the first steering poll of a run on steering messages is skipped |
| AgentPolls.EndsWithEmptyQueues | packages/agent/src/agent-loop.ts:259-274 | a run that ends for lack of work had nothing queued for steering at its last steering poll and no follow-up at the poll right after it |
| AgentPolls.WhyATurnStarts | packages/agent/src/agent-loop.ts:174-268 | a turn after the first starts right after a poll, and only if it brought messages or some tool call of the turn before did not ask to stop |
| AgentPolls.NothingButTheEnd | packages/agent/src/agent-loop.ts:196-257 | after a turn whose answer has failed, and after a hook has stopped the run, the loop only ends the run |
| AgentPolls.HooksComeFirst | packages/agent/src/agent-loop.ts:226-259 | once a turn has ended, steering is polled right after the hooks have let the run go on |
| AgentAnswers.StreamIsPassedOn | packages/agent/src/agent-loop.ts:314-348 | each event of the model's stream becomes the start or the update of its message before anything else happens |
| AgentAnswers.TurnsEndWithTheAnswer | packages/agent/src/agent-loop.ts:350-372 | the answer of a turn is the result of the model's stream in that turn |
| AgentAnswers.StreamingFollows | packages/agent/src/agent.ts:544-557 | the agent's streaming message is the one started or updated last and not ended |
| AgentAnswers.CallbacksAreUpdates | packages/agent/src/agent-loop.ts:670-711 | a tool's callbacks are emitted as updates until it has returned, and not after |
| AgentAnswers.CallsEndAsTold | packages/agent/src/agent-loop.ts:585-760 | a tool call ends with what the hook after it settled, or as an error when it was refused, aborted or truncated |
| AgentAnswers.ResultsSayHowItEnded | packages/agent/src/agent-loop.ts:763-790 | each result of a turn says whether its call ended as an error |
| AgentAnswers.AbortStopsTheBatch | packages/agent/src/agent-loop.ts:480-537 | after an abort no tool call but the first of a batch is started |
| AgentRuns.OnlyCheckedToolsExecute | packages/agent/src/agent-loop.ts:600-668 | a tool executes only after its check let it pass while the run was not aborted |
| AgentQueue.PendingMessageQueue.Enqueue | packages/agent/src/agent.ts:133-135 | appends |
| AgentQueue.PendingMessageQueue.Drain | packages/agent/src/agent.ts:141-154 | takes a prefix, all of it or one message by the mode, and nothing only when it is empty |
| AgentQueue.PendingMessageQueue.Clear | packages/agent/src/agent.ts:156-158 | forgets what is queued, and only that |
| AgentLoop.Agent.EmitEvent | packages/agent/src/agent.ts:544-591 | the agent's state follows the event, which must be one that may come now |
| AgentLoop.Agent.InjectPending | packages/agent/src/agent-loop.ts:182-190 | the waiting messages are emitted and put into both copies, in order |
| AgentLoop.Agent.PollSteering | packages/agent/src/agent.ts:475-481 | takes from the steering queue what its mode says; it skips exactly the first poll of a run on steering messages |
| AgentLoop.Agent.PollFollowUps | packages/agent/src/agent.ts:482-482 | takes from the follow-up queue what its mode says |
| AgentLoop.Agent.Steer | packages/agent/src/agent.ts:283-285 | queues a steering message, at any time |
| AgentLoop.Agent.FollowUp | packages/agent/src/agent.ts:288-290 | queues a follow-up message, at any time |
| AgentLoop.Agent.StreamAssistantResponse | packages/agent/src/agent-loop.ts:281-372 | whatever is streamed, the final message ends once and takes the partial one's place in the context |
| AgentLoop.Agent.PrepareToolCall | packages/agent/src/agent-loop.ts:600-668 | nothing is prepared once the run was aborted |
| AgentLoop.Agent.ExecutePrepared | packages/agent/src/agent-loop.ts:670-711 | updates are passed on only until the tool has returned |
| AgentLoop.Agent.FailToolCalls | packages/agent/src/agent-loop.ts:381-406 | every call of a truncated message is reported as an error, and none asks to terminate |
| AgentLoop.Agent.ExecuteToolCallsSequential | packages/agent/src/agent-loop.ts:433-487 | each call has its result before the next one starts; stops early only when aborted |
| AgentLoop.Agent.PrepareParallel | packages/agent/src/agent-loop.ts:497-538 | the calls are started in order until the run is aborted |
| AgentLoop.Agent.StartParallel | packages/agent/src/agent-loop.ts:540-542 | every prepared call is executed in order, and may emit updates before the next one is |
| AgentLoop.Agent.FollowSchedule | packages/agent/src/agent-loop.ts:522-542 | the prepared calls go on in any order |
| AgentLoop.Agent.AwaitParallel | packages/agent/src/agent-loop.ts:540-542 | the batch waits for all of them |
| AgentLoop.Agent.ReportParallel | packages/agent/src/agent-loop.ts:543-548 | the results come in the order of the calls |
| AgentLoop.Agent.ExecuteToolCallsParallel | packages/agent/src/agent-loop.ts:489-554 | all calls end, and their results are reported in order afterwards |
| AgentLoop.Agent.RunToolCalls | packages/agent/src/agent-loop.ts:203-222 | the batch is truncated, sequential or parallel by the answer, the agent's setting and the tools it names, and the loop goes on exactly when some tool call does not ask to terminate |
| AgentLoop.Agent.RunPrompts | packages/agent/src/agent.ts:409-435 | a run on prompts, whether given or drained from a queue |
| AgentLoop.Agent.RunTurn | packages/agent/src/agent-loop.ts:174-260 | one turn, from the messages that wait to the next steering poll, or to the end of the run |
| AgentLoop.Agent.RunLoop | packages/agent/src/agent-loop.ts:155-275 | every action of both loops is accepted by the automaton; a finished run has nothing in hand, and one that is not finished has ended as many turns as it was given |
| AgentLoop.Agent.RunAgentLoop | packages/agent/src/agent-loop.ts:95-118 | the prompts open the first turn; a finished run is accepted to its end and the state, unless it was assigned meanwhile, has grown by what it returns |
| AgentLoop.Agent.Prompt | packages/agent/src/agent.ts:350-358 | refused while a run is active; otherwise one run, after which the transcript, unless it was assigned meanwhile, has grown by the messages it ended, which begin with the prompts, and each queue's messages are in it in order or still queued |
| AgentLoop.Agent.ContinueRun | packages/agent/src/agent.ts:361-388 | continues as it is, or with what is queued, steering first; all refusals |
| AgentLoop.Agent.AssignMessages | packages/agent/src/agent.ts:84-89 | the transcript may be assigned at any time; a run under way keeps its own context and goes on, and what ends in it is added to the assigned one |
| AgentLoop.Agent.HasQueuedMessages | packages/agent/src/agent.ts:309-311 | true exactly when one of the queues holds a message |
| AgentLoop.Agent.Reset | packages/agent/src/agent.ts:333-345 | refused while a run is active; otherwise transcript and queues are empty |

## Left out

- CBOR encoding and the message schemas: decoding after encoding is taken to be the identity on valid messages, and validity is a predicate (`Codec.Schema`).
- Sockets, timers and real time: a timeout is a step that may happen at any time.
- Message contents, model payloads, usage numbers and the translation in packages/server/src/protocol.ts: opaque values.
- Listeners, hooks and streams that throw against their documented contracts, and handleRunFailure(), which reports such a failure.
- Re-entrant connect() from a listener: packages/client/src/connection.ts:156-159 looks at the state and not at the attempt.
- Objects for live sessions, runtimes, connections and promises: `LiveSessionManager.Manager` and the other classes keep them as entries of a list and refer to them by position, so aliasing of these objects is not modelled.
- The maps keyed by session id or provider id in `Leases` and `ModelPublication`: each model is the projection to one key. The code never reads one key's entry for another.
- SessionLeases.LeaseTable.FinishRelease: a detach that fails with relinquishOnFailure, and the reconciliation after it (packages/client/src/client.ts:257-260 and 363-379), are not modelled.
- Runtime exclusivity after close() has collected: not claimed, since another acquire can then ask for the same id again.
- Order between requests that waited for the handshake and requests that came once ready: the code does not promise it.
- One state machine for all server modules at once: `Requests` and `Snapshots` each model the handshake as far as they need it, and `Requests` takes the execution of a command as a step that ends with `Commands.ExecuteCommand` of whatever the service said, or with an error.
- The service's list result in a broadcast and in a hello: only its revision is followed.
- Construction with a maxFrameLength out of range, which throws.
- toLowerCase() is a parameter of `Fuzzy.FuzzyMatchQuery`; fuzzyFilter and its sorting are not modelled. The source adds 0.1 in floating point, the model counts exact tenths.
- AgentLoop.Agent.RunLoop: the loops need not end, so a run is followed for an arbitrary number of turns; a run that goes on longer is covered up to there.
- SnapshotPublisher.Server.SendMessage: a message that cannot be encoded or sent closes its connection; the model has this as the step TransportCloses before it, and Disconnect after it.
- AgentLoop.Agent.StreamAssistantResponse: a model's stream starts its message at most once, as its contract says; the source would follow a second start.
- AgentLoop.Agent.FollowSchedule: parallel tool calls follow an arbitrary finite schedule, and whatever it leaves over returns in the order of the calls.
- AgentLoop.Agent.RunAgentLoop: also stands for runAgentLoopContinue(), which is the same with no prompts.
- AgentLoop.Agent.Reset: of the agent's state only messages, streamingMessage, the queues and the active run are modelled; isStreaming, pendingToolCalls and errorMessage are not.
- mergeHeaders, calculateCost, thinking levels, authentication and streaming dispatch in packages/ai/src/models.ts: thin branching.
- Session snapshots and their revisions on the client (packages/client/src/state.ts:106-113): the same filter as for server snapshots.
