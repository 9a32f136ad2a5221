# A verified model of the rdma-cpp transport

rdma-cpp is a sketch of an RDMA transport on top of the verbs and RDMA-CM libraries. This
project models the four parts of it that carry an algorithm or a protocol and proves what they
keep, for all inputs, all outcomes of the library calls, and all runs.

| file | what it models |
|---|---|
| `Base.dfy` | machine integers, `Option` |
| `ReadList.dfy` | the read list (section 4.3.1 of RFC 8166), its sizes and the slices of the landing buffer |
| `ReadPoster.dfy` | `fs_rdma_do_reads`: sum, buffer, slices, request chain, post, references |
| `ReadSteps.dfy` | the same poster interleaved with a device that completes reads in any order |
| `Ledger.dfy` | lawful histories of creating, destroying and using foreign objects |
| `ClientMachine.dfy` | the handlers of the client event loop as functions on the state of the context |
| `ClientSafety.dfy` | what every run of the event loop keeps |
| `ClientTurns.dfy` | what each kind of event does: calls, objects left, answer awaited |
| `ClientAcks.dfy` | acknowledgement of events, and when the id is destroyed under one |
| `ClientContext.dfy` | the context and its handlers with fields assigned in place, tied to `ClientMachine` |
| `CompletionQueues.dfy` | depth of the completion queues against any run of posts, completions and polls |
| `Connector.dfy` | `rdma_client_connect`: two resolution loops on one retry budget, then the connection |
| `ConnectRetry.dfy` | `retry_rdma_connect`: at most ten trials |
| `ReadAll.dfy` | the `readAll` loop over a source that returns short reads |
| `Dispatch.dfy` | the call routes through towers of `TVirtualTransport` |

## How the model reads the code

Library calls (`rdma_*`, `ibv_*`, allocation, registration, the buffer pool) take their outcome
from a parameter (`Env`, `CreateEnv`, `Reply`, `Attempt`, `Trial`, `cuts`) over which every result
is universal. Where a loop stops at the first failing call, the parameter names that call.

Places where the code does not compile or plainly slips, and the reading taken:

- `rdma_ctx->cq` and `rdma_ctx->content` in the release code stand for `send_cq`/`recv_cq` and `context`.
- The release loops release `qp[i]`, `mr[i]`, `buf[i]`, and null that element; as written they null the whole array at the first index. The arrays start out null.
- A failed `memalign` (src/c/transport.c:315-319) goes to `out`.
- `fs_rdma_cm_handle_connect_init` starts from `ret = 0`.
- `rdma_client_connect` closes at line 189: the comment at src/Connection.cc:177-186 swallows one brace. Only connections that are not UD are modelled.
- The copy into `event_copy` (src/c/transport.c:115) reads through `event` before `ret` is tested at line 117. When the get fails, `event` is null or already acknowledged; the loop's exit is read as if the copy were absent. Nothing else uses the copy.

Assumptions about the libraries:

- Registration appends one region on success and nothing on failure; vector and region table of the post have room; the read list ends within its array and has at most 2^31 - 1 entries.
- `iobref_add` takes its reference (the code ignores its result).
- `ibv_post_send` follows the chain, `bad_wr` names the first request not accepted, and a null `bad_wr` on failure means that none was.
- Every accepted request completes once, and its completion drops one reference on the post. The remote segments do not change while reads are outstanding.
- Connection events: an address, route or established event of the context's own id comes only as the answer to an outstanding call on it, an established event of another id only while the context has an id. Errors, disconnects and other events may come at any time.
- `fs_rdma_create_ctx` succeeds, and there is one `fs_rdma_connect` per run. `use_srq` and `use_event` are off, their defaults.
- A completion queue of a depth that is not positive is refused.
- The connection type is a known one: an unknown one returns 0 in the middle of the creation, past the rollback (src/c/transport.c:288-294).
- A failed `create_rdma_resources` leaves nothing behind, and each creation makes a fresh event channel.
- A read returns at most what it was asked for, and nothing only at the end of the stream.

## What turned out false of the code, and the exact condition

- Teardown does not always find the current event acknowledged: `ClientAcks.DestroyedUnderEvent` gives exactly the runs in which the id is destroyed while its event is outstanding (a failing call inside the address or route handler), and `DestroyedUnderEventHappens` gives one.
- Both completion queues need not exist after a successful creation: the check behind the second one tests the first again (`ClientSafety.ReceiveQueueUnchecked`). Over runs, a connected context has its receive queue exactly when the creation of its one successful route answer made it (`ClientSafety.ConnectedReceiveQueue`); `ConnectsWithoutReceiveQueue` gives a run that connects without one.
- The completion queues can overflow when the device grants less depth than asked for, or when the product wraps to a smaller positive depth: `CompletionQueues.QueuesNeverOverflow` is an equivalence, and `OverflowHappens` gives a run for the default of one queue pair.
- `work_rdma_cm` is not restored when creating the context fails: `Connector.FlagRestored` says exactly when, `FlagLost` gives such a call, and `ConnectRetry.NoReceiveAfterInitFailure` says what later trials then skip.
- A tower built directly on `TTransport` can call itself forever: `Dispatch.EndsExactly` says exactly which members of which towers do. For `readAll` the reads its loop makes are part of the call. `CallsItselfForever` gives the smallest tower, for `read` and `readAll`.

## Model

| member | source | states |
|---|---|---|
| ReadList.SizeNeverWraps | src/c/transport.c:625-627 | with 32-bit lengths and an `int` count no partial sum reaches 2^64 |
| ReadList.SlicesTile | src/c/transport.c:684-719 | each offset below the total lies in exactly one slice, and no slice reaches beyond |
| ReadList.SlicesMakeGathered | src/c/transport.c:684-719 | a buffer whose slices hold the segments is their concatenation in list order |
| ReadPoster.Measure | src/c/transport.c:625-627 | the first walk returns the number of entries and the exact total, in wrapping 64-bit arithmetic |
| ReadPoster.TakeBuffer | src/c/transport.c:639-657 | the buffer ends up held once, by the iobref, or fully released |
| ReadPoster.BuildOne | src/c/transport.c:684-719 | one turn: the slice is entered even if its registration fails; request, entry and reference only if it succeeds |
| ReadPoster.BuildRequests | src/c/transport.c:684-719 | after the walk, or at the failing registration, requests, slices, regions and references agree |
| ReadPoster.EntriesInOrder | src/c/transport.c:685-704 | the vector keeps its old entries and names slice j at place count+j; region j covers slice j under its key |
| ReadPoster.UnrepairedChainRunsOff | src/c/transport.c:709-720 | as the loop links it the chain leaves the array, from any request |
| ReadPoster.ChainVisitsAll | src/c/transport.c:709-720 | once repaired, following `next` visits each request once, in list order, and ends |
| ReadPoster.RepairedChainReads | src/c/transport.c:700-720 | what the device decodes along the repaired chain is one read per segment with its own slice, address and keys |
| ReadPoster.ReadsTileBuffer | src/c/transport.c:684-719 | the reads write every byte of the buffer once and none outside |
| ReadPoster.RequestServesEntry | src/c/transport.c:684-719 | request i carries entry i's remote address, key and length, its own local key, and the offset of all entries before it |
| ReadPoster.QueuePair.PostSend | src/c/transport.c:721-721 | the device takes the requests met along the chain, up to the refused one |
| ReadPoster.CountRefused | src/c/transport.c:734-739 | what is left of the count is the number of requests from the refused one on |
| ReadPoster.Submit | src/c/transport.c:720-742 | the device holds the first k owed reads, and the count left is the rest of them |
| ReadPoster.ReleaseRefs | src/c/transport.c:754-755 | gives back exactly the count, never below the references there are |
| ReadPoster.PostReads | src/c/transport.c:660-762 | the exact result, reads posted, references, slices and regions over connection, allocations, registrations and the answer of the post; both scratch arrays are freed |
| ReadPoster.DoReads | src/c/transport.c:611-763 | returns 0 exactly for a non-empty list with buffer, holder, connected peer, both arrays, every registration and a post that takes all, else -1; the reads posted equal the references gained: all of them, those before the refused one, or none; vector, regions, and the owner of the landing buffer |
| ReadSteps.InvNext | src/c/transport.c:684-755 | every step of poster or device keeps the count of references and the settled slices |
| ReadSteps.ReferencesCounted | src/c/transport.c:684-755 | at any point of any interleaving: references are the caller's, one per outstanding read, and those held for unaccepted requests; never less than the first two |
| ReadSteps.QuietSlices | src/c/transport.c:684-755 | with no read outstanding, accepted slices hold their segments and the others are untouched, whatever the order |
| ReadSteps.BufferGathered | src/c/transport.c:625-721 | after success and all completions the buffer is the concatenation of the segments, and only the caller's references are left |
| ReadSteps.ByteGathered | src/c/transport.c:625-721 | byte k of segment j ends up behind all earlier segments and is the byte at offset + k of its remote segment |
| ReadSteps.StepsRunOut | src/c/transport.c:684-755 | every step but an early write of the device lowers a bound, so every run ends |
| ReadSteps.RunsToQuiet | src/c/transport.c:684-762 | from any point the run can go on to its end, with the caller's references |
| ReadSteps.PosterStepsMatch | src/c/transport.c:684-762 | the poster's own steps, uninterrupted, end in the result, references and accepted reads that `PostReads` promises |
| ReadSteps.ReturnedRunIsPosterRun | src/c/transport.c:684-762 | any returned run, its device steps erased, is the uninterrupted run of the poster for some outcomes of its calls, with that run's result and accepted reads |
| Ledger.ReleasesLawful | src/c/transport.c:329-370 | releasing in an order with no live users is lawful and takes away exactly the handles of the order |
| Ledger.CreatesLawful | src/c/transport.c:191-327 | obtaining in an order that respects needs is lawful and adds exactly those handles |
| Ledger.LiveIsCounted | src/c/transport.c:184-498 | in a lawful history an object is live exactly when it was created once more than destroyed |
| Ledger.DestroyedAfterUsers | src/c/transport.c:329-370 | a lawful history destroys only what is there, and after every queue pair, region, queue or domain made with it |
| Ledger.CreatedAfterNeeds | src/c/transport.c:191-327 | it creates only what is not there, and after everything it is made with |
| Ledger.CalledOnLiveId | src/c/transport.c:171-522 | every call on the connection id finds the id created and not destroyed |
| ClientMachine.MarkedGot | src/c/transport.c:271-327 | what a creation obtains before a failure is an initial part of all queue pairs then all regions; all of it on success |
| ClientMachine.SlotsInOrder | src/c/transport.c:331-347 | the release order takes queue pair, region and buffer of each index in turn |
| ClientSafety.SlotsReleasable | src/c/transport.c:331-347 | the release loop never destroys an object with a live user, for every count |
| ClientSafety.GotCreatable | src/c/transport.c:191-327 | the acquisition order respects every dependency, up to any failure point |
| ClientSafety.CreateSound | src/c/transport.c:184-372 | a creation obtains everything or gives everything back, lawfully |
| ClientSafety.GotExactly | src/c/transport.c:191-327 | each kind of object is obtained exactly when every call up to its own succeeds |
| ClientSafety.CreationExactly | src/c/transport.c:184-372 | after a creation everything for the index range is live if all calls but the one for the receive queue succeed, and nothing new otherwise |
| ClientSafety.RollbackSound | src/c/transport.c:329-370 | rollback is lawful after any partial creation and leaves only the id |
| ClientSafety.TeardownSound | src/c/transport.c:461-498 | teardown is lawful in any sound state, also after rollback or repeated, and leaves nothing but an opened device |
| ClientSafety.ReceiveQueueUnchecked | src/c/transport.c:248-254 | after success the receive queue exists exactly when it could be created |
| ClientSafety.TurnInv | src/c/transport.c:108-169 | one turn of the loop keeps the invariant for every event and every outcome |
| ClientSafety.ResourcesBalance | src/c/transport.c:108-498 | in every run no object is released twice, destroyed under a user or overwritten while live; live objects are those the context points to; without its id at most the device is live; no event is outstanding at the loop head |
| ClientSafety.ConnectedInOrder | src/c/transport.c:108-522 | connected exactly when address asked, address, route asked, route, all queue pairs, all regions, the connect call and the connection came, in this order, and never without the address call |
| ClientSafety.ConnectedStays | src/c/transport.c:500-522 | `connected` is never taken back |
| ClientSafety.ConnectingTurn | src/c/transport.c:500-522 | the connecting event names the context's own id, and every queue pair, buffer and region is live |
| ClientSafety.EveryTeardownCleansUp | src/c/transport.c:139-182 | after an error, a disconnect, or a failing call in the address or route handler, nothing but an opened device is live |
| ClientSafety.ConnectsWhenAllSucceeds | src/c/transport.c:108-522 | when every call but perhaps the one for the receive queue succeeds, the three answers connect, with every resource live, for every number of queue pairs |
| ClientSafety.ConnectedReceiveQueue | src/c/transport.c:248-254 | in every run a connected context with its id has a live receive queue exactly when the creation of its successful route answer made one |
| ClientSafety.ConnectsWithoutReceiveQueue | src/c/transport.c:248-254 | if everything but that queue is created, three answers connect without it, for every number of queue pairs |
| ClientTurns.TurnCalls | src/c/transport.c:108-522 | each event is taken and acknowledged once; in between an address asks for the route, a route for the connection if all was made, an established event connects or, connected already or of another id, disconnects |
| ClientTurns.RouteAskedOncePerAddress | src/c/transport.c:171-182 | in every run each address answer is followed by one call for the route, made nowhere else, and the address call comes first |
| ClientTurns.AddrTurnLeaves | src/c/transport.c:171-182 | with the route asked for only the id is live and the route awaited; with the call refused nothing is live |
| ClientTurns.RouteTurnLeaves | src/c/transport.c:374-421 | everything is live and the connection awaited; or a device, when connecting fails; or nothing, when creating fails |
| ClientTurns.OtherTurnLeaves | src/c/transport.c:108-169 | the own established event connects and changes no object; an unhandled event changes nothing; each error and the disconnect leave at most the device |
| ClientAcks.NothingOwedAtLoopHead | src/c/transport.c:113-166 | whatever events come, each is acknowledged once before the next |
| ClientAcks.DestroyedUnderEvent | src/c/transport.c:123-182 | the id is destroyed under an unacknowledged event exactly in runs where the route call, a call of the creation or the connect call fails |
| ClientAcks.DestroyedUnderEventHappens | src/c/transport.c:171-182 | a run in which it is |
| ClientContext.RdmaContext.constructor | src/c/transport.c:535-566 | the context starts with its id, null pointers, not connected, and the address asked for |
| ClientContext.RdmaContext.CreateResources | src/c/transport.c:184-372 | returns 0 with every pointer set (the receive queue's if it could be made) exactly when all other calls succeed, else -1 with every pointer null; in both cases as the state machine says |
| ClientContext.RdmaContext.Rollback | src/c/transport.c:329-370 | releases what is not null, slot by slot, then queues, domain and device |
| ClientContext.RdmaContext.Teardown | src/c/transport.c:461-498 | releases what is not null, slot by slot, then queues, domain and id |
| ClientContext.RdmaContext.HandleAddrResolved | src/c/transport.c:171-182 | asks for the route, or tears down |
| ClientContext.RdmaContext.HandleRouteResolved | src/c/transport.c:374-421 | creates and connects, or tears down |
| ClientContext.RdmaContext.HandleConnectInit | src/c/transport.c:500-522 | connects on the own id once, disconnects otherwise |
| ClientContext.RdmaContext.EventLoop | src/c/transport.c:108-169 | the loop does what the run of the state machine does and keeps its invariant; without an id no pointer but the device's is set |
| CompletionQueues.ProductFits | src/c/transport.c:237-237 | the product of depth and count is exact in a 32-bit int exactly up to 524287 queue pairs |
| CompletionQueues.DepthExactly | src/c/transport.c:237-240 | the depth is the lesser of the grant and 4096 times the count, which wraps with period 2^20 to negative in the upper half |
| CompletionQueues.CapacityNeeded | src/c/transport.c:273-286 | no run overflows a queue of some capacity exactly when it is at least the depth times the count |
| CompletionQueues.DepthPositive | src/c/transport.c:237-240 | the depth passed to the creation calls is positive exactly for a positive limit and a count that does not wrap it to 0 or below, with period 2^20 |
| CompletionQueues.QueuesNeverOverflow | src/c/transport.c:237-284 | either the creation is refused or no run overflows a queue, exactly when the depth is not positive or the product fits an int and the device grants it |
| CompletionQueues.OverflowHappens | src/c/transport.c:237-240 | with one queue pair and any grant below 4096, a run with more completions than places |
| Connector.ResolveIff | src/Connection.cc:58-122 | a resolution loop resolves after m errors exactly when the answer comes then, within retries and calls |
| Connector.LoopExactly | src/Connection.cc:58-122 | however a loop ends: its calls, the events it takes and the errors it uses up, from the number of errors in front |
| Connector.SucceedsExactly | src/Connection.cc:30-189 | the connector succeeds exactly when its calls do and the events have the expected shape with fewer errors than retries, over both loops |
| Connector.TakesExactlyTheShape | src/Connection.cc:58-188 | on success it has taken exactly those events |
| Connector.ConnectIssuedOnce | src/Connection.cc:136-153 | the connect call is made once, exactly where the context was created and the receive, if needed, posted; so on every success |
| Connector.CountsWhenResolved | src/Connection.cc:58-175 | calls of both loops and events taken in every call whose loops resolve |
| Connector.CountsOfAddress | src/Connection.cc:58-89 | calls and events of the address loop, and no route call, where the address does not come |
| Connector.CountsOfRoute | src/Connection.cc:91-122 | calls and events of the route loop on what is left of the budget, where the route does not come |
| Connector.NothingWithoutHost | src/Connection.cc:44-53 | with an unusable host nothing is called or taken |
| Connector.CallsBounded | src/Connection.cc:58-122 | both loops together make at most N + 1 calls |
| Connector.CallBoundReached | src/Connection.cc:58-122 | and that many can be made, for every N |
| Connector.FlagRestored | src/Connection.cc:125-138 | the flag is left as it was unless creating the context failed with it off |
| Connector.FlagLost | src/Connection.cc:125-138 | for every number of retries, a call that began with the flag off and leaves it on |
| Connector.ReceivePostedWhenOff | src/Connection.cc:142-148 | a receive is posted in exactly the calls that create their context with the flag off |
| Connector.Session.ResolveAddr | src/Connection.cc:58-89 | the address loop ends as its closed form says and acknowledges each event it takes |
| Connector.Session.ResolveRoute | src/Connection.cc:91-122 | the route loop likewise, on what the first left |
| Connector.Session.ClientConnect | src/Connection.cc:30-189 | result, events taken and all acknowledged, calls, and the flag, on every return |
| ConnectRetry.RetryIsFirstSuccess | src/Connection.cc:341-362 | connects exactly when some trial is a first success, with one more creation than destructions |
| ConnectRetry.RetryBalance | src/Connection.cc:341-362 | creations minus destructions is 1 exactly on success or a failed destruction, else 0; all trials are used when exhausted |
| ConnectRetry.RetryEndsAt | src/Connection.cc:344-361 | which of the four ends the trial reached gives, with its creations and destructions |
| ConnectRetry.CallsInAll | src/Connection.cc:344-359 | at most the number of trials times N + 1 resolve calls |
| ConnectRetry.NoReceiveAfterInitFailure | src/Connection.cc:125-148 | after a trial whose context could not be created no later one posts a receive |
| ConnectRetry.RetryConnect | src/Connection.cc:341-362 | ten turns at most; the loop ends as the trials say, with every event acknowledged |
| ReadAll.EveryPiecePossible | src/interface/TTransport.h:95-106 | every positive size up to what is asked for and left is a size some cut returns, so the cuts cover all short reads |
| ReadAll.ReadsNextBytes | src/interface/TTransport.h:35-49 | however the stream is cut, all bytes asked for come in order, or all there were |
| ReadAll.TwoReadsAreOne | src/interface/TTransport.h:36-48 | m then n bytes is m + n bytes at once, under any two cuttings, also when the stream ends early |
| ReadAll.ReadAllBytes | src/interface/TTransport.h:35-49 | the buffer gets exactly the next bytes, or the prefix before the end-of-file exception, and nothing else changes |
| Dispatch.BaseAndDerivedAgree | src/interface/TVirtualTransport.h:45-118 | through base or derived type a call ends, in the same code |
| Dispatch.EndsOnce | src/interface/TVirtualTransport.h:80-118 | a call ends in one code at most |
| Dispatch.ReachesNearestDeclaration | src/interface/TVirtualTransport.h:80-118 | a call through a class or through the base reaches the member in the nearest class that declares it |
| Dispatch.ReachesDefault | src/interface/TVirtualTransport.h:45-60 | where none does, the default of the base |
| Dispatch.ReachesOwnLoop | src/interface/TVirtualTransport.h:105-118 | a readAll the class called does not declare is its own loop, reading through itself |
| Dispatch.BehavesAsMeant | src/interface/TVirtualTransport.h:80-118 | from every class of a tower on `TTransportDefaults` a call comes to the nearest declaration or default, or to the loop over the nearest `read` |
| Dispatch.BehavesOnce | src/interface/TVirtualTransport.h:80-118 | a call comes to one code, or one loop over one `read`, at most |
| Dispatch.PartialViewAgrees | src/interface/TVirtualTransport.h:80-118 | on `TTransportDefaults`, calls through a lower class and through the most derived one come to the same exactly when nothing above declares the member; for `readAll` of a class below the top, when the top class declares none and either the call is through `TTransportDefaults` (its loop reads virtually), or the class called declares none and nothing above it declares `read` |
| Dispatch.DefaultReadAllReadsMostDerived | src/interface/TVirtualTransport.h:115-118 | every default `readAll` is the loop over the most derived `read` |
| Dispatch.LowerReadAllHidden | src/interface/TVirtualTransport.h:105-118 | a parent's own `readAll` is not used when the top class declares none |
| Dispatch.EndsExactly | src/interface/TVirtualTransport.h:39-118 | through base or derived type a call ends, the reads of a loop included, exactly when the tower stands on `TTransportDefaults`, has no layer, or supplies the member: some class declares it, for `readAll` the top class declares it or some class declares `read` |
| Dispatch.CallsItselfForever | src/interface/TVirtualTransport.h:39-61 | one class that declares nothing, directly on `TTransport`, answers neither `read` nor `readAll` |

## Left out

- The server paths (`fs_rdma_cm_handle_connect_request`, `fs_rdma_listen`, `rdma_server_connect`): no intended invariant can be read from them, and a connect request cannot reach a client.
- Shared receive queues and completion channels: they are created and never destroyed.
- `fs_rdma_destroy_ctx` after a teardown, several connects in one process, and a failing `fs_rdma_create_ctx`, whose result the code ignores.
- UD connections, addresses and name lookup, connection parameters, logging, delays, and device lookup.
- src/Transport.cc and src/Qp.cc (a second event loop around calls that are not part of this model), and the declarations in src/api.
- The completion handler that drops the references of accepted reads is not part of this model; its effect is an assumption.
- A failing `iobref_add`, and the memory behind addresses: the landing buffer is an address range whose bytes are modelled in `ReadSteps`.
- `write`, `borrow` and `consume` beyond dispatch: their defaults throw or return null.
- ReadPoster.QueuePair.PostSend: an asynchronous device is modelled in `ReadSteps`; here the accepted requests are recorded at once.
