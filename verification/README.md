# A verified model of libjapi

libjapi serves newline-delimited JSON over TCP: one server thread multiplexes any number of clients with
`select()`, and push services send messages to subscribed clients from threads of their own. This project
models its stateful cores and proves what they keep, over every input, every cut of the streams into blocks
and every run.

| part | files |
|---|---|
| C string routines, the reference meaning of a stream | `Bytes`, `Lines` |
| the operating system as an oracle: scripts of what `read()` and `write()` will do | `System` |
| `creadline_r`: specification, theorems over repeated calls, the loop on arrays | `CReadLine`, `Chunking`, `CReadLineLoop` |
| `write_n`, the frame builder, the round trip | `RwN`, `Framing` |
| client lists relinked in place, as sequences of descriptors | `Sockets`, `ClientLists` |
| push services: values, heap lists of lists, the `sendmsg` walk | `Services`, `ServiceTables`, `PushSend` |
| request registry and dispatch: values, heap; what each kind of request does | `Names`, `Registry`, `Dispatch`, `Api`, `Requests` |
| the server loop: one connection, the state machine, the loop on the heap with all its lists; how a run ends and that clients are heard | `Sessions`, `Server`, `Application`, `ServerLoop`, `Progress` |
| the loop as one request after the other, with its dispatcher, and with its subscribers | `Sequential`, `Conversations`, `Subscribers` |
| a whole program from `japi_init` to the end of the server | `Serving` |
| subscriptions against connections, by critical sections | `Subscriptions` |
| a push service under several threads, one pointer operation at a time | `PushThreads` |
| register, start, stop and destroy of push services among their threads | `Lifecycle` |

Each imperative routine is a method on a class or an array, proved equal to a function of the old state; the
theorems are lemmas about those functions and about runs of them. What `read()`, `write()`, `select()`,
`accept()`, `malloc()` (which address) and the thread scheduler will do is quantified over: it is a parameter
of every theorem. Line numbers in comments refer to the C file the module models.

## Where the code falls short of its documentation

- `include/japi.h:134` and `doxydir/1_usage.md:22` reserve names that begin with `japi_`. The check is
  case-sensitive while lookup is not, so `JAPI_x` can be registered (`Registry.ReservedOnlyInLowerCase`,
  `Registry.UpperCaseIsAccepted`). The five built-in names stay safe in every spelling (`Registry.BuiltinsStand`).
- `src/japi_intern.h:108-116` promises that a client is removed from all push services. A client that
  subscribed twice can keep a subscription, and the next connection with its descriptor inherits it
  (`Subscriptions.DisconnectClearsIff`, `Subscriptions.SubscribedTwiceOutlives`).
- `japi_pushsrv_unsubscribe` removes without the lock (`src/japi_pushsrv.c:254`), which a concurrent
  send or removal does not survive: it is unsafe exactly when the list is not empty
  (`PushThreads.UnlockedUnsubscribeIsUnsafeIff`, `PushThreads.DanglingIsReachable`).
- `japi_pushsrv_start` on a service whose thread still runs forgets that thread, and destroy frees the service
  under it. So does a start that fails in `pthread_create`: it clears `enabled`, and destroy joins nothing
  (`Lifecycle.StartIsUnsafeIff`, `Lifecycle.SecondStartIsReachable`).
- Whether a line of 2^26-1023 to 2^26-1 bytes is accepted depends on where the blocks fall
  (`Chunking.BlocksDecideIff`, `Chunking.SameLineTwoOutcomes`).
- `doxydir/3_communication_concepts.md:77` promises, if configured, "the arguments given in the request" in the
  response. A subscribe or unsubscribe request gets back the socket the server put into them, because the response
  holds the same object; all other requests get back what they gave (`Dispatch.ArgsAreEchoedIff`,
  `Dispatch.SubscribeEchoesTheSocket`).

## Model

| member | source | states |
|---|---|---|
| Bytes.StrNPosLoop | src/creadline.c:54-68 | the index loop returns the position at which the search, which gives up at a NUL, finds the character, or -1, and counts the bytes it looks at |
| Bytes.StrNPosMeaning | src/creadline.c:54-68 | the result is the first occurrence if no NUL stands before it, else -1 |
| Bytes.StrNPosIsSearch | src/creadline.c:54-68 | on NUL-free data it is plain search |
| Bytes.LookedMeaning | src/creadline.c:54-68 | the bytes it looks at are those up to the one found, else all of NUL-free data |
| Bytes.StrNCpyLoop | src/creadline.c:169 | the bytes copied are those of strncpy, zeros after the first NUL, and the rest of the target is untouched |
| Bytes.StrNCpyIsCopy | src/creadline.c:91-169 | strncpy loses nothing if and only if only NULs follow a NUL |
| Bytes.StrNCpyStopsAt | src/creadline.c:91-169 | everything before the first NUL is copied, and NUL from there on |
| Lines.JoinSplit | src/creadline.c:164-184 | the lines of a stream, each with its newline, followed by its tail are the stream |
| Lines.SplitHasNoNewline | src/creadline.c:164-184 | no line and no tail holds a newline |
| Lines.SplitJoin | src/creadline.c:164-184 | and no other lines and tail are |
| Lines.StripMeaning | src/creadline.c:173-180 | of a line that ends in a carriage return exactly that one byte goes, and no other line is changed |
| CReadLine.GrowthMakesRoom | src/creadline.c:107-124 | the buffer size stays 1024 times a power of two, at most 2^26; one doubling makes room for a block; twice the size fits an int; the limit is hit exactly when less than a block of 2^26 is left |
| CReadLine.ScanConserves | src/creadline.c:99-162 | for any input, what is buffered is what was there and what was read, the newline found lies at most one block from the end, and the stream as a whole is unchanged |
| CReadLine.ScanFindsFirst | src/creadline.c:99-162 | on NUL-free input the block-by-block search finds the first newline of everything buffered and still to come, or stops only for end of file, a read failure or the size limit |
| CReadLine.ReadLineConserves | src/creadline.c:70-192 | for any input, old carry plus bytes read are the raw line, its newline and the new carry, which is at most 1023 bytes; every line uses up at least one byte |
| CReadLine.ReadLineMeaning | src/creadline.c:70-192 | on NUL-free input a call returns the bytes before the first newline, less the last of them if that is a carriage return, and leaves exactly the rest; end of file and failure are reported only when there is no line, for the reasons listed |
| Chunking.CallsReturnTheLines | src/creadline.c:70-192 | repeated calls return the stream split at newlines, then end of file if the tail is empty and the stream sound, else failure, for lines of at most 2^26-1024 bytes |
| Chunking.ChunkingIndependence | src/creadline.c:99-162 | two deliveries of one stream, however cut and interrupted, give the same results |
| Chunking.CallsReturnAPrefix | src/creadline.c:70-192 | with lines of any length, what is returned is a prefix of the true lines, and all of them before an end of file |
| Chunking.LineReturnedIff | src/creadline.c:107-162 | a call returns a line if and only if the carry holds a newline, or one arrives and at most 2^26-1024 bytes are buffered when its block is read |
| Chunking.AlwaysAcceptedIff | src/creadline.c:107-162 | every delivery of a line is accepted if and only if it has at most 2^26-1024 bytes |
| Chunking.EverAcceptedIff | src/creadline.c:107-162 | some delivery of a line is accepted if and only if it has at most 2^26-1 bytes |
| Chunking.BlocksDecideIff | src/creadline.c:107-162 | one delivery of a line is accepted and another refused if and only if it has 2^26-1023 to 2^26-1 bytes |
| Chunking.SameLineTwoOutcomes | src/creadline.c:107-162 | a line of 2^26-1023 bytes, delivered in two ways: one gives the line, the other an error |
| Chunking.ScanBlocksBound | src/creadline.c:99-162 | a call makes at most 2^26-1023 successful reads, even on an endless stream without newlines |
| Chunking.RecopiedBound | src/creadline.c:107-124 | realloc copies fewer than twice the bytes buffered plus 1024 in a call; what is counted is what the loop copies, by CReadLineLoop.ReadUntilNewline |
| Chunking.ReadLineKeepsEnding | src/creadline.c:126-151 | a call does not change whether the stream ends in an error |
| CReadLineLoop.Restore | src/creadline.c:80-94 | the fresh line buffer starts with the carry, as strncpy copies it, and the carry is emptied |
| CReadLineLoop.MakeRoom | src/creadline.c:103-124 | room for one block without losing a buffered byte, or refusal exactly past the limit; the bytes copied are counted |
| CReadLineLoop.Finish | src/creadline.c:164-184 | bytes after the newline go to the carry buffer; the line is terminated in place at the newline, or one byte before it if that is a carriage return, which is the length returned |
| CReadLineLoop.ReadBlock | src/creadline.c:126-161 | one read of at most a block behind the bytes buffered, one search of it; EINTR, error and end of file told apart |
| CReadLineLoop.Pass | src/creadline.c:107-161 | one pass reads at most one block and advances the specified scan by one step, or ends it with the right return code |
| CReadLineLoop.ReadUntilNewline | src/creadline.c:99-162 | the loop computes the specified scan and terminates, and the bytes realloc copies on the way are exactly those of the specified count |
| CReadLineLoop.FindLine | src/creadline.c:96-162 | the restored bytes are searched first, and only without a newline in them is anything read |
| CReadLineLoop.ReadLineR | src/creadline.c:70-192 | for every input, NUL or not: return code, line, new carry and connection are those of the specification; all accesses in bounds; all searches of a call together look at no more bytes than were carried over and read |
| RwN.WriteN | src/rw_n.c:57-73 | return code and bytes sent are those of the specified loop over short writes, on any descriptor |
| RwN.WriteAllMeaning | src/rw_n.c:57-73 | it returns the count if and only if every byte went out, and 0 or -1 if and only if fewer did |
| RwN.WriteAllExactly | src/rw_n.c:57-73 | every byte goes out if and only if write() never refuses or takes enough before it does; else all it takes before it refuses, and the result is 0 or -1 as it refused |
| Framing.AsNdStr | src/japi_utils.c:231-249 | the array holds text, newline and NUL, and its C length is the frame's |
| Framing.SendAllMeaning | src/rw_n.c:57-73 | consecutive frames all go out, or whole frames and then a proper prefix of the next |
| Framing.SendAllSucceeds | src/rw_n.c:57-73 | all of them go out where write() never refuses |
| Framing.RoundTrip | src/japi_utils.c:231-249 | payloads framed, written under any short writes and read under any short reads come back as they were if and only if none holds a newline or ends in a carriage return |
| Framing.CrLfRoundTrip | src/creadline.c:164-184 | lines sent with CR LF come back whole, whatever is in them, a carriage return at their end included |
| ClientLists.ClientList.Add | src/japi.c:368-399 | the descriptor is linked in front with an empty carry buffer of its own; all other nodes stay |
| ClientLists.ClientList.Remove | src/japi_pushsrv.c:86-132 | the three branches take out and free exactly the first node with the descriptor, keep the order of the rest, and return -1 and change nothing if there is none |
| ClientLists.ClientList.Drain | src/japi_pushsrv.c:398-407 | the loop frees every node once and ends empty, duplicates included |
| Sockets.RemoveFirstMultiset | src/japi_pushsrv.c:86-132 | removal takes one occurrence away, if there is one, and no other descriptor |
| PushSend.PushService.Visit | src/japi_pushsrv.c:484-502 | one visit writes once to the current node, unlinks the first node of the descriptor on failure, and the saved next node is the first of those ahead |
| PushSend.PushService.Walk | src/japi_pushsrv.c:481-504 | the walk over the linked list computes the specified walk: connections, list and count |
| PushSend.PushService.SendMsg | src/japi_pushsrv.c:446-509 | -1 and no effect without a message; else the walk with the framed message, 0 without subscribers |
| PushSend.SendLeavesWinners | src/japi_pushsrv.c:481-508 | the list left is, as a multiset, the successful writes, and its length is the returned count |
| PushSend.SendTriesEachOnce | src/japi_pushsrv.c:484-503 | each connection gets exactly as many attempts at the frame as it has subscriptions, and nobody else any |
| PushSend.SendKeepsWhoGotIt | src/japi_pushsrv.c:486-503 | a connection keeps as many subscriptions as attempts got the whole frame out to it, and a descriptor that is not open keeps none |
| PushSend.RemovalIsBehindTheWalk | src/japi_pushsrv.c:486-502 | the node freed on a failed write is at or before the current one, so what lies ahead stays |
| Services.SubscribeAt | src/japi_pushsrv.c:190-197 | the first service of the name in any case gets the descriptor in front; all others stay |
| Services.SubscribeNowhere | src/japi_pushsrv.c:190-207 | without a service of the name nothing changes and the request fails |
| Services.UnsubscribeMeaning | src/japi_pushsrv.c:249-260 | unsubscribe succeeds if and only if some service of the name lists the descriptor; it takes the first occurrence out of the first such service, else changes nothing |
| Services.UnsubscribeNowhere | src/japi_pushsrv.c:249-277 | when it fails, whether the service counts as registered is whether any service has the name |
| Services.UnsubscribeUndoesSubscribe | src/japi_pushsrv.c:190-260 | unsubscribing under any case variant restores every list exactly, whatever services that do not list the descriptor were registered in between |
| Services.UndoAlone | src/japi_pushsrv.c:190-260 | right after a subscription it restores every list exactly and reports success |
| Services.RemovedFromAllIff | src/japi_pushsrv.c:137-154 | each service's count of the descriptor drops by one if positive; it is gone everywhere if and only if no service listed it twice |
| Names.SameMeaning | src/japi.c:59-73 | names are compared letter by letter, A to Z and a to z as one, and as to length |
| ServiceTables.ServiceTable.Subscribe | src/japi_pushsrv.c:190-197 | the search and the link-in on the heap compute the specified subscription and leave other lists alone |
| ServiceTables.ServiceTable.Unsubscribe | src/japi_pushsrv.c:249-260 | the search on the heap computes the specified removal and both flags |
| ServiceTables.ServiceTable.RemoveFromAll | src/japi_pushsrv.c:137-154 | the walk over the services takes the first occurrence out of each |
| ServiceTables.ServiceTable.IsRedundant | src/japi_pushsrv.c:281-297 | true if and only if some service has exactly the name |
| ServiceTables.ServiceTable.Register | src/japi_pushsrv.c:309-359 | a new service without subscribers goes in front if and only if the name is not empty and not taken in its exact spelling; else nothing changes |
| ServiceTables.ServiceTable.Destroy | src/japi_pushsrv.c:365-415 | a listed service leaves the list, order kept; listed or not, each of its subscriber nodes is freed once and no other list changes; NULL is refused |
| ServiceTables.ServiceTable.DestroyAll | src/japi.c:226-231 | every service is freed once and none is left |
| Registry.LookupMeaning | src/japi.c:59-73 | lookup gives the handler of the first entry of the name in any case, or none if no entry has it |
| Registry.RegisterInserts | src/japi.c:239-286 | a registration inserts a new key into a map over names up to case, or changes no lookup at all |
| Registry.RegisterCodeMeaning | src/japi.c:239-286 | each return code for exactly one reason: 0 if and only if a handler and a name are given that is not taken in any case and not reserved; -2, -3, -4 and -6 for the first of these that fails |
| Registry.AcceptedIsThere | src/japi.c:239-286 | a request that was accepted at any point of any registrations is found afterwards, with its handler, under every spelling |
| Registry.RunIsStable | src/japi.c:239-286 | over any run of registrations names stay distinct up to case, and a name that resolves goes on resolving to the same handler under every spelling |
| Registry.BuiltinsStand | src/japi.c:317-327 | after any registrations a name resolves to a built-in handler if and only if it is that handler's own name in some spelling |
| Registry.UpperCaseIsAccepted | src/japi.c:268-271 | a request called JAPI_x can be registered beside the built-in ones |
| Registry.RequestList.Initialise | src/japi.c:317-327 | the five registrations leave exactly the built-in entries and close the prefix |
| Registry.RequestList.GetHandler | src/japi.c:59-73 | the pointer loop computes the specified lookup |
| Registry.RequestList.AddRequest | src/japi.c:239-286 | return code in the source's order of checks; the entry goes in front on 0, else nothing changes |
| Dispatch.DispatchIsTotal | src/japi.c:148-171 | whatever was registered, some handler is called: the match, else the user's fallback, else the default |
| Dispatch.SocketIsTheRequester | src/japi.c:127-168 | a request reaches the subscribe or unsubscribe handler if and only if its arguments are given a socket, which is the requesting connection whatever the client sent; other arguments pass unchanged |
| Dispatch.ArgsAreEchoedIff | src/japi.c:127-146 | where the arguments given in a request are to be included in the response, they are if and only if the request is not one that is given a socket, or had brought that very socket along |
| Dispatch.SubscribeEchoesTheSocket | src/japi.c:127-146 | a subscription by client 4 is sent back arguments with a socket it never gave |
| Dispatch.OthersKeepTheirSubscriptions | src/japi.c:83-195 | no request changes how often another descriptor is subscribed anywhere, nor the registry |
| Dispatch.SubscribeReportsTheTruth | src/japi_pushsrv.c:159-209 | the response reports success if and only if a subscription was made, and otherwise carries a message |
| Dispatch.UnsubscribeReportsTheTruth | src/japi_pushsrv.c:214-278 | the response reports success if and only if a subscription was ended, and otherwise carries a message |
| Requests.UserHandlerIsGivenTheArgs | src/japi.c:127-177 | a user's handler, found by name or as the fallback, is called with the request's own arguments, NULL if there are none; its answer is the response's data and no subscription changes |
| Requests.UnknownRequestIsToldSo | src/japi.c:148-177 | without match and fallback the data is the error member and nothing changes |
| Requests.UnparsedIsDropped | src/japi.c:102-107 | text that does not parse has no response and changes nothing |
| Requests.CommandsAreListed | src/japi.c:630-651 | japi_cmd_list in any spelling is answered with every registered request name, newest first, under `commands` |
| Requests.ServicesAreListed | src/japi_pushsrv.c:420-441 | japi_pushsrv_list in any spelling is answered with every service name, newest first, under `services` |
| Requests.NamelessIsRefused | src/japi_pushsrv.c:159-278 | a subscribe or unsubscribe request that names no service changes nothing and is told so |
| Requests.SubscribeAnswered | src/japi_pushsrv.c:159-209 | a subscribe request in any spelling puts the requester in front of the first service of the name, and of no other, and is answered so; without one nothing changes and the message says that |
| Requests.SubscribeSucceedsIff | src/japi_pushsrv.c:190-207 | it succeeds if and only if some service has the name up to case |
| Requests.UnsubscribeAnswered | src/japi_pushsrv.c:214-278 | an unsubscribe request takes the requester's first entry out of the first service of the name that lists it, and nothing else; otherwise nothing changes, with the message for a name that is known or that is not |
| Requests.UnsubscribeSucceedsIff | src/japi_pushsrv.c:249-277 | it succeeds if and only if some service of the name up to case lists the requester |
| Requests.RequestsUndoEachOther | src/japi_pushsrv.c:159-278 | a subscribe and then an unsubscribe request, in any spelling of requests and service, both succeed and restore the whole context |
| Api.Context.ListCommands | src/japi.c:630-651 | the loop lists every registered name, newest first |
| Api.Context.ListServices | src/japi_pushsrv.c:420-441 | the loop lists every service name, newest first |
| Api.Context.Subscribe | src/japi_pushsrv.c:159-209 | services and response data are those specified, refusals included |
| Api.Context.Unsubscribe | src/japi_pushsrv.c:214-278 | services and response data are those specified, the three outcomes and refusals included |
| Api.Context.SelectHandler | src/japi.c:148-168 | three lookups in the linked list give the specified handler, never NULL |
| Api.Context.ProcessMessage | src/japi.c:83-195 | the whole call on the heap computes the specified context and response; -1 and no response for what does not parse |
| Application.Core.Process | src/japi.c:83-195 | the call the server loop makes, from text to text on the linked lists, is the function the loop is specified with |
| Application.Core.Drop | src/japi_pushsrv.c:137-154 | so is the removal of a descriptor from all services |
| Sessions.DrainKeeps | src/japi.c:550-596 | serving a ready client keeps its history right: served are exactly the requests of the bytes used up, sent exactly their frames; it ends with an empty carry or with the connection's end accounted for |
| Sessions.ServedLine | src/japi.c:554-579 | after one line the history holds one request more and the wire its frame, or the frame's proper prefix and the client goes |
| Server.StepKeepsInv | src/japi.c:503-617 | every round keeps the invariant: list, counter, carries and connections agree, no listed client has bytes in its carry, every history is right |
| Server.RunKeepsInv | src/japi.c:482-625 | so does every run; a shutdown leaves no client |
| Server.OpenConnections | src/japi.c:537-599 | in every reachable state a connection's carry is empty, it was served exactly the non-empty lines received so far, in order, a prefix of its own stream's, and sent exactly the framed responses |
| Server.ClosedConnections | src/japi.c:566-594 | a removed client was served all its lines if it disconnected, all that arrived whole if reading failed (never on a sound stream), and after a failed write only the last response is cut short |
| Server.LimitIsKept | src/japi.c:391-395 | under a limit the 16-bit counter is the exact number of clients and never above it |
| Server.AdmittedIff | src/japi.c:605-615 | a newcomer is let in, in front of the list, if and only if there is no limit or fewer clients than the limit are listed by then, counted exactly and not in 16 bits; nobody else is affected |
| Progress.ShutdownIsOrderly | src/japi.c:531-532 | a round that finds a shutdown request returns 0 with no client and no connection left, and each client enters the history once, removed for the shutdown, with its connection as it stood |
| Progress.StepEndsIff | src/japi.c:523-617 | a round returns if and only if select or accept failed, with -1, or a shutdown was requested, with 0 |
| Progress.RunEndsIff | src/japi.c:503-624 | a run returns if and only if such a report comes, with the code of the first one; after a shutdown no connection is left |
| Progress.ReadyIsHeard | src/japi.c:537-599 | a client reported ready is, in that round, read up to its next newline at least with all its requests so far served, or removed: as disconnected if only end of file is left, and for no other reason on a sound connection |
| Progress.NotReadyIsLeftAlone | src/japi.c:544 | a client not reported ready stays with its connection as it was |
| Progress.HeardInTime | src/japi.c:503-617 | in every run that has not ended, a client on a sound connection (no NUL, whole lines that fit, no failing read or write) that is reported ready more often than read() has anything to report on it has been served its whole stream, answered in full, and removed as disconnected |
| Progress.NewcomerIsHeard | src/japi.c:503-617 | the same from the moment it connects, if the limit leaves room for everyone who comes |
| Progress.NewcomersArePlausible | src/japi.c:600-605 | every descriptor that is not open, on any fresh connection, is a newcomer these theorems speak of |
| ServerLoop.Context.ServeOne | src/japi.c:554-579 | one line processed on the heap and its response written, as specified |
| ServerLoop.Context.HandleLine | src/japi.c:554-594 | every outcome of creadline_r is handled as specified: line, empty line, end of file, failure, failed write |
| ServerLoop.Context.DrainClient | src/japi.c:550-596 | the do-while on the client's own carry buffer computes the specified drain |
| ServerLoop.Context.RemoveClient | src/japi.c:404-461 | a listed client leaves all services and the list, is closed and counted off; every other node, buffer, connection and subscriber is kept |
| ServerLoop.Context.RemoveAbsent | src/japi.c:404-461 | for a descriptor that is not listed the services forget it, the list stays and -1 is returned |
| ServerLoop.Context.Visit | src/japi.c:539-598 | whatever happens to the current client, the saved next client is the next of those that were listed |
| ServerLoop.Context.Walk | src/japi.c:537-599 | the walk serves exactly the ready clients listed when it began, as specified |
| ServerLoop.Context.AcceptClient | src/japi.c:605-615 | a newcomer is listed with an empty carry if the limit allows, else closed |
| ServerLoop.Context.RemoveAllClients | src/japi.c:463-480 | every client is removed and its node freed once; it cannot fail |
| ServerLoop.Context.Round | src/japi.c:503-617 | one round on the heap is one step of the state machine, return code included |
| ServerLoop.Context.StartServer | src/japi.c:482-625 | the server on the heap, clients, carry buffers, requests, services and subscribers in their linked lists, runs as the state machine does, over any reports of select and accept |
| Serving.Serve | src/japi.c:288-625 | the whole program on the heap, from japi_init over any registrations to the end of japi_start_server: every open and every closed connection without NUL bytes was served and answered as it should, one sequence of requests explains all responses, only clients are subscribed unless one subscribes twice, sound clients reported ready often enough were served to the end, the return code is that of the first report that ends the server, and a shutdown leaves no connection open |
| Serving.Initialise | src/japi.c:239-330 | japi_init and the registrations leave the specified context |
| Serving.RegisteredMeaning | src/japi_pushsrv.c:309-359 | the services registered before the server starts are there, one for each non-empty name, newest first and without subscribers, and no other |
| Sequential.RunIsSequential | src/japi.c:503-624 | every run amounts to connects, whole requests and hang-ups one after the other: context and all histories are what that sequence of calls gives |
| Sequential.RunIsExplained | src/japi.c:503-624 | one such sequence accounts for every exchange in every connection's history: each is one of its requests, in order, with the reply it gets in the state it is applied to |
| Conversations.Conversation | src/japi.c:537-599 | one sequence of requests explains the run; a client that disconnected after a NUL-free stream was served all its lines in order and sent the frames of the answers it got in that sequence and nothing else |
| Conversations.ConversationSoFar | src/japi.c:537-599 | the same for open connections, up to the bytes received |
| Conversations.OneConversation | src/japi.c:537-599 | what such a sequence says of each connection, gone or open, and that only the services change |
| Conversations.AnsweredByDispatch | src/japi.c:83-195 | a reply in it is dispatch's, for that request and connection, in the context of that place in the sequence |
| Subscribers.SubscribersAreClients | src/japi.c:404-461 | over every run of the server loop that a sequence without repeated subscriptions explains, every subscriber of every service is a connected client, listed once |
| Subscriptions.SendIsTheWalk | src/japi_pushsrv.c:481-504 | the send step of this system leaves the list the walk leaves |
| Subscriptions.SendStepIsTheWalk | src/japi_pushsrv.c:481-504 | a send is possible in every state, on any connections, and the step leaves what the walk leaves on that service and nothing else changed |
| Subscriptions.ServicesComeAndGo | src/japi_pushsrv.c:309-415 | registering enters a service in front, unless its name is empty or taken, and destroying it again restores the state |
| Subscriptions.NextKeepsTidy | src/japi_pushsrv.c:137-154 | each step, other than a repeated subscription, keeps lists free of duplicates and of closed descriptors, sends in mid-removal included; an unsubscribe's removal is assumed to be inside the lock |
| Subscriptions.SubscribersAreConnected | src/japi_intern.h:108-116 | in every run without repeated subscriptions, push threads sending between any two steps, each subscriber is a connected client; an unsubscribe's removal is assumed to be inside the lock |
| Subscriptions.DisconnectClearsIff | src/japi.c:404-461 | every course a client's removal can take, sends at any moment in between included, leaves it unsubscribed everywhere if and only if no service listed it twice |
| Subscriptions.SubscribedTwiceOutlives | src/japi_pushsrv.c:190-197 | a run in which a subscription outlives its connection and the next client with the descriptor is subscribed unasked |
| PushThreads.RunKeepsInv | src/japi_pushsrv.c:60-154 | with removals under the lock, every interleaving of pointer operations keeps the list acyclic, live and consistent with every thread's place in it |
| PushThreads.NoDanglingPointers | src/japi_pushsrv.c:481-504 | no thread ever follows a freed node, and the walk's saved next node is in the list |
| PushThreads.SendIsExact | src/japi_pushsrv.c:481-504 | in every run, the writes of a walk that has ended were exactly to the subscribers listed in the state before it took the lock, each once and in order, and it left, in list order, what one send with these outcomes leaves: those that succeeded |
| PushThreads.RunIsAtomic | src/japi_pushsrv.c:60-504 | in every reachable state with the lock free, the list is what additions in front, removals of the first occurrence and sends leave when each is one step, in the order in which their threads held the lock |
| PushThreads.CallTakesEffect | src/japi_pushsrv.c:60-504 | whatever the other threads do, the next effect of a thread is the one it was called for, an addition or removal of the descriptor given or a send, and then it only unlocks |
| PushThreads.NothingLeaks | src/japi_pushsrv.c:60-132 | in every reachable state the nodes allocated are exactly those in the list and those about to be linked in |
| PushThreads.NobodyIsStuck | src/japi_pushsrv.c:60-154 | in every reachable state the holder of the lock can go on, and with the lock free every waiting thread can take it |
| PushThreads.HolderComesCloser | src/japi_pushsrv.c:60-504 | each step of the holder, however its writes end, brings it closer to unlocking by a well-founded measure, and it keeps the lock until then |
| PushThreads.HolderLetsGo | src/japi_pushsrv.c:60-504 | so left to itself it unlocks after finitely many steps |
| PushThreads.UnlockedUnsubscribeIsUnsafeIff | src/japi_pushsrv.c:251-260 | from any state at rest and for any descriptor, an unsubscribe without the lock can be followed, all other operations locked, by a step onto a freed node if and only if the list is not empty |
| PushThreads.UnlockedUnsubscribeDangles | src/japi_pushsrv.c:251-260 | the other victim: with two different subscribers in front, the walk itself can be left about to follow a freed node |
| PushThreads.DanglingIsReachable | src/japi_pushsrv.c:251-260 | and two subscriptions from the empty service reach such a state |
| Lifecycle.RunKeepsInv | src/japi_pushsrv.c:309-586 | every run that starts only resting services keeps list, threads, locks and stages of destroy consistent |
| Lifecycle.ListIsTheLiveServices | src/japi_pushsrv.c:355-396 | the list is the live services, newest first, no name twice |
| Lifecycle.RegisterIsShown | src/japi_pushsrv.c:309-359 | registering is registering on values: in front, unless the name is empty or taken |
| Lifecycle.ListsAreShown | src/japi_pushsrv.c:60-209 | a subscription, a disconnect and a failed write change the one list as on values, and no other service |
| Lifecycle.FreedOnlyAtRest | src/japi_pushsrv.c:398-412 | a service is freed only after its thread has returned, with no subscriber and its mutex free |
| Lifecycle.ThreadsStandOnLiveServices | src/japi_pushsrv.c:515-529 | a running thread's service is live, and has no other running thread |
| Lifecycle.JoinsSucceed | src/japi_pushsrv.c:575-581 | a join is always on an existing, unjoined thread of the service |
| Lifecycle.StopEndsTheThread | src/japi_pushsrv.c:563-590 | when a stop of a running service returns, whatever threads did meanwhile, it is disabled, no thread of it runs, its thread is joined, and the list is as before |
| Lifecycle.DestroyFrees | src/japi_pushsrv.c:365-415 | when a destroy returns the service is unlisted and freed, no thread of it runs, that of a running one is joined, and every other service stays as it was but for its subscribers and lock |
| Lifecycle.ThreadRuns | src/japi_pushsrv.c:515-558 | a started thread runs for its service, can take its lock, give it back and only then return |
| Lifecycle.NobodyWaitsForEver | src/japi_pushsrv.c:398-409 | whenever stop or destroy waits for a lock or a thread, the thread waited for can go on |
| Lifecycle.StartIsUnsafeIff | src/japi_pushsrv.c:534-558 | after a start, whether pthread_create succeeds or fails, some further run leaves a thread on a freed service if and only if the service was still running |
| Lifecycle.SecondStartIsReachable | src/japi_pushsrv.c:534-558 | registering a service and starting it twice, the second time with or without success, leads to such a state |

## Left out

- Memory: failures of `malloc`, `strdup`, `realloc` and `pthread_mutex_init`; what is freed outside the lists of clients and services (the loop that frees the requests in `src/japi.c:219-224`, line and response buffers).
- Set-up of the listening socket, `FD_SET` and `nfds`, signals, messages on stderr. What `select()` and `accept()` report is a parameter; the model assumes that `accept()` returns a descriptor that is not open.
- json-c: parser, printer and conversions are uninterpreted functions, the printer into text of one line without NUL; member names and strings hold no NUL character. The `japi_get_value_as_*` getters.
- Requests without a string `japi_request`, where the source reads a variable it has not set, and (un)subscribe requests whose arguments are not an object, where json-c decides.
- User handlers and push routines are uninterpreted and touch neither the arguments nor any list; a handler's answer depends on its arguments alone. Routines only send while they run.
- NULL contexts. A service that is destroyed without being in the list must have subscriber nodes of its own.
- Theorems on streams with NUL bytes: the model follows `strnpos` and `strncpy` on them, and the conservation and refinement theorems cover them, but what lines they yield is not stated.
- The order of push messages and responses on one descriptor: no lock covers both writers. Responses are modelled in `Server`, push messages in `PushSend`, `Subscriptions` and `PushThreads`.
- The unlocked reads at `src/japi_pushsrv.c:400` and `src/japi_pushsrv.c:462`: the first is taken as inside the critical section, the second as harmless.
- `creadline` with its static buffer, and `read_n`.
- Registration of requests or a change of the limit after the server has started.
- The loops of `japi_remove_client` and `japi_pushsrv_remove_client` have the same branches and are modelled once, by `ClientLists.ClientList.Remove`; a subscriber node's carry buffer, unused in the source, comes with it.
- ServerLoop.Context.RemoveClient: only for a client that is listed, as in each of its calls from the loop; `ServerLoop.Context.RemoveAbsent` states the other case of `japi_remove_client`.
- ServerLoop.Context.StartServer: no push thread runs beside it; that concurrency is the subject of `Subscriptions`, `PushThreads` and `Lifecycle`.
- CReadLineLoop.ReadLineR: on an open descriptor; a read from a closed one is a read failure like any other.
- Server.OpenConnections: clients refused at the limit are closed at once and leave no history.
- Subscriptions.NextKeepsTidy: an unsubscribe's removal is taken as inside the service's lock, which the source does not take there (`src/japi_pushsrv.c:254`); without it there is no state to speak of, by `PushThreads.UnlockedUnsubscribeIsUnsafeIff`.
- Subscriptions.SubscribersAreConnected: under the same assumption.
- PushThreads.SendIsExact: what a write sends is left to `PushSend`; here only its success matters.
- Lifecycle.FreedOnlyAtRest: start, stop and destroy run on one thread, and a join that would block for ever on its own thread is outside the model.
