# The connection pool, the relay and the routing of go-vkit

A model in Dafny of the parts of go-vkit where state is shared: the gRPC connection pool of
`grpcclient` and its callers, the websocket relay of `gate`, the client registry, and the chain
that takes a gate URL to a server handler. `dafny verify dfyconfig.toml` checks all of it.

## The pool

Each address has two linked lists of connections (`head`, `busy`), two counters kept by hand, and
a stream count and a list flag on each connection. The model has three layers.

* `PoolHeap` is the pointer code: classes with `next` and `pre`, `RemoveConn`, `AddConnAfter`, the
  loop of getConn that unlinks while it walks, the insert, and release. A ghost layout says
  which sequence each list stands for.
* `PoolSpec` says what each locked section does to the address as a whole, as a function on
  sequences. Every pointer method is proved equal to its function.
* `PoolMachine` lets any number of threads interleave the locked sections, the dials between
  them and the closes after them. Leases, connections being inserted, and closes still to come are
  multisets. `PoolTheorems` draws the consequences over whole runs, `PoolExamples` has two short runs
  that show what the pool does not do, `PoolAddresses` runs many addresses side by side, and `Calls`
  puts the real callers on top: Invoke, NewStream and the stream it returns. There the precondition of release, that the caller has a lease, is proved and
  not assumed.

The state of a connection (`GetState`) and the clock are arguments, different at every step if need
be. The ttl is in seconds, as the pool keeps it.

`GrpcStream` is the stream object itself: Send, Recv and Close on its two fields, and the error
with which its lease is released; the streams of `Calls` step by its sections.

## The relay

`Relay` has the four goroutines of a websocket stream as program counters, with their loops and
their deferred exits down to the single calls inside Close; two channels of ten messages; the two
stop contexts; the lock and flag of Close; the wait group; and the handler that waits. Socket calls
fail once the socket is closed, and Send and Recv once the context is cancelled; they may also fail
at any time before. A failed Recv half-closes the stream, so no Send succeeds after it. Order and
once-only Close hold in every run, and nobody leaves without cause. Shutdown does not always finish, and the model says exactly
from which states goroutines can be left behind for ever. `RelayWait` is about the handler's wait:
what it guarantees, and exactly when it can end with nothing closed.

## Routing, timeout, registry

`Strings` and `Routing` follow a name from the gate URL through the client's printer and the
server's parser to the handler table built by registration. `Timeout` follows the duration through
64-bit arithmetic and decimal text, and the headers that carry it. `Registry` is the double-checked
map of clients under any interleaving with deletions.

## Where the code and its words differ

* The comment at grpcclient/client.go:146 says a connection is closed on error. An error closes it
  exactly when the last stream on it is returned (grpcclient/pool.go:171-176):
  `ReleaseClosesExactlyWhen` is the condition, and `ErrorCanLeaveItOpen` a run in which a failed
  call leaves its connection open and the next call gets it.
* `defer g.setError(err)` evaluates its argument on entry (grpcclient/stream.go:35), so Recv
  always stores nil, and a failing Recv closes the stream before that with whatever a Send had
  stored. `RecvFailuresAreNotReported` states the consequence.
* A unary call turns the seconds of the caller's timeout header into nanoseconds
  (grpcclient/client.go:104-112). A stream sends them as they are, and the server reads nanoseconds:
  `StreamSecondsArrive` is the condition, `FiveSeconds` an input.
* A connection found shut down is unlinked without being closed (grpcclient/pool.go:85-92). The
  model counts it as dropped, apart from the closed ones. `ScanSorts` says when that happens,
  `DroppedIsNeverClosed` that nothing closes it later, and `ShutdownIsDroppedUnclosed` is such a run.
* `wg.Done` comes before Close in each deferred exit (gate/streamhandler.go:194-199), so the handler
  may return before Close has begun: `WaitCanEndBeforeClose` is such a run, and
  `ReturnsUnclosedExactlyWhen` says from which states it can come to that. What is guaranteed once
  the wait is over is in `AfterTheWait`.

## Model

| member | source | states |
|---|---|---|
| PoolSpec.NewConfig | grpcclient/pool.go:51-65 | a stream limit below one becomes one and a negative idle quota none; other settings are kept |
| PoolSpec.Judge | grpcclient/pool.go:79-131 | a connection is handed out exactly when it is ready or idle, not too old, and below its stream limit; one let go of has no stream |
| PoolSpec.ReleaseInSteps | grpcclient/pool.go:155-184 | listing, bringing to the front and giving back, done one after the other, come to the one-shot description of release |
| PoolSpec.WalkPartitions | grpcclient/pool.go:77-132 | every connection the walk passes is handled in exactly one of four ways |
| PoolSpec.IdlesWalked | grpcclient/pool.go:85-114 | the walk lowers the number of unused listed connections by exactly those it unlinks |
| PoolHeap.RemoveConn | grpcclient/pool.go:192-204 | on the pointers: the connection leaves the list it is in, the other members and their order stay, count and flag follow |
| PoolHeap.AddConnAfter | grpcclient/pool.go:206-216 | on the pointers: the connection becomes the first of the list, the rest stays, count and flag follow |
| PoolHeap.Walk | grpcclient/pool.go:77-132 | the loop that unlinks as it walks visits the old list in order, ends at the first usable connection or past the end, and leaves the lists the closed form describes |
| PoolHeap.ScanHead | grpcclient/pool.go:77-133 | the walk as a whole is `Scan`: lists, counters, the connection handed out and the ones closed, in order |
| PoolHeap.Dial | grpcclient/pool.go:140 | a dialled connection is new, unlisted, has one stream and the time of its dial, and changes nothing else |
| PoolHeap.InsertConn | grpcclient/pool.go:143-147 | the second locked section is `Insert` |
| PoolHeap.ReleaseConn | grpcclient/pool.go:152-186 | release on the pointers is `Release`, including whether the caller must close |
| PoolHeap.ListShape | grpcclient/pool.go:192-216 | in every valid address: flag if and only if listed, in one list only, once, and `pre` and `next` undo each other |
| PoolHeap.BridgedList | grpcclient/pool.go:192-204 | taking a node out of a linked list leaves the linked list of the other nodes, the node itself detached |
| PoolHeap.SplicedList | grpcclient/pool.go:206-216 | putting a detached node behind the sentinel gives the linked list with it in front |
| PoolHeap.Pool.Lookup | grpcclient/pool.go:69-74 | an address is made empty at first use and never replaced; the others stay |
| PoolHeap.GetConn | grpcclient/pool.go:67-150 | walk, dial and insert one after the other, for a thread that no other disturbs: what is handed out, closed and listed; every address stays valid and the others are what they were |
| PoolHeap.ReleaseAt | grpcclient/pool.go:152-186 | release in the whole pool: `Release` at its address, every address stays valid |
| PoolMachine.ScanKeepsInv | grpcclient/pool.go:77-133 | the walk keeps the invariant of the pool |
| PoolMachine.ScanEffect | grpcclient/pool.go:77-132 | one walk hands a connection out or lets it go or neither, never both, and lets go only of unused ones |
| PoolMachine.InsertKeepsInv | grpcclient/pool.go:143-147 | the insert keeps the invariant however many threads dial at once |
| PoolMachine.ReleaseKeepsInv | grpcclient/pool.go:152-186 | release keeps the invariant for any holder of a lease |
| PoolMachine.StepKeepsInv | grpcclient/pool.go:67-186 | every step of every thread keeps it |
| PoolTheorems.NobodyHoldsAClosedConnection | grpcclient/pool.go:93-115 | in every run, a connection that is leased or being inserted has not been closed, is not about to be and was not dropped; none is closed twice |
| PoolTheorems.LetGoForever | grpcclient/pool.go:152-184 | a connection once let go of is never again listed, leased or handed out |
| PoolTheorems.Conservation | grpcclient/pool.go:135-216 | every connection ever dialled is at every later time in exactly one place: head, busy, unlisted with one holder, closing, closed or dropped |
| PoolTheorems.Accounting | grpcclient/pool.go:85-183 | in every run streams are the outstanding holders, flags are list membership, count is the length of both lists and within the size, idle is the number of unused listed connections and within the quota, busy ones are saturated |
| PoolTheorems.AgeCountsFromDial | grpcclient/pool.go:140 | in every run the time of creation of a connection is that of its dial, at all later times |
| PoolTheorems.Quiescence | grpcclient/pool.go:117-182 | with nothing outstanding, busy is empty and the open connections are the listed ones are the idle ones, within both quotas |
| PoolTheorems.Saturation | grpcclient/pool.go:117-169 | the calls running over listed connections never exceed streams per connection times size |
| PoolTheorems.ScanHandsOutFirstUsable | grpcclient/pool.go:77-140 | getConn hands out the first usable connection, and dials exactly when there is none |
| PoolTheorems.ScanSorts | grpcclient/pool.go:77-132 | for each connection of head, exactly when the walk closes it, drops it, moves it to busy or leaves it |
| PoolTheorems.ScanLetsGoOnlyUnused | grpcclient/pool.go:85-115 | what the walk closes or drops was listed and had no holder |
| PoolTheorems.ReleaseClosesExactlyWhen | grpcclient/pool.go:152-185 | release closes if and only if the connection is unlisted without room, or it was the last stream and the call failed, the quota is full or it is too old; so an error closes if and only if nobody else holds it; otherwise it stays listed |
| PoolTheorems.ReturnedByLastHolder | grpcclient/pool.go:154-181 | in every run, a connection dialled at t and returned at now by its last holder is let go of if and only if the call failed, the quota is full, now - t exceeds the time to live, or it is unlisted without room |
| PoolExamples.ErrorCanLeaveItOpen | grpcclient/pool.go:169-176 | a run of two calls in which the failed one leaves the connection listed and open, and the next call gets it |
| PoolTheorems.DroppedIsNeverClosed | grpcclient/pool.go:85-92 | a connection dropped because it was found shut down is not closed at any later time |
| PoolExamples.ShutdownIsDroppedUnclosed | grpcclient/pool.go:85-92 | a run that ends with a connection dropped and not closed |
| PoolTheorems.BorrowAndReturn | grpcclient/pool.go:124-182 | borrowing an idle connection and returning it in time and without error puts it back as it was, and never closes it for want of quota |
| PoolTheorems.DialledIsReused | grpcclient/pool.go:135-186 | a new connection that finds room, returned in time and without error, is the one the next getConn hands out |
| PoolAddresses.StepKeepsPool | grpcclient/pool.go:67-74 | a step at one address keeps the invariant of all, and no connection is shared by two |
| PoolAddresses.PoolRunKeepsInv | grpcclient/pool.go:67-186 | so every run over any number of addresses keeps it |
| PoolAddresses.AddressRun | grpcclient/pool.go:67-186 | what such a run does at one address is a run of that address |
| PoolAddresses.LetGoEverywhere | grpcclient/pool.go:152-184 | a connection let go of at one address is at no later time listed, leased or being inserted at any, and let go of no second time |
| PoolAddresses.ConservationEverywhere | grpcclient/pool.go:135-216 | over any number of addresses a dialled connection is at every later time in exactly one place of its own address and known to no other |
| Calls.PoolMoveIsAllowed | grpcclient/client.go:139-195 | whatever a call or a stream does next to the pool is allowed there: every release has its lease, every insert its dial |
| Calls.Rebooked | grpcclient/client.go:145-158 | the pool's books follow the calls: leases, inserts, dials and closes outstanding are those of the calls |
| Calls.SystemStepKeepsInv | grpcclient/client.go:139-268 | any action of any call keeps the pool's invariant and the balance of calls and leases |
| Calls.LeaseDiscipline | grpcclient/client.go:139-268 | over all interleavings each call takes at most one lease and returns it at most once, exactly once when done; from dial or getConn to release nobody has closed or dropped its connection, for unary calls and streams |
| Calls.EveryGetIsMatched | grpcclient/client.go:139-258 | counted by the moves of the run: a call is handed at most one connection, releases no more than it was handed, and exactly as often when it is done |
| Calls.RequestReturnsItsError | grpcclient/client.go:143-195 | in every run, a call without a stream returns its lease as failed if and only if one of its own moves was a failed reply or a stream that did not open |
| Calls.StaysOpenAfterRequest | grpcclient/client.go:145-147 | in every run, the last holder's return after a request leaves the connection open if and only if the request had no error, the idle quota has room, it is not too old, and it is listed or there is room |
| Calls.FailedStartEnds | grpcclient/client.go:125-142 | a call without a codec or whose dial failed is handed nothing and does nothing more |
| Calls.StreamReturnsItsError | grpcclient/client.go:254-265 | over the sections of Send, Recv and Close that the stream itself ran: its lease is returned to the pool as failed if and only if the error of a failed Send was the last thing stored before its first Close |
| Calls.SectionsMakeFields | grpcclient/stream.go:26-70 | in every run the fields of each stream are what its own sections, in their order, make of them |
| Calls.PoolRun | grpcclient/client.go:139-268 | what any calls make the pool do is a run of the pool, so what holds of those holds below any calls |
| Calls.NoCallHoldsWhatIsLetGo | grpcclient/pool.go:152-184 | a connection the pool has let go of is from then on held by no call |
| Calls.AllDoneIsQuiet | grpcclient/client.go:145-258 | when all calls are done, the pool holds only idle connections within its quotas and owes no close |
| GrpcStream.Stream.Send | grpcclient/stream.go:26-32 | a failed send stores its error, any other nothing; nothing else changes, and the error is returned |
| GrpcStream.Stream.Recv | grpcclient/stream.go:34-45 | a failed receive releases with the error stored before it, if the stream was open, and then nil is stored; at end of stream the error of the half-close is returned if there is one |
| GrpcStream.Stream.Close | grpcclient/stream.go:59-70 | the first Close releases with the stored error, later ones do nothing and return nil |
| GrpcStream.ReleasedOnce | grpcclient/stream.go:26-70 | in any interleaving the lease is released exactly if a Close ran, once, with the error stored at the first one |
| GrpcStream.ReleasedWithError | grpcclient/stream.go:34-57 | it is released with an error if and only if the last thing stored before the first Close was that error |
| GrpcStream.ReleasedWithTheErrorOfASend | grpcclient/stream.go:26-70 | threads calling Send, Recv and Close in any interleaving: the lease is released with an error if and only if a Send failed with it and no failed Send and no Recv stored over it before the first Close, by a Close or by a failed Recv |
| GrpcStream.RecvFailuresAreNotReported | grpcclient/stream.go:34-45 | with no failed Send the lease is released without an error, whatever the receives got |
| Relay.StepKeepsInv | gate/streamhandler.go:193-305 | every step of the four goroutines, the handler and the stream keeps the invariant of the relay |
| Relay.RelayOrder | gate/streamhandler.go:193-305 | in every run, both ways: what was sent on is a prefix of what was read, and the rest is at most one lost message, the hands and the channel of at most ten |
| Relay.CloseOnce | gate/streamhandler.go:136-200 | cancel, socket close and stream close run at most once, exactly once when all four are gone; the wait ends only when all four have signalled |
| Relay.NothingIsSentAfterFailedRecv | gate/streamhandler.go:266-300 | in every run, after a failed Recv nothing more is sent to the stream |
| Relay.NothingIsSentAfterClose | gate/streamhandler.go:136-151 | in every run, once Close has cancelled the context nothing more is sent to gRPC, and once it has closed the socket nothing to the websocket |
| Relay.LeavesForCause | gate/streamhandler.go:193-305 | in every run, a goroutine leaves its loop only after a failed call of its own, after the other one of its side, or, for wsWrite, after the end of the stream or the context |
| Relay.EndOfStreamCloses | gate/streamhandler.go:231-242 | from any reachable state in which the stream has ended and the lock is free, wsWrite at the top of its loop can close everything on its own, without a call on the socket or the stream |
| Relay.LateCloserDoesNotWait | gate/streamhandler.go:136-146 | once Close has begun, a goroutine that has yet to call it leaves without the lock, whoever holds it |
| Relay.Overfill | gate/streamhandler.go:124-125 | in either direction ten messages fit in the channel, and the eleventh stays in the reader's hand |
| RelayWait.AfterTheWait | gate/streamhandler.go:84-200 | once the wait is over at most 31 steps follow, and when none can any more the handler has returned, all four are gone and each part of Close has run exactly once |
| RelayWait.ReturnsUnclosedExactlyWhen | gate/streamhandler.go:190-200 | from any reachable state the handler can come to return with Close not begun if and only if Close has not begun and no producer is parked on a full channel whose consumer has left its loop or holds a message it can no longer send |
| RelayWait.WaitCanEndBeforeClose | gate/streamhandler.go:194-199 | a run from the start in which the handler has returned before any goroutine has begun to close |
| Relay.StepGoesDown | gate/streamhandler.go:193-305 | once the context is cancelled and the socket closed, every step uses up a well-founded measure |
| Relay.ClosedRunsAreShort | gate/streamhandler.go:136-151 | so at most 50 further steps can happen |
| Relay.StuckExactly | gate/streamhandler.go:193-305 | the states without a next step, exactly, before and after Close |
| Relay.StuckIsDoneOrParked | gate/streamhandler.go:193-305 | the relay is never stuck before each part of Close has run, exactly once, so the stream's lease is given back even when goroutines are left behind; a stuck state is complete unless a producer is parked on a full channel, whose consumer is then gone |
| Relay.LeaksExactlyWhen | gate/streamhandler.go:193-305 | from any reachable state, some continuation leaves goroutines behind for ever if and only if a producer is parked, or still can read and has either not been told to stop or a last message coming with its channel full |
| Relay.LeaksExactlyWhenParked | gate/streamhandler.go:219-303 | after Close that is if and only if a producer is parked already |
| Relay.CloseCanLeaveGoroutinesBehind | gate/streamhandler.go:136-305 | a run from the start in which Close runs and goroutines are left behind |
| Strings.JoinSplit | gate/grpchandler.go:67 | splitting loses nothing |
| Strings.SplitJoin | grpcserver/utils.go:25-33 | and is the only way to cut a text into separator-free parts |
| Routing.ReadsBack | grpcserver/utils.go:20-31 | what the server's parser makes of every text of the printed form, malformed ones included |
| Routing.RoundTrip | grpcclient/utils.go:76-94 | over all services and endpoints, the server reads back what the client printed if and only if neither has a slash, the endpoint has one dot and a method part, and the service or the type part is not empty |
| Routing.PrintsParts | grpcclient/utils.go:81-93 | the full method printed for every type, method and service |
| Routing.PassesThrough | grpcclient/utils.go:77-86 | what is a full method already, or no type and method, is sent as it is |
| Routing.ReadsDotted | grpcserver/utils.go:32-40 | a bare type and method are read as such |
| Routing.Rejects | grpcserver/utils.go:14-38 | what the server rejects besides malformed full methods |
| Routing.GateAnswers | gate/grpchandler.go:66-83 | the gate's answer to every URI, by its parts, with both errors |
| Routing.GrpcServer.RegisterApiEndpoint | grpcserver/grpcserver.go:328-340 | the loops over endpoints and services build the specified table on top of the old one, or panic exactly if a registered method has the wrong number of parameters, with the table as it was after the services before it, none of them unfit, and that service's methods before the unfit one |
| Routing.GrpcServer.RegisterWithUrl | grpcserver/grpcserver.go:342-392 | the loop over methods, with its skip and its two stores; it panics if and only if a method it comes to has neither three nor four parameters |
| Routing.GrpcServer.Find | grpcserver/grpcserver.go:87-149 | the lookup by dotted name, then by full method, with its two failures |
| Routing.LastEndpointCounts | grpcserver/grpcserver.go:329-332 | of several endpoints for one method the last one is filed |
| Routing.ServicesEntry | grpcserver/grpcserver.go:342-392 | for all lists and orders, the table has T.M if and only if T is registered, has M, and an endpoint names it; the entry is M of T with that endpoint's stream flags |
| Routing.ServicesGenuine | grpcserver/grpcserver.go:342-392 | under whatever key, a handler in the table is a method of a registered service that an endpoint names |
| Routing.ServicesUrls | grpcserver/grpcserver.go:386 | under a rooted name the table holds a handler if and only if a registered method has an endpoint with that URL, and then the handler of such a method |
| Routing.MethodUrl | grpcserver/grpcserver.go:386-389 | of two methods with the same URL the one registered later is served there |
| Routing.NamesServe | grpcserver/grpcserver.go:347-386 | without a list of endpoints every method is served by its name, as no stream |
| Routing.GateReachesHandler | grpcserver/grpcserver.go:87-149 | from the parts of the URI to the handler: a request for /prefix/service/T.M reaches the handler of method M of T if and only if T is registered, has M, and an endpoint names it, then with the stream flags of the last such endpoint |
| Routing.UrlReachesHandler | README.md:4 | every URL /prefix/service/T.M of the documented form reaches the handler that registration stored for method M of T, for all lists and orders; with an empty service the gate answers so |
| Routing.FullMethodReachesUrl | grpcserver/grpcserver.go:141-149 | a call of a full method that is some registered method's URL is sent as it is and reaches a method with that URL, unless its last parts name a registered method |
| Timeout.ValueOfDigits | grpcclient/client.go:112 | decimal text is read as the number it was written from |
| Timeout.WireRoundTrip | grpcserver/grpcserver.go:132-139 | the server reads back exactly the durations that are not negative |
| Timeout.AtoiReads | grpcclient/client.go:105 | text of a sign and digits is a number if 64 bits hold it |
| Timeout.AtoiRejects | grpcclient/client.go:105-107 | any other text is none |
| Timeout.ServerReads | grpcserver/grpcserver.go:133-136 | digits are the server's timeout up to 2^63 - 1, wrap to a negative one up to 2^64 - 1, and are none beyond |
| Timeout.TimeoutArrives | grpcclient/client.go:101-119 | from client to server: what is left to the deadline, else the seconds of the header, else the default; none if negative |
| Timeout.SecondsArrive | grpcclient/client.go:103-112 | a unary call's header of n seconds arrives as n seconds if and only if 0 <= n <= 9223372036; beyond that the multiplication wraps |
| Timeout.HeaderSeconds | grpcclient/client.go:101-119 | a unary call end to end, from the caller's text to the server's timeout |
| Timeout.StampStreamHeader | grpcclient/client.go:200-218 | a stream's header: the content type is added, the caller's timeout text stays as it is |
| Timeout.StreamSecondsArrive | grpcclient/client.go:200-218 | a stream's header of n seconds arrives as n nanoseconds if the text has no sign and not at all otherwise; so as n seconds if and only if it is an unsigned zero |
| Timeout.StreamHeaderCrosses | grpcclient/client.go:200-218 | a stream's header reaches the handler as a call's does, but for the timeout |
| Timeout.FiveSeconds | grpcserver/grpcserver.go:132-139 | five seconds on a unary call are five nanoseconds on a stream |
| Timeout.StampHeader | grpcclient/client.go:96-121 | the client's header: the timeout of the deadline, of the caller's header or the default, and the content type, other keys untouched |
| Timeout.ReadHeader | grpcserver/grpcserver.go:100-139 | the server's reading of the incoming metadata: several values joined, timeout, both content types, the peer's address added, and what is left |
| Timeout.HeaderCrosses | grpcclient/client.go:96-121 | a header keeps its timeout and content type if the transport carries those two keys, whatever it does to the rest; any other key it carries reaches the handler as sent, apart from the content type and the peer's address that the server sets |
| Timeout.ForeignCaller | grpcserver/grpcserver.go:106-118 | without a content type of this library the transport's counts, or the default |
| Timeout.JoinedConcat | grpcserver/grpcserver.go:100-103 | the values of a key are joined in order, with a comma and a blank between each two |
| Registry.Clients.GetConnClient | grpcclient/client.go:64-81 | without interference: the registered client if there is one, else a new one, now registered; other addresses untouched |
| Registry.StepKeepsInv | grpcclient/client.go:60-81 | every load, lock, store, unlock and deletion keeps the invariant of the registry |
| Registry.FirstLook | grpcclient/client.go:65-68 | a call that finds a client at its first look returns it there and then, whoever holds the mutex |
| Registry.StoresAreDeletionsPlusPresent | grpcclient/client.go:72-80 | for each address, counted by the steps of the run: clients stored = deletions that took one out + the one present; none is stored twice |
| Registry.DeletionTakesEffect | grpcclient/client.go:60-62 | after a deletion the address has no client, and the other addresses have theirs |
| Registry.DeletionsAreCounted | grpcclient/client.go:60-62 | the deletions counted for an address are the steps that took a client of it out |
| Registry.ReturnsRegistered | grpcclient/client.go:64-81 | every call returns a client that was the registered one at some moment between its first and its last step |
| Registry.OneClientPerEpoch | grpcclient/client.go:64-81 | all calls within a stretch of the run in which no deletion takes a client of their address out share one client |
| Registry.DeletionOtherClient | grpcclient/client.go:60-81 | a call that begins after such a deletion gets another client than any that ended before it |

## Left out

- gRPC dialling, transport and real connectivity: dial results, connection states and clock readings are arguments.
- JSON and protobuf codecs, reflection, validation, HTTP responses, and the copying of headers with their keys in lower case.
- The other packages (databases, object store, message broker, logger, utilities, metadata helpers).
- PoolHeap.Walk: the closes inside the loop are returned as a list and not carried out on a connection object.
- PoolHeap.GetConn: one thread without interference between its two locked sections; with interference, over runs, it is in `PoolMachine` and `PoolAddresses`.
- PoolHeap.ReleaseConn: one address at a time; interleavings are in `PoolMachine`, whose steps are the functions the pointer methods are proved equal to.
- Calls.LeaseDiscipline: the goroutine of a timed-out Invoke may still be using the connection after the lease is returned; the statement is about leases.
- Calls.SystemStepKeepsInv: the calls are steps on values, since they interleave; the deletion of a client by a late failing call is an ordinary deletion in `Registry`.
- Relay.StepKeepsInv: the goroutines are steps on values, since they interleave; that several of them use one object is in the shared state. A call on the socket or the stream is one step, the one at which it takes effect; a Send under way when Recv fails counts as done before it or as failed.
- Relay.RelayOrder: messages are texts; marshalling a message that came from gRPC and failing to write it are the same failure.
- Registry.StepKeepsInv: likewise steps on values, beside the class for a single thread; one step is one operation on the concurrent map or the mutex.
- Routing.GrpcServer.RegisterWithUrl: a service is a type name, its method names and their parameter counts; the parameter types are not modelled.
- Routing.GateReachesHandler: the request URI has no query string, as the gate does not cut one off.
- Timeout.SecondsArrive: this is for unary calls; the default timeout and the deadline's remaining time are arguments.
- Timeout.HeaderCrosses: which keys the transport reserves, drops or adds is not modelled; the statement is about the keys it carries.
