# What the interceptors guarantee, in Dafny

The repository intercepts network traffic inside a Node.js process. Client sockets,
`fetch`/HTTP requests and `WebSocket` objects are replaced by objects of its own. These show
what the client sends to listeners, and either answer it (a mock) or let it go on to the real
peer (a passthrough). This project models the state machines behind that and proves what they
promise over every run.

Every component comes in two forms. A *machine* is a record of the component's state and one
function per step; what the component promises is proved about the machine, over every
sequence of events. A *class* has the source's fields and loops; each of its methods is proved
to take exactly the machine's step of that name, and a method that runs any list of events on
the object is proved to end where the machine's run ends, so the lemmas speak of the objects.

| files | what they model |
|---|---|
| `socket_machine.dfy`, `tcp_socket_controller.dfy` | the intercepted client socket: buffered writes, verdicts, resets at message boundaries, retargeting, handle swap, corked reads, deferred closes |
| `socket_isolation.dfy`, `socket_transitions.dfy` | which write reaches which connection, how often, and with what becomes of its callback |
| `socket_http.dfy` | HTTP requests on a kept-alive socket as a much simpler book of exchanges, refined by the controller |
| `socket_retarget.dfy`, `socket_replacement.dfy`, `socket_reads.dfy` | retargeting to a tunnel; connections replaced after they dropped; reads that are corked, replayed and closed |
| `socket_delivery.dfy`, `socket_closing.dfy` | what uncorking delivers; what closes and connects the client, and what its closing leaves behind |
| `server_socket.dfy`, `server_flushing.dfy` | the server side's write buffer and backpressure; what is pushed, and when |
| `verdicts.dfy` | how many subscribers a connection awaits, and the automatic passthrough |
| `websocket_pair.dfy`, `websocket_original.dfy`, `websocket_forwarding.dfy`, `websocket.dfy` | the mocked WebSocket, its server connection, and the microtask queue between them |
| `websocket_outcomes.dfy`, `websocket_listeners.dfy` | what opening, sending and closing come to once the microtasks have run; where the listeners' own actions fall |
| `request_resolution.dfy`, `request_outcomes.dfy` | the race between listeners, abort and controller, and its error branches; what each outcome asks of the source |
| `lifecycle.dfy`, `lifecycle_owners.dfy` | interceptors, their owners, their setups and rollbacks; who owns one from outside |
| `patches.dfy`, `patches_calls.dfy` | property patches and what restoring them brings back; what each call answers |
| `header_lists.dfy`, `raw_headers.dfy`, `header_rewrite.dfy`, `header_fragments.dfy`, `text.dfy` | header lists and the raw headers beside them, the rewrite of a message's header block, headers assembled from pieces |

What the models assume of their surroundings:

- A push to the server side makes the controller change state at most once (`DisciplinedRun`).
  `SocketTransitions.SettledOnceIff` says exactly what happens without that.
- A real connection takes what it is handed in order, and completes each accepted write once.
  Write callbacks and event listeners do not re-enter the component that calls them; what they
  do is given with the event that runs them, as a list of any length.
- What others answer is a parameter, and the lemmas hold for every answer: whether a client
  can take more data, at which step a setup throws, which contestant wins a race.

Where the code does not do what one would expect, the code is modelled; lemmas show an input
and say exactly when it happens:

- Two transitions inside one push may lose a write (`ResetThenPassLosesTheWrite`): when the
  first and the last of them disagree on passing it through (`SettledOnceIff`).
- A write pushed while an older one is still deferred overtakes it (`WriteOvertakes`,
  `ShownInOrderIff`).
- A passthrough connection that was replaced because it had dropped keeps its listeners, and
  the client keeps its handle (`ReplacedStillCloses`, `ReplacedHandleIsStale`). A write leaves
  on another than the current connection exactly when the handle was swapped in from one that
  was replaced since, with no connect and no retarget after that (`WriteLeavesOnCurrentIff`);
  a connection that is not the current one closes the client exactly when it was replaced and
  nothing holds the close back (`StrayCloseIff`).
- Replaying corked reads is not guarded against a client that has closed (`ReplayCanCloseTwice`):
  it closes again exactly when the queue holds a close at which no pushed end is unread
  (`ReplayClosesAgainIff`).
- A client whose connection closed before its end was read, and whose replacing connection then
  fails, is closed twice (`ForcedCloseComesSecond`): the failure lets the waiting close go and
  forces another. `ClosesAgainIff` says exactly when a closed client is told of a close again.
- The count of awaited subscribers is not re-armed: a decline that comes after another
  subscriber's claim is lost (`LateDeclineIsLost`), and after an automatic passthrough the next
  exchange waits for a call (`NextExchangeIsNotPassed`). `WaitsIff` says exactly when an exchange
  waits with nothing scheduled.
- A falsy value thrown by a listener is overlooked (`OverlookedIffFalsy`); a request may be
  returned from undecided (`NestedPassthroughLeavesPending`), exactly when nobody had decided it
  and an exception listener passed it through (`ReturnsPendingIff`).
- A message of the original WebSocket server may come before the client's "open"
  (`ForwardedBeforeOpen`, `ForwardedEarlyIff`) or after its "close" (`ForwardedAfterClose`,
  `ForwardedLateIff`). A server connection made after the client closed is closed by nobody
  (`LateConnectStaysOpen`, `ClosedIffInTime`). A send from the server side's "open" listener
  overtakes what waited for the connection (`OpenListenerOvertakes`, `ServerSendsInOrderIff`).
- Restoring a patch on an object that was frozen meanwhile throws, or, if the property had been
  inherited, is silently forgotten (`FrozenShadowIsForgotten`); `RestoresIff` says when either
  happens, whatever somebody did to the object.
- Headers whose initial values were not recorded lose them from the raw list with the first
  append (`UnrecordedValueIsLost`). `AgreesIff` and `CompleteIff` say exactly when the raw list,
  and what is read of it, has all values of a name.
- Of several `Set-Cookie` headers only the destination has, copying raw headers keeps one
  (`CopyIsCompleteIff`).
- Header lines are split at every ": ", so a value that contains one shifts what is read
  (`ReadRightIff`), and the rewrite may throw on it (`ShiftedIsRefused`). A rewrite of a message without header lines, for a request that names
  headers but has none of them, adds a blank line (`ExtraBlankLine`, `ExtraBlankLineIff`); one of
  a chunk without a blank line, or with one at its start, leaves the old header lines in place
  (`WithoutEndLinesStay`, `OldLinesStayIff`).

One comment disagrees with its code: `src/utils/response-utils.ts` describes `isResponseLike` as
a test for responses. Its loose object test accepts every value, so `handleResponse` never
reaches its branch for arbitrary objects; the model follows the code.

## Model

| member | source | states |
|---|---|---|
| `SocketIsolation.ExchangeIsolation` | src/interceptors/net/socket-controller.ts:742-855 | over every disciplined run, until the client closes: each client write is in exactly one exchange, in order, and what was handed to real connections is exactly the writes of the passed-through exchanges, each once and in order |
| `SocketIsolation.ClaimedNeverOnWire` | src/interceptors/net/socket-controller.ts:1219-1298 | no write of a claimed or undecided exchange ever reaches a real connection, even when the claim leaves the buffer uncleared |
| `SocketIsolation.CallbacksSettleOnce` | src/interceptors/net/socket-controller.ts:798-882 | every callback the client passed is acknowledged or given to a connection, once |
| `SocketIsolation.SentWhereWanted` | src/interceptors/net/socket-controller.ts:833-852 | a write leaves on a connection to the target wanted at that moment, and on the client's own handle only after a handle was swapped in |
| `SocketIsolation.StepKeepsOpen` | src/interceptors/net/socket-controller.ts:742-855 | every event keeps the invariant behind these, and records exactly the client's write |
| `SocketIsolation.RunKeepsOpen` | src/interceptors/net/socket-controller.ts:599-855 | the invariant holds over every disciplined run that leaves the client open |
| `SocketTransitions.SettledOnceIff` | src/interceptors/net/socket-controller.ts:766-855 | for any transitions inside a push: the write's callback is settled once if and only if its own exchange is passed through exactly when the push ends passing through |
| `SocketTransitions.OneTransitionIsSafe` | src/interceptors/net/socket-controller.ts:766-855 | one transition per push always meets that condition |
| `SocketTransitions.ResetThenPassLosesTheWrite` | src/interceptors/net/socket-controller.ts:826-835 | a reset followed by a passthrough inside one push: the write is neither sent nor acknowledged nor buffered |
| `SocketTransitions.ShownExactlyOnce` | src/interceptors/net/socket-controller.ts:766-796 | over any run, every client write is shown to the server side once, or still owed to it |
| `SocketTransitions.ShownInOrderIff` | src/interceptors/net/socket-controller.ts:766-796 | the server side sees the writes in client order if and only if none overtakes a deferred one |
| `SocketTransitions.WriteOvertakes` | src/interceptors/net/socket-controller.ts:766-796 | it happens: a write made while nobody listens, then one somebody listens to, is seen second |
| `SocketHttp.RequestsStayApart` | src/interceptors/http/source.ts:170-211 | requests one after another on a kept-alive socket, in any disciplined run that leaves the client open: whether an exchange ends at the next write after its message was parsed, by the agent's "free", by a retarget to a tunnel, or by the reset of the next request, the exchanges are the requests with their own verdicts, and the real connections got exactly the forwarded ones' writes |
| `SocketHttp.RunIsBook` | src/interceptors/net/socket-controller.ts:549-855 | over every disciplined run that leaves the client open, whoever gives verdicts, notes boundaries or resets the controller, and whether in the middle of a push or between, the controller refines a book of exchanges that knows no buffers, connections or reads |
| `SocketHttp.RequestsNoted` | src/interceptors/http/source.ts:170-197 | the book of a list of requests is that list, chunk by chunk, however each ends, and whether its boundary is parsed before or after the verdict |
| `SocketHttp.HttpIsDisciplined` | src/interceptors/http/source.ts:170-197 | a run in which no push both resets the controller and gives a verdict is disciplined |
| `SocketRetarget.RetargetRoutes` | src/interceptors/net/socket-controller.ts:599-653 | after a retarget, until the next one, every byte goes to a connection made to the new target, and a current connection has it |
| `SocketRetarget.AbandonedIsSilent` | src/interceptors/net/socket-controller.ts:611-642 | erasing every later event of an abandoned connection changes nothing at all |
| `SocketRetarget.RetargetSilences` | src/interceptors/net/socket-controller.ts:599-653 | a retarget abandons the passthrough connection it finds |
| `SocketRetarget.RunIsTidy` | src/interceptors/net/socket-controller.ts:1300-1431 | a connection whose events reach the client is the current one or dead, and so is the owner of the client's handle |
| `SocketReplacement.WriteLeavesOnCurrentIff` | src/interceptors/net/socket-controller.ts:833-852 | over every run, a write after a passthrough verdict, whatever boundaries and refused verdicts its push brings, is sent once, and on the current connection if and only if the handle is not of a connection that was replaced since, with no connect and no retarget after that |
| `SocketReplacement.StrayCloseIff` | src/interceptors/net/socket-controller.ts:1068-1118 | over every run, the close of another connection than the current one closes the client if and only if that connection was replaced, not abandoned, and neither the cork nor a guard of the close path holds it back |
| `SocketReplacement.RunTold` | src/interceptors/net/socket-controller.ts:1300-1431 | connects, replacements and retargets alone say whose handle the client holds and whose events reach it |
| `SocketReplacement.ReplacedStillCloses` | src/interceptors/net/socket-controller.ts:1305-1330 | it happens: the close of a dropped connection closes the client although another one serves it |
| `SocketReplacement.ReplacedHandleIsStale` | src/interceptors/net/socket-controller.ts:833-852 | it happens: a write made before the replacing connection connects leaves on the dead one's handle |
| `SocketReads.CorkIsTransparent` | src/interceptors/net/socket-controller.ts:1004-1099 | until the client closes: what it got, followed by what is corked, is what arrived, in order; uncorked means nothing is held |
| `SocketReads.CorkWithholds` | src/interceptors/net/socket-controller.ts:1178-1217 | while the reads are corked no data and no end is delivered |
| `SocketReads.CloseNeverOvertakes` | src/interceptors/net/socket-controller.ts:1068-1148 | when a close closes the client, all that arrived before that close was delivered before it |
| `SocketReads.DeferredClosesOnce` | src/interceptors/net/socket-controller.ts:1109-1148 | over every run, neither the deferred path nor the forwarding one closes a closed client |
| `SocketReads.CloseWaitsForEnd` | src/interceptors/net/socket-controller.ts:1109-1148 | a pushed, unread end keeps the close waiting over every run in which it is not read and the socket not destroyed |
| `SocketReads.ReleasedClose` | src/interceptors/net/socket-controller.ts:1120-1147 | reading the end, or destroying the socket, releases exactly one close |
| `SocketReads.ReplayClosesAgainIff` | src/interceptors/net/socket-controller.ts:1186-1217 | uncorking closes a closed client again if and only if the queue holds a close at which no pushed end is unread on an undestroyed client |
| `SocketReads.ReplayCloseCount` | src/interceptors/net/socket-controller.ts:1186-1217 | a replay emits one close for every corked one of that kind, and no other |
| `SocketReads.ReplayCanCloseTwice` | src/interceptors/net/socket-controller.ts:1186-1217 | it happens: one connection's one close, corked after the client was destroyed and closed, closes the client again when replayed |
| `SocketDelivery.UncorkDelivers` | src/interceptors/net/socket-controller.ts:1186-1217 | over every run, a client that is open after uncorking has nothing corked and has got everything that arrived, in order |
| `SocketDelivery.UncorkCloses` | src/interceptors/net/socket-controller.ts:1186-1217 | over every run, when uncorking closes the client, the first close it gets is that of one that was corked, and before it the client got exactly what arrived before that close |
| `SocketDelivery.UncorkReplays` | src/interceptors/net/socket-controller.ts:1186-1217 | over every run, on a closed client too: uncorking hands over the whole queue in order, but for the closes at which a pushed end is unread, which wait |
| `SocketDelivery.CorkedIff` | src/interceptors/net/socket-controller.ts:1178-1217 | until the client closes, its reads are corked if and only if the last order was to cork them |
| `SocketDelivery.EndReadIff` | src/interceptors/net/socket-controller.ts:1109-1148 | the end counts as read if and only if the consumer read on after the client, not destroyed, had got it |
| `SocketClosing.ClosesIff` | src/interceptors/net/socket-controller.ts:1030-1148 | an open client is closed by exactly these: a close of an attached connection that nothing holds back, a replay with a close that slips through, a tick that is due, and its own closing when destroyed without a swapped handle |
| `SocketClosing.ClosesAgainIff` | src/interceptors/net/socket-controller.ts:1030-1148 | a closed client is told of a close again by exactly these: a replay in which a close slips through, the forced close of a failed connection, and its own closing |
| `SocketClosing.FailureCloses` | src/interceptors/net/socket-controller.ts:1030-1053 | over every run, the tick after a connection failed closes the client if and only if its handle was swapped, a close was waiting for the end, or another was due already |
| `SocketClosing.ForcedCloseComesSecond` | src/interceptors/net/socket-controller.ts:1030-1053 | it happens: a close that waited for the end is let go by the failure of a later connection, and the forced close comes on top of it |
| `SocketClosing.ClosingCleansUp` | src/interceptors/net/socket-controller.ts:558-577 | over every run, the event that closes the client leaves none of its connections alive, and nothing buffered or corked |
| `SocketClosing.ConnectedIff` | src/interceptors/net/socket-controller.ts:884-985 | over every run, the client is connected if and only if a mock, an emulation that found it undecided with nothing buffered, or its current connection connected it |
| `SocketClosing.EmulatedIff` | src/interceptors/net/socket-controller.ts:667-710 | over every run, an emulated connect is remembered if and only if no exchange has ended since |
| `SocketClosing.ClaimDropsBufferIff` | src/interceptors/net/socket-controller.ts:1219-1276 | over every run, a claim drops what is buffered if and only if the client is not destroyed, and is connecting or only emulated as connected |
| `TcpSocket.ChunkedWriteIsWhole` | src/interceptors/net/utils/flush-writes.ts:15-41 | however a write is split, its bytes go out once, in order, and its callback travels once |
| `TcpSocket.WritePendingData` | src/interceptors/net/utils/flush-writes.ts:15-41 | the loop issues one socket write per chunk, only the last with the callback |
| `TcpSocket.UnwrapPendingData` | src/interceptors/net/utils/flush-writes.ts:43-57 | the chunks of a write are emitted one by one, in order |
| `TcpSocket.TcpSocketController.HandleWrite` | src/interceptors/net/socket-controller.ts:742-855 | the object's write path: its whole new state is the machine's |
| `TcpSocket.TcpSocketController.SettleWrite` | src/interceptors/net/socket-controller.ts:798-855 | what becomes of a write after the push, by the state then observed |
| `TcpSocket.TcpSocketController.Reset` | src/interceptors/net/socket-controller.ts:599-653 | the reset, with or without a new target |
| `TcpSocket.TcpSocketController.Claim` | src/interceptors/net/socket-controller.ts:1219-1298 | the claim, refused on a settled socket |
| `TcpSocket.TcpSocketController.Passthrough` | src/interceptors/net/socket-controller.ts:1300-1431 | the passthrough: reuse or open a connection, flush the buffer into it |
| `TcpSocket.TcpSocketController.FlushBufferedWrites` | src/interceptors/net/socket-controller.ts:1344-1361 | the flush loop: every buffered write once, in order, only the first rewritten, each callback with its write |
| `TcpSocket.TcpSocketController.OnRealSocketConnect` | src/interceptors/net/socket-controller.ts:924-985 | the handle swap |
| `TcpSocket.TcpSocketController.UncorkReads` | src/interceptors/net/socket-controller.ts:1186-1217 | the replay loop; a client that is still open has then got everything that arrived |
| `TcpSocket.TcpSocketController.EmitClientClose` | src/interceptors/net/socket-controller.ts:1109-1148 | the close is delivered, or waits for the unread end |
| `TcpSocket.TcpSocketController.HandleEvent` | src/interceptors/net/socket-controller.ts:467-1431 | any event takes the object where the machine's step goes |
| `TcpSocket.Live` | src/interceptors/net/socket-controller.ts:467-1431 | any events: the object is where the run is; in a disciplined one the bytes on the wire are those of the passed-through exchanges; and an open client whose reads were uncorked last has got all that arrived |
| `ServerStream.StreamInOrder` | src/interceptors/net/socket-controller.ts:142-216 | for any writes and at most one end, any reads and any backpressure answers: pushed then pending chunks are the written ones in order, callbacks likewise, and the end is pushed once or still pending |
| `ServerStream.EndComesLast` | src/interceptors/net/socket-controller.ts:299-348 | the end-of-stream comes after every chunk, and once |
| `ServerStream.NothingIsStranded` | src/interceptors/net/socket-controller.ts:142-216 | buffered data or a buffered end implies the backpressure flag, and while connecting a scheduled flush |
| `ServerStream.StepKeeps` | src/interceptors/net/socket-controller.ts:142-216 | "drain" is emitted exactly when a completed flush clears the flag |
| `ServerStream.EnoughReadsDeliver` | src/interceptors/net/socket-controller.ts:307-318 | once connected, one read per buffered write and one more deliver everything, whatever the client answers |
| `ServerFlushing.WriteIsPushed` | src/interceptors/net/socket-controller.ts:299-319 | over any use, a write to a connected client with room is pushed at once, its callback called, nothing waits, and the flag is set if and only if the client refused that push |
| `ServerFlushing.ReadyPushes` | src/interceptors/net/socket-controller.ts:142-179 | what was written while connecting is pushed when the connected client is ready: up to and including the first push that is refused, and if none is, all of it and the end |
| `ServerFlushing.PushedAsFarAsItGoes` | src/interceptors/net/socket-controller.ts:142-216 | over any use, exactly the writes with room, the ends, the scheduled flushes and the reads of a stream that waits push that far, as soon as the client is connected |
| `ServerSocketProxy.ServerSocket.FlushPendingWrites` | src/interceptors/net/socket-controller.ts:142-216 | the flush loop, its flags and its early exit |
| `ServerSocketProxy.ServerSocket.Write` | src/interceptors/net/socket-controller.ts:299-319 | a server write, and its answer; with a connected client that has room it is pushed and called back |
| `ServerSocketProxy.ServerSocket.End` | src/interceptors/net/socket-controller.ts:323-347 | a server end, with its last chunk |
| `ServerSocketProxy.ServerSocket.OnReady` | src/interceptors/net/socket-controller.ts:142-179 | the flush that was scheduled while connecting, pushed as far as the client takes it |
| `ServerSocketProxy.Live` | src/interceptors/net/socket-controller.ts:142-347 | any use of the object, and then a connected client that reads on: nothing is left, and the client got what was written, in order |
| `Verdicts.OneVerdictPerExchange` | src/interceptors/net/socket-controller.ts:383-453 | under any interleaving each exchange gets one verdict at most, and the automatic passthrough never trips the already-handled check |
| `Verdicts.AutomaticMeansAllDeclined` | src/interceptors/net/socket-controller.ts:413-453 | with each subscriber declining at most once, automatic passthrough happens only if nobody was awaited or all declined |
| `Verdicts.CounterIsExact` | src/interceptors/net/socket-controller.ts:428-453 | the counter is what is left of the awaited declines, and a deferred passthrough means none is |
| `Verdicts.UndecidedMeansSomebodyIsDue` | src/interceptors/net/socket-controller.ts:413-453 | in the first exchange, whoever claims or passes in it, once the ticks ran: the connection is undecided if and only if nobody decided it and some subscriber did not decline |
| `Verdicts.WaitsIff` | src/interceptors/net/socket-controller.ts:383-453 | in every exchange of a socket that stays open: it is undecided with nothing scheduled if and only if since it began nobody claimed or passed it and no decline left none awaited, and no tick was due from an earlier one |
| `Verdicts.LateDeclineIsLost` | src/interceptors/net/socket-controller.ts:428-431 | it happens: a decline after a claim is not counted, and a later exchange both subscribers have declined waits with nothing scheduled |
| `Verdicts.NextExchangeIsNotPassed` | src/interceptors/net/socket-controller.ts:413-453 | it happens without a late decline: the exchange after an automatic passthrough waits with nothing scheduled |
| `Verdicts.TickPassesIff` | src/interceptors/net/socket-controller.ts:433-453 | a connection is passed through automatically by exactly the ticks that are due while it is undecided, unless the socket was destroyed before |
| `Verdicts.SocketController.AwaitVerdicts` | src/interceptors/net/socket-controller.ts:413-419 | awaiting nobody passes through at once |
| `Verdicts.SocketController.DeclineConnection` | src/interceptors/net/socket-controller.ts:428-453 | a decline counts only while undecided, and schedules rather than acts |
| `Verdicts.ServeAll` | src/interceptors/net/index.ts:244-266 | any calls on the object are the run the lemmas speak of |
| `WebSocketPair.ClosesOnce` | src/interceptors/WebSocket/web-socket-override.ts:172-208 | whoever closes, however often: one close event for a closed client and none before, one at most on the server side, and a closure crosses from one side to the other once at most |
| `WebSocketPair.NeverReopens` | src/interceptors/WebSocket/web-socket-override.ts:56-77 | the client's ready state never decreases |
| `WebSocketPair.ComesToRest` | src/interceptors/WebSocket/web-socket-server-connection.ts:295-419 | left alone, the microtasks end; a client anybody closed is closed with one event, an open one has dispatched every mocked message in order, and all outgoing data was announced in order |
| `WebSocketPair.MessagesComeInOrder` | src/interceptors/WebSocket/web-socket-class-transport.ts:65-106 | mocked messages are dispatched in the order sent, each at most once, none skipped |
| `WebSocketPair.MessagesOnlyWhileOpen` | src/interceptors/WebSocket/web-socket-class-transport.ts:65-106 | a mocked client opens once, before it closes, and gets mocked messages only in between |
| `WebSocketOriginal.ServerSendsInOrderIff` | src/interceptors/WebSocket/web-socket-server-connection.ts:257-290 | over every run, all data accepted for the original server is handed to it once or still waits for it to open, and in call order if and only if no listener of the "open" event sends while something waits |
| `WebSocketOriginal.CloseReachesTheServer` | src/interceptors/WebSocket/web-socket-server-connection.ts:152-170 | a closed client leaves no original connection open that was made before it closed |
| `WebSocketOriginal.ClosedIffInTime` | src/interceptors/WebSocket/web-socket-server-connection.ts:161-171 | when nobody but the client closes, the original connection of a closed client is ending if and only if it was made before the client's close event was dispatched |
| `WebSocketPair.StepKeeps` | src/interceptors/WebSocket/web-socket-server-connection.ts:121-419 | every event keeps the close and message invariants |
| `WebSocketForwarding.ForwardedBeforeOpen` | src/interceptors/WebSocket/web-socket-server-connection.ts:338-383 | it happens: a message of the original server is dispatched on a client still connecting |
| `WebSocketForwarding.ForwardedEarlyIff` | src/interceptors/WebSocket/web-socket-server-connection.ts:338-383 | over every run, the client gets a forwarded message with no "open" before it if and only if one arrives on the open connection, unprevented, before "open" was dispatched |
| `WebSocketForwarding.UnopenedIff` | src/interceptors/WebSocket/web-socket-server-connection.ts:338-383 | for a mocked client that is: while it is connecting, or when it never opens |
| `WebSocketForwarding.ForwardedLateIff` | src/interceptors/WebSocket/web-socket-server-connection.ts:338-383 | over every run, the client gets a forwarded message after "close" if and only if one arrives on the open connection, unprevented, while the client is closed |
| `WebSocketForwarding.LateMeansConnectedLate` | src/interceptors/WebSocket/web-socket-server-connection.ts:121-171 | the connection of such a message was made after the client's close event was dispatched |
| `WebSocketForwarding.ForwardedAfterClose` | src/interceptors/WebSocket/web-socket-server-connection.ts:338-383 | it happens: a message of a connection made late comes after "close" |
| `WebSocketOriginal.LateConnectStaysOpen` | src/interceptors/WebSocket/web-socket-server-connection.ts:121-203 | it happens: a connection made after the client closed stays open with everything at rest |
| `WebSocketOriginal.OpenListenerOvertakes` | src/interceptors/WebSocket/web-socket-server-connection.ts:274-290 | it happens: a send from the server side's "open" listener goes out before what was waiting |
| `WebSocketOutcomes.MockedClientOpens` | src/interceptors/WebSocket/index.ts:112-114 | over every run whose connection listeners decided to mock, the client ends open if and only if nobody closed it; it is then told so once and gets every mocked message in order |
| `WebSocketOutcomes.UndecidedStaysConnecting` | src/interceptors/WebSocket/index.ts:112-114 | without that decision a client that is connecting stays so, whatever else happened |
| `WebSocketOutcomes.UnmockedClientConnects` | src/interceptors/WebSocket/index.ts:115-129 | a client nobody mocks has a connection to the original server, and gets "open" when that opens |
| `WebSocketOutcomes.ThrownListenersClose` | src/interceptors/WebSocket/index.ts:131-148 | connection listeners that throw close an unclosed client with code 1011 |
| `WebSocketOutcomes.ClosedWithCode` | src/interceptors/WebSocket/web-socket-override.ts:132-208 | whoever closes a client first, it ends closed, told once, with the code given; a send while connecting closes it with 1000 |
| `WebSocketOutcomes.NothingElseCloses` | src/interceptors/WebSocket/web-socket-override.ts:132-208 | no other call does: not one with a code outside the allowed ones, nor a send to an open client |
| `WebSocketOutcomes.OriginalCloseReaches` | src/interceptors/WebSocket/web-socket-server-connection.ts:392-419 | the original server's close, with anything its listeners do, is told to the server side once, and unless prevented closes a client nobody closed with its code |
| `WebSocketOutcomes.ServerCloseIsTold` | src/interceptors/WebSocket/web-socket-server-connection.ts:295-336 | the interceptor's close of a live connection is told to the server side exactly once, whatever is queued |
| `WebSocketOutcomes.SendIsAnnounced` | src/interceptors/WebSocket/web-socket-override.ts:132-160 | what an open client sends is announced, after all it sent before |
| `WebSocketOutcomes.SendIsForwarded` | src/interceptors/WebSocket/web-socket-server-connection.ts:121-150 | with the original connection open it is also handed to that, after all that was on its way |
| `WebSocketOutcomes.MessageIsDelivered` | src/interceptors/WebSocket/web-socket-class-transport.ts:65-106 | what the interceptor sends to a client that will be open is dispatched on it, after all it sent before |
| `WebSocketOutcomes.NothingStaysBuffered` | src/interceptors/WebSocket/web-socket-override.ts:144-160 | when the microtasks are done no data counts as buffered |
| `WebSocketListeners.TaskThenListeners` | src/interceptors/WebSocket/web-socket-override.ts:144-208 | what listeners do during a microtask that dispatches an event, but for the client's close, has the effect of doing it right after |
| `WebSocketListeners.CloseThenListeners` | src/interceptors/WebSocket/web-socket-override.ts:186-207 | of the client's close, so have those that run after the closure is relayed; those before act on the client as any |
| `WebSockets.MockedWebSocket.Send` | src/interceptors/WebSocket/web-socket-override.ts:133-161 | the client's send in every ready state |
| `WebSockets.MockedWebSocket.CloseSocket` | src/interceptors/WebSocket/web-socket-override.ts:172-208 | the internal close |
| `WebSockets.MockedWebSocket.CloseServer` | src/interceptors/WebSocket/web-socket-server-connection.ts:295-336 | the server side's close |
| `WebSockets.MockedWebSocket.OnRealClose` | src/interceptors/WebSocket/web-socket-server-connection.ts:394-419 | the original server's close, forwarded unless prevented |
| `WebSockets.MockedWebSocket.RunMicrotask` | src/interceptors/WebSocket/web-socket-override.ts:148-160 | one microtask, with what its listeners do |
| `WebSockets.MockedWebSocket.RunMicrotasks` | src/interceptors/WebSocket/web-socket-override.ts:188-207 | the queue runs dry |
| `WebSockets.Live` | src/interceptors/WebSocket/index.ts:66-153 | any events, then the microtasks: at rest, closed exactly with one close event, and, when its listeners decided to mock it and nobody closed it, open with all messages dispatched |
| `RequestResolution.SourceCalledOnce` | src/request-controller.ts:45-130 | over every interleaving, late calls included: the source is called at most once, exactly when the controller is settled, as its state says |
| `RequestResolution.FirstSettlementWins` | src/request-controller.ts:45-130 | nothing later changes what the source was asked to do |
| `RequestResolution.ReturnMeansSettled` | src/utils/handle-request.ts:148-224 | a handler that returned left the request settled, unless an exception listener passed it through |
| `RequestResolution.ReturnsPendingIff` | src/utils/handle-request.ts:148-224 | the step in which the handler returns leaves the request undecided if and only if it was undecided before and an exception listener passed it through |
| `RequestResolution.NestedPassthroughLeavesPending` | src/utils/handle-request.ts:163-209 | that exception happens |
| `RequestResolution.AbortedReturnFails` | src/utils/handle-request.ts:92-151 | a return after an abort noticed in time means the request failed with the abort's reason |
| `RequestResolution.RunIsExplained` | src/utils/handle-request.ts:38-224 | whatever the source was asked to do goes back to a call, an abort or a thrown value |
| `RequestResolution.RefusalIsNeverAnswered` | src/utils/handle-request.ts:71-76 | an InterceptorError is never turned into a response |
| `RequestResolution.OverlookedIffFalsy` | src/utils/handle-request.ts:153-224 | what a listener throws is overlooked, and the request passed through, if and only if the value is falsy |
| `RequestOutcomes.UndecidedOutcome` | src/utils/handle-request.ts:146-224 | in every reachable race nobody decided, the listeners done: the request is passed through if and only if they finished or threw a falsy value; any other value gives exactly the call it stands for, the refusal, or the exception listeners' turn |
| `RequestOutcomes.DecidedOutcome` | src/utils/handle-request.ts:146-224 | in every reachable race somebody decided: the source is asked nothing more, and the handler waits for it, returns, refuses, or asks the exception listeners |
| `RequestOutcomes.AbortOutcome` | src/utils/handle-request.ts:92-151 | an abort while racing, whoever wins: an undecided request fails with its reason, a decided one is left and the handler refused |
| `RequestOutcomes.AbortedBeforehand` | src/utils/handle-request.ts:104-108 | for a signal aborted beforehand, whatever happens: the one call of the source is the error with its reason |
| `RequestOutcomes.UntouchedGoesThrough` | src/utils/handle-request.ts:113-224 | the ordinary run: nobody calls, the listeners finish, the source is asked to pass through, and the handler returns when that is done |
| `RequestOutcomes.ExceptionOutcome` | src/utils/handle-request.ts:192-216 | after the exception listeners: a thrown value rejects the handler; otherwise an undecided nested controller gives a server error of the first exception, and a decided one is left |
| `RequestOutcomes.NestedCallReaches` | src/utils/handle-request.ts:167-190 | the first call of an exception listener settles the nested controller, and an undecided source gets the call it stands for, but nothing for a passthrough |
| `RequestResolution.RequestController.Passthrough` | src/request-controller.ts:45-60 | settles as passed through, once the source is done |
| `RequestResolution.RequestController.Respond` | src/request-controller.ts:70-100 | settles with a response |
| `RequestResolution.RequestController.Fail` | src/request-controller.ts:109-130 | settles with an error |
| `RequestResolution.RequestHandler.OnResume` | src/utils/handle-request.ts:146-224 | the branches after the race; of an undecided request nobody's listener spoiled, a passthrough |
| `RequestResolution.RequestHandler.OnNestedCall` | src/utils/handle-request.ts:167-190 | the nested controller relays to the outer one |
| `RequestResolution.HandleRequest` | src/utils/handle-request.ts:29-224 | any interleaving on the objects is the run the lemmas speak of |
| `Lifecycle.ActiveIffOwned` | src/interceptor.ts:59-100 | for any calls by any owners, between calls an interceptor is active if and only if it has an owner |
| `Lifecycle.OwnedByActiveParents` | src/batch-interceptor.ts:116-143 | the interceptors owning one are exactly the active ones whose setup applies it, if it suits the environment |
| `Lifecycle.UndoneOnceLastFirst` | src/disposable.ts:6-12 | every undo is of the last thing not undone yet, and everything a setup did is undone exactly once, unless it is in force |
| `Lifecycle.ApplyIsUndone` | src/interceptor.ts:59-100 | an apply that throws changes no interceptor's owners or subscriptions, and one that does not is exactly undone by its dispose, over the whole graph |
| `LifecycleOwners.HeldByCallers` | src/interceptor.ts:59-100 | over any calls, wherever setups throw: somebody outside owns an interceptor that suits if and only if an apply of theirs did not throw and they have not disposed of it since |
| `LifecycleOwners.ActiveWhileHeld` | src/interceptor.ts:59-100 | and so it is active if and only if it suits and somebody outside holds it or an active interceptor applies it |
| `LifecycleOwners.ApplyNeverThrows` | src/interceptor.ts:59-85 | an apply throws only if some step of a setup does |
| `Lifecycle.ApplyKeeps` | src/interceptor.ts:59-85 | an apply, its children's applies, and its rollback keep the invariant |
| `Lifecycle.DisposeKeeps` | src/interceptor.ts:87-99 | so does a dispose, with its teardown |
| `Lifecycle.RunIsGood` | src/interceptor.ts:59-100 | the invariant holds after any calls, wherever setups throw |
| `Lifecycle.Interceptors.ApplyOf` | src/interceptor.ts:59-85 | apply, with setup loop and rollback |
| `Lifecycle.Interceptors.DisposeOf` | src/interceptor.ts:87-99 | dispose |
| `Lifecycle.Interceptors.RunSubscriptions` | src/disposable.ts:6-12 | the teardown loop |
| `Lifecycle.Interceptors.RunSetup` | src/batch-interceptor.ts:116-143 | the setup loop, registering each undo before the next step |
| `Lifecycle.Live` | src/interceptor.ts:59-100 | any calls on the objects are the run the lemmas speak of |
| `Patches.UnreplacedIsOriginal` | src/utils/patches-registry.ts:6-77 | after any applies, restores and repeated or stale restores, what is not registered has its original own descriptor, or none |
| `Patches.ClosuresRememberOriginal` | src/utils/patches-registry.ts:41-77 | every restore function ever handed out remembers the original |
| `Patches.RestoreAllBringsBack` | src/utils/patches-registry.ts:79-100 | restoring everything never fails, empties the registry, and brings every object back |
| `Patches.PatchesIff` | src/utils/patches-registry.ts:6-39 | a patch takes effect if and only if the property exists, may be replaced, and there is room for it |
| `Patches.ReplaceIsReversible` | src/utils/patches-registry.ts:27-39 | a replacement holds the new value, touches nothing else, and can be turned back |
| `Patches.RestoreGivesBack` | src/utils/patches-registry.ts:48-62 | restoring such a property succeeds and gives back the original |
| `Patches.RestoresIff` | src/utils/patches-registry.ts:41-68 | whatever somebody did to the objects meanwhile, a restore in force brings the original back if and only if the platform admits that, and throws and stays registered if and only if an own property is not admitted |
| `PatchesCalls.PatchTakesEffect` | src/utils/patches-registry.ts:6-39 | over any calls, a patch of a replaceable property not replaced yet gives the object that value as its own, and any other patch changes nothing at all |
| `PatchesCalls.RestoreTakesEffect` | src/utils/patches-registry.ts:41-77 | over any calls, calling a restore function, stale or not, leaves the property unregistered and the original |
| `PatchesCalls.EachIsTried` | src/utils/patches-registry.ts:79-100 | whatever somebody did to the objects meanwhile, restoring everything tries every replacement, and each gives the original back if and only if the platform admits that one, whatever became of the others |
| `PatchesCalls.AllRestoredIff` | src/utils/patches-registry.ts:79-100 | and it succeeds if and only if no own property refuses its original |
| `Patches.FrozenShadowIsForgotten` | src/utils/patches-registry.ts:54-67 | a shadowing property that cannot be deleted stays, and the registry forgets it |
| `Patches.LookupFinds` | src/utils/patches-registry.ts:115-134 | the lookup finds the nearest property on the prototype chain |
| `Patches.PatchesRegistry.GetDeepPropertyDescriptor` | src/utils/patches-registry.ts:115-134 | the walk down the chain |
| `Patches.PatchesRegistry.ApplyPatch` | src/utils/patches-registry.ts:6-77 | one patch on the object |
| `Patches.PatchesRegistry.RestorePatch` | src/utils/patches-registry.ts:41-68 | one restore on the object |
| `Patches.PatchesRegistry.RestoreAllPatches` | src/utils/patches-registry.ts:79-100 | the restore loop, which no single error stops |
| `Patches.Live` | src/utils/patches-registry.ts:3-101 | any calls on the object, then everything restored: the objects are the original ones |
| `RawHeaders.RawAgreesWithList` | src/interceptors/ClientRequest/utils/record-raw-headers.ts:166-200 | headers recorded from the start: after any append, set and delete the raw list has the header list's values, name by name, in order |
| `RawHeaders.AgreesIff` | src/interceptors/ClientRequest/utils/record-raw-headers.ts:10-28 | any headers, recorded or not, and any operations: the two lists agree on a name if and only if they did at the start or some operation set or deleted it |
| `RawHeaders.CompleteIff` | src/interceptors/ClientRequest/utils/record-raw-headers.ts:270-279 | what is read of them says all values of a name if and only if nothing is recorded to read, or the lists agreed on it at the start, or it was set or deleted since |
| `RawHeaders.UnrecordedValueIsLost` | src/interceptors/ClientRequest/utils/record-raw-headers.ts:270-279 | it happens: of unrecorded headers the fallback gives the value, and after one append it is read no more |
| `RawHeaders.RawIsVerbatim` | src/interceptors/ClientRequest/utils/record-raw-headers.ts:10-28 | every raw header is, letter by letter, one that was given |
| `RawHeaders.RawKeepsOrder` | src/interceptors/ClientRequest/utils/record-raw-headers.ts:10-28 | over any operations: the raw headers one does not concern stay as they are and in order, and what it gives comes last |
| `RawHeaders.FallbackIsEmpty` | src/interceptors/ClientRequest/utils/record-raw-headers.ts:270-279 | of headers recorded from the start the raw list is what is read, and the fallback never adds anything |
| `RawHeaders.CopyIsCompleteIff` | src/interceptors/ClientRequest/utils/record-raw-headers.ts:301-322 | a copy keeps what the source recorded, and of a header only the destination has, all values if and only if it has one entry |
| `RawHeaders.RecordedHeaders.RemoveRaw` | src/interceptors/ClientRequest/utils/record-raw-headers.ts:18-25 | the backward splice loop removes every header of that name, and no other |
| `RawHeaders.RecordedHeaders.RecordRawHeader` | src/interceptors/ClientRequest/utils/record-raw-headers.ts:10-28 | set replaces, append adds |
| `RawHeaders.RecordedHeaders.DeleteHeader` | src/interceptors/ClientRequest/utils/record-raw-headers.ts:186-200 | the patched delete |
| `RawHeaders.RecordedHeaders.CopyRawHeaders` | src/interceptors/ClientRequest/utils/record-raw-headers.ts:301-322 | the copy loop |
| `RawHeaders.RecordedHeaders.GetRawFetchHeaders` | src/interceptors/ClientRequest/utils/record-raw-headers.ts:270-279 | the raw headers, or the entries if there are none |
| `RawHeaders.Live` | src/interceptors/ClientRequest/utils/record-raw-headers.ts:166-200 | any operations on an object with any two lists leave them in agreement on a name exactly under that condition |
| `HeaderRewrite.OnlyTheBlockChanges` | src/interceptors/http/source.ts:639-705 | a message with a blank line keeps its start line and everything from the blank line on, is unchanged if its headers agree with the request's already, and is refused if the platform does not take what they are read as |
| `HeaderRewrite.RewrittenHeaderValues` | src/interceptors/http/source.ts:668-705 | the rewrite throws if and only if the platform does not take a header the lines are read as; otherwise, read again, the rewritten message says of each header the request's merged value if the request names and has it, else what the message was read as |
| `HeaderRewrite.RewrittenMessageReads` | src/interceptors/http/source.ts:699-705 | the rewritten message has the new entries as its header lines, and nothing else changed |
| `HeaderRewrite.OverlayValues` | src/interceptors/http/source.ts:672-695 | the loop over the request's names, each visited once, sets what the request has and leaves the rest |
| `HeaderLists.EntryValues` | src/interceptors/http/source.ts:699-702 | iterating over headers gives one merged entry a name, but every `Set-Cookie` by itself |
| `HeaderLists.NamesAreSorted` | src/interceptors/http/source.ts:699-702 | in the order of their lower-case names |
| `HeaderRewrite.NewHeaderValues` | src/interceptors/http/source.ts:668-695 | the new headers have the request's merged value of a header it names and has, else what the header lines are read as, several separators or not |
| `HeaderRewrite.ReadRightIff` | src/interceptors/http/source.ts:668-670 | header lines are read as the headers they say if and only if each has one separator |
| `HeaderRewrite.WellFormedIsTaken` | src/interceptors/http/source.ts:668-670 | a message whose lines have one separator each and say headers the platform takes is never refused |
| `HeaderRewrite.ShiftedIsRefused` | src/interceptors/http/source.ts:668-670 | it happens: the second half of a value with a separator is read as a name, and the rewrite throws |
| `HeaderRewrite.ExtraBlankLineIff` | src/interceptors/http/source.ts:699-705 | the rewritten message is the old one with a second blank line and no header if and only if it had no header line and the request names headers but has none of them |
| `HeaderRewrite.ExtraBlankLine` | src/interceptors/http/source.ts:699-705 | it happens: a message without headers for a request whose one raw header the platform withholds |
| `HeaderRewrite.WithoutEndLinesStay` | src/interceptors/http/source.ts:639-641 | without a blank line in the chunk, or with one at its start, the old header lines stay behind the new ones |
| `HeaderRewrite.OldLinesStayIff` | src/interceptors/http/source.ts:699-704 | a rewrite deletes nothing and puts the new block in front of all that follows the start line if and only if no blank line comes after a header line |
| `HeaderRewrite.OverlayRequest` | src/interceptors/http/source.ts:672-695 | the loop with its visited set |
| `HeaderRewrite.ParseRawHeaders` | src/utils/fetch-utils.ts:270-278 | the loop over names and values in turn, up to the first the platform does not take |
| `HeaderRewrite.TransformRequestMessage` | src/interceptors/http/source.ts:627-707 | the whole rewrite, with the bypass for binary data |
| `HeaderFragments.StreamReported` | src/interceptors/http/http-parser/index.ts:82-148 | message after message, of every header the reported list has the whole name at the even position and the whole value right after it, and nothing else, however each was cut |
| `HeaderFragments.PiecesAssemble` | src/interceptors/http/http-parser/index.ts:104-133 | names and values are assembled whole, and as many of one as of the other |
| `HeaderFragments.CutsDoNotMatter` | src/interceptors/http/http-parser/index.ts:104-148 | two ways to cut the same headers are reported alike |
| `HeaderFragments.ValuesCollected` | src/interceptors/http/http-parser/index.ts:122-133 | as many values as names are collected if and only if every value was reported in one piece at least |
| `HeaderFragments.HttpParser.OnHeaderField` | src/interceptors/http/http-parser/index.ts:104-120 | a piece of a name continues the last name, or begins one |
| `HeaderFragments.HttpParser.OnHeaderValue` | src/interceptors/http/http-parser/index.ts:122-134 | likewise for values |
| `HeaderFragments.HttpParser.OnHeadersComplete` | src/interceptors/http/http-parser/index.ts:136-150 | the interleaving loop: of each pair the name, then the value, or none if there is no value for it |
| `HeaderFragments.Parse` | src/interceptors/http/http-parser/index.ts:82-150 | any messages, in any pieces, on one parser object: each list reported says that message's headers, name before value |

## Left out

- Node.js itself: TLS handshakes, address information, DNS lookup, pause and resume, timeouts, the `"drain"` and `"finish"` bridges of the client socket; of handle patching, one flag and the owner of the swapped handle.
- The client socket, the real sockets and the server-side socket are records or numbers inside the controller's class, not objects of their own; a write is identified by its number, where the source compares argument arrays.
- Pipelined requests, transitions in a deferred push counted as part of another push, server writes after `end`, and re-entrant callbacks.
- SocketIsolation.ExchangeIsolation: speaks of pushes with at most one transition, and of a client that has not closed; what other pushes do to a write's callback is in `SocketTransitions.SettledOnceIff`.
- SocketHttp.RequestsStayApart: leaves out a reset and a verdict in one push (`SocketTransitions.SettledOnceIff` says what they do) and requests that begin in the chunk in which another ends.
- WebSocketOriginal.ClosedIffInTime: speaks of runs in which only the client closes; when the original server closes or the interceptor closes the connection, it is ending whenever it was made.
- WebSocketPair.MessagesOnlyWhileOpen: speaks of the mocked mode; when nobody listens for connections, the client is opened by the original server without changing its ready state.
- The three WebSocket objects are one class with their fields; reconnecting, a second `connect()` while one is open or under way, "error" events, and the client's binary types are not modelled.
- The order in which a listener's actions and an event's internal listeners alternate within one dispatch is kept for "close", where it matters; elsewhere the actions follow the internal listeners.
- The request instance a listener may swap in, logging, and the decoding of response bodies.
- Interceptors are entries of one registry object, with their setups as lists of steps; a setup that takes several steps before registering any undo, and an undo that throws, are not modelled. Neither are the event bridges and forwarded-event records of batch interceptors, nor singletons.
- Objects that somebody other than the registry changes between a patch and its restore, except in `RestoresIff`, which covers any change; getters with effects.
- The registry keeps one list of replacements where the source keeps a map of maps; the order of restoring does not matter to what is restored.
- The platform's trimming of header values; its rejection of names and values in `RawHeaders`, and of the request's own headers in the rewrite; `Headers` objects that share the array they were made from; and names outside ASCII (letters are lowered as in ASCII).
- A rewrite that throws while the buffer is flushed: the socket machine's rewrites do not.
- HeaderRewrite.RewrittenHeaderValues: needs a request whose names and values fit on a line, and whose names hold no ": ".
- llhttp itself: only the callbacks it makes.
- XMLHttpRequest, redirects, decompression, URL and argument normalisation, remote processes, and anything that depends on a clock.
