# OpenCyphal system management daemon: inter-process communication

A Dafny model of the communication between SDK processes and the daemon, with proofs of
what it guarantees. `dafny verify dfyconfig.toml` checks the whole project.

The system is one daemon and any number of SDK processes. Each process has one connection
to the daemon, a reliable byte stream in each direction; every handler runs to its end
before the next event of its process is taken up. On a connection many channels are open
at a time, told apart by tags that the process gives out. The correctness of this is not
local: the daemon makes a gateway for any message with sequence 0 and erases gateways by
tag, which is right only because tags and client ids are never used twice, streams are
first in first out, and nobody sends before the handshake.

How the project is laid out:

- `IpcTypes` has the values everything shares. `ClientRouterSpec` and `ServerRouterSpec` say
  what each operation of a router does to its state; `ClientRouter` and `ServerRouter` are
  the routers themselves, objects with mutable tables, proved to do exactly that.
- `Network` puts all routers and streams together as a transition system. Destructors are
  steps of their own, and the loops that notify gateways are split into turns between
  which users may call back into the router.
- `Channel` is the view of one tag of one process, with what every action keeps of it
  (`Channel.Good`); `ChannelProofs`, `Projection`, `ClientSteps` and `ServerSteps` carry
  that over to the whole system. `NetworkTheorems` and `RouterGuarantees` have the results.
- `Bytes`, `RouteCodec`, `ExecCodec`, `Framing` and `Stack` go from frames to bytes and
  back; `PipeEvents` has the two ends of the pipe as objects. `Wires` is `Network` with
  bytes on its connections, and `WireProofs` shows that the two have the same runs.
- `Hearing` has a second invariant of every run, that nobody is forgotten; `ChannelEnds`,
  `Announcements` and `RouterAnswers` say what each operation of the routers does in terms
  of the run alone: the labels, the streams and the histories of the gateways.
- `TornStream` and `TornFrames` say what a send that fails on the way does to the peer;
  `Numbering` how the routers number their frames, which is what `TornFrames` asks for.
- `ExecSpec`, `ExecChannel` and `ExecWorld` add the 'exec cmd' service at both ends to the
  network, which `ExecNetwork` shows to be runs of the network still; `ExecChannelProofs` and
  `ExecWorldProofs` have its invariant, `ExecGuarantees`, `ExecSubmitOnce`, `ExecReactions`
  and `ExecFailures` its results, `ExecExample` runs from start to end. `ExecService` and
  `ExecClient` are its objects.
- `Executor`, `SocketAddress` and `Interfaces` are the layers below and beside;
  `AddressForms` and `Refusals` say which texts and bytes are accepted.

Weak pointers are names with a flag that says whether the object still exists; a
destructor is an operation that clears the flag. What system calls, the pipe, Cyphal and
users' handlers answer is a parameter of each operation, and no theorem restricts it
except where it says so. `View.events` and `View.sent` are histories: every event a gateway
was given and every message of it that the pipe accepted.

Three properties that the code does not have are stated as such, with the condition under
which it has them. A client whose first submission comes while the announcement of the
connection is on its way to it can send its request twice, and only then
(`ExecSubmitOnce.SecondRequestIff`; `ExecExample.TwoRequestsHappen` is such a run). A send
that fails after its header leaves on the stream what was not accepted, and only such a
send does (`TornStream.StreamIsWhatWasTaken`); what the peer is handed goes wrong exactly if
enough is sent after it (`TornFrames.StopsBeingPrefixIff`). A `unix:` path is never printed
as it was given (`SocketAddress.PathNeverPrintsBack`).

## Model

| member | source | states |
|---|---|---|
| `NetworkTheorems.StepKeeps` | src/common/ipc/server_router.cpp:280-459 | Each action of any process, of the daemon or of a connection (user calls, destructors, one turn of a notification loop, pipe events) keeps one invariant over both routers, both frame logs and both read cursors of every process |
| `NetworkTheorems.RunKeeps` | src/common/ipc/client_router.cpp:285-425 | The invariant holds after every run, so in every reachable state |
| `RouterGuarantees.DeliveredInOrder` | src/common/ipc/server_router.cpp:376-433 | In every reachable state, the messages given to a gateway at either end (the one that opened it included) are a prefix of what the pipe accepted from its one counterpart: in order, none twice, none from another tag or client |
| `RouterGuarantees.DeliveredInFull` | src/common/ipc/client_router.cpp:386-411 | Once all frames are read, a gateway its router still knows was given everything its counterpart sent, in either direction |
| `RouterGuarantees.NoAliasing` | src/common/ipc/server_router.cpp:252-258 | The daemon makes at most one gateway ever for a client id and tag, and only for a tag that process gave out; so whatever an erase by tag finds is the gateway that is going |
| `RouterGuarantees.EndIsLastFrame` | src/common/ipc/client_router.cpp:262-283 | Per tag and direction a channel end is the last frame, so there is at most one; it carries the completion code of the gateway that sent it, which is gone; a process ends no channel on which it never tried to send |
| `RouterGuarantees.EndIsNotAnswered` | src/common/ipc/client_router.cpp:413-425 | Having read an end, a process writes nothing more on that tag, whatever it does next |
| `RouterGuarantees.EndIsNotAnsweredByDaemon` | src/common/ipc/server_router.cpp:435-459 | Having read a process's end, the daemon writes nothing more on that tag, whatever happens next |
| `RouterGuarantees.CompletedInFull` | src/common/ipc/client_router.cpp:413-425 | A gateway that was told of a completion other than a lost connection was given all its counterpart sent, and the counterpart is gone with that very error code |
| `RouterGuarantees.CompletedInFullAtDaemon` | src/common/ipc/server_router.cpp:435-459 | The same of the daemon's gateways |
| `RouterGuarantees.EventLanguage` | src/common/ipc/client_router.cpp:201-254 | Every gateway of either end is told of its completion at most once and of nothing after it; no gateway of a process gets a message before its router has read the connect reply |
| `RouterGuarantees.NothingAfterCompletion` | src/common/ipc/client_router.cpp:336-360 | No later action of anyone adds an event to a gateway of a process that was told of its completion |
| `RouterGuarantees.NothingAfterCompletionAtDaemon` | src/common/ipc/server_router.cpp:323-347 | The same of the daemon's gateways |
| `RouterGuarantees.HandshakeAgrees` | src/common/ipc/server_router.cpp:349-374 | While a process's router is connected the daemon routes that client, or has dropped it |
| `RouterGuarantees.HandshakeOnce` | src/common/ipc/client_router.cpp:285-301 | In every reachable state, frame 0 of a process is its connect request and frame 0 of the daemon to it is the reply, and no later frame of either is one |
| `RouterGuarantees.ConnectsAgain` | src/common/ipc/server_router.cpp:365-373 | What the daemon would make of another connect request of a routed client, in any state: if the reply is accepted its row and every gateway stay, and if not the client is dropped |
| `RouterGuarantees.OpeningReachesFactory` | src/common/ipc/server_router.cpp:402-422 | A sequence-0 message for a registered service, read on an open connection, always makes a gateway and calls the factory: no entry of its tag can be in the way |
| `RouterGuarantees.PipeAndRouterAgree` | src/common/ipc/pipe/socket_server.cpp:119-128 | Routed clients are open connections, ids are never given out twice or reassigned, and each write of the daemon's router, a destructor's during a disconnect broadcast included, goes to a client whose context exists |
| `RouterGuarantees.RepliesAgain` | src/common/ipc/client_router.cpp:369-384 | A process that is connected takes no notice of another reply |
| `Hearing.RunHears` | src/common/ipc/client_router.cpp:336-425 | After every run, a living gateway of either end is registered, is due to be told of a lost connection, or was told of its completion; and one whose counterpart's end was read was told of that end |
| `ChannelEnds.EndIsHeard` | src/common/ipc/client_router.cpp:413-425 | In every reachable state: a gateway of a process whose counterpart's end frame was read, and that was not destroyed before, has exactly that end, with its code, as the last of its events |
| `ChannelEnds.EndIsHeardByDaemon` | src/common/ipc/server_router.cpp:435-459 | The same of the daemon's gateways |
| `ChannelEnds.EndIsHeardForGood` | src/common/ipc/server_router.cpp:448-453 | Reading the end of a living daemon gateway's counterpart adds that completion to its events, and after any later run nothing else |
| `ChannelEnds.EndIsHeardForGoodAtProcess` | src/common/ipc/client_router.cpp:413-425 | The same of a process's gateway |
| `ChannelEnds.EndIsSent` | src/common/ipc/client_router.cpp:262-283 | Over every run, destroying a gateway of a process writes the end of its channel exactly if the connection stands, the other end has not completed it, it gave a message to the pipe and the pipe takes the end; the code is the one it was last completed with, 0 before; otherwise nothing is written |
| `ChannelEnds.EndIsSentByDaemon` | src/common/ipc/server_router.cpp:252-278 | The same of the daemon's gateways, which need not have sent |
| `ChannelEnds.CodeIsLastGiven` | src/common/ipc/client_router.cpp:167-170 | After every run the code of a gateway is the one it was last completed with, and nothing else changes it |
| `ChannelEnds.CodeIsLastGivenAtDaemon` | src/common/ipc/server_router.cpp:164-168 | The same of the daemon's gateways |
| `ChannelEnds.ConnectedIsStanding` | src/common/ipc/client_router.cpp:362-384 | A process's router is connected exactly while its pipe is open and the reply was read |
| `ChannelEnds.RoutedIsAnswered` | src/common/ipc/server_router.cpp:365-373 | The daemon routes exactly the open connections whose connect request it has answered |
| `ChannelEnds.ListedIsOpen` | src/common/ipc/client_router.cpp:142-165 | A living gateway of a process that is not cut off is registered exactly until it is told of its completion |
| `ChannelEnds.RegisteredIsOpen` | src/common/ipc/server_router.cpp:139-162 | A living gateway of the daemon is registered exactly while its client's context exists and it was not told of its completion |
| `Announcements.LossIsTold` | src/common/ipc/client_router.cpp:336-360 | A standing connection is lost, by the pipe or by a handler that errs. From then on each gateway that lived is due to be told, and can be; and when it is due no more, after any run, it was told last of all that the connection is lost, or it was destroyed before its turn and told nothing |
| `Announcements.LossIsToldAtDaemon` | src/common/ipc/server_router.cpp:323-347 | The same of the gateways of a client that the daemon drops |
| `Announcements.ReplyIsTold` | src/common/ipc/client_router.cpp:362-384 | The process reads the reply: each gateway that lived is due to hear of the connection, and can; and when it is due no more, that is what it heard next |
| `Announcements.LoopTellsAll` | src/common/ipc/client_router.cpp:336-360 | Disconnecting and then the whole loop: in any order and with any calls of handlers it comes to every gateway that was in the table and tells it once, if it still exists |
| `Announcements.LoopTellsAllAtDaemon` | src/common/ipc/server_router.cpp:323-347 | The same of the daemon's loop over the row of the lost client |
| `RouterAnswers.SendIsAnswered` | src/common/ipc/client_router.cpp:142-165 | Over every run: a message is refused as not connected while the connection does not stand, as shut down once the channel was completed, and else it is up to the pipe; it carries the number of messages given before, and is on the stream and in the history exactly if the pipe took it |
| `RouterAnswers.SendIsAnsweredByDaemon` | src/common/ipc/server_router.cpp:139-162 | The same of the daemon, where not connected means that the client's context is gone |
| `RouterAnswers.SubscribeIsAnswered` | src/common/ipc/client_router.cpp:178-182 | Subscribing tells the gateway that it is connected exactly if its connection stands and its channel was not completed |
| `RouterAnswers.SubscribeIsAnsweredByDaemon` | src/common/ipc/server_router.cpp:234-244 | The same of the daemon's gateways |
| `RouterAnswers.HandlerErrorCloses` | src/common/ipc/client_router.cpp:303-334 | A read closes the connection of a process if and only if an open gateway hears of the frame and its handler errs |
| `RouterAnswers.HandlerErrorDrops` | src/common/ipc/server_router.cpp:290-321 | A read drops the client if and only if an open gateway hears of the frame and its handler errs, or the answer to a connect request is refused |
| `RouterAnswers.OpensIff` | src/common/ipc/server_router.cpp:402-433 | A read makes a gateway if and only if it is a message with sequence 0 for a service on offer, and then the first and only one of its endpoint, opened with that message |
| `RouterAnswers.ConnectIsSent` | src/common/ipc/client_router.cpp:285-301 | Once its pipe is up a process has written its connect request, exactly if the pipe took it, and is not connected by that |
| `RouterAnswers.ConnectIsAnswered` | src/common/ipc/server_router.cpp:349-374 | The daemon answers a connect request and routes the client exactly if the pipe takes the answer, and drops the client otherwise |
| `ClientRouter.Router.MakeGateway` | src/common/ipc/client_router.cpp:79-86 | The next tag, never used before, names a new gateway in the table |
| `ClientRouter.Router.Send` | src/common/ipc/client_router.cpp:142-165 | Not connected and not registered are told apart in that order and use up no sequence number; otherwise one is used up even if the pipe refuses the message |
| `ClientRouter.Router.Complete` | src/common/ipc/client_router.cpp:167-170 | Only the completion code of that gateway changes |
| `ClientRouter.Router.Subscribe` | src/common/ipc/client_router.cpp:178-182 | A registered gateway of a connected router is told so from inside the call; otherwise nothing happens |
| `ClientRouter.Router.Dispose` | src/common/ipc/client_router.cpp:262-283 | The tag leaves the table; an end frame goes out if and only if the gateway was registered, had tried to send and the router is connected |
| `ClientRouter.Router.HandlePipeConnected` | src/common/ipc/client_router.cpp:285-301 | Sends the connect request and leaves the router unconnected |
| `ClientRouter.Router.HandlePipeMessage` | src/common/ipc/client_router.cpp:303-334 | Dispatches a frame; an empty route is an error, and otherwise the handler's error comes back only if a gateway was reached |
| `ClientRouter.Router.HandleRouteConnect` | src/common/ipc/client_router.cpp:362-384 | The first connect reply connects and takes the snapshot of live gateways to greet; any other changes nothing |
| `ClientRouter.Router.HandleRouteChannelMsg` | src/common/ipc/client_router.cpp:386-411 | The message goes to the live registered gateway of its tag or is dropped without error |
| `ClientRouter.Router.HandleRouteChannelEnd` | src/common/ipc/client_router.cpp:413-425 | The gateway is unregistered before it is told; an unknown tag is dropped without error |
| `ClientRouter.Router.Greet` | src/common/ipc/client_router.cpp:238-241 | One turn of the loop, in whatever state earlier handlers left the router: this gateway of the snapshot is told, and is no longer due |
| `ClientRouter.Router.GreetAll` | src/common/ipc/client_router.cpp:222-242 | The whole loop, in some order of the snapshot, with handlers that make any calls back into the router; the gateways the snapshot held last are destroyed when it goes |
| `ClientRouterSpec.GreetsEvery` | src/common/ipc/client_router.cpp:375-379 | Whatever the order and whatever the handlers call, the loop tells every gateway of its snapshot, and once only unless a handler subscribes it again |
| `ClientRouter.Router.HandlePipeDisconnected` | src/common/ipc/client_router.cpp:336-348 | A connected router forgets all gateways before any is told; an unconnected one does nothing |
| `ClientRouter.Router.Mourn` | src/common/ipc/client_router.cpp:348-355 | One turn: the gateway is told if it still exists then, and is no longer due |
| `ClientRouter.Router.MournAll` | src/common/ipc/client_router.cpp:345-355 | The whole loop, in some order of the table that was swapped out, with handlers that make any calls back into the router |
| `ClientRouterSpec.MournsEvery` | src/common/ipc/client_router.cpp:345-355 | Whatever the order and whatever the handlers call, each gateway of the table is told once if it still exists when its turn comes and not at all otherwise, and nothing else is told it meanwhile |
| `ServerRouter.Router.RegisterChannelFactory` | src/common/ipc/server_router.cpp:75-80 | The service is on offer from now on; no gateway or connection changes |
| `ServerRouter.Router.Send` | src/common/ipc/server_router.cpp:139-162 | As at the client's end, with the client's row of the table looked up first |
| `ServerRouter.Router.Subscribe` | src/common/ipc/server_router.cpp:234-244 | Announces the connection to whichever live gateway the endpoint names |
| `ServerRouter.Router.Dispose` | src/common/ipc/server_router.cpp:252-278 | Erases by tag whatever it names, and sends the end frame exactly if something was erased |
| `ServerRouter.Router.HandleRouteConnect` | src/common/ipc/server_router.cpp:349-374 | The row is inserted only if the reply was accepted, and an existing row is kept |
| `ServerRouter.Router.HandleRouteChannelMsg` | src/common/ipc/server_router.cpp:376-433 | Delivers to a live registered gateway; else opens one on sequence 0 for a known service of a routed client, and hands it to the factory; else drops the message |
| `ServerRouter.Router.HandleRouteChannelEnd` | src/common/ipc/server_router.cpp:435-459 | Unregisters the gateway, then tells it |
| `ServerRouter.Router.HandlePipeMessage` | src/common/ipc/server_router.cpp:290-321 | Dispatches a frame to the above, with its error code |
| `ServerRouter.Router.HandlePipeDisconnected` | src/common/ipc/server_router.cpp:323-331 | The client's row is gone before any of its gateways is told |
| `ServerRouter.Router.Mourn` | src/common/ipc/server_router.cpp:335-342 | One turn: the gateway is told if it still exists then, and is no longer due |
| `ServerRouter.Router.MournAll` | src/common/ipc/server_router.cpp:330-342 | The whole loop of one lost client, in some order, with handlers that make any calls back into the router, for gateways of other clients too |
| `ServerRouterSpec.MournsEvery` | src/common/ipc/server_router.cpp:330-342 | Whatever the order and whatever the handlers call, each gateway of the lost client is told once if it still exists when its turn comes and not at all otherwise, and nothing else is told it meanwhile |
| `RouteCodec.PrefixIsRead` | src/common/dsdl/ocvsmd/common/ipc/Route.0.1.dsdl:1-8 | The deserialized route has the fields that were put in, whatever bytes follow it |
| `RouteCodec.RoundTrip` | src/common/ipc/client_router.cpp:388-400 | The peer parses exactly the frame that was sent; for a channel message, cutting `payload_size` bytes off the end inverts the concatenation for every payload |
| `ExecCodec.RequestRoundTrip` | src/common/dsdl/ocvsmd/common/svc/node/ExecCmdSvcRequest.0.1.dsdl:1-5 | Every request within the field widths and array bounds decodes to itself |
| `ExecCodec.ResponseRoundTrip` | src/common/dsdl/ocvsmd/common/svc/node/ExecCmdSvcResponse.0.1.dsdl:1-4 | Every response within the bounds decodes to itself and its node id |
| `Refusals.RouteRefusedIff` | src/common/dsdl/ocvsmd/common/ipc/Route.0.1.dsdl:1-8 | Of all byte strings, a route is refused if and only if its tag is that of no variant or its delimited variant is cut short, and otherwise read as the variant of its tag |
| `Refusals.RequestAcceptedIff` | src/common/dsdl/ocvsmd/common/svc/node/ExecCmdSvcRequest.0.1.dsdl:1-5 | A request is taken if and only if it announces at most 128 nodes and its delimited part is all there; and what is taken is within all bounds |
| `Refusals.ResponseAcceptedIff` | src/common/dsdl/ocvsmd/common/svc/node/ExecCmdSvcResponse.0.1.dsdl:1-4 | A response is taken if and only if its delimited part is all there and its output within its bound |
| `Framing.Send` | src/common/ipc/pipe/socket_base.cpp:47-83 | Header and fragments are appended in order up to the first system call that fails, whose error is returned; the header holds the sum of the fragment sizes |
| `Framing.SentWhole` | src/common/ipc/pipe/socket_base.cpp:71-82 | A send whose calls all succeed appends exactly one framed message, however it was fragmented; one that fails at the header appends nothing |
| `TornStream.StreamIsWhatWasTaken` | src/common/ipc/pipe/socket_base.cpp:61-82 | After any sequence of sends the stream holds exactly the messages that were accepted if and only if no send failed after its header was written |
| `TornStream.HandsOnWhatIsHeld` | src/common/ipc/pipe/socket_base.cpp:85-163 | On any stream, whoever wrote it: every schedule of reads hands on a prefix of the messages that parsing it from the start gives, and some schedule hands on all of them |
| `TornStream.TornDelivery` | src/common/ipc/pipe/socket_base.cpp:61-82 | Behind a send torn after its header nothing but the messages before it is ever handed on, unless the later sends write at least the bytes it lacks; exactly then some schedule hands on more, and any that does hands on the mixed message next |
| `TornStream.UnfilledIsPrefix` | src/common/ipc/pipe/socket_base.cpp:61-82 | While no torn message is filled, every schedule hands on a prefix of the messages that were accepted |
| `TornStream.NextIsWrongIff` | src/common/ipc/pipe/socket_base.cpp:117-149 | For any messages: the message handed on in the place of the torn one can differ from the next accepted one exactly if the torn one is filled and what fills it is not by chance that message |
| `TornFrames.StopsBeingPrefixIff` | src/common/ipc/pipe/socket_base.cpp:49-83 | For frames numbered as the routers number them: what the peer is handed can stop being a prefix of what was accepted if and only if a send fails behind its header and the sends after it write at least the bytes that the first such message lacks |
| `Numbering.GivenApart` | src/common/ipc/client_router.cpp:142-165 | Over every run, no two channel messages that a router gives to the pipe of one connection carry the same tag and sequence number, accepted or not |
| `Numbering.GivenInOrder` | src/common/ipc/client_router.cpp:142-165 | Every message carries the number of messages of its channel that were given to the pipe before it, refused ones included |
| `Numbering.CounterCounts` | src/common/ipc/server_router.cpp:139-162 | After every run the next sequence number of a gateway is the number of messages it gave to the pipe |
| `Numbering.TornOnWire` | src/common/ipc/server_router.cpp:139-162 | So that if-and-only-if holds of what either router gives to the pipe in any run, with failures of system calls anywhere |
| `TornStream.TornTakesWhatFollows` | src/common/ipc/pipe/socket_base.cpp:117-149 | After a send that failed behind its header, the peer, without any error, takes as many bytes of what follows as the torn message lacks, the next header first, and hands them on as that message |
| `Framing.Socket.ReceiveMessage` | src/common/ipc/pipe/socket_base.cpp:85-163 | The resumable two-phase reader, with every early return, error code and state it leaves behind |
| `Framing.ReceiveReports` | src/common/ipc/pipe/socket_base.cpp:85-163 | A readable event reports the error of the read that failed, consuming nothing, the end of the stream where a header is due, `EINVAL` for any other short read, and behind a whole message, handed on byte for byte, what the user answered |
| `Framing.DeliversPrefix` | src/common/ipc/pipe/socket_base.cpp:85-163 | For any sized messages and any schedule of full, short, blocking, failing and end-of-stream reads, the messages handed on are a prefix of those written |
| `Framing.DeliversAll` | src/common/ipc/pipe/socket_base.cpp:85-163 | If no read is short the connection stays open, also when a read blocks between header and payload, and a drained stream has handed on exactly the messages written |
| `Framing.AcceptsBySize` | src/common/ipc/pipe/socket_base.cpp:111-118 | A header is accepted if and only if the size in it, the message size truncated to 32 bits, is 1 to 2^20; otherwise the error is `EINVAL` |
| `Stack.SendsFrame` | src/common/ipc/server_router.cpp:158-161 | Prefix and payload given as two fragments put one more frame on the wire, or none, or, if a call behind the header fails, the header and the fragments before that call; the last is the whole frame exactly if nothing but empty fragments is missing |
| `Stack.FramesArriveInOrder` | src/common/ipc/server_router.cpp:290-298 | From bytes to routers: whatever the reads give, the peer parses a prefix of the frames sent, each exactly as it was sent |
| `Stack.FramesArriveInFull` | src/common/ipc/client_router.cpp:303-311 | All of them once an unhurt stream is drained |
| `WireProofs.EventProjects` | src/common/ipc/pipe/socket_server.cpp:160-186 | One event over bytes (an action with the system calls of its send, or one readable event with whatever its reads give) is one enabled step of the network of frames, or leaves it where it is; every reader stays at its cursor |
| `WireProofs.RunProjects` | src/common/ipc/pipe/socket_client.cpp:143-161 | So every run over bytes, under every schedule of reads, projects to a run of the network |
| `WireProofs.EveryStepHappens` | src/common/ipc/pipe/socket_base.cpp:49-163 | Conversely each enabled step of the network, whose frame is within the size limit, is some event over bytes |
| `WireProofs.BytesReachFrames` | src/common/ipc/pipe/socket_server.cpp:119-186 | From the start: the processes and the daemon only get into states the network reaches, each stream holds exactly the framed frames that were accepted on it, and the socket's table of contexts is the network's set of open connections |
| `WireProofs.DeliveredOverBytes` | src/common/ipc/pipe/socket_client.cpp:143-161 | Over every run over bytes, a gateway at either end is given a prefix of what its one counterpart sent; and a gateway of a process all of it once the process has read every byte |
| `WireProofs.AcceptOnWires` | src/common/ipc/pipe/socket_server.cpp:130-158 | The socket object goes through the same tables of contexts and the same ids: on accepting |
| `WireProofs.ReadOnWires` | src/common/ipc/pipe/socket_server.cpp:160-186 | And on reading, with whatever the read and the handler give |
| `WireProofs.TableStays` | src/common/ipc/pipe/socket_server.cpp:119-128 | No other event touches the table or gives out an id |
| `PipeEvents.SocketServer.HandleAccept` | src/common/ipc/pipe/socket_server.cpp:130-158 | Each connection gets a client id that no earlier one had, and its up event comes first |
| `PipeEvents.SocketServer.HandleClientRequest` | src/common/ipc/pipe/socket_server.cpp:160-186 | Per client the events are up, the messages read in order, and, once its context is erased, one down; the context is erased exactly if reading fails, ends or the handler errs |
| `PipeEvents.SocketServer.Send` | src/common/ipc/pipe/socket_server.cpp:119-128 | An unknown client is `EINVAL`; a known one gets the framed bytes on its own stream and nobody else does, and the error is that of the first system call that fails |
| `PipeEvents.SocketClient.HandleConnect` | src/common/ipc/pipe/socket_client.cpp:111-141 | A connection that could not be made is down without ever being up; otherwise up comes before any message |
| `PipeEvents.SocketClient.HandleReceive` | src/common/ipc/pipe/socket_client.cpp:143-161 | Messages are handed on in order, and the connection is given up exactly if reading fails, ends or the handler errs |
| `ExecService.Service.Open` | src/daemon/engine/svc/node/exec_cmd_service.cpp:62-71 | A new id, a new machine that is started; it stays in `id_to_fsm_` exactly if it did not complete at once |
| `ExecService.Fsm.Start` | src/daemon/engine/svc/node/exec_cmd_service.cpp:112-138 | No nodes: completes with 0. Else one call for each distinct node in some order; if one fails, the calls made are cancelled and the machine completes with that error |
| `ExecService.Fsm.OnResolved` | src/daemon/engine/svc/node/exec_cmd_service.cpp:203-236 | The response is relayed if the promise succeeded, a refused one is noted; the node is no longer pending, and the last one completes the machine with 0 |
| `ExecService.Fsm.HandleCompleted` | src/daemon/engine/svc/node/exec_cmd_service.cpp:167-171 | The peer is gone: pending calls are cancelled and the machine completes with `ECANCELED` |
| `ExecService.Fsm.Complete` | src/daemon/engine/svc/node/exec_cmd_service.cpp:242-250 | Nothing is pending, the channel has the code, and the machine has left `id_to_fsm_` |
| `ExecSpec.CompletesWithLast` | src/daemon/engine/svc/node/exec_cmd_service.cpp:229-236 | Termination: given that promises resolve, in any order and with any outcomes, a machine completes, with 0, when its last pending promise has resolved and not before |
| `ExecClient.Client.Submit` | src/sdk/svc/node/exec_cmd_client.cpp:53-61 | The request goes out at once if the connection stands |
| `ExecClient.Client.HandleConnected` | src/sdk/svc/node/exec_cmd_client.cpp:66-76 | The request is sent; an error, of the serializer too, is reported to the receiver |
| `ExecClient.Client.OnMessage` | src/sdk/svc/node/exec_cmd_client.cpp:78-84 | The first response of a node is kept; what does not decode is `EINVAL` and changes nothing |
| `ExecClient.Client.HandleCompleted` | src/sdk/svc/node/exec_cmd_client.cpp:86-98 | Success with all that was gathered if the code is 0, otherwise the failure |
| `ExecWorldProofs.NextKeeps` | src/daemon/engine/svc/node/exec_cmd_service.cpp:62-71 | Every action of clients, machines, other users and connections keeps, for every channel, the tie between client, frames, gateway and machine |
| `ExecWorldProofs.AfterKeeps` | src/sdk/svc/node/exec_cmd_client.cpp:66-98 | So does every run of any number of clients |
| `ExecChannelProofs.SuccessIsComplete` | src/sdk/svc/node/exec_cmd_client.cpp:86-98 | On one channel: a client told of success has exactly what the machine for its own request gathered, and that machine heard of every distinct node |
| `ExecGuarantees.ResultComesFromMachine` | src/daemon/engine/svc/node/exec_cmd_service.cpp:112-138 | In every reachable state: a success is the gathering of the one machine at this client's own endpoint, for this client's request, completed with 0 after an outcome for each distinct node; only responses the pipe refused are missing |
| `ExecGuarantees.EndToEnd` | src/sdk/svc/node/exec_cmd_client.cpp:66-98 | Over every run in which the pipe takes all responses: a success has an entry for a node if and only if the node was requested and its promise succeeded in this run, and the entry is that response; every requested node's promise resolved |
| `ExecGuarantees.MachinesMatchGateways` | src/daemon/engine/svc/node/exec_cmd_service.cpp:242-262 | Between events, the machines in `id_to_fsm_` and the service's gateways in the router's table correspond one to one, and a machine that is gone has taken its gateway with it |
| `ExecGuarantees.CompletesOnce` | src/daemon/engine/svc/node/exec_cmd_service.cpp:242-250 | Nothing that happens after a machine completed touches it: no second completion, no promise callback |
| `ExecGuarantees.SucceedsAfterAll` | src/daemon/engine/svc/node/exec_cmd_service.cpp:203-236 | A machine completed with 0 only after the promise of every distinct node of its request resolved |
| `ExecGuarantees.NextNotes` | src/daemon/engine/svc/node/exec_cmd_service.cpp:203-236 | An outcome is noted only by the resolution of that very promise, which happens at most once, and never changes |
| `ExecExample.TwoRequestsHappen` | src/common/ipc/client_router.cpp:222-242 | The failing input: a run in which a gateway that was told of the connection first submits another client, once, and the pipe takes that client's request twice |
| `ExecExample.SuccessHappens` | src/sdk/svc/node/exec_cmd_client.cpp:53-98 | The above is about runs that do happen: in this one a process connects, asks for one node twice, and is told of success with that node's one response |
| `ExecSubmitOnce.RequestedOnce` | src/sdk/svc/node/exec_cmd_client.cpp:53-61 | A client submitted once, and not while the announcement is on its way to it unless its request does not serialize, sends at most once, and exactly once when connected with a request that serializes; if that send was accepted the receiver is called at most once in the whole run |
| `ExecSubmitOnce.SecondRequestIff` | src/common/ipc/client_router.cpp:375-379 | In every reachable state, the first submission of a client can be followed, without another, by a second request that the pipe takes if and only if the announcement has still to reach its gateway and its request serializes |
| `ExecNetwork.ServiceRunsOnNetwork` | src/sdk/svc/node/exec_cmd_client.cpp:53-98 | Every run of the service is a run of the network, so all that holds of the routers holds under it |
| `ExecReactions.ClientReacts` | src/sdk/svc/node/exec_cmd_client.cpp:66-98 | Whatever anyone does, a client changes by the one event that its gateway was given, and not without one: connected, it sends, and reports an error of that; a message adds the first response of its node; a completion is reported, with its code if it is a failure |
| `ExecFailures.CompletionHasCause` | src/daemon/engine/svc/node/exec_cmd_service.cpp:112-171 | A machine completes with 0 by its last promise or for want of nodes, with the error of a call that failed when it was made, or as cancelled when its gateway is told that the channel is complete |
| `ExecFailures.CodeIsExplained` | src/daemon/engine/svc/node/exec_cmd_service.cpp:112-171 | Over every run: the code of a machine is 0, the error of a failed call of its own, or `ECANCELED`, and then no end of its channel was written |
| `ExecFailures.FailureIsExplained` | src/sdk/svc/node/exec_cmd_client.cpp:86-98 | Over every run: a client is told of a failure only with the error of its own send, with that of a lost connection once its process has lost it, or with the error of a call that failed when its own machine was made; so on a connection that stands it is one of its own |
| `Executor.OwnershipAgrees` | include/ocvsmd/platform/linux/epoll_single_threaded_executor.hpp:126-228 | After any sequence of registrations, moves and destructions the count equals the number of owning nodes, and the kernel lists each owned descriptor, open, for exactly the node that owns it now |
| `Executor.ClosingListed` | src/common/ipc/pipe/client_context.hpp:67-70 | Closing a descriptor keeps that if and only if no callback is registered for it |
| `Executor.ClosedTooEarly` | src/common/ipc/pipe/socket_client.cpp:163-171 | What the order avoids: a descriptor closed while listed and given out again is taken from its new owner by the old node's destructor |
| `Executor.RegisteringTwice` | include/ocvsmd/platform/linux/epoll_single_threaded_executor.hpp:126-145 | Registering a callback keeps all that if and only if the descriptor is open and has no callback yet; a second one would take it from the first |
| `Executor.TableAgrees` | src/common/ipc/pipe/socket_server.cpp:130-186 | After any run of accepts, drops and moves of contexts' callbacks, mixed with what other nodes of the executor do, each context's descriptor is open and listed for its own callback, no two contexts share one, and count, nodes and list agree |
| `Executor.AcceptKeepsTable` | src/common/ipc/pipe/socket_server.cpp:137-154 | A new context owns its descriptor through its callback, and shares it with no other |
| `Executor.DropKeepsTable` | src/common/ipc/pipe/client_context.hpp:63-70 | Erasing a context leaves its descriptor neither open nor listed, and no other context is disturbed |
| `Executor.ClientSocketKeeps` | src/common/ipc/pipe/socket_client.cpp:111-171 | Resetting the connecting callback lets the receiving one be registered for the same descriptor, and disconnecting leaves no trace of it |
| `Executor.EpollExecutor.SetupNode` | include/ocvsmd/platform/linux/epoll_single_threaded_executor.hpp:217-228 | The node owns the descriptor, the count goes up, and the kernel lists it unless it is closed or listed already |
| `Executor.EpollExecutor.MoveNode` | include/ocvsmd/platform/linux/epoll_single_threaded_executor.hpp:191-201 | The new node owns what the old one owned, the old one nothing, and the kernel's entry points to the new one |
| `Executor.EpollExecutor.DestroyNode` | include/ocvsmd/platform/linux/epoll_single_threaded_executor.hpp:182-189 | An owning node takes its descriptor off the list and the count down; any other changes neither |
| `Executor.EpollExecutor.RegisterAwaitableCallback` | include/ocvsmd/platform/linux/epoll_single_threaded_executor.hpp:126-145 | Set up in a local node and moved out: one more owner, listed under its final address |
| `SocketAddress.PrintThenParse` | src/common/io/socket_address.cpp:443-517 | For every IPv4, IPv6 or wildcard address and every port, parsing the printed form gives back family, host and port whatever the hint |
| `AddressForms.ParsesIff` | src/common/io/socket_address.cpp:309-441 | Of all strings: one is accepted if and only if it is a path or an abstract name that fits, or a `tcp://` text whose host is the wildcard or known to the platform in its family and whose port part is empty or a number up to 65535 with nothing behind it; the address is then that path, name, or host and port; anything else is `EINVAL` |
| `AddressForms.PartsIff` | src/common/io/socket_address.cpp:443-497 | The host, family and port part of a text, by its brackets and colons, and when there are none |
| `AddressForms.NumberIff` | src/common/io/socket_address.cpp:499-514 | The scan takes the whole text for a number if and only if it is one: spaces, a sign, and digits that are hexadecimal behind `0x`, octal from a leading 0, else decimal; and the value, with clamping and wrap-around |
| `SocketAddress.BareHostTakesHint` | src/common/io/socket_address.cpp:472-495 | Without a port the hint is taken, and two colons make a bare IPv6 address |
| `SocketAddress.DecimalIsRead` | src/common/io/socket_address.cpp:499-514 | A printed number is read back by the base-0 scan, all of it, for every 64-bit value |
| `SocketAddress.AbstractNamePrintsBack` | src/common/io/socket_address.cpp:414-441 | An abstract name, NULs included, is printed as given, or refused exactly if it is too long |
| `SocketAddress.PathNeverPrintsBack` | src/common/io/socket_address.cpp:387-412 | A path name never is: it is printed with its NUL, and the empty path as an abstract name |
| `Interfaces.SplitsWhatWasJoined` | src/daemon/engine/cyphal/udp_transport_bag.hpp:60-69 | Joining the `udp://` entries with trailing commas and splitting again gives exactly the non-empty addresses asked for, in order |
| `Interfaces.WantedIff` | src/daemon/engine/cyphal/udp_transport_bag.hpp:60-69 | An address is asked for if and only if it is a non-empty piece behind the `udp://` of one of the interfaces |
| `Interfaces.SplitsAtCommas` | src/daemon/engine/platform/udp/udp_media.hpp:107-124 | The pieces hold no comma, and with commas between them are the string again |
| `Interfaces.UdpMediaCollection.SplitInto` | src/daemon/engine/platform/udp/udp_media.hpp:107-124 | The loop, with `npos + 1` wrapping to 0, ends and stores exactly the first three non-empty pieces |
| `Interfaces.UdpMediaCollection.Parse` | src/daemon/engine/platform/udp/udp_media.hpp:107-131 | As many pointers as pieces, the others null |
| `Interfaces.MakeMedia` | src/daemon/engine/cyphal/udp_transport_bag.hpp:60-78 | The media are the first three addresses asked for, `count` is their number, and there is no transport exactly if none was asked for or the library makes none |

## Left out

- Partial writes: a `::send` that takes only part of its buffer counts as complete in the source, so here each system call writes all or fails. A message torn by a failing fragment is in `TornStream` and `TornFrames`, with what it does to the peer; in `Network` and `Wires` a frame is accepted whole or refused at its header.
- Peers that do not run the routers modelled here; in particular a `payload_size` larger than its message, which the source does not check, is `None` in `RouteCodec.Parse`.
- Wrap-around of the 64-bit tags, sequence numbers, client ids and machine ids: they are unbounded here; `RouteCodec.RoundTrip` is for values that fit.
- Restarting or reconnecting: a process has one connection, as `ClientRouterImpl` does.
- Services registered during a run: `Network` starts with the services on offer; `ServerRouter.Router.RegisterChannelFactory` has the operation.
- Collisions of the CRC-64 of service names; the identifier of 'exec cmd' is a constant.
- A request that reaches the daemon on an 'exec cmd' channel but does not decode: the channel is dropped with code 0, as in the source, but no client of this model sends one.
- The timeout of a request, which the SDK client of this version ignores and the daemon only passes on to Cyphal.
- libcyphal: a promise resolves at most once and not from inside the call that makes it, and cancelling it destroys it; executor scheduling, timers and `epoll_wait` are not modelled.
- The lifetime of a C++ lambda that is destroyed while it runs.
- `inet_ntop` and `inet_pton`: any inverse pair of text forms; `SocketAddress.Inverse` says what is assumed of the text.
- `SocketAddress` operations on sockets (`bind`, `connect`, `accept`).
- A handler that runs in the announcement of the connection and destroys another client that the announcement has still to reach: the snapshot keeps that client's gateway, whose handler then calls the client that is gone (`client_router.cpp:222-242`, `exec_cmd_client.cpp:53-61`). In `Network` and `ExecWorld` a gateway is not destroyed before its turn in the announcement, so these runs are excluded.
- In `Wires`, sends that fail behind their header, and frames longer than the limit of the framing, which the peer refuses (`Framing.AcceptsBySize`).
- Interfaces.MakeMedia: how the library makes a transport from the media is not modelled, only that it may fail.
- Liveness: no claim that a message is ever read or a promise ever resolves; `sync_wait` has none when the pipe drops before the handshake.
- The kqueue executor, CAN media, C wrappers of the socket libraries, configuration files, command line, logging and daemonisation.
- ExecSubmitOnce.RequestedOnce: says nothing of the number of results after a send that failed, because the source reports the failure and may report the completion too.
- ExecGuarantees.EndToEnd: assumes that the pipe takes every response, because the source only logs a response that it refuses; `ExecGuarantees.ResultComesFromMachine` is without that assumption.
