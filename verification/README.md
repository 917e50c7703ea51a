# Verified model of pane

pane is a message-passing framework: a server routes frames between connections, and each connection is served by a
looper that runs one handler. This project models its protocol core in Dafny and proves what it keeps over every run.

The model follows the program's form. State that the program updates in place is a class whose methods are proved
against functions on values; properties of whole runs are lemmas about those functions.

| files | what they model |
|---|---|
| RoutingModel, RoutingInvariants, RoutingLog, RoutingTheorems, RoutingPolicies, RoutingWatches, RoutingAnswers | the routing server's tables and sends, as values, and their properties |
| ServerActor | the server's state and event loop |
| Wire, FrameIO | the wire format, the blocking codec, the incremental reader and the write buffer |
| ConnectionSource | the event source between socket, looper and write channel |
| EngineModel, EngineBooks, EngineTheorems, EngineVerdicts, EngineLifetimes, EngineCap, EngineObligations, EngineAnswers, EngineCallbacks | requests, replies, callbacks and destruction, as values, and their properties |
| Sessions, DispatchTable, LooperCore | the correlator, the session, the dispatch table and the looper core |
| SchedulerModel, SchedulerTheorems, SchedulerPolicies, SchedulerRevocations, SchedulerPhases, LooperTheorems, ReplyOrder, FailureOrder | the batch scheduler, as values, and its properties together with the engine |
| Looper | the batch and the looper's main loop |
| Enumeration, Sequences | walks over hash tables in an arbitrary order; a fact about sequences |

What the program does not decide is a parameter that ranges over everything possible:

- `Routing.Env`: whether each enqueue finds the writer's queue full, and the order in which hash tables are walked.
- `Engine.Env`: the outcome (continue, stop, panic) and actions of each call into user code, whether each frame
  offered to the wire is taken, which sessions are served, and the order in which tokens are listed.
- `Scheduler.World`: whether the time limit has passed, at each test, and whether a connection can be registered.
- scripts for byte sources and sinks: data in any pieces, would-block, interruption, end, error.

Events of the routing server need not be well behaved: a connection that was torn down for overflow may still post
frames, and frames and disconnects of unknown connections are allowed. All that is required is that a NewConnection
names an id no earlier event has named, which the accept path guarantees by counting ids.

User code is modelled by what it can do to the engine. A callback without a dispatch context can use or drop reply
ports kept earlier, wherever they are kept. A request handler can also use, keep or drop its own port, send requests
in both variants, and await one; it may panic at any point. The panics of a send at the cap, of a message that cannot
be serialized and of a reply value that cannot be may each reach the looper or be caught by user code; such a reply
uses up its port without a frame. on_failed callbacks run by a cascade are taken to return,
because the program runs those outside its panic boundary.

Where the program and its comments differ, the model follows the program:

- A tick's budget is documented as 64 messages. It is 65 when the requests use it up exactly and a notification
  waits; PhaseFiveBudget states when, and LimitPassed gives a case.
- One exit reason is documented. A handler that stops on connection loss is reported as Graceful and then as
  Disconnected; StepExit states when, and TwoReasonsReported gives a case.
- The request cap is enforced for a handler's own requests only. CapPassedExactly states when the total passes it,
  CapHolds what remains true, and SyncExceedsCap gives a case.
- Every request is documented to get one Reply or Failed. One whose reply value cannot be serialized gets neither;
  EveryRequestAnswered states when, by what user code does, and BotchedReplyUnanswered gives a case.
- Sends of replies, failures and RevokeInterest are best effort: what is counted is attempts.
- A revoked session is documented to stay revoked for the lifetime of its connection. Nothing clears it, and session
  numbers start over on each connection: RevokedForGood and SkippedExactly state what holds,
  RevocationOutlivesConnection when this differs from the documentation, and NewConnectionSuppressed gives a case.

## Model

| member | source | states |
|---|---|---|
| `RoutingInvariants.RunConsistent` | crates/pane-session/src/server.rs:187-229 | In every reachable state routes come in matching pairs on two connections with ids below each end's counter, provider lists are never empty and list registered connections only, and the watch table and its reverse index are exact inverses without empty sets. |
| `RoutingInvariants.StepConsistent` | crates/pane-session/src/server.rs:315-554 | Every event, a late frame from an unregistered connection included, keeps that consistency. |
| `RoutingTheorems.RoutesAreInvolution` | crates/pane-session/src/server.rs:286-303 | In every run, following a route twice returns to the start, both ends hold the same route, lie on different connections, and have ids from 1 to 0xFFFE. |
| `RoutingTheorems.AbortNeverEncoded` | crates/pane-session/src/frame.rs:261-273 | No frame the server ever tries to send carries the reserved discriminant, so the encoder's assertion cannot fire. |
| `RoutingTheorems.AcceptsBalanceTeardowns` | crates/pane-session/src/server.rs:365-425 | For each session of a registered connection, acceptances minus teardowns attempted is one exactly while its route stands and zero otherwise, and never more than one of either. |
| `RoutingTheorems.DisconnectTeardowns` | crates/pane-session/src/server.rs:541-554 | A disconnect attempts exactly one teardown on the far end of each route of the lost connection and none elsewhere. |
| `RoutingTheorems.PrivatePipes` | crates/pane-session/src/server.rs:487-497 | In every run, the payloads attempted on a session are exactly and in order those its paired session sent while the route existed. |
| `RoutingTheorems.OnePartner` | crates/pane-session/src/server.rs:239-247 | While its connection is registered, a session id once handed out never gets a second partner or a route again after losing it. |
| `RoutingTheorems.NeverReregistered` | crates/pane-session/src/server.rs:701-707 | A connection id that has left never comes back. |
| `RoutingPolicies.DisconnectRemoves` | crates/pane-session/src/server.rs:315-346 | After a disconnect the connection occurs in no table, and everything that does not involve it is unchanged. |
| `RoutingPolicies.RepeatedDisconnect` | crates/pane-session/src/server.rs:499-554 | A second disconnect sends nothing and changes no table. |
| `RoutingPolicies.TurnServesOverflow` | crates/pane-session/src/server.rs:781-829 | One turn of the actor tears down exactly the connections on the overflow list and no other, and those left have missed no frame or are listed for the next turn. |
| `RoutingPolicies.NothingDropped` | crates/pane-session/src/server.rs:231-237 | Between events, every registered connection not on the overflow list has had every attempted frame taken by its queue. |
| `RoutingPolicies.ActorPrivatePipes` | crates/pane-session/src/server.rs:781-829 | Over any event stream, what the queue of a live, unmarked session was handed is exactly, in order and without a gap, what its partner sent. |
| `RoutingWatches.WatchTableMeaning` | crates/pane-session/src/server.rs:439-482 | Between registered connections, self-watch included, the watch table holds a pair exactly when the last request was Watch and not Unwatch. |
| `RoutingWatches.DeathNoticesExact` | crates/pane-session/src/server.rs:499-540 | A watcher is sent PaneExited exactly once for each death while watching, never after Unwatch, and at once for a target that is not registered. |
| `RoutingWatches.ProviderIndexMeaning` | crates/pane-session/src/server.rs:249-256 | Each provider list is the registration log cut down to that service and the connections still there, in order and with multiplicity; empty lists are absent. |
| `RoutingWatches.EarliestProviderWins` | crates/pane-session/src/server.rs:268-312 | DeclareInterest reaches the earliest surviving provider, or is declined, with the exact reason in each case. |
| `RoutingAnswers.OverflowExact` | crates/pane-session/src/server.rs:231-237 | In every run the overflow list holds, in order and with multiplicity, the connections of the frames refused since it was last taken, and a frame is refused exactly when the queue was full for it. |
| `RoutingAnswers.OverflowMeansRefused` | crates/pane-session/src/server.rs:227-237 | A connection is marked for teardown only if its queue refused it a frame. |
| `RoutingAnswers.KeptUnlessRefused` | crates/pane-session/src/server.rs:781-829 | Over any event stream, a connection that was announced, did not disconnect and had every frame accepted is still registered. |
| `RoutingAnswers.DedupDistinct` | crates/pane-session/src/server.rs:819-827 | The overflow list is cut down to each connection on it, once. |
| `RoutingAnswers.DeclareAnswered` | crates/pane-session/src/server.rs:365-396 | A declaration is answered word for word: acceptances of version 1 to consumer and then provider, in each one's next session, or one refusal with its reason, as the surviving registrations and the numbers left decide. |
| `RoutingAnswers.NumbersAscend` | crates/pane-session/src/server.rs:239-247 | After any run a declaration advances the session numbers of exactly the ends it hands one to, by one; an end at the reserved id stops there, the consumer's number being spent when it is the provider that has none. |
| `RoutingAnswers.NumbersStart` | crates/pane-session/src/server.rs:239-247 | Numbers start at one for a connection just announced, and again once it is gone. |
| `RoutingAnswers.RevokeAnswered` | crates/pane-session/src/server.rs:397-425 | A revocation sends a teardown with ServiceRevoked to the far end and then to the one who asked, each under its own session, and nothing when there is no route. |
| `RoutingAnswers.DisconnectTells` | crates/pane-session/src/server.rs:499-554 | All a disconnect makes the server send is PaneExited notices and teardowns with ConnectionLost. |
| `RoutingAnswers.DisconnectTried` | crates/pane-session/src/server.rs:499-554 | The exit notices are tried while the connection's own queue is still there, the teardowns after it is gone. |
| `RoutingAnswers.OthersUnanswered` | crates/pane-session/src/server.rs:358-362 | Any other control frame, malformed ones included, is answered with nothing, and but for Unwatch changes nothing. |
| `RoutingAnswers.DataChangesNothing` | crates/pane-session/src/server.rs:487-497 | A service frame changes no table. |
| `ServerActor.ServerState.TryEnqueue` | crates/pane-session/src/server.rs:231-237 | One attempt is logged when the connection has a writer, taken unless its queue is full; a refused one, and only that, puts the connection on the overflow list, as OverflowExact says of whole runs. |
| `ServerActor.ServerState.AllocSession` | crates/pane-session/src/server.rs:239-247 | The next id of the connection, or nothing at the reserved value. |
| `ServerActor.ServerState.RegisterProvides` | crates/pane-session/src/server.rs:249-256 | The provider lists grow as in the value model, whose meaning is ProviderIndexMeaning. |
| `ServerActor.ServerState.ResolveConn` | crates/pane-session/src/server.rs:260-265 | A local address resolves to the connection registered under it, any other to none. |
| `ServerActor.ServerState.HandleDeclareInterest` | crates/pane-session/src/server.rs:268-312 | Tables and decision are those of the value model, on every branch. |
| `ServerActor.ServerState.RemoveConnection` | crates/pane-session/src/server.rs:315-346 | The tables lose the connection and the far ends of its routes are returned. |
| `ServerActor.ServerState.ProcessControl` | crates/pane-session/src/server.rs:358-485 | A control frame, malformed ones included, has the effect of the value model's step on tables and outbox. |
| `ServerActor.ServerState.ProcessService` | crates/pane-session/src/server.rs:487-497 | A service frame is forwarded to the far end of its route, or dropped when there is none. |
| `ServerActor.ServerState.ProcessDisconnect` | crates/pane-session/src/server.rs:499-554 | Watchers are told, watches closed, the connection removed and peers told, in that order. |
| `ServerActor.ServerState.ProcessEvent` | crates/pane-session/src/server.rs:784-816 | One event takes tables and outbox one step of the value model. |
| `ServerActor.ServerState.ServeOverflow` | crates/pane-session/src/server.rs:819-827 | The overflow list is taken, deduplicated and each connection on it torn down once. |
| `ServerActor.ActorLoop` | crates/pane-session/src/server.rs:781-829 | The imperative actor reaches, from any event stream, exactly the tables and outbox of the value model's run. |
| `Wire.ParseStable` | crates/pane-session/src/frame.rs:191-227 | Once a prefix decides the first frame or error, further bytes do not change it. |
| `Wire.LittleEndian` | crates/pane-session/src/frame.rs:246-247 | Both field widths are the base-256 digits of the number, least significant first, when written and when read. |
| `Wire.Layout` | crates/pane-session/src/frame.rs:511-522 | On the wire a frame is four bytes for the low 32 bits of payload length plus two, two for the service, both little-endian, then the payload. |
| `Wire.RoundTrip` | crates/pane-session/src/frame.rs:234-273 | An encoded frame parses back to itself exactly when it fits the reader's limit, whatever follows. |
| `Wire.Canonical` | crates/pane-session/src/frame.rs:3-11 | Whatever parses as a message is the encoding of that message. |
| `Wire.DecodePrefix` | crates/pane-session/src/frame.rs:378-454 | Every prefix of a written stream decodes to a prefix of the frames, and the whole stream to all of them. |
| `FrameIO.FrameReader.constructor` | crates/pane-session/src/frame.rs:359-370 | A reader starts with nothing pending. |
| `FrameIO.FrameReader.ReadInto` | crates/pane-session/src/frame.rs:309-320 | Bytes go to the buffer in order; interruptions are retried; it stops short of a full buffer only where the source has to wait, ends or fails, having taken all that came before, and says which. |
| `FrameIO.FrameReader.TryReadFrame` | crates/pane-session/src/frame.rs:378-454 | One poll gives the reference parser's verdict on the bytes so far, reads nothing past the frame, asks for more only when the source has to wait with all that was ready taken, and repeats a protocol error without reading. |
| `FrameIO.ReadToEnd` | crates/pane-session/src/frame.rs:378-454 | However the stream is cut up, blocked and interrupted, the frames and final error are those of the bytes alone. |
| `FrameIO.FrameCodec.ReadFrame` | crates/pane-session/src/frame.rs:179-227 | The blocking read gives the reference parser's verdict; any error poisons the codec, which then never reads. |
| `FrameIO.BlockingReadToEnd` | crates/pane-session/src/frame.rs:179-227 | The blocking codec's frames and final error are those its configuration gives the bytes alone, on any source that blocks. |
| `Wire.DecodeAlikeExactly` | crates/pane-session/src/frame.rs:220-222 | Two readers decode every stream alike if and only if they have the same limit and, if any message fits it, take the same services. |
| `Wire.RegisteredServiceDiffers` | crates/pane-session/src/frame.rs:437-438 | A strict codec with a registered service takes a stream that a strict incremental reader rejects with UnknownService. |
| `FrameIO.ReadBothWays` | crates/pane-session/src/frame.rs:378-454 | On the same bytes, in any pieces for one and blocking for the other, incremental reader and codec give the same frames and final error when limit and services agree, and always when both are permissive. |
| `FrameIO.FrameWriter.Enqueue` | crates/pane-session/src/frame.rs:511-522 | The frame's encoding is appended to the pending bytes; bytes sent plus pending stay the encodings of all frames in order. |
| `FrameIO.FrameWriter.TryFlush` | crates/pane-session/src/frame.rs:540-559 | Exactly as many bytes go out as are pending and the sink has room for before it must wait or fails; nothing is lost, repeated or reordered; drained exactly when nothing is pending, an error exactly when the sink fails before that. |
| `FrameIO.FrameWriter.ReadsBack` | crates/pane-session/src/frame.rs:511-559 | At any point a peer with the room and the services decodes the bytes written to a prefix of the frames enqueued, and to all of them once the buffer is drained. |
| `ConnectionSource.ConnectionSource.WriteDirect` | crates/pane-app/src/connection_source.rs:133-135 | A direct write goes behind what is buffered, and is counted apart from the channel. |
| `ConnectionSource.ConnectionSource.DrainWriteChannel` | crates/pane-app/src/connection_source.rs:255-281 | The buffer takes frames from the channel in order until it is at the highwater mark or the channel is empty, and no more; the pending bytes that came through the channel stay below the mark plus one largest frame, whatever is written directly. |
| `ConnectionSource.FilledToMark` | crates/pane-app/src/connection_source.rs:255-281 | What the channel gives up is its shortest prefix that fills the buffer to the mark, or all of it. |
| `ConnectionSource.ConnectionSource.ChannelOnly` | crates/pane-app/src/connection_source.rs:255-281 | With channel-only writes the whole buffer stays below the mark plus one largest frame. |
| `ConnectionSource.ConnectionSource.ReadFrames` | crates/pane-app/src/connection_source.rs:355-384 | A round passes on the decoding of all that was ready, up to the first abort or bad control frame, and stays open exactly when there is none and neither an error nor the end follows; over all rounds the looper is given the decoding of what the peer sent. |
| `ConnectionSource.ConnectionSource.Flush` | crates/pane-app/src/connection_source.rs:388-406 | All the sink has room for is written; write interest goes exactly when the buffer is drained. |
| `ConnectionSource.ConnectionSource.ProcessEvents` | crates/pane-app/src/connection_source.rs:330-421 | A readable round reads all that was ready and a writable one writes, of buffer and channel, all the sink has room for; the source is removed exactly when the reading is over for good or the sink fails with bytes left; otherwise write interest holds exactly when bytes are pending, and Reregister is returned exactly when it changed. |
| `ConnectionSource.ConnectionSource.BeforeSleep` | crates/pane-app/src/connection_source.rs:462-491 | Asks for a wake-up exactly when a token is known and something is buffered or in the channel; takes one frame from the channel if nothing was buffered, and else nothing. |
| `EngineTheorems.ExactlyOnce` | crates/pane-app/src/looper_core.rs:225-243 | In every run each token allocated is pending or was replied to, failed or rolled back exactly once, panics included; after an exit none is pending and no entry was discarded. |
| `EngineVerdicts.VerdictsExact` | crates/pane-app/src/looper_core.rs:504-581 | Over any run a token is rolled back if and only if its frame was refused, replied to if and only if a Reply came while it was outstanding, and failed if and only if it was settled and neither happened. |
| `EngineLifetimes.RunOutstandingUntil` | crates/pane-session/src/active_session.rs:185-225 | From any point of any run, an outstanding request stays outstanding exactly until its own reply or failure, a teardown of the session it was sent on, or the end of the looper; no teardown of another session touches it. |
| `EngineLifetimes.HandlerIssues` | crates/pane-app/src/service_handle.rs:102-150 | A handler's request is outstanding under the next token and the session it was sent on exactly unless its frame is refused; each send offers the wire one frame. |
| `EngineLifetimes.SyncIssues` | crates/pane-app/src/looper_core.rs:288-342 | The same of a synchronous request, with no test of the cap. |
| `EngineCallbacks.ConcludeCalls` | crates/pane-app/src/dispatch.rs:116-155 | A Reply or Failed frame runs the callback of an entry the handler installed, for that verdict, and no other user code. |
| `EngineCallbacks.CallbacksExact` | crates/pane-app/src/dispatch.rs:116-197 | Over any run, on_reply of a request runs exactly once if a handler sent it and it was replied to, on_failed exactly once if a handler sent it and it was failed, in cascades and destruction included, and otherwise neither ever. |
| `EngineCallbacks.EventsCalled` | crates/pane-app/src/looper_core.rs:394-499 | Over any run the other calls into user code are, in order, one for each callback event, well-formed notification of a session listened to, well-formed request of a session served, and close of the channel. |
| `EngineCallbacks.StepEnds` | crates/pane-app/src/looper_core.rs:159-182 | An operation ends the looper exactly when the user code it calls stops, which is reported as Graceful, or panics, reported as a crash; a malformed notification and a send that panics uncaught are panics. |
| `EngineCallbacks.PanicsExactly` | crates/pane-app/src/service_handle.rs:80-150 | A request handler is cut short exactly when a send panics and user code does not catch it: at the cap for the infallible send, or over a message that cannot be serialized. |
| `EngineCallbacks.ClosingEnds` | crates/pane-app/src/looper_core.rs:189-212 | The close of the channel ends the looper, with the exact reasons reported for each answer of the handler; a failed poll ends it with InfraError. |
| `EngineTheorems.LayersAgree` | crates/pane-session/src/correlator.rs:77-141 | At every step boundary the dispatch keys are the primary connection paired with the correlator's tokens, and the counter is the size of the token map. |
| `EngineTheorems.TeardownTakesItsSession` | crates/pane-app/src/looper_core.rs:568-581 | A session cascade fails exactly that session's tokens, each once, and leaves every other request as it was. |
| `EngineTheorems.ConcludeOrderly` | crates/pane-app/src/looper_core.rs:504-564 | A Reply or Failed frame keeps the layers agreed whatever the callback does. |
| `EngineBooks.WreckAgreed` | crates/pane-app/src/looper_core.rs:225-243 | The destruction sequence leaves nothing pending and discards nothing unresolved, even when a callback has just panicked. |
| `EngineBooks.SendAgreed` | crates/pane-app/src/dispatch_ctx.rs:152-188 | Installing, offering and rolling back a request keeps the layers agreed. |
| `EngineTheorems.CapHolds` | crates/pane-app/src/service_handle.rs:91-101 | With a non-zero cap a handler never has more requests outstanding than the cap; the total is the handler's, synchronous and async ones together. |
| `EngineTheorems.TurnedAwayExactly` | crates/pane-app/src/service_handle.rs:194-229 | At any point of a handler in any run, the fallible send does nothing exactly when a cap is set and that many requests, whoever sent them, are outstanding; a cap of zero turns nothing away. |
| `EngineCap.CapPassedExactly` | crates/pane-session/src/correlator.rs:96-98 | Over any run, the outstanding requests pass a non-zero cap at some point if and only if, with the cap reached, a synchronous request is sent and not refused or a handler awaits a reply. |
| `EngineCap.SyncPassesCap` | crates/pane-app/src/looper_core.rs:288-342 | From at most the cap, a synchronous request ends above it exactly when the cap is reached and the frame is not refused. |
| `EngineCap.ActPassesCap` | crates/pane-app/src/dispatch_ctx.rs:163-170 | From at most the cap, an act of a handler ends above it exactly when it awaits a reply at the cap. |
| `EngineTheorems.SyncExceedsCap` | crates/pane-app/src/looper_core.rs:288-301 | The cap does not bound synchronous requests: with a cap of one, two are outstanding. |
| `EngineTheorems.OutstandingByOrigin` | crates/pane-session/src/correlator.rs:96-98 | The outstanding count is the number of handler, synchronous and async entries together. |
| `EngineTheorems.RefusedSendRestores` | crates/pane-app/src/service_handle.rs:230-258 | A refused frame leaves everything as before except the token counter and one rolled-back note. |
| `EngineAnswers.EveryRequestAnswered` | crates/pane-app/src/service_dispatch.rs:123-142 | By shutdown the port of every request handed to the looper has been used exactly once, with multiplicity, on every path; each request has exactly one Reply-or-Failed attempt if and only if no call into user code that took place uses a port with a value that cannot be serialized. |
| `EngineAnswers.RunLeaves` | crates/pane-app/src/service_handle.rs:442-452 | Over any run, a botched use is in the ledger if and only if a running handler answers the port in its hands that way, or some callback, in cascades and destruction included, so uses a port it still keeps. |
| `EngineAnswers.BotchedReplyUnanswered` | crates/pane-app/src/service_handle.rs:443-446 | A reply whose value cannot be serialized leaves its request without any frame. |
| `EngineObligations.StepHands` | crates/pane-app/src/service_dispatch.rs:206-245 | A port is handed out for each request and for nothing else. |
| `EngineObligations.RequestBalanced` | crates/pane-app/src/service_dispatch.rs:206-245 | Dispatching a request hands out one port and keeps ports handed out equal to ports used plus ports kept. |
| `EngineObligations.NeglectedPortFails` | crates/pane-proto/src/obligation.rs:119-125 | A port neither used nor kept ends in a Failed attempt. |
| `EngineObligations.StepExit` | crates/pane-app/src/looper_core.rs:189-212 | Two exit reasons are sent exactly when the channel closes and the handler's disconnected callback stops; closing always ends the looper. |
| `EngineObligations.TwoReasonsReported` | crates/pane-app/src/looper_core.rs:192-208 | A handler that stops as the channel closes: Graceful and then Disconnected are reported. |
| `EngineObligations.ExitReported` | crates/pane-app/src/looper_core.rs:639-716 | A run that has not exited has reported nothing; one that has, reported its reason. |
| `Sessions.RequestCorrelator.AllocateToken` | crates/pane-session/src/correlator.rs:77-83 | The next counter value, recorded under its session. |
| `Sessions.RequestCorrelator.RecordResolution` | crates/pane-session/src/correlator.rs:89-92 | The token leaves the map and the saturating count drops by one. |
| `Sessions.ActiveSession.CascadeSessionFailure` | crates/pane-session/src/active_session.rs:193-203 | The tokens of the session are listed once each, in hash order, and settled one by one. |
| `Sessions.ActiveSession.CascadeConnectionFailure` | crates/pane-session/src/active_session.rs:218-225 | All tokens are listed once each and the correlator is cleared. |
| `Sessions.TeardownSet.Drain` | crates/pane-session/src/teardown.rs:69-72 | All tokens are yielded and the set may be dropped. |
| `DispatchTable.Dispatch.Fire` | crates/pane-app/src/dispatch.rs:116-155 | The entry is used once, callbacks before async entries; the callback of a handler's own entry runs, and no other user code, as ConcludeCalls and CallbacksExact say. |
| `DispatchTable.Dispatch.Cancel` | crates/pane-app/src/dispatch.rs:161-170 | The entry is taken back without a call, and whether there was one is reported. |
| `DispatchTable.Dispatch.FailTokens` | crates/pane-app/src/dispatch.rs:183-197 | Each listed token that has an entry is failed, in order. |
| `DispatchTable.Dispatch.Clear` | crates/pane-app/src/dispatch.rs:204-207 | What is left is discarded without a call. |
| `DispatchTable.Actor.Drop` | crates/pane-proto/src/obligation.rs:119-125 | Dropping the handler drops every port it keeps, each a Failed attempt. |
| `LooperCore.DispatchCtx.InstallAndSend` | crates/pane-app/src/service_handle.rs:102-150 | The entry is installed before the frame is offered and cancelled when it is refused. |
| `LooperCore.DispatchCtx.Cancel` | crates/pane-app/src/dispatch_ctx.rs:182-188 | Entry and token go together, or neither does. |
| `LooperCore.RequestScene.SendRequest` | crates/pane-app/src/service_handle.rs:80-150 | The infallible send panics at the cap before anything is installed, which ends the handler unless user code catches it. |
| `LooperCore.RequestScene.TrySendRequest` | crates/pane-app/src/service_handle.rs:194-258 | The fallible send does nothing at the cap and otherwise behaves alike. |
| `LooperCore.RequestScene.Finish` | crates/pane-proto/src/obligation.rs:119-125 | A port still in hand is dropped, once: a Failed attempt. |
| `LooperCore.LooperCore.RunDestruction` | crates/pane-app/src/looper_core.rs:225-243 | Fails every tracked request, discards the rest, reports the reason: the value model's destruction. |
| `LooperCore.LooperCore.DispatchCallback` | crates/pane-app/src/looper_core.rs:159-182 | Runs one callback and the destruction sequence on stop or panic; an exited core runs nothing. |
| `LooperCore.LooperCore.ConnectionLost` | crates/pane-app/src/looper_core.rs:189-212 | A stop on disconnect is reclassified, with both reasons reported. |
| `LooperCore.LooperCore.ProcessSyncRequest` | crates/pane-app/src/looper_core.rs:288-342 | Installs and sends without a cap check, rolling back a refused frame. |
| `LooperCore.LooperCore.DispatchNotification` | crates/pane-app/src/looper_core.rs:394-417 | Unknown sessions and wrong tags are ignored, malformed payloads end the looper. |
| `LooperCore.LooperCore.DispatchRequest` | crates/pane-app/src/looper_core.rs:450-499 | Follows the value model on every path, a panic with the port in hand included; StepEnds says when it ends the looper and with which reason. |
| `LooperCore.LooperCore.DispatchReply` | crates/pane-app/src/looper_core.rs:504-536 | Matched by token alone; a panic skips the correlator and runs the destruction. |
| `LooperCore.LooperCore.DispatchFailed` | crates/pane-app/src/looper_core.rs:541-564 | As for replies, with the failure callback. |
| `LooperCore.LooperCore.DispatchTeardown` | crates/pane-app/src/looper_core.rs:568-581 | Drains the cascade and fails its tokens. |
| `LooperCore.LooperCore.Run` | crates/pane-app/src/looper_core.rs:639-716 | The receive loop ends with the state, reason and dropped handler of the value model's run over its messages and the channel's end. |
| `SchedulerTheorems.InboundConserved` | crates/pane-app/src/looper.rs:752-831 | Until exit, requests arrived are those handed over or skipped followed by those waiting, in order, and likewise notifications; connection loss is handled only when all have been taken. |
| `SchedulerTheorems.RevokedNeverHanded` | crates/pane-app/src/looper.rs:209-224 | Nothing is handed over for a session after its revocation was collected, and only such work is skipped. |
| `SchedulerTheorems.ServeTakes` | crates/pane-app/src/looper.rs:755-800 | A queue is taken from the front and the rest keeps its order. |
| `SchedulerPolicies.PhaseFiveBudget` | crates/pane-app/src/looper.rs:752-831 | Phase 5 hands over at most the limit plus one, and exactly when it exceeds the limit. |
| `SchedulerPolicies.LimitPassed` | crates/pane-app/src/looper.rs:752-831 | 64 requests for an unserved session and a notification arrive in one tick, with time to spare: 65 messages are handed over. |
| `SchedulerPolicies.TickBudget` | crates/pane-app/src/looper.rs:572-851 | A whole tick hands over at most the limit plus one. |
| `SchedulerPolicies.TickProgress` | crates/pane-app/src/looper.rs:793-848 | Each tick works off some of what waits; with the channel closed only waiting work keeps the looper alive. |
| `SchedulerPolicies.ClosedLooperEnds` | crates/pane-app/src/looper.rs:836-848 | After the channel closes the looper ends within as many quiet ticks as items wait. |
| `SchedulerPhases.FrameworkSorted` | crates/pane-app/src/looper.rs:577-716 | After any run, the engine operations of phases 0 to 3 of a tick are those its messages ask for, stably sorted by phase: synchronous requests, replies, failures, teardowns each followed by its callback, then the callbacks of phase 3. |
| `SchedulerPhases.PollCloses` | crates/pane-app/src/looper.rs:187-280 | The channel counts as closed exactly once its end has been collected. |
| `SchedulerPhases.ClosedExactly` | crates/pane-app/src/looper.rs:836-848 | In every run the channel counts as closed exactly if its end was polled and has not been handled, whatever else ended the looper; handling it ends the looper. |
| `SchedulerPhases.OneTickARound` | crates/pane-app/src/looper.rs:520-560 | A looper that goes on has dispatched one tick for each round. |
| `SchedulerPolicies.RevokesSentOnce` | crates/pane-app/src/looper.rs:731-734 | While the looper runs, each revoked session has had exactly one RevokeInterest offered to the wire by the end of the tick that collected it; a tick that ends the looper in phases 0 to 3 offers none, any other offers all that are due. |
| `SchedulerRevocations.RevokedForGood` | crates/pane-app/src/looper.rs:937-943 | In every run the sessions held as revoked are exactly those ever revoked. |
| `SchedulerRevocations.SkippedExactly` | crates/pane-app/src/looper.rs:757-761 | Work that is served is skipped if and only if its session was revoked at any earlier point of the run, connections taken over in between included. |
| `SchedulerRevocations.RevocationOutlivesConnection` | crates/pane-app/src/looper.rs:115-117 | Served work is skipped just when its session was revoked on the present connection, as documented, if and only if it is not for a session revoked on an earlier connection and not on the present one. |
| `SchedulerRevocations.NewConnectionSuppressed` | crates/pane-app/src/looper.rs:209-224 | Session 1 is revoked, a connection is taken over, and work for its session 1 arrives: the work is skipped. |
| `SchedulerPolicies.LastHandoffWins` | crates/pane-app/src/looper.rs:715-721 | After any run that goes on, none is left waiting, and a tick takes over the last connection announced in it, if it can be registered, and no other; a tick that ends the looper in phases 0 to 3 takes over none. |
| `SchedulerPolicies.EmptyBatchSkipped` | crates/pane-app/src/looper.rs:171-184 | Dispatching a batch that counts as empty would change nothing, so skipping it loses nothing. |
| `LooperTheorems.LooperRuns` | crates/pane-app/src/looper.rs:520-560 | Whatever arrives in whatever rounds, a failed poll included, the core ends where the engine's run over the looper's operations ends. |
| `LooperTheorems.LooperResolvesOnce` | crates/pane-app/src/looper.rs:572-851 | Exactly-once resolution holds of every batched looper run. |
| `LooperTheorems.LooperVerdicts` | crates/pane-app/src/looper.rs:572-851 | The verdicts of a batched run, by what was refused and what was replied to in it. |
| `LooperTheorems.LooperCallbacks` | crates/pane-app/src/looper.rs:572-851 | In every batched run the callback of a handler's request runs exactly once for the verdict it came to, and no other callback ever runs. |
| `LooperTheorems.HandedCalls` | crates/pane-app/src/looper.rs:755-831 | Handing over an item calls the handler exactly if its body is well formed and its session has someone to take it; a malformed notification that has ends the looper with a crash. |
| `LooperTheorems.DisconnectEnds` | crates/pane-app/src/looper.rs:836-848 | Once a round brings the end of the channel and nothing more arrives, the looper ends, at once or after as many rounds as inbound items were left waiting. |
| `LooperTheorems.LooperAnswersOnce` | crates/pane-app/src/looper.rs:755-792 | The port of every request the scheduler hands over is used exactly once by the time the handler is dropped; each has one Reply-or-Failed attempt if and only if user code botches none in that run. |
| `ReplyOrder.ReplyWins` | crates/pane-app/src/looper.rs:587-635 | After any run, a tick whose messages hold a reply to an outstanding token, in any order with anything else, resolves it once as replied and never as failed, unless an earlier reply of the tick ended the looper; then as failed. |
| `FailureOrder.FailureWins` | crates/pane-app/src/looper.rs:598-619 | After any run, a tick whose messages hold no reply to an outstanding token but a failure of it, or a teardown of its session, resolves it once as failed and never as replied, in any order with anything else. |
| `FailureOrder.OutstandingThroughTick` | crates/pane-app/src/looper.rs:577-620 | After any run, a request outstanding before a tick is outstanding after it exactly if the looper goes on and no message of the tick is its reply, its failure or a teardown of its session. |
| `Looper.Buckets.Add` | crates/pane-app/src/looper.rs:187-280 | Each message goes to its bucket, which FrameworkSorted ties to what is dispatched for it; a second revocation of a session adds nothing. |
| `Looper.Buckets.Discard` | crates/pane-app/src/looper.rs:919-944 | Events go; revocations and the closed flag stay. |
| `Looper.Looper.RunFramework` | crates/pane-app/src/looper.rs:577-716 | Phases 0 to 3 run in order and stop at the first exit. |
| `Looper.Looper.ServeQueue` | crates/pane-app/src/looper.rs:755-800 | The index loop computes the value model's serving of a queue. |
| `Looper.Looper.DispatchNotices` | crates/pane-app/src/looper.rs:802-848 | Notifications, then the end of the channel. |
| `Looper.Looper.DispatchInbound` | crates/pane-app/src/looper.rs:752-831 | Requests first; notifications only when no request is left over. |
| `Looper.Looper.TakeOver` | crates/pane-app/src/looper.rs:715-721 | The connection handed over is registered if it can be. |
| `Looper.Looper.FailPoll` | crates/pane-app/src/looper.rs:536-540 | A failed poll runs the destruction sequence with InfraError. |
| `Looper.Looper.Dispatch` | crates/pane-app/src/looper.rs:572-851 | One batch in phase order, as the value model dispatches it. |
| `Looper.Looper.Run` | crates/pane-app/src/looper.rs:520-560 | The main loop reaches the state of the value model's run and drops the handler on exit. |

## Left out

- Threads, channels, sockets, event-loop registration, wakers, executors and timers: replaced by ordered event lists and scripts.
- postcard and CBOR encoding of messages: messages are datatypes; that serializing a request or a reply value may fail is modelled.
- The handshake, the bridge, transports and peer credentials: input, output and error mapping with little state.
- The subscriber queues of phase 3: a library whose code is not part of this model. Registering a connection that is handed over succeeds or fails arbitrarily; its direct write path is part of the wire's arbitrary answer.
- The Cancel frame a request's handle may send: advisory, and without local effect.
- Reply ports as one-shot closures: a port is a value that is in hand, kept or answered; that no other copy exists is left to the ownership rules of the program's language.
- Revocation bookkeeping and accessors of ActiveSession: the looper keeps its own set, which is modelled; the rest would only add easy members.
- Changing the request cap during a run: the cap is fixed, as negotiated.
- Counters are unbounded: the 64-bit token and connection counters do not wrap around. Session ids and frame lengths are modelled at their width.
- Eventual flushing of a first write before any poll event: the source does not wake itself until it has a token, which BeforeSleep states.
- The watchdog, the messenger, the builder, filters, addresses, lenses and the file system view: wall-clock behaviour, glue or easy lookups.
