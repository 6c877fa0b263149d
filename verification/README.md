# Websocket client and server: a verified model

This project models the logic of a small C++ websocket client and server in Dafny and proves what
their interleaved handlers, threads and callbacks keep. `dafny verify dfyconfig.toml` checks all of it.

| file | what it models |
|---|---|
| `Targets.dfy` | request targets: percent-decoding, the query loop, and the encoder's side of the round trip |
| `Routing.dfy` | uri matching as an order, the longest registered match, the upgrade filter, the reported remainder |
| `WorkQueue.dfy` | the callback queue: posters, one worker, stoppers |
| `SessionSpec.dfy`, `SessionRuns.dfy` | one websocket session as a state machine over its strand handlers, and its whole runs |
| `ServerSession.dfy`, `ClientSession.dfy` | the two session objects, each handler proved against that machine; the client's connect chain |
| `Registry.dfy`, `ServerImpl.dfy` | the server's client registry, one lock section a step, and the server object |
| `Relay.dfy` | how the notices sessions raise become jobs in the queue, for the server and the client alike |
| `ServerMachine.dfy` | the whole server as one machine: sessions, registry, queue and other threads |
| `ServerStrands.dfy`, `ServerCloses.dfy` | what its steps keep: who was given which id and what each strand reported; where each client is |
| `ServerSystem.dfy`, `ServerShutdown.dfy`, `ServerZero.dfy` | its whole runs: what is delivered, under which ids, what Shutdown leaves, and the id 0 |
| `ServerExamples.dfy` | runs of the whole server in which its promises fail |
| `Http.dfy`, `HttpHistory.dfy` | plain http on one connection: requests, wrappers, handlers and responses; what is answered, told from the events |
| `ClientImpl.dfy`, `ClientSystem.dfy` | the client object over many connect attempts; with its sessions and its queue |
| `Options.dfy` | a value that may be missing |

The pattern is the same everywhere. A state machine (a `Step` function with an `Enabled` or
`Outstanding` guard) says what one handler or one lock section does; an inductive invariant is kept by every step;
theorems about `Run` lift it to every interleaving. Where the program updates an object in place there is a
class whose methods are written the way the program writes them, and each method's postcondition equates
the object's view with the step function of its old view. What a step function does is pinned by theorems that do
not name it: over whole runs, in terms of the events and the history.

## Assumptions

* Handlers of one session or connection run one at a time (the strand), a lock section is one step, and every
  completion belongs to an operation that is outstanding.
* Sessions: once the opening, a read or a write on a stream has reported an error, no later read or write on it
  reports success. This is a visible hypothesis (`SessionSpec.StickyStep`, `SessionSpec.Sticky`), and the results on
  whole sessions say exactly what fails without it: the write queue is popped while empty exactly when a write succeeds
  on a closed session (`SessionRuns.CrashesExactlyOnLateWrite`, a run in `SessionRuns.ReadErrorThenWriteCrashes`), and
  the owner is told its story out of order exactly when a read succeeds after the closing was reported
  (`SessionRuns.StoryToldExactlyUnlessLateRead`, a run in `SessionRuns.WriteErrorThenReadBreaksStory`). The session
  objects, the connect attempt and the whole client and server are modelled under it.

## Where the code and its documentation differ

* Client ids are meant to be unique, and 0 to mean that a client was turned away. The 32-bit counter, which http
  requests use up too, wraps around without a check. The results say exactly what that breaks:
  * two clients get one id exactly when a multiple of 2^32 ids was taken from the first to the second
    (`Registry.IdsRepeatExactlyAcrossWraps`);
  * a closed notification is lost exactly when a registration takes the id of a client still live
    (`Registry.NoticeLostExactlyOnReuse`; a run that loses one is `Registry.WrappedCounterLosesNotice`), and a uri's
    count is then ahead of its clients by those overwritten (`Registry.IndexAgreesWithScan`,
    `Registry.EnterKeepsCountsExactlyOnFreshId`, `Registry.WrappedCounterBreaksCounts`);
  * an open session that Stop, RemoveClient and Shutdown never close is exactly one displaced by another session that
    was given its id (`ServerSystem.OpenSessionsAreAttended`, `ServerSystem.DisplacedIsNeverClosed`, a run in
    `ServerExamples.OutliveShutdown`);
  * a client entered when the counter stands at 0 is announced as added, but its session is told that it was turned
    away (`Registry.ZeroIsAnsweredExactly`, `Registry.WrappedCounterAnswersZero`). It closes and never reads, so its
    strand reports no message, and no closing either, which it can exactly under any other id
    (`ServerZero.UnderZeroExactlyAdded`, `ServerZero.ClosingReportedExactlyUnlessZero`). Only Stop and
    RemoveClient can still tell its closing (a run in `ServerExamples.ZeroIsAddedThenStopped`).

  None of it happens in a run that takes fewer than 2^32 ids (`Registry.BelowWrapNothingIsLost`).
* `src/CWebsocketServer.h:246-249` says destroying the server stops it and that no callback runs after. A `Start` that
  passed its shutdown check before can still install an acceptor afterwards, and only then can there be one
  (`Registry.AcceptorAfterShutdownExactlyOnRace`, `Registry.RacingStartOutlivesShutdown`); no client is ever registered
  on it. A `Stop` or `RemoveClient` of another thread that took its clients out before can still run their closed
  callbacks and the connection-change callbacks after those, and nothing else can
  (`ServerShutdown.CallbackAfterShutdownExactlyWhenOwed`, `ServerExamples.OutliveShutdown`). The client has the
  first window (`ClientImpl.SessionAfterShutdownExactlyOnRace`) but not the second (`ClientSystem.NoCallbackAfterShutdown`).
* README.md of the repository says client callbacks run on IO threads; the code relays them to the work queue, and
  so does this model.

## Model

| member | source | states |
|---|---|---|
| Targets.UrlDecode | src/CWebsocketServer.cpp:84-105 | the index loop decodes token by token: complete escapes to their byte, plus to space, everything else as it is |
| Targets.DecodeFixesExactlyPlain | src/CWebsocketServer.cpp:84-105 | decoding changes a string exactly when it holds a plus sign or a complete escape |
| Targets.DecodeOfEncode | src/CWebsocketServer.cpp:84-105 | decoding undoes percent-encoding (section 2.1 of RFC 3986) for every byte string and every admissible set of characters left unescaped |
| Targets.EscapeDecodes | src/CWebsocketServer.cpp:90-94 | an escape decodes to the byte its two hex digits spell, each in either case |
| Targets.ParseQuery | src/CWebsocketServer.cpp:117-140 | the loop over the query terminates and binds exactly the non-empty pieces between ampersands, in order |
| Targets.ParseTarget | src/CWebsocketServer.cpp:107-141 | the path is the target up to its first question mark, or all of it, and the parameters are those of the query after it, or the initial ones |
| Targets.BoundKeys | src/CWebsocketServer.cpp:126-138 | a key is bound exactly when some non-empty piece names it, or it was bound before |
| Targets.LastPieceWins | src/CWebsocketServer.cpp:126-138 | of several pieces naming a key the last one gives its value |
| Targets.PieceNamesAndGives | src/CWebsocketServer.cpp:128-137 | a piece names what comes before its first equals sign and gives it what comes after, or the empty string |
| Targets.JoinOfSplit | src/CWebsocketServer.cpp:118-126 | joining the pieces gives the string back, so a split loses nothing |
| Targets.SplitPiecesAvoid | src/CWebsocketServer.cpp:121-126 | no piece holds the separator |
| Targets.QueryRoundTrip | src/CWebsocketServer.cpp:107-141 | for every path without a question mark and every list of pairs, parsing the built target gives the path and the pairs' map back |
| Targets.ParameterMapRoundTrip | src/CWebsocketServer.cpp:107-141 | the round trip for a parameter map listed in any order |
| Routing.MatchesIsPartialOrder | src/CWebsocketServer.cpp:143-151 | matching is reflexive on non-empty uris, antisymmetric and transitive |
| Routing.MatchesOfAPathFormAChain | src/CWebsocketServer.cpp:143-151 | of two uris matching one path the shorter matches the longer |
| Routing.MatchesIsSegmentPrefix | src/CWebsocketServer.cpp:143-151 | the character test equals a prefix test on segment lists, with and without a trailing slash |
| Routing.LongestUriMatch | src/CWebsocketServer.cpp:1206-1218 | whatever the iteration order the loop finds the greatest matching uri, or nothing when none matches |
| Routing.AddUriReroutesOnlyToIt | src/CWebsocketServer.cpp:952-956 | adding a uri changes a route only to that uri, and exactly when it matches and is longer |
| Routing.RemoveUriReroutesOnlyFromIt | src/CWebsocketServer.cpp:958-962 | removing a uri moves only the paths routed to it, and only up their chain |
| Routing.UpgradeAllowed | src/CWebsocketServer.cpp:1098-1112 | an upgrade passes exactly when no filter is set or some allowed uri matches |
| Routing.UriAppend | src/CWebsocketServer.cpp:995-1007 | base followed by the reported remainder is the target, base being the registered match, else the longest allowed match, else empty |
| Routing.FilteredClientHasABase | src/CWebsocketServer.cpp:995-1007 | a client that passed the filter is reported under a non-empty base |
| WorkQueue.Conservation | src/CWorkQueue.h:36-94 | in every run the accepted jobs are, in order, completed, running, waiting and discarded: none lost, repeated or overtaken |
| WorkQueue.StoppedStartsNothing | src/CWorkQueue.h:51-88 | once stopped, nothing is accepted and no further job is entered, in any continuation |
| WorkQueue.Barrier | src/CWorkQueue.h:17-22 | after the stopping call returned on another thread nothing runs, in any continuation, and every accepted job completed or was discarded |
| WorkQueue.StopMakesProgress | src/CWorkQueue.h:49-94 | a stopped queue with a live worker always has a worker step that brings the join closer |
| WorkQueue.StopNeverJoinsItself | src/CWorkQueue.h:62-73 | over every continuation the call that stops the queue is detached exactly when made on the worker, and otherwise joins a worker there is |
| WorkQueue.Queue.PostJob | src/CWorkQueue.h:36-47 | Post appends, or drops the job once stopped |
| WorkQueue.Queue.StopLockSection | src/CWorkQueue.h:51-74 | Stop discards the waiting jobs and joins, detaches or returns |
| WorkQueue.Queue.WakeUp | src/CWorkQueue.h:77-91 | the worker takes the front job, or exits when stopped |
| SessionSpec.StepKeepsCore | src/CWebsocketServer.cpp:233-393 | every handler keeps: one write-type operation at a time, frames in accepted order, the close last, no close lost, backlog within its cap; only a write completing on a closed session pops an empty queue |
| SessionRuns.CrashesExactlyOnLateWrite | src/CWebsocketServer.cpp:340-376 | whatever the stream reports, a run pops an empty queue exactly when a write succeeds on a session no longer open |
| SessionRuns.ReadErrorThenWriteCrashes | src/CWebsocketClient.cpp:346-382 | the concrete run, of a client session as of a server session: open, send, failed read, successful write |
| SessionRuns.SessionSafety | src/CWebsocketServer.cpp:233-393 | in every interleaving, whatever the stream reports: a crash exactly on a late write; otherwise one write-type operation at a time, queue non-empty exactly when a write is outstanding, written then queued is what was accepted, the unwritten never exceed the cap, and the owner got the story in order exactly unless a late read came; sticky failures exclude both |
| SessionRuns.StoryToldExactlyUnlessLateRead | src/CWebsocketServer.cpp:308-393 | a run that does not crash tells the owner up, the messages and down in order exactly when no read succeeds after the closing was reported |
| SessionRuns.WriteErrorThenReadBreaksStory | src/CWebsocketServer.cpp:308-348 | the concrete run, of a session of either role: open, send, failed write, successful read |
| SessionRuns.AcceptedExactlyBelowCap | src/CWebsocketServer.cpp:233-259 | in every run the accepted payloads are, in order, those sent on an open session with no close requested while fewer than the cap were unwritten; the others sent to it are dropped and counted |
| SessionRuns.NothingFollowsClose | src/CWebsocketClient.cpp:364-378 | once the close is sent the wire is every accepted payload in order and then the close, in every continuation (section 5.5.1 of RFC 6455) |
| SessionRuns.CloseFollowsDrain | src/CWebsocketClient.cpp:346-378 | after a close request the queue shrinks by one for each successful write and the close goes out exactly when it is empty |
| SessionRuns.CloseIsHonoured | src/CWebsocketServer.cpp:261-273 | in every run a Close stops acceptance; an open session then sends its close behind every accepted payload exactly when the waiting writes are through, and one that had not come up sends the close alone, as soon as it does |
| SessionRuns.StandsAsItsEventsSay | src/CWebsocketServer.cpp:261-393 | in every run a session comes up by its opening alone, is open until a read or write fails, has a close requested by a Close or the answer 0, and tells an owner that is gone nothing more |
| SessionRuns.EarlyCloseIsAllThatIsSent | src/CWebsocketClient.cpp:279-293 | a close requested before the handshake finished is all the session ever sends, in every continuation |
| SessionRuns.NeverReopens | src/CWebsocketServer.cpp:374-380 | a session that was open and is not any more never opens again and sends nothing |
| SessionRuns.RejectedOnlyCloses | src/CWebsocketServer.cpp:288-294 | a session answered the id 0 sends its close and reads, accepts and further reports nothing, in every continuation |
| ServerSession.WsSession.HandleSend | src/CWebsocketServer.cpp:233-259 | the send handler is the machine's send step |
| ServerSession.WsSession.HandleClose | src/CWebsocketServer.cpp:261-273 | the close is requested, and sent at once by an open session with nothing to write |
| ServerSession.WsSession.OnAccept | src/CWebsocketServer.cpp:276-300 | the accept handler: abandoned, announced if the server entered the client, and then rejected on the id 0 or reading |
| ServerSession.WsSession.OnRead | src/CWebsocketServer.cpp:308-330 | a message is reported and the next read starts |
| ServerSession.WsSession.OnWrite | src/CWebsocketServer.cpp:340-356 | the front is popped, never from an empty queue, and the next write or the close starts |
| ServerSession.WsSession.OnReadFailed | src/CWebsocketServer.cpp:308-314 | a failed read closes the session |
| ServerSession.WsSession.MaybeSendClose | src/CWebsocketServer.cpp:358-372 | the close is sent once and only on an empty queue |
| ServerSession.WsSession.HandleClosed | src/CWebsocketServer.cpp:374-393 | the queue is emptied and the close reported once |
| ClientSession.AttemptReportsOnce | src/CWebsocketClient.cpp:190-336 | per connect attempt the completion handler runs at most once; a failure reports one disconnect only, a success connect, messages in order, and one disconnect |
| ClientSession.OpensOnlyThroughItsChain | src/CWebsocketClient.cpp:190-293 | in every interleaving a session opens exactly when its websocket handshake succeeded, after the resolve, the connect and, for TLS, the TLS handshake over it; the attempt fails exactly when a stage did |
| ClientSession.Session.HandleTcpConnect | src/CWebsocketClient.cpp:211-235 | the connect stage: failure, SNI failure, TLS, or straight to the websocket handshake without TLS |
| ClientSession.Session.HandleWebsocketHandshake | src/CWebsocketClient.cpp:279-293 | the end of the chain opens the session, completes the attempt, honours an early close and starts reading |
| ClientSession.Session.CompleteConnect | src/CWebsocketClient.cpp:301-306 | the stored handler runs if it is set, with the given success, and is gone afterwards |
| ClientSession.Session.HandleSend | src/CWebsocketClient.cpp:150-166 | the send handler is the machine's send step |
| ClientSession.Session.OnWrite | src/CWebsocketClient.cpp:346-362 | the front is popped, never from an empty queue, and the next write or the close starts |
| Registry.ExactlyOneClosedNotice | src/CWebsocketServer.cpp:838-889 | in every interleaving the registrations under an id are the live one, those owed a notification, those notified, and those overwritten while live; so a client whose id went to no one else is in exactly one place |
| Registry.NoticeLostExactlyOnReuse | src/CWebsocketServer.cpp:979-993 | a run loses a closed notification exactly when one of its registrations takes the id of a live client |
| Registry.EnterBalancedExactlyOnFreshId | src/CWebsocketServer.cpp:984-986 | entering a client keeps every registration accounted for exactly when the id is not in use |
| Registry.WrappedCounterLosesNotice | src/CWebsocketServer.cpp:984-986 | a run that registers two clients under one id, takes it out and notifies it once: nothing is left to notify |
| Registry.BelowWrapNothingIsLost | src/CWebsocketServer.cpp:979-993 | a run taking fewer than 2^32 ids takes no live id, loses no notification, and has distinct non-zero ids and right counts |
| Registry.EnterKeepsCountsExactlyOnFreshId | src/CWebsocketServer.cpp:979-993 | registering keeps the uri counts right exactly when the id is not still in use by a client with a registered uri |
| Registry.WrappedCounterBreaksCounts | src/CWebsocketServer.cpp:984-991 | a run in which the wrapped counter gives two clients one id and leaves a wrong count |
| Registry.CountedWhilePresent | src/CWebsocketServer.cpp:1220-1233 | in every run, whatever the ids, the guard of the decrement is never taken for a client being removed |
| Registry.RegisterFilesTheRoute | src/CWebsocketServer.cpp:979-993 | a registration files the session and its flag, under the counter's id, with the longest registered match of its path, and touches no other entry; one turned away files nothing |
| Registry.UrisAreThoseStillAdded | src/CWebsocketServer.cpp:952-962 | in every run the registered uris are those added and not removed since |
| Registry.IndexAgreesWithScan | src/CWebsocketServer.cpp:910-939 | in every run the count of a non-empty uri is the number of its clients plus those overwritten while live, so the index answers like the scan exactly when there are none of these or a client to reach anyway |
| Registry.IdsRepeatExactlyAcrossWraps | src/CWebsocketServer.cpp:984 | in every run two registrations get the same id exactly when a multiple of 2^32 ids was taken from the first to the second |
| Registry.ZeroIsAnsweredExactly | src/CWebsocketServer.cpp:979-986 | after every run the id 0 is answered exactly to a client turned away and to one entered when the ids taken are one short of a multiple of 2^32 |
| Registry.WrappedCounterAnswersZero | src/CWebsocketServer.cpp:984-986 | a run that enters a client under the id 0 |
| Registry.LifecycleHolds | src/CWebsocketServer.cpp:799-865 | without an acceptor there are no clients, counts or port; after Shutdown's Stop the registry stays empty in every continuation |
| Registry.AcceptorAfterShutdownExactlyOnRace | src/CWebsocketServer.cpp:813-836 | on a server that was shut down an acceptor can appear again exactly when some Start had already passed its check |
| Registry.RacingStartOutlivesShutdown | src/CWebsocketServer.cpp:813-836 | a run in which a racing Start leaves an acceptor on a server that was shut down |
| ServerImpl.Server.InstallAcceptor | src/CWebsocketServer.cpp:825-834 | Start's lock section installs the acceptor and its port unless there is one, whose port then stays |
| ServerImpl.Server.Stop | src/CWebsocketServer.cpp:838-865 | the lock section swaps everything out and hands the entries over |
| ServerImpl.Server.RegisterWsClient | src/CWebsocketServer.cpp:966-1018 | the id answered, the one new entry with its session, its flag and the longest match of its path, and the remainder reported |
| ServerImpl.Server.RemoveClient | src/CWebsocketServer.cpp:873-889 | the client is taken out and its session handed over, or nothing happens |
| ServerImpl.Server.OnWsClosed | src/CWebsocketServer.cpp:1020-1054 | the client is taken out unless it was already removed, and the count for its uri is that of the clients left on it and those overwritten while live, none while ids have not wrapped |
| ServerImpl.Server.NotifyClosed | src/CWebsocketServer.cpp:1285-1314 | the notification is given and reports the clients left on the uri and those overwritten while live, none while ids have not wrapped |
| ServerImpl.Server.Broadcast | src/CWebsocketServer.cpp:910-928 | the scan collects exactly the clients with the uri, or all |
| ServerImpl.Server.AnyClients | src/CWebsocketServer.cpp:930-939 | the index answers whether a broadcast would reach anyone, wrong exactly when all that is left of a uri are clients overwritten while live; for the empty uri it answers no |
| ServerSystem.DeliveredInOrder | src/CWebsocketServer.cpp:1009-1075 | in every interleaving the callbacks delivered for a session are a prefix of those its strand posted, and its strand's calls are its client's story: added, messages as received, closed, or only added under the id 0; an unstopped queue that ran dry lost none; so a client with all callbacks set is delivered a prefix of its story |
| ServerSystem.IdSharedExactlyAcrossWraps | src/CWebsocketServer.cpp:979-1075 | in the whole system a client's id was given to another client exactly when a multiple of 2^32 ids was taken between two registrations of it; what is delivered under the id is what was delivered for the client's session exactly when nothing was for another session given it |
| ServerZero.UnderZeroExactlyAdded | src/CWebsocketServer.cpp:1009-1017 | in every run a client in the registry under 0 is announced as added, and its strand never reports anything else: its session only closes (288-293) and reads nothing |
| ServerZero.ClosingReportedExactlyUnlessZero | src/CWebsocketServer.cpp:276-300 | the closed callback of a connected client can still be posted by its strand, in some continuation, exactly when its id is not 0 |
| ServerExamples.ZeroIsAddedThenStopped | src/CWebsocketServer.cpp:984-1012 | a run in which a client is entered under 0 and delivered as added, its session only closes, and a Stop tells its closing |
| ServerSystem.ClosedIsToldOnce | src/CWebsocketServer.cpp:1026-1049 | no strand posts its closing twice, and queued and synchronous closed notifications for an id are together no more than the clients given it, so at most one while ids have not wrapped |
| ServerShutdown.CallbackAfterShutdownExactlyWhenOwed | src/CWebsocketServer.cpp:799-811 | once Shutdown has stopped the queue and returned it has made all the callbacks it owed, the worker runs nothing, and a callback of any kind can still come exactly when a Stop or RemoveClient of another thread still owes a closed callback or the connection-change callback after one |
| ServerExamples.OutliveShutdown | src/CWebsocketServer.cpp:799-889 | a run in which a wrapped id overwrites a live client, RemoveClient takes the id out and Shutdown runs to its end: the closed callback then comes, and the overwritten session is still open with Close never called on it |
| ServerSystem.OpenSessionsAreAttended | src/CWebsocketServer.cpp:838-889 | in every run an open client is in exactly one place: in the registry, taken out with Close called or about to be, or displaced by another session given its id; after Shutdown exactly the displaced have nobody to close them |
| ServerSystem.DisplacedIsNeverClosed | src/CWebsocketServer.cpp:984-986 | no continuation calls Close on a displaced session |
| ClientSystem.DeliveredInOrder | src/CWebsocketClient.cpp:611-738 | in every interleaving, for every session ever made, the callbacks delivered are a prefix of those its strand posted, and its calls are connect, messages as received, disconnect, or the single disconnect of a failed attempt; an unstopped queue that ran dry lost none |
| ClientSystem.FullyReportedAttempt | src/CWebsocketClient.cpp:611-738 | a session whose calls all found a callback set is delivered a prefix of its attempt's story |
| ClientSystem.NoCallbackAfterShutdown | src/CWebsocketClient.cpp:489-492 | once the queue was stopped no callback of any session is entered any more, and after that Stop returned none is running |
| Http.OneResponsePerRequestInOrder | src/CWebsocketServer.cpp:474-604 | in every interleaving one stream operation at a time, responses in request order (section 9.3.2 of RFC 9112) and of the right kind, all requests but the last answered, and the loop never stalls |
| Http.EveryWrapperRepliesOnce | src/CWebsocketServer.cpp:734-766 | a wrapper replies at most once and exactly once when its last reference is gone, also when its handler threw or its job was discarded |
| Http.NextRequestExactlyAfterKeepAlive | src/CWebsocketServer.cpp:585-604 | after a response another request can follow, in some continuation, exactly when it was written, it keeps the connection alive and the server still exists |
| Http.EndIsFinal | src/CWebsocketServer.cpp:483-492 | an ended connection reads and answers nothing more |
| HttpHistory.ResponsesFollowTheRequests | src/CWebsocketServer.cpp:483-562 | in every run response k is a 404, with the request's own keep-alive, exactly when the k-th request had no handler or was a refused upgrade, else the handler's exactly when it called Reply; the accepted jobs are those of the requests with a handler |
| HttpHistory.EndsExactly | src/CWebsocketServer.cpp:483-604 | a connection has ended exactly when a handshake, read or write failed, a response did not keep it alive, an upgrade was allowed, or a request came after the server was gone |
| Http.HttpWrapper.Reply | src/CWebsocketServer.cpp:754-766 | only the first call replies |
| Http.HttpWrapper.Destroy | src/CWebsocketServer.cpp:734-752 | the destructor replies exactly when no reply was sent |
| ClientImpl.OnlyTheNewestSessionIsCurrent | src/CWebsocketClient.cpp:663-713 | in every interleaving mSession is null or the newest session and not failed; every other session failed, had Close called or is about to |
| ClientImpl.ReplacedStaysReplaced | src/CWebsocketClient.cpp:671-706 | a session that is not current never becomes current again, whatever old handlers still run; a failed or closed one stays so |
| ClientImpl.CloseReachesTheCurrentSession | src/CWebsocketClient.cpp:480-488 | a Close or Shutdown call reaches the session current at its lock section: in every continuation it has had Close called or the call still has it in hand |
| ClientImpl.SessionAfterShutdownExactlyOnRace | src/CWebsocketClient.cpp:473-513 | after Shutdown took the session one can appear again exactly when a connect call had already passed its check |
| ClientImpl.Client.DoConnect | src/CWebsocketClient.cpp:671-679 | the lock section closes the session it replaces and installs the new one |
| ClientImpl.Client.OnConnectFailed | src/CWebsocketClient.cpp:693-702 | a failed attempt's handler clears mSession only if it is that session |
| ClientImpl.Client.RunHandler | src/CWebsocketClient.cpp:690-692 | every other handler of a session, current or not, leaves the client's fields alone |
| ClientImpl.Client.GrabSession | src/CWebsocketClient.cpp:480-488 | Close and Shutdown take the session under the lock to close it after |

## Left out

- Sockets, TLS, protocol detection, http parsing, pings, idle timers and timeouts: library behaviour; completions are nondeterministic events.
- CIoPool, ISslContext, the public overloads, the examples: thread plumbing and thin forwarding.
- Logging, error texts and the JSON bodies of error responses.
- The posting of Send and Close to the strand: the model starts where the strand runs them.
- What happens to the buffer of a write in flight after a session emptied its queue on an error: memory management.
- ServerSystem.DeliveredInOrder, ServerSystem.ClosedIsToldOnce, ServerSystem.OpenSessionsAreAttended and the other results on the whole server: every interleaving over streams with sticky failures, which is part of what a step may be there.
- ClientSession.AttemptReportsOnce, ClientSystem.DeliveredInOrder, ClientImpl.OnlyTheNewestSessionIsCurrent: the same for the client.
- ServerSystem.OpenSessionsAreAttended: within a Stop or RemoveClient other than Shutdown's own, the Close calls, the closed and the connection-change callbacks are taken in any order, but for a change after its own closed one: more than the code allows.
- ServerImpl.Server.Broadcast: says which clients are reached, not in which order; the order across clients carries no promise.
- The count a closed notification reports is the current one at that moment; its order across threads carries no promise.
- ServerSystem.DeliveredInOrder: about a client's own strand; the closed callbacks of Stop and RemoveClient run in the calling thread and may come before queued ones.
- Uri callbacks, connection-change counts and binary versus text delivery: posted as other jobs, with no order of their own.
- ServerImpl.Server.AnyClients: clients without a match carry the empty uri and are not counted, so for that uri the answer is no although a broadcast reaches them.
- ServerImpl.Server.NotifyClosed, ServerImpl.Server.OnWsClosed: after a live id was overwritten the count can be ahead of the clients; Registry.IndexAgreesWithScan says by how much.
- WorkQueue.Barrier: for the call that set the flag; a second concurrent Stop, or a Stop on the worker thread, returns without joining.
- Http: the connection object is modelled on values, as it has no fields of its own beyond its outstanding operations; two threads calling Reply on one wrapper at the same instant are taken one after the other.
