# A verified model of the video conference server and its browser connection

The server relays audio and video between the members of a room. Its state is spread over a room with
four maps, one task per broadcast, outgoing tracks that renumber RTP packets, connections with a life
cycle of their own, and join tokens; the browser keeps request tables and lists fed by notifications.
This project models that behaviour in Dafny and proves what it keeps over every run.

Objects that the program updates in place are classes (`Room`, `ClientBroadcast`, `SequencePatcher`,
`SignalingClient`, `RtpServer`, `SignallingConnection`, ...). Each of their methods is proved equal to a
step of a state machine on values, and the theorems are about all runs of those state machines. The
room keeps the history of its steps, and whatever is called its state is the one that history leads to.
A region of code under one lock is one step, one poll of a broadcast's task is one step, and steps of
different tasks interleave freely.

| file | contents |
|---|---|
| `Circular.dfy`, `SequencePatcher.dfy`, `PacketStream.dfy`, `SendLoop.dfy` | renumbering of RTP sequence numbers and timestamps (section 5.1 of RFC 3550), from the arithmetic of one comparison to whole packet streams |
| `Messages.dfy`, `Broadcast.dfy`, `FanOut.dfy` | a broadcast's task and what its subscribers receive |
| `Ascending.dfy`, `RoomState.dfy`, `Room.dfy` | the room as a state machine and as an object |
| `RoomInvariants.dfy`, `RoomOwnership.dfy`, `RoomFanOut.dfy` | what every run of a room keeps, when listed broadcast ids are the client's own, and that each of its broadcasts runs as one on its own |
| `Replica.dfy`, `RoomReplica.dfy`, `RtpConnection.dfy` | the members' copies of the room's state, rebuilt from notifications |
| `SendingTracks.dfy`, `ReceivingTrack.dfy` | reuse of outgoing tracks, replacement of handlers on incoming ones |
| `JoinTokens.dfy`, `SignalingClient.dfy`, `Locks.dfy` | tokens and their sweeper, the life of a connection, the order of locks |
| `Signaling.dfy`, `Sdp.dfy`, `IceCandidates.dfy` | the browser's requests, its change to remote session descriptions, its ICE candidates |

Some of what was proved qualifies what one might expect of the program:

- The gap test of the patcher is exact for gaps up to a quarter of the range and again for gaps so large
  that it never fires; for every gap in between it misjudges some pair (`GapTestExactness`). The program
  uses 80 of 65536 and 10000 of 4294967296, which are well inside.
- Packets that lag by half the gap or more can be sent under a number that was already used
  (`LagBoundIsTight`).
- A broadcast that ends by itself leaves its id in its owner's list. If the id is drawn again by another
  client, the first client can stop that client's broadcast (`StaleIdStopsAnothersBroadcast`). This is
  the only way it can happen (`OwnershipExactness`).
- The browser has no handler for ended broadcasts, so its list is exact until the first one ends and
  never afterwards (`PageIsExactUntilABroadcastEnds`).
- The check for an earlier session looks up client 0, whoever asks: it refuses everybody while client 0 has
  a session, and nobody otherwise (`RefusedExactly`). A client that has a session passes it again
  (`SecondSessionPasses`); the check is right exactly when the asking client and client 0 both have a
  session or both have none (`CheckIsRightExactly`). Client ids are counted up from 1, so 0 comes
  last before they repeat.
- The number of outgoing tracks can exceed the number of subscriptions alive at once, when one is dropped
  while another is being created (`CreationCountsAsDemand`).
- The sixteen bits of a request id are just enough for 65536 live requests: requests and answers are
  matched, however a run goes on short of another request, if and only if no live request falls further
  behind (`MatchingExactness`). With one request more, the first answer is taken for the last request's
  (`WindowIsTight`).

## Model

| member | source | states |
|---|---|---|
| SequencePatching.WrappingDifference | server/src/rtp_server/client_rtp.rs:519-541 | the measured difference is always one of the two arcs; it is the shorter one whenever that fits the window and otherwise exceeds the window; the flag tells exactly whether the arc crosses zero |
| SequencePatching.GapTestExactness | server/src/rtp_server/client_rtp.rs:489-491 | `difference > max_gap` agrees with the circular distance on all pairs if and only if the gap is at most a quarter of the range or too large for the test to fire |
| SequencePatching.SequencePatcher.Process | server/src/rtp_server/client_rtp.rs:487-517 | whichever of its four branches runs, the output moves by the forward arc of the input, or by the gap when the input jumps; the reference becomes the value |
| PacketStream.AdvanceFollows | server/src/rtp_server/client_rtp.rs:489-511 | the patcher starts a new epoch exactly where the source is further than the gap from its predecessor on the circle |
| PacketStream.OutputRefinesPosition | server/src/rtp_server/client_rtp.rs:476-517 | for every stream the wrapped outputs are the residues of a walk on the unbounded integers |
| Circular.ResidueIsRemainder | server/src/rtp_server/client_rtp.rs:494-509 | a residue is a whole number of turns away from its integer, so the wrapping operators compute remainders |
| PacketStream.EpochPreservesDifferences | server/src/rtp_server/client_rtp.rs:498-511 | within an epoch the difference of any two outputs is the difference of their inputs, on the circle and on the integers |
| PacketStream.LaterEpochIsAhead | server/src/rtp_server/client_rtp.rs:491-496 | every output of a later epoch is ahead of every output of an earlier one by at least the gap less twice the lag |
| PacketStream.NoFalseDuplicates | server/src/rtp_server/client_rtp.rs:487-517 | with lag below half the gap and a span below one turn, equal outputs come only from equal inputs of one epoch |
| PacketStream.LagBoundIsTight | server/src/rtp_server/client_rtp.rs:487-517 | for every lag of at least half the gap some stream repeats a number across epochs |
| PacketStream.InputShiftIsInvisible | server/src/rtp_server/client_rtp.rs:486-541 | adding a constant modulo the type to every input changes no output, for streams of any length |
| PacketStream.BaseShiftIsAdded | server/src/rtp_server/client_rtp.rs:480-517 | adding a constant to the initial value adds it to every output |
| PacketStream.FollowStaysClose | server/src/rtp_server/client_rtp.rs:491-511 | consecutive outputs are never further apart on the circle than the gap |
| PacketStream.SecondPatcherOnlyRebases | server/src/rtp_server/client_rtp.rs:487-517 | a second patcher fed by the first never starts an epoch and only adds a constant |
| PacketStream.OutputIsCausal | server/src/rtp_server/client_rtp.rs:487-517 | an output does not depend on later packets |
| SendLoop.Renumber | server/src/rtp_server/client_rtp.rs:685-686 | one more call of a patcher yields the next output of its whole stream |
| SendLoop.Run | server/src/rtp_server/client_rtp.rs:610-698 | every packet that found a binding before the loop ended is written, in order, with that binding's ssrc and payload type and its own rest; the first has the bases, and then sequence numbers (mod 65536) follow the source up to 80 either way and timestamps (mod 4294967296) up to 10000, and move by exactly that much when the source moves further |
| SendLoop.OneMoreReaches | server/src/rtp_server/client_rtp.rs:642-697 | until the loop ends, exactly the packets that find a binding reach the patchers, one each |
| SendLoop.NothingReachesAfterEnd | server/src/rtp_server/client_rtp.rs:663-678 | a shutdown and an RTCP error nobody recovers from end the loop for good |
| Broadcasting.ClientBroadcast.DrainTargets | server/src/rtp_server/room.rs:83-104 | all queued requests are taken, exactly the closed targets are dropped, and a request is passed on exactly when some target asked |
| Broadcasting.ClientBroadcast.ReadSource | server/src/rtp_server/room.rs:111-128 | everything up to the first End or the end of the queue is read, every packet of it reaches every target in order, and it reports the end exactly when an End was met or the channel is closed |
| Broadcasting.ClientBroadcast.Poll | server/src/rtp_server/room.rs:76-132 | the whole new state of a poll, shutdown first |
| Broadcasting.PollTakesRequests | server/src/rtp_server/room.rs:83-109 | after a poll that goes ahead exactly the open targets are left, none with a request queued, and the source was asked once if and only if some request was queued |
| Broadcasting.PollFinishes | server/src/rtp_server/room.rs:79-127 | a poll finishes a broadcast if and only if it was signalled, an End was queued, or its source has closed |
| Broadcasting.MediaOfPackets | server/src/rtp_server/room.rs:120-127 | the packets of a stretch of media are those packets in order, and an End adds none |
| FanOut.ReceivedIsSegment | server/src/rtp_server/room.rs:76-132 | while a target is subscribed it is handed exactly the contiguous segment of source packets read in that time, in order, whatever else is polled, subscribed, dropped or sent |
| FanOut.NothingPastEnd | server/src/rtp_server/room.rs:120-127 | no run reads beyond the first End, and having read it the broadcast is finished |
| FanOut.SilentOnceOver | server/src/rtp_server/room.rs:79-81 | after the end or a shutdown signal no subscribed target receives another packet, and the next poll finishes a signalled broadcast |
| FanOut.OneRequestPerAskedPoll | server/src/rtp_server/room.rs:83-109 | the source gets one key frame request for each poll in which some target asked, however many asked |
| FanOut.RequestsAreNotRepeated | server/src/rtp_server/room.rs:83-109 | however often it is polled, a broadcast asks its source at most once for each time a target asked or arrived asking |
| RoomInvariants.RunIsValid | server/src/rtp_server/room.rs:135-464 | in every reachable state entries and unfinished tasks correspond one to one, an open broadcast is listed by a member that owns it, and no two open broadcasts of a client share kind and name |
| RoomInvariants.RemoveClientSignals | server/src/rtp_server/room.rs:235-256 | after a client is removed every broadcast of its own is signalled, and the room stays in order |
| RoomInvariants.StartResponds | server/src/rtp_server/room.rs:275-376 | not a member, no unused id among the draws, a listed broadcast of the same kind and lower-cased name: each is refused exactly, in this order; any other start gets the first unused draw |
| RoomInvariants.StartOpens | server/src/rtp_server/room.rs:316-335 | a refused start changes nothing; any other adds one open, unsubscribed broadcast with the given source, at the end of the client's list, and touches nothing else |
| RoomInvariants.StopSignals | server/src/rtp_server/room.rs:379-402 | a stop succeeds exactly for a listed id, takes one occurrence off the list and signals the broadcast; any other changes nothing |
| RoomInvariants.SubscribeResponds | server/src/rtp_server/room.rs:404-427 | unknown exactly for an id not in use, refused exactly for a second subscription, both without effect; otherwise only that broadcast's targets change, by the new one |
| RoomInvariants.UnsubscribeResponds | server/src/rtp_server/room.rs:429-452 | unknown exactly for an id not in use; otherwise a success that leaves the client unsubscribed from that broadcast and changes nothing else |
| RoomInvariants.FinaliseRemovesOwnEntry | server/src/rtp_server/room.rs:346-348 | the clean-up of a task removes exactly its own entry and leaves every other as it was, although ids are reused |
| RoomInvariants.RetiresOnce | server/src/rtp_server/room.rs:337-359 | over any continuation of a run a started broadcast stays until it cleans up, cleans up at most once, never comes back, and a signal is never taken back |
| RoomFanOut.StepTakesEffect | server/src/rtp_server/room.rs:404-463 | a step of the room changes each of its broadcasts by that step's own effect and no other broadcast at all: a subscription reaches the broadcast under the given id, a stop or departure signals what it lists |
| RoomFanOut.RunTakesEffect | server/src/rtp_server/room.rs:337-343 | over any stretch of any run a broadcast of the room is in the state that its own history of polls, subscriptions, signals and traffic leads to |
| RoomFanOut.SubscriberReceivesSegment | server/src/rtp_server/room.rs:111-128 | the segment theorem, for every broadcast and every run of a room |
| RoomFanOut.SignalledIsSilent | server/src/rtp_server/room.rs:454-463 | in every run of a room, a signalled broadcast hands no further packet to a target that stays subscribed |
| RoomOwnership.NextKeepsOwnExactly | server/src/rtp_server/room.rs:258-267 | a step breaks "clients list only their own broadcasts" exactly when it starts one on an id that another client still lists |
| RoomOwnership.OwnershipExactness | server/src/rtp_server/room.rs:235-464 | over a whole run that ownership holds if and only if no start draws such an id |
| RoomOwnership.OthersAreUntouched | server/src/rtp_server/room.rs:235-256 | while it holds, neither a stop nor a departure touches another client's broadcasts |
| RoomOwnership.StaleIdStopsAnothersBroadcast | server/src/rtp_server/room.rs:379-402 | a concrete run in which a client stops another client's broadcast through an id left behind |
| Rooms.Room.AddClient | server/src/rtp_server/room.rs:169-233 | the room object makes the joining step: announced to the others, full lists to the newcomer, a member that joins again changes nothing |
| Rooms.Room.RemoveClient | server/src/rtp_server/room.rs:235-256 | the room object makes the leaving step |
| Rooms.Room.GenerateBroadcastId | server/src/rtp_server/room.rs:258-267 | the first unused one of 999 random draws, none if all are used |
| Rooms.Room.ClientBroadcastStart | server/src/rtp_server/room.rs:275-377 | the room object makes the starting step with a new broadcast object; a refused start changes nothing |
| Rooms.Room.ClientBroadcastStop | server/src/rtp_server/room.rs:379-402 | the room object makes the stopping step |
| Rooms.Room.ClientBroadcastSubscribe | server/src/rtp_server/room.rs:404-427 | the room object makes the subscribing step; a second subscription keeps the first |
| Rooms.Room.ClientBroadcastUnsubscribe | server/src/rtp_server/room.rs:429-452 | the room object makes the unsubscribing step |
| Rooms.Room.CleanUpTask | server/src/rtp_server/room.rs:346-358 | the room object makes the clean-up step: entry gone, all members told |
| Rooms.Room.PollTask | server/src/rtp_server/room.rs:338-343 | the task makes the polling step, without the room's lock |
| Rooms.Room.RunningIsInOrder | server/src/rtp_server/room.rs:135-464 | whatever has been called, the object's state is in order and every member in sync |
| Rooms.Serve | server/src/rtp_server/server.rs:475-564 | a new room that serves any sequence of requests takes exactly their steps, in order and less the refused starts, answers each as its step does, and ends in order with every member told all there is to know |
| RoomReplica.NextKeepsSync | server/src/rtp_server/room.rs:169-377 | every step of the room keeps every member's queue telling the room's state |
| RoomReplica.JoiningQueues | server/src/rtp_server/room.rs:169-233 | joining again changes nothing; a newcomer is queued the users and then the broadcasts, every other member its name, and nothing else |
| RoomReplica.NewcomerListsAscend | server/src/rtp_server/room.rs:191-232 | the newcomer's lists hold all members, itself included, and all broadcasts, in the order of their ids |
| RoomReplica.LeavingQueues | server/src/rtp_server/room.rs:235-256 | the members that stay are queued that the client left, and nothing else |
| RoomReplica.StartingQueues | server/src/rtp_server/room.rs:366-374 | every member, the owner included, is queued the new broadcast as it was named; a refused start queues nothing |
| RoomReplica.EndingQueues | server/src/rtp_server/room.rs:346-353 | every member is queued that the broadcast ended, once its task has finished and not before |
| RoomReplica.EveryMemberIsInSync | server/src/rtp_server/room.rs:169-377 | in every reachable state the notifications queued to a member since it joined replay to exactly the room's users and broadcasts, and the browser's lists show each user once and every current broadcast |
| RoomReplica.PageIsExactUntilABroadcastEnds | client/src/backend/rtp-connection/index.ts:144-182 | in every reachable state a member's broadcast list equals the room's if and only if no broadcast has ended since it joined |
| Replica.ShowFollowsApply | client/src/backend/rtp-connection/index.ts:144-182 | each handler keeps the page showing what a replay holds; an ended broadcast leaves one entry behind |
| Replica.PageOneMore | client/src/backend/rtp-connection/index.ts:144-182 | whatever arrives is added at the end of its list, a user that leaves is taken out at its first entry, an ended broadcast stays |
| Replica.BroadcastListExactness | client/src/backend/rtp-connection/index.ts:144-156 | the list shows each current broadcast once and nothing else if and only if nothing is left behind |
| RtpConnections.RtpConnection.OnUserLeft | client/src/backend/rtp-connection/index.ts:173-182 | removes the first entry of the client and nothing else |
| RtpConnections.Receive | client/src/backend/rtp-connection/index.ts:144-182 | the handlers, run over a queue from empty lists, end in the page the replica theorems speak of |
| SendingTracks.TracksAreExclusive | server/src/rtp_server/client_rtp.rs:1223-1259 | in every reachable state tracks with an event handler and live targets correspond one to one |
| SendingTracks.TracksCoverTargets | server/src/rtp_server/client_rtp.rs:1229-1244 | targets never outnumber tracks, and equal them exactly when no track is free |
| SendingTracks.TracksEqualPeakDemand | server/src/rtp_server/client_rtp.rs:1180-1244 | the number of tracks is the greatest number of targets ever alive or being created at once |
| SendingTracks.CreationCountsAsDemand | server/src/rtp_server/client_rtp.rs:1234-1244 | counting only live targets would be wrong: a run with two tracks and never two live targets |
| SendingTracks.RtpClient.TakeFreeTrack | server/src/rtp_server/client_rtp.rs:1229-1232 | takes the first free track, exactly if there is one, and changes no other track's handler |
| SendingTracks.RtpClient.TakeNewTrack | server/src/rtp_server/client_rtp.rs:1237-1258 | adds a track at the end for the target, whatever was dropped since no free one was found |
| SendingTracks.RtpClient.CreateBroadcastTarget | server/src/rtp_server/client_rtp.rs:1223-1259 | the two together when nothing is dropped between them |
| ReceivingTracks.HandlersAreReplacedInOrder | server/src/rtp_server/client_rtp.rs:293-329 | after any order of source creations and drops the handler is the newest source's if that is alive, otherwise none, and every other handler was unmounted exactly once, in the order of creation |
| ReceivingTracks.LateDropIsHarmless | server/src/rtp_server/client_rtp.rs:104-112 | dropping an old source late neither detaches a newer handler nor unmounts anything again |
| ReceivingTracks.RegisteredReceivingTrack.UpdateHandler | server/src/rtp_server/client_rtp.rs:296-314 | the displaced handler is unmounted and the new one installed |
| ReceivingTracks.RegisteredReceivingTrack.RemoveHandler | server/src/rtp_server/client_rtp.rs:316-328 | only the handler that is installed, by identity, is detached and unmounted |
| JoinTokens.SweeperIsUnobservable | server/src/rtp_server/server.rs:183-192 | with a clock that does not run backwards, every run is answered exactly as without its sweeps |
| JoinTokens.TokensAreSingleUse | server/src/rtp_server/server.rs:351-368 | no issued token ever passes the token check twice |
| JoinTokens.OnlyLiveTokensPass | server/src/rtp_server/server.rs:351-368 | a token that passes was issued earlier under that string, for that user and room, and has not expired |
| JoinTokens.LiveTokensPass | server/src/rtp_server/server.rs:344-368 | a token that was issued, has not been spent and has not expired passes, with the user and room it was issued for, unless client 0 has a session, whatever is swept meanwhile |
| JoinTokens.InitializationIsAnswered | server/src/rtp_server/server.rs:344-368 | version 1, then client 0's session, then the token and its age to the instant decide the answer in this order; a token that is looked up is taken off in any case |
| JoinTokens.JoiningIsAnswered | server/src/rtp_server/server.rs:391-418 | a rejected offer, then a room that has gone, are the only reasons not to join |
| JoinTokens.IssuingIsAnswered | server/src/rtp_server/server.rs:213-244 | a token is refused exactly for a room that does not exist, and is otherwise stored as issued |
| JoinTokens.SweepLeavesLive | server/src/rtp_server/server.rs:183-192 | a sweep leaves exactly the tokens that have not expired, as they were |
| JoinTokens.SessionsComeFromTokens | server/src/rtp_server/server.rs:391-418 | a client joins as the user, and into the room, of a token that this client spent before |
| JoinTokens.RegisteredExactly | server/src/rtp_server/server.rs:277-415 | a client is registered with a room if and only if it has joined one and its connection has not been closed since |
| JoinTokens.RefusedExactly | server/src/rtp_server/server.rs:345-356 | an initialisation is refused as a repeated one if and only if its version is supported and client 0 has a session |
| JoinTokens.CheckIsRightExactly | server/src/rtp_server/server.rs:353-356 | refusing coincides with the asking client having a session if and only if it and client 0 both have one or both have none |
| JoinTokens.SecondSessionPasses | server/src/rtp_server/server.rs:351-368 | a concrete run in which a client that has a session passes the check with a second token |
| JoinTokens.RtpServer.DoTick | server/src/rtp_server/server.rs:183-192 | removes exactly the expired tokens |
| JoinTokens.RtpServer.DoCreateJoinToken | server/src/rtp_server/server.rs:213-244 | the whole new state of issuing a token; nothing when the room does not exist |
| JoinTokens.RtpServer.DoCheckToken | server/src/rtp_server/server.rs:344-368 | the order of the checks, and that an expired token is spent too |
| JoinTokens.RtpServer.DoJoin | server/src/rtp_server/server.rs:391-418 | the rest of an initialisation, which may find the room closed |
| SignalingClients.SubscribersAreInformed | server/src/rtp_server/client.rs:262-328 | under any order of disconnects, deferred and direct closes and sends, a subscriber is told closing at most once and before closed, and closed once exactly when the connection is unconnected |
| SignalingClients.FirstSubscriberIsInformed | server/src/rtp_server/client.rs:262-328 | over any run a subscriber that was there from the start has been told nothing, closing, or closing and then closed, as the connection is connected, disconnecting or unconnected |
| SignalingClients.ClosingIsFinal | server/src/rtp_server/client.rs:262-328 | a close ends every connection, and nothing reopens one |
| SignalingClients.TaskAlwaysCloses | server/src/rtp_server/client.rs:284-290 | in every reachable state the task of a disconnecting connection has still to close it, and a task that has ended has closed it |
| SignalingClients.DeferredCloseHappens | server/src/rtp_server/client.rs:284-290 | whatever else happens in between, two actions of its task leave a disconnecting connection unconnected |
| SignalingClients.QueueIsSentThenClose | server/src/rtp_server/client.rs:262-347 | the write queue is what was sent while connected, in order, then at most one Close frame, that of the first effective disconnect |
| SignalingClients.SignalingClient.DisconnectClient | server/src/rtp_server/client.rs:262-298 | the whole new state; nothing unless connected |
| SignalingClients.SignalingClient.CloseClient | server/src/rtp_server/client.rs:302-328 | the whole new state; which of the two calls subscribers still get |
| SignalingClients.SignalingClient.ReadLoop | server/src/rtp_server/client.rs:183-258 | whatever other tasks do meanwhile, what the loop queues are the answers to requests and pings in the order they came, all of them while the connection is connected, then a prefix; a receive error or the end of the stream leaves it not connected |
| SignalingClients.AnswersAreInOrder | server/src/rtp_server/client.rs:222-256 | each request is answered under its own id, each ping with its own payload, and nothing else is answered |
| Signaling.RunIsValid | client/src/backend/rtp-connection/signaling.ts:103-194 | as long as no live request falls 65536 behind, in every state an answered request was answered with the server's answer to that same request, and every unsettled one is pending with its timeout running |
| Signaling.MatchingExactness | client/src/backend/rtp-connection/signaling.ts:112-194 | that holds at every point of a run, whatever follows short of another request, if and only if no live request ever falls 65536 behind |
| Signaling.ResponseSettlesOwn | client/src/backend/rtp-connection/signaling.ts:183-194 | an answer, however late, settles its own request if that is unsettled and touches no other |
| Signaling.CallersGetOwnAnswers | client/src/backend/rtp-connection/signaling.ts:112-142 | within the window, what a caller is told never changes however the run goes on, and an answer is the one the server gave to that same request |
| Signaling.LostSocketClosesAll | client/src/backend/rtp-connection/signaling.ts:148-158 | a lost socket settles exactly the unsettled requests as closed and leaves nothing pending |
| Signaling.TimeoutSettles | client/src/backend/rtp-connection/signaling.ts:130 | a timeout settles its request as timed out if that is unsettled, and changes no other request and nothing in the table |
| Signaling.TimersAreUnsettled | client/src/backend/rtp-connection/signaling.ts:129-141 | within the window timeouts run for exactly the requests that are unsettled |
| Signaling.OutcomesHaveCauses | client/src/backend/rtp-connection/signaling.ts:103-142 | in every run an outcome was settled, when the request was still unsettled, by what it says: its own timeout, a lost socket, or an answer that was received |
| Signaling.WindowIsTight | client/src/backend/rtp-connection/signaling.ts:117 | a run of 65536 unanswered requests stays within the window; in the run with one more, the answer to the first settles the last, which the server has not answered |
| Signaling.SignallingConnection.BeginRequest | client/src/backend/rtp-connection/signaling.ts:112-135 | the whole new state of sending a request, whose id is the lower sixteen bits of the counter; on a socket that is not open nothing changes and the caller is told the connection is closed |
| Signaling.SignallingConnection.OnResponse | client/src/backend/rtp-connection/signaling.ts:183-194 | the whole new state of an answer; an unknown id changes nothing |
| Signaling.SignallingConnection.OnTimeout | client/src/backend/rtp-connection/signaling.ts:130 | the whole new state of a timeout, which settles only an unsettled request and leaves the table alone |
| Signaling.SignallingConnection.EndRequest | client/src/backend/rtp-connection/signaling.ts:137-141 | the whole new state when the caller resumes: whatever has its id is cleared, with its timeout |
| Signaling.SignallingConnection.AbortPendingRequests | client/src/backend/rtp-connection/signaling.ts:103-110 | the loop over the table settles every pending request and stops its timeout |
| Locks.ProgramsAreRanked | server/src/rtp_server/server.rs:132-564 | every task takes locks in rising order: server, room, then client, peer connection or broadcast, then a track's handler, then its binding; the tasks include the loops of incoming and outgoing tracks and the bindings made under the peer connection's lock |
| Locks.InitializingNests | server/src/rtp_server/server.rs:344-416 | initialising a session takes the room and the peer connection under the server, and clients and broadcasts under the room |
| Locks.StartingNests | server/src/rtp_server/client_rtp.rs:296-314 | a start takes the track's handler under the peer connection and the track's binding under that |
| Locks.UnsubscribingNests | server/src/rtp_server/room.rs:429-452 | dropping a subscription takes the track's handler under the broadcast, under the room |
| Locks.RegionsAreDisciplined | server/src/rtp_server/room.rs:147-149 | nested regions whose locks rise unfold into steps that only ever acquire above everything held |
| Locks.NoDeadlock | server/src/rtp_server/server.rs:257-295 | with any number of tasks spawned at any time, in every reachable configuration with an unfinished task some task can move |
| Locks.EveryTaskFinishes | server/src/rtp_server/server.rs:257-564 | with nothing more spawned, however the moves are chosen, they are no more than the steps that were left, and can go on exactly until every task has finished |
| Locks.OppositeOrdersDeadlock | server/src/rtp_server/room.rs:147-149 | the order is needed: two tasks that nest two locks in opposite orders reach, in two moves, a configuration in which both wait for good |
| Sdp.MotifyRemoteSdp | client/src/backend/rtp-connection/rtc.ts:419-430 | the scan over the list it grows ends, in the text with the bandwidth lines inserted |
| Sdp.BandwidthFollowsMedia | client/src/backend/rtp-connection/rtc.ts:421-427 | every media line is followed by the bandwidth line of section 5.8 of RFC 8866, and exactly one line is added for each |
| Sdp.OneMoreLine | client/src/backend/rtp-connection/rtc.ts:421-427 | each line is kept, and followed by `b=AS:512` if and only if it starts with `m=` |
| Sdp.NewlinesSeparate | client/src/backend/rtp-connection/rtc.ts:420 | lines end at newlines and only there |
| Sdp.ModificationIsReversible | client/src/backend/rtp-connection/rtc.ts:419-430 | deleting the line after each media line gives back the lines, and joining them the text |
| Sdp.JoinUndoesSplit | client/src/backend/rtp-connection/rtc.ts:420-429 | splitting into lines and joining is the identity on every text |
| Sdp.SplitUndoesJoin | client/src/backend/rtp-connection/rtc.ts:420-429 | joining and splitting is the identity on every non-empty list of lines |
| IceCandidates.RtcConnection.OnIceCandidate | client/src/backend/rtp-connection/rtc.ts:129-144 | one more candidate is sent or kept exactly when the filter accepts it |
| IceCandidates.OneMoreGathered | client/src/backend/rtp-connection/rtc.ts:129-144 | exactly the non-empty candidates that name no section but line 0 and id "0" count; a leading `candidate:` is stripped and a missing user name fragment is empty |
| IceCandidates.NothingElseGathered | client/src/backend/rtp-connection/rtc.ts:129-133 | no other event adds a candidate |
| IceCandidates.RtcConnection.ApplySignaling | client/src/backend/rtp-connection/rtc.ts:272-275 | attaching the connection loses and repeats nothing |
| IceCandidates.Run | client/src/backend/rtp-connection/rtc.ts:384-397 | for every order of events each accepted candidate is signalled exactly once and in gathering order once a connection is attached, at whichever point that is |

## Left out

- WebRTC peers, ICE, SRTP, the contents of offers and answers, codecs and WebSocket framing: foreign libraries; only the events they deliver are modelled, and adding a track to a peer connection is taken to succeed.
- Scheduling: the runtime's cooperative budget, timers and fairness. Which task acts next is arbitrary, so nothing is said about when a woken task is polled.
- Random broadcast ids, tokens and initial sequence numbers are parameters. Issued tokens are told apart by a counter, so nothing is assumed about equal random strings.
- Each region of code under one lock is one step, except in `Locks`, where every acquire and release is a step of its own and nothing else is modelled; waiting for anything but a lock, such as room in a bounded channel, is not. Initialising a session is two steps, the token check and the joining.
- Broadcasting.ClientBroadcast.ReadSource: does not model the bounded channel between a target and its track, which drops packets when it is full; a packet counts as received when it is handed to the target.
- Broadcasting.ClientBroadcast.Poll: does not model wakers; it may be called at any time.
- Rooms.Room.AddClient: clients are represented by their ids and the messages queued to them; room subscribers, which nothing in the repository registers, are not told that a client joined.
- Rooms.Room.RemoveClient: room subscribers are not told that the client left. As in the program, the leaving client's own subscriptions stay among the targets of other clients' broadcasts.
- Rooms.Room.ClientBroadcastStart: room subscribers are not told that a broadcast started. The client's list is stored when it first grows, not already before the clash test; a list that clashes is not empty, so the two agree.
- Rooms.Room.CleanUpTask: room subscribers are not told that the broadcast ended.
- SignalingClients.SubscribersAreInformed: a subscriber registered after the connection was closed is told nothing; the clean-up that races with registration on accept is not repaired by the model.
- SignalingClients.QueueIsSentThenClose: the write channel is what was put into it; flushing it to the socket, and sends that fail because the writing task has gone, are not modelled.
- Signaling.RunIsValid: assumes that no request lags 65536 behind while it is live; `MatchingExactness` shows that the assumption is exactly what is needed.
- IceCandidates.Run: the end-of-candidates flags, which the program exchanges when it attaches a connection, are only modelled as far as they decide whether a list is sent.
- Lower-casing of broadcast names is the runtime's; a name carries its lower-cased form.
- The kind of a track is ignored on reuse, as in the program; the stream ids of tracks and the binding of a receiving track are not modelled.
- Sending loops: the handling of RTCP packets, and removing a finished track from the peer connection.
- Widths of client, user and room ids, and the precision of JavaScript numbers.
- REST routes, authentication, the database, start-up, the user interface and its store, and the experimental compression of session descriptions: no invariant of their own.
