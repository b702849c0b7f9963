# Verified model of the SkyWay SDK's replicated channel, negotiation and retry logic

The SkyWay SDK keeps a copy of a server-side channel in every client, lets clients exchange media
over peer connections negotiated by signaling messages, and retries whatever a bad network breaks.
This project models those state machines in Dafny and proves what holds in all of their runs.

The modules follow the program:

* **The replicated channel.** `JitterBuffer` turns frames of a versioned log, pushed in any order,
  with duplicates and gaps, back into the log. `Replica` folds the log into `ChannelImpl`'s lists
  (`Entries` holds the list operations), `Mirror` follows with `SkyWayChannelImpl`'s maps, `Rooms`
  projects them to `SfuRoomImpl` and `P2PRoomImpl`; `Histories` and `Records` say, from the log and
  the records alone, what lists, maps and rooms hold; and `Delivery` puts a server log, a lossy,
  duplicating and reordering network, reconnections and replays in front of all of them; `Recovery`
  follows a gap from the expired timer to the server and back, and `Shown` says what rooms show of
  the server's log.
* **P2P negotiation.** `Negotiation` is the transition system of `Sender`, `Receiver` and the two
  links between them; `QueueOrder` is about the order of its queue, and `Peers` holds the two
  classes. `Chunks` and `MessageBuffers` are the
  signaling layers beneath it.
* **Retry and concurrency.** `Rpc`, `PromiseQueues`, `EventEmitter` and `IceRestart`.
* **Codecs.** `Codecs` orders payload types and rewrites fmtp configs, `Fmtp` is the text form of
  codec parameters and its parser, `CodecSwap` is the in-place exchange made for an SFU.
* `Text` (decimal spelling and the string order of JavaScript) and `Util` are shared.

Most modules come in two layers. The state of an object is a datatype, and what its methods do is
a function on that state; the theorems are about all runs of those functions. A class with the
program's own fields then carries out the methods in place, with the program's loops, and every
method is proved to do what its function says. Asynchronous functions are cut into steps at those
`await`s that other work can get between; the order of the steps is free.

`dafny verify dfyconfig.toml` checks everything.

## What the proofs found

Some things one would expect, or that a comment says, do not hold of the code. The model follows
the code; each point is a contract with the exact condition, a concrete run, or both.

* **The offset of a reconnection.** A client resubscribes from the version it received last, not
  from the first one it misses (`packages/rtc-rpc-api-client/src/client.ts:76-77`, `161`). A lost
  event before that version stays lost after the reconnection
  (`Delivery.ReconnectionCanLeaveAGap`, `Delivery.LossIsReachable`); what a replay needs in order
  to catch up is `Delivery.ReplayCatchesUpIff`. The jitter buffer's own recovery always suffices.
* **The lifetime timer.** The early return at
  `packages/rtc-api-client/src/infrastructure/eventObserver.ts:159-160` and a rejected recovery
  leave the handle set (`JitterBuffer.AbandonedWhen`). While frames wait behind a gap that was not
  asked for yet, the timer gets to ask for it exactly if that has not happened
  (`JitterBuffer.RecoversIff`); after it no gap is asked for again (`JitterBuffer.AbandonedForGood`,
  a run is `JitterBuffer.LaterGapNeverRecovered`).
* **The oldest buffered event** is chosen by string order. The frame taken is the oldest one exactly
  if its version is at most the leading digits of every buffered version
  (`JitterBuffer.ArmsForOldestIff`); of 9 and 10 it is 10 (`JitterBuffer.ArmsForTen`). Recovery is
  still asked for real gaps only.
* **Deferred removals.** A removal made while negotiating deletes the publication first, so that
  later it sends no offer. In every run over audio and video that ends quietly without a refusal,
  the receiver knows exactly the sender's publications and those whose removal was deferred, so the
  two sides agree exactly if none was (`Negotiation.ConvergesIff`; a run that ends otherwise is
  `Negotiation.DeferredRemovalLeaks`). Work queued behind such a removal waits with nothing in
  flight (`Negotiation.StallsIff`, a run is `Negotiation.QueuedWorkStalls`) and can be overtaken
  (`QueueOrder.OrderKeptIff`, `QueueOrder.StalledIsOvertaken`), and adding that
  publication again is refused and ends negotiation for good (`Negotiation.AddRefusedIff`,
  `Negotiation.RefusedForGood`).
* **Data m-lines.** An application m-line that has outlived its last data channel makes the
  receiver refuse every further offer that publishes media (`Negotiation.RefusedIff`, a run is
  `Negotiation.DataLineRefuses`).
* **Chunking drops line terminators**: `.` in the splitting pattern does not match them, and JSON
  leaves U+2028 and U+2029 unescaped, so long messages with one arrive changed (`Chunks.RoundTrip`).
* **A `once` listener** is called more than once by an emission exactly if a callback starts another
  emission of the event while the listener is registered, which is before its turn; it is called once
  for each such start (`EventEmitter.CalledOncePerStart`, `EventEmitter.NoneAfterItsTurn`; the runs
  with one nested emission are `EventEmitter.NestedCalls` and `EventEmitter.CalledTwiceIff`).
* **`BackOff`** waits 14.0 s in all with its defaults; the comment at
  `packages/common/src/util.ts:10` counts one wait too many and says 20.4 s
  (`IceRestart.DefaultWaitInAll`). In general the comment's sum is too long by
  `times * times * interval` (`IceRestart.WaitInAll`, `IceRestart.CommentedTotal`).
* **The sender's wait for the signaling service** during an ICE restart goes on after a timeout as
  after a success: the error is replaced by `undefined` at
  `packages/core/src/plugin/internal/person/connection/sender.ts:286-289` before line 291 looks at
  it. Whatever the outcome of the wait, the same pass goes on to its offer
  (`IceRestart.ErrorIsNeverSeen`, `IceRestart.Restarting.SenderPass`).
* **The default `usedtx`** of opus is looked for as text, and only fmtp lines that exist are visited.
  It is missing in the end exactly if there is no opus line or its text contains the word other than
  as that parameter, as in `x-usedtx=1` (`Codecs.OpusHasDtxIff`, `Codecs.OpusMissesDtx`,
  `Codecs.OpusWithoutLine`).
* **fmtp rewriting** leaves out a parameter whose key occurs anywhere in the text written so far,
  be it inside another key or a value (`Fmtp.RoundTripIff`), and `usedtx` is turned into 1 only if
  no falsy parameter comes before it (`Codecs.NormalisedIff`).

## Model

| member | source | states |
|---|---|---|
| JitterBuffer.EmitsTheLog | packages/rtc-api-client/src/infrastructure/eventObserver.ts:94-192 | for every sequence of pushes from a log and of timer and recovery steps, what was emitted is the log from the snapshot up to the first version never pushed, and the buffer is exactly the pushed versions beyond it |
| JitterBuffer.OrderIndependent | packages/rtc-api-client/src/infrastructure/eventObserver.ts:94-131 | two runs that push the same set of versions end with the same output, version and buffer |
| JitterBuffer.CatchesUp | packages/rtc-api-client/src/infrastructure/eventObserver.ts:24-35 | once everything above the present version has been pushed, in any order, nothing is missing and the buffer is empty |
| JitterBuffer.StepSupervised | packages/rtc-api-client/src/infrastructure/eventObserver.ts:133-171 | every step keeps the invariant: a non-empty buffer has the timer handle set, an armed timer waits for a buffered frame, recoveries increase and the loss flag means that the present gap was asked for |
| JitterBuffer.AlwaysSupervised | packages/rtc-api-client/src/infrastructure/eventObserver.ts:118-171 | that invariant in every run |
| JitterBuffer.RecoversFirstGap | packages/rtc-api-client/src/infrastructure/eventObserver.ts:145-164 | a step asks for a recovery exactly when an armed timer expires on a gap that is not open yet; it then asks for the first version never pushed, while a later one is buffered, and never for the same one twice |
| JitterBuffer.OneRecoveryPerGap | packages/rtc-api-client/src/infrastructure/eventObserver.ts:118-128 | between two in-order arrivals at most one recovery is asked for |
| JitterBuffer.TimerRecovers | packages/rtc-api-client/src/infrastructure/eventObserver.ts:133-170 | while frames wait behind a gap and the handle is not stuck, at most two timer steps ask for the first missing version |
| JitterBuffer.RecoversIff | packages/rtc-api-client/src/infrastructure/eventObserver.ts:133-170 | some timer steps lead to the first missing version being asked for, exactly if it has been already or the handle is not stuck |
| JitterBuffer.AbandonedWhen | packages/rtc-api-client/src/infrastructure/eventObserver.ts:145-168 | the timer handle is left set exactly by a rejected recovery or by expiring on a gap that is still open |
| JitterBuffer.AbandonedForGood | packages/rtc-api-client/src/infrastructure/eventObserver.ts:138-160 | from then on no recovery is ever asked for |
| JitterBuffer.LaterGapNeverRecovered | packages/rtc-api-client/src/infrastructure/eventObserver.ts:159-160 | a run of six steps after which a gap waits in the buffer and no recovery of it is ever asked for |
| Text.StringLeqIff | packages/rtc-api-client/src/infrastructure/eventObserver.ts:134-135 | a shorter spelling comes first in string order exactly if its number is at most the leading digits of the other |
| Text.StringLeastIsLeastIff | packages/rtc-api-client/src/infrastructure/eventObserver.ts:134-136 | the key that sorting puts first is the least one exactly if that is at most the leading digits of every key |
| JitterBuffer.ArmsForOldestIff | packages/rtc-api-client/src/infrastructure/eventObserver.ts:134-144 | the timer waits for the oldest buffered frame under exactly that condition |
| JitterBuffer.ArmsForTen | packages/rtc-api-client/src/infrastructure/eventObserver.ts:134-144 | with 9 and 10 buffered it waits for 10 |
| JitterBuffer.EventJitterBuffer.Push | packages/rtc-api-client/src/infrastructure/eventObserver.ts:94-131 | a push does in place what the state function says, for old, early and expected versions |
| JitterBuffer.EventJitterBuffer.ResolveEvents | packages/rtc-api-client/src/infrastructure/eventObserver.ts:173-192 | the loop hands on exactly the contiguous frames, in version order, and deletes them from the buffer |
| JitterBuffer.EventJitterBuffer.HandlePacketLifetime | packages/rtc-api-client/src/infrastructure/eventObserver.ts:133-170 | arms the timer for the frame whose key is least as a string, if no handle is set and something is buffered |
| JitterBuffer.EventJitterBuffer.LifetimeExpired | packages/rtc-api-client/src/infrastructure/eventObserver.ts:144-169 | the three outcomes of the timer callback |
| Entries.DeleteTable | packages/rtc-api-client/src/domain/channel.ts:47-49 | a deletion removes the id and nothing else, as later lookups see it |
| Entries.AddTable | packages/rtc-api-client/src/domain/channel.ts:39-46 | an addition shows only if its id was new |
| Replica.ApplyTables | packages/rtc-api-client/src/domain/channel.ts:149-407 | what every event does to the members, publications and subscriptions as lookups by id see them, and what it announces |
| Replica.ApplyUnique | packages/rtc-api-client/src/domain/channel.ts:39-96 | ids stay unique in all three lists, whatever the log holds |
| Replica.ReferencesKeptIff | packages/rtc-api-client/src/domain/channel.ts:235-407 | every subscription goes on referring to a live publication whose publisher and content type it repeats, exactly if the event does not unpublish something still subscribed |
| Histories.PublishedIff | packages/rtc-api-client/src/domain/channel.ts:54-70 | a publication is in the list exactly if its last publishing or unpublishing in the log is a publishing |
| Histories.PublicationHistory | packages/rtc-api-client/src/domain/channel.ts:276-371 | every publication goes back to the event that introduced it: publisher, origin, content type and encodings are those named there, metadata and enabled flag those of the latest event about them |
| Histories.SubscriptionHistory | packages/rtc-api-client/src/domain/channel.ts:75-91 | every subscription names the publication and subscriber of the event that introduced it, and the publisher and content type its publication had then |
| Histories.MemberHistory | packages/rtc-api-client/src/domain/channel.ts:235-274 | every member has the type it joined with and the metadata of the latest event about them |
| Histories.ChannelHistory | packages/rtc-api-client/src/domain/channel.ts:226-233 | the channel's metadata are those of the latest update, its version that of the last event |
| Replica.ChannelImpl.OnEvent | packages/rtc-api-client/src/domain/channel.ts:149-219 | the dispatching listener changes the fields as the fold step says and announces what it says |
| Replica.ChannelImpl.AddSubscription | packages/rtc-api-client/src/domain/channel.ts:75-91 | an existing subscription, a new one for a known publication, or the error for an unknown one |
| Mirror.FollowSynced | packages/core/src/channel/index.ts:194-239 | after every event of any log the maps hold the ids of the lists, with the same kinds, content types and publications |
| Mirror.LoadSynced | packages/core/src/channel/index.ts:325-335 | a channel whose references hold loads without an exception and in sync |
| Mirror.OriginResolvedIff | packages/core/src/publication/factory.ts:29-45 | the origin that a publication names is resolved exactly if that publication is present, and it then supplies missing encodings |
| Mirror.OriginsKeptIff | packages/core/src/publication/factory.ts:29-32 | the mirror's publications keep the origins that their records name, exactly if the event does not publish a relay of something absent |
| Records.DescribedKept | packages/core/src/subscription/factory.ts:7-26 | an event in order keeps every object what its record says: publisher, origin with its publisher, encodings, content type, and for a subscription the kind of the member it names |
| Records.LoadDescribed | packages/core/src/channel/index.ts:325-335 | so does the initial load of a channel whose members are present and whose origins come before their relays |
| Mirror.SkyWayChannelImpl.constructor | packages/core/src/channel/index.ts:325-335 | the three loading loops build that mirror |
| Mirror.SkyWayChannelImpl.HandleNotice | packages/core/src/channel/index.ts:399-490 | the listeners change the maps and emit as the state function says, including the cases in which the entry is missing |
| Rooms.NoticeShownIff | packages/room/src/room/sfu.ts:107-203 | a room that shows its mirror still shows it after a notice, exactly if the notice does not end a shown subscription whose publication is gone; for both kinds of room |
| Rooms.ShowsIff | packages/room/src/room/p2p.ts:79-153 | the same for every event that names present entities; insertion and removal filters agree |
| Rooms.NothingDangles | packages/room/src/room/sfu.ts:194-203 | that exception cannot occur while the channel's references hold |
| Rooms.RoomsShowTheChannel | packages/room/src/room/sfu.ts:56-203 | after every well-ordered log an SFU room shows exactly the members that are not bots, the relayed publications and the subscriptions of members that are not bots, a P2P room shows everything, and lists, maps and references agree |
| Rooms.SfuShowsRelays | packages/room/src/room/sfu.ts:132-152 | after a well-ordered log in which an origin comes before its relay, an SFU room shows exactly the publications whose record in the channel names an origin |
| Records.RoomsShowTheRecords | packages/room/src/room/sfu.ts:107-203 | after every log in order, told from the channel's records alone: an SFU room shows the members that are not bots, the relays with the publisher of their origin, and the subscriptions of members that are not bots; a P2P room shows all of them |
| Rooms.RoomImpl.constructor | packages/room/src/room/sfu.ts:56-77 | the initial loops of either room produce exactly its view of the channel |
| Rooms.RoomImpl.HandleSignal | packages/room/src/room/p2p.ts:79-153 | the listeners of either room change its maps as the state function says |
| Delivery.StepInv | packages/rtc-rpc-api-client/src/client.ts:72-167 | appends, deliveries, duplicates, drops, reconnections that add a notify listener, replays and timer steps all keep the pipeline's invariant |
| Delivery.CopiesDetermined | packages/rtc-rpc-api-client/src/rpc.ts:71-75 | however many notify listeners have accumulated, a notification counts once |
| Delivery.ReplicaIsFoldedLog | packages/rtc-api-client/src/infrastructure/eventObserver.ts:52-61 | in every run the channel equals the snapshot folded over the server's log up to the channel's own version |
| Delivery.RoomsShowTheReplica | packages/rtc-api-client/src/domain/channel.ts:149-219 | in every run over a well-ordered log the maps and both rooms agree with the replica |
| Shown.RoomsShowTheLog | packages/room/src/room/p2p.ts:79-153 | in every run over a log in order both rooms show the records of the server's log up to the channel's version |
| Recovery.TimerAsksIff | packages/rtc-api-client/src/infrastructure/eventObserver.ts:26-33 | an expiring timer asks the server for the first version never received, exactly if it is due, and otherwise for nothing |
| Recovery.GapIsAskedFor | packages/rtc-api-client/src/infrastructure/eventObserver.ts:133-170 | while frames wait behind a gap not asked for yet and the handle is not stuck, at most two timer steps ask the server for it |
| Recovery.GapIsRecovered | packages/rtc-api-client/src/infrastructure/eventObserver.ts:26-33 | from every such reachable connected world: those timer steps, the server's answer and the arrival of everything in any order bring the replica to the latest version |
| Recovery.ReconnectionCatchesUpIff | packages/rtc-rpc-api-client/src/client.ts:157-167 | a reconnection asks from the version received last or from 0, and once that has arrived nothing is missing exactly if nothing before it was |
| Delivery.ReplayCatchesUpIff | packages/rtc-rpc-api-client/src/client.ts:157-167 | after a replay from an offset has arrived in any order, the replica is at the latest version with an empty buffer exactly if nothing before the offset is missing |
| Delivery.RecoveryCatchesUp | packages/rtc-api-client/src/infrastructure/eventObserver.ts:26-33 | a recovery, once served, always brings the replica to the latest version |
| Delivery.ReconnectionCanLeaveAGap | packages/rtc-rpc-api-client/src/client.ts:158-165 | after an early loss the replay that a reconnection asks for leaves the replica behind |
| Delivery.LossIsReachable | packages/rtc-rpc-api-client/src/client.ts:76-77 | such a loss can happen to any client |
| Negotiation.StepExclusive | packages/core/src/plugin/internal/person/connection/sender.ts:421-432 | every step keeps: at most one offer unanswered, the flag set exactly during a negotiation (or after a refusal), and both signaling states those their place calls for |
| Negotiation.StepAgreed | packages/core/src/plugin/internal/person/connection/receiver.ts:399-504 | every step keeps: the receiver's record, with the one operation still on its way, is what the sender offers |
| Negotiation.OneNegotiation | packages/core/src/plugin/internal/person/connection/sender.ts:662-671 | in every reachable state one negotiation at most; the receiver is stable when it takes up a message and the sender has its offer out when it applies an answer (section 4 of RFC 3264, section 3.2 of RFC 8829) |
| Negotiation.ReceiverKnowsWhatIsOffered | packages/core/src/plugin/internal/person/connection/receiver.ts:443-448 | between negotiations the receiver records exactly the sender's tracks and data channels, with their mids |
| Negotiation.LinedIff | packages/core/src/plugin/internal/person/connection/sender.ts:488-500 | a step keeps the m-lines those of the tracks, exactly if it does not add media that still has a track |
| Negotiation.RefusedIff | packages/core/src/plugin/internal/person/connection/receiver.ts:357-388 | the receiver refuses a message exactly if it publishes while some live m-line belongs to no track and no data channel |
| Negotiation.RefusedIffLined | packages/core/src/plugin/internal/person/connection/receiver.ts:361-368 | with orderly m-lines that is exactly an application m-line without a data channel |
| Negotiation.DataLineRefuses | packages/core/src/plugin/internal/person/connection/receiver.ts:361-368 | a run from the start: a data channel is added and removed, and the media added next is refused |
| Negotiation.RefusedForGood | packages/core/src/plugin/internal/person/connection/receiver.ts:368-386 | after a refusal the sender stays negotiating and nothing ever starts again |
| Negotiation.TameRunsStayTame | packages/core/src/plugin/internal/person/connection/sender.ts:854-865 | over media, without deferred removals, removals of queued additions or additions of what is known already: nothing is refused, queued work has a negotiation ahead of it, and requests start in order |
| Negotiation.QuietMeansConverged | packages/core/src/plugin/internal/person/connection/receiver.ts:443-501 | with nothing in flight the receiver's record has exactly the sender's publications and every request was served, in order |
| Negotiation.OneWayOn | packages/core/src/plugin/internal/person/connection/sender.ts:778-820 | while a negotiation is under way exactly one step moves it on, which is possible unless an earlier handler still awaits its sending and can return |
| Negotiation.MeasureFalls | packages/core/src/plugin/internal/person/connection/sender.ts:812-813 | every such step lowers the measure over the queue and the negotiation in flight |
| Negotiation.Drains | packages/core/src/plugin/internal/person/connection/sender.ts:854-865 | the queue can always be drained, in as many steps as the measure says |
| Negotiation.RunsAreBounded | packages/core/src/plugin/internal/person/connection/sender.ts:854-865 | no run without new calls is longer than the measure |
| Negotiation.StallsIff | packages/core/src/plugin/internal/person/connection/sender.ts:641-654 | a finished negotiation leaves queued work with nothing in flight exactly if it dequeues the removal of a publication that is gone |
| Negotiation.QueuedWorkStalls | packages/core/src/plugin/internal/person/connection/sender.ts:641-670 | from any quiet state without leaks, an addition, a removal and another addition lead to a quiet state in which the last one is still queued |
| QueueOrder.FirstInFirstOut | packages/core/src/plugin/internal/person/connection/sender.ts:423-423 | in every run, deferred removals and data channels included, what was taken out of the queue and what is still in it is what was put in, in that order |
| QueueOrder.OrderKeptIff | packages/core/src/plugin/internal/person/connection/sender.ts:854-865 | a step keeps the requests in the order they were made, exactly if it is not a call that overtakes a stalled queue |
| QueueOrder.TakenInOrder | packages/core/src/plugin/internal/person/connection/sender.ts:854-865 | in every run without such a call, requests are taken up in the order they were made |
| QueueOrder.StalledIsOvertaken | packages/core/src/plugin/internal/person/connection/sender.ts:421-432 | from a stalled queue the next call starts ahead of what waits |
| QueueOrder.QueuedAdditionFirst | packages/core/src/plugin/internal/person/connection/sender.ts:662-671 | a removal deferred behind a queued addition is dequeued after that addition's negotiation has started |
| QueueOrder.RequestsAreServed | packages/core/src/plugin/internal/person/connection/sender.ts:421-746 | in every quiet state of such a run both sides have what carrying out all requests in order leaves |
| Negotiation.StepAccounts | packages/core/src/plugin/internal/person/connection/sender.ts:641-699 | every step of a media run either retracks, and then the offer will be refused, or changes the publications that have a track but are gone by exactly the removal it defers |
| Negotiation.ConvergesIff | packages/core/src/plugin/internal/person/connection/sender.ts:641-699 | in every media run that ends quietly: refused exactly if media was added that still had a track, and otherwise the receiver knows exactly the sender's publications and the deferred removals, and the two agree exactly if there are none |
| Negotiation.CarefulIsNotRefused | packages/core/src/plugin/internal/person/connection/receiver.ts:357-388 | media runs whose additions have no track and are not queued are never refused |
| Negotiation.DeferredRemovalLeaks | packages/core/src/plugin/internal/person/connection/sender.ts:641-670 | a run that ends without agreement: from any quiet state, a removal behind an addition leads to a quiet state in which track and record outlive the publication |
| Negotiation.AddRefusedIff | packages/core/src/plugin/internal/person/connection/sender.ts:488-500 | media added in a quiet state is refused exactly if it still has a track or an application m-line has outlived its last channel |
| Peers.Sender.Add | packages/core/src/plugin/internal/person/connection/sender.ts:421-501 | queued while busy, otherwise a negotiation starts, for media and for data |
| Peers.Sender.Remove | packages/core/src/plugin/internal/person/connection/sender.ts:641-699 | ignored if unknown; deleted, then queued while busy, otherwise a negotiation starts |
| Peers.Sender.FinishAnswer | packages/core/src/plugin/internal/person/connection/sender.ts:809-865 | clears the flag and starts the first queued entry |
| Peers.Receiver.Handle | packages/core/src/plugin/internal/person/connection/receiver.ts:399-504 | waits for the stable state, records, validates a publishing offer and goes on to answer |
| Peers.Receiver.ValidateRemoteOffer | packages/core/src/plugin/internal/person/connection/receiver.ts:357-388 | accepts exactly if every live m-line has a recorded publication |
| Chunks.JoinSplit | packages/core/src/external/signaling.ts:205-206 | splitting and joining drops the line terminators and nothing else |
| Chunks.ChunkedIsNotWhole | packages/core/src/external/signaling.ts:205-216 | a long payload without a line terminator is never sent in the length-0 form |
| Chunks.Reassembles | packages/core/src/external/signaling.ts:95-119 | under any interleaving that keeps each message's order, a message is emitted exactly once, with its last chunk, and the buffer holds exactly the chunks of unfinished messages |
| Chunks.RoundTrip | packages/core/src/external/signaling.ts:194-232 | when all has arrived nothing is buffered, and a message is intact exactly if it was short or has no line terminator |
| Chunks.SignalingSession.Send | packages/core/src/external/signaling.ts:194-232 | the loop over the split hands on exactly the encoded chunks |
| Chunks.SignalingSession.OnRequested | packages/core/src/external/signaling.ts:95-119 | the listener's effect on its buffer and its emissions |
| MessageBuffers.KeyInjective | packages/core/src/plugin/internal/person/connection/messageBuffer.ts:27-27 | the concatenated keys tell the members of a channel apart |
| MessageBuffers.Replay | packages/core/src/plugin/internal/person/connection/messageBuffer.ts:41-54 | replaying hands the held messages to the new connection in order while each is pushed back onto the list being walked |
| MessageBuffers.EveryEndpointSorted | packages/core/src/plugin/internal/person/connection/messageBuffer.ts:24-54 | at every moment each endpoint's buffer and connection are what that endpoint's own actions alone determine |
| MessageBuffers.FirstConnectionSeesAll | packages/core/src/plugin/internal/person/member.ts:158-169 | a first connection sees every message from its endpoint once and in arrival order, those from before its creation first |
| MessageBuffers.LaterConnectionMisses | packages/core/src/plugin/internal/person/connection/messageBuffer.ts:29-31 | after a first connection closed, what arrives before the next one reaches neither |
| MessageBuffers.MessageBuffer.ResolveMessagingBuffer | packages/core/src/plugin/internal/person/connection/messageBuffer.ts:41-54 | the loop over the growing list ends with that effect |
| Rpc.StepInv | packages/rtc-rpc-api-client/src/rpc.ts:170-331 | every step keeps, for every request, the account of how often it was sent, queued and is listening |
| Rpc.AnswerCompletes | packages/rtc-rpc-api-client/src/rpc.ts:195-196 | a message with the id of a waiting request makes exactly that request done with that response; any other message changes nothing |
| Rpc.AnsweredForGood | packages/rtc-rpc-api-client/src/rpc.ts:275-328 | an answered request keeps its response and has been sent or queued once in all later states, or twice exactly if a disconnection had queued it before |
| Rpc.DoneStays | packages/rtc-rpc-api-client/src/rpc.ts:275-328 | a request that is done keeps its outcome and is not sent or queued again |
| Rpc.NewRequest | packages/rtc-rpc-api-client/src/rpc.ts:174-184 | a new request fails if closed, is sent at once if connected, and during a reconnection is sent by its success |
| Rpc.InFlightIsResent | packages/rtc-rpc-api-client/src/rpc.ts:277-291 | a request in flight at a disconnection waits on and is sent once more by the next reconnection |
| Rpc.CloseFails | packages/rtc-rpc-api-client/src/rpc.ts:316-326 | closing fails the requests that were sent; one queued at once goes on waiting |
| Rpc.GivesUpIff | packages/rtc-rpc-api-client/src/client.ts:104-136 | after a disconnection the client gives up exactly with the eighth failed attempt in a row |
| Rpc.GivingUpFails | packages/rtc-rpc-api-client/src/client.ts:105-119 | giving up fails whatever still waits |
| Rpc.SentAtMostTwice | packages/rtc-rpc-api-client/src/rpc.ts:218-331 | over any disconnections a request is sent at most twice, and a response carries its own id |
| Rpc.SentOnceIfDeferred | packages/rtc-rpc-api-client/src/rpc.ts:329-331 | a request made during a reconnection is, in every later state, either sent once or queued once, also after it has completed |
| Rpc.FlushedByNextReconnection | packages/rtc-rpc-api-client/src/rpc.ts:121-127 | the next successful reconnection sends all that was queued, in order, each once, and empties the queue |
| Rpc.RPC.RequeueInFlight | packages/rtc-rpc-api-client/src/rpc.ts:277-285 | a disconnection queues exactly the requests in flight, in the order in which they began to listen |
| Rpc.RPC.ResolvePendingRequests | packages/rtc-rpc-api-client/src/rpc.ts:121-127 | the loop sends the queue in order and empties it |
| Rpc.RPC.HandleMessage | packages/rtc-rpc-api-client/src/rpc.ts:190-216 | the waiting request's phase becomes done with that response, and no other changes |
| PromiseQueues.StepInv | packages/common/src/promise.ts:15-44 | pushes, also from within tasks, and settlements keep: one task at most, started in push order, no idle queue |
| PromiseQueues.OneAtATimeInOrder | packages/common/src/promise.ts:15-44 | that in every interleaving |
| PromiseQueues.FailureBlocksNothing | packages/common/src/promise.ts:31-40 | settling a task, with either result, tells its own caller once and starts the next |
| PromiseQueues.PromiseQueue.Settle | packages/common/src/promise.ts:25-44 | what the rest of `run` does to the queue's fields |
| EventEmitter.VisitsWholeArray | packages/common/src/event.ts:18-26 | a walk visits the array it started with up to its end, as it is extended meanwhile, whatever the callbacks do, nested emissions included |
| EventEmitter.CallsEveryListenerOnce | packages/common/src/event.ts:18-58 | an emission itself visits every listener present at its start exactly once, in registration order, before any other, nested emissions or not |
| EventEmitter.FlatEmission | packages/common/src/event.ts:18-58 | without nested emissions the calls recorded are those visits, so every listener present at the start is called, in order |
| EventEmitter.CalledOncePerStart | packages/common/src/event.ts:18-67 | whatever the callbacks do, a registered listener is called once for the emission and once for every nested one that starts while it is registered |
| EventEmitter.NoneAfterItsTurn | packages/common/src/event.ts:47-66 | from the turn of a `once` listener on there is no such start |
| EventEmitter.AddedIsCalled | packages/common/src/event.ts:42-67 | of two emissions with callbacks that do nothing, the first calls a listener just added and the second does exactly if it was not added by `once` |
| EventEmitter.RemovedIsNotCalled | packages/common/src/event.ts:29-49 | a removed listener is not called by anything that starts after its removal, nor any after all are removed |
| EventEmitter.OnceRunsOnce | packages/common/src/event.ts:61-67 | without nested emissions a `once` callback is called at most once |
| EventEmitter.NestedCalls | packages/common/src/event.ts:18-67 | if the callback at one position emits, for any array and any position: all calls, in order |
| EventEmitter.CalledTwiceIff | packages/common/src/event.ts:47-67 | a `once` listener is then called twice exactly if it comes after that position, and else once |
| EventEmitter.Event.EmitEvent | packages/common/src/event.ts:18-26 | the loop, re-entered from callbacks, has the effect of the state function |
| IceRestart.SquareSumClosed | packages/common/src/util.ts:29-34 | the closed form (n-1)n(2n-1)/6 of the waits |
| IceRestart.UpdateUntilExceeded | packages/core/src/external/signaling.ts:135-160 | waiting until exceeded takes the sum of the squares below `times`, times the interval at least and times interval plus jitter at most |
| IceRestart.WaitInAll | packages/common/src/util.ts:18-38 | without jitter it takes exactly that, for every `times` and interval |
| IceRestart.TotalInClosedForm | packages/common/src/util.ts:29-34 | that total is the interval times (n-1)n(2n-1)/6 |
| IceRestart.CommentedTotal | packages/common/src/util.ts:10-10 | the comment's sum is longer by times * times * interval |
| IceRestart.DefaultWaitInAll | packages/common/src/util.ts:4-10 | with the defaults 14.0 s, where the comment says 20.4 s |
| IceRestart.BackOff.Wait | packages/common/src/util.ts:18-38 | waits unless exceeded; the time waited is within what the counts account for |
| IceRestart.Restarting.SfuRestartIce | packages/sfu-bot/src/connection/transport/transport.ts:205-315 | terminates; nested calls together stay within one budget of guard passes and time; unless found connected it ends disconnected |
| IceRestart.Restarting.MediasoupRestartIce | packages/sfu-bot/src/connection/transport/transport.ts:318-340 | keeps within the same budget although a failure restarts from within a restart, and that restart runs to its end |
| IceRestart.Restarting.SenderPass | packages/core/src/plugin/internal/person/connection/sender.ts:174-346 | one pass: whatever the wait for the signaling service came to, a pass that nothing ends and whose update succeeded makes its offer with one guard pass |
| IceRestart.ErrorIsNeverSeen | packages/core/src/plugin/internal/person/connection/sender.ts:286-294 | a rejected wait is caught as an error, and no outcome is one when line 291 looks |
| IceRestart.Restarting.SenderRestartIce | packages/core/src/plugin/internal/person/connection/sender.ts:174-349 | the same as for the transport, for the P2P sender |
| IceRestart.RestartOnce | packages/sfu-bot/src/connection/transport/transport.ts:205-340 | for either of them, while never found connected: at most 8 passes and exactly 8 unless the other side leaves, at most 140 times interval plus jitter, disconnected at the end; each time found connected allows as much again |
| Codecs.SortedPayloads | packages/core/src/plugin/internal/person/connection/sender.ts:945-955 | the list has exactly the m-line's payload types; the matched ones first, the others in their old order |
| Codecs.PreferredInOrder | packages/core/src/plugin/internal/person/connection/sender.ts:945-947 | the matched ones come in the order of the capabilities that match them, none left out |
| Codecs.PermutationIff | packages/core/src/plugin/internal/person/connection/sender.ts:949-954 | it is a permutation exactly if no two capabilities match the same payload type |
| Codecs.Find | packages/core/src/plugin/internal/person/connection/sender.ts:911-943 | finds a codec that matches, or there is none |
| Codecs.MatchesWhen | packages/core/src/plugin/internal/person/connection/sender.ts:924-941 | a capability for audio or without parameters matches by name alone; one for video with parameters does not match a line that reads differently in any of them |
| Codecs.FirstCapability | packages/core/src/plugin/internal/person/connection/sender.ts:964-967 | of several capabilities the first that matches applies |
| Codecs.NormalisedIff | packages/core/src/plugin/internal/person/connection/sender.ts:897-908 | a parameter becomes 1 exactly if it is a true `usedtx` with no falsy parameter before it |
| Codecs.EachLineAlone | packages/core/src/plugin/internal/person/connection/sender.ts:957-1008 | with one line for each payload type the outcome of a line does not depend on the lines rewritten before it |
| Codecs.ReadsAsCapabilityIff | packages/core/src/plugin/internal/person/connection/sender.ts:964-1007 | a rewritten line, the opus line included, reads as the capability's parameters that are not false, with `usedtx` at 1 where that is appended, exactly if none is shadowed |
| Codecs.VideoKeepsMeaningIff | packages/core/src/plugin/internal/person/connection/sender.ts:929-941 | a matched video line reads the same before and after, exactly if none is shadowed and nothing is appended |
| Codecs.OpusHasDtxIff | packages/core/src/plugin/internal/person/connection/sender.ts:957-1007 | unless set to false, opus is read as having `usedtx` (section 6.1 of RFC 7587), exactly if it has an fmtp line whose base text does not contain the word or does so as that parameter |
| Codecs.OpusMissesDtx | packages/core/src/plugin/internal/person/connection/sender.ts:991-1007 | the line `x-usedtx=1` ends up without it |
| Codecs.OpusWithoutLine | packages/core/src/plugin/internal/person/connection/sender.ts:957-1007 | without an fmtp line for opus none is added |
| Codecs.OpusHasNoDtx | packages/core/src/plugin/internal/person/connection/sender.ts:991-1000 | if it was set to false, the opus line does not set it |
| Codecs.Media.ApplyCodecCapabilities | packages/core/src/plugin/internal/person/connection/sender.ts:879-1011 | capabilities, fmtp lines and payload types are changed in place to exactly those |
| Codecs.WriteConfig | packages/core/src/plugin/internal/person/connection/sender.ts:975-987 | the loop over the parameters writes that text |
| Fmtp.ParseWrite | packages/core/src/util.ts:309-324 | parsing a written config yields exactly the parameters that were written |
| Fmtp.WrittenIsKeptIff | packages/core/src/plugin/internal/person/connection/sender.ts:975-987 | all parameters that are not false were written, exactly if no key occurs in the text before it |
| Fmtp.RoundTripIff | packages/core/src/util.ts:309-324 | parsing gives back all of them under exactly that condition |
| Fmtp.IncludesIff | packages/core/src/plugin/internal/person/connection/sender.ts:977-977 | a text includes a part exactly if that is a slice of it |
| Fmtp.ReadsPiece | packages/core/src/util.ts:316-322 | a part without `=` reads as undefined, what follows a second one is dropped, and a part without a key is ignored |
| CodecSwap.PayloadTypesStay | packages/sfu-bot/src/connection/sender.ts:555-566 | payload types and property names stay in place, and other entries are untouched |
| CodecSwap.ExchangedIff | packages/sfu-bot/src/connection/sender.ts:555-578 | everything else is exchanged between head and target, exactly if they have the same properties |
| CodecSwap.MatchesWhen | packages/sfu-bot/src/connection/sender.ts:542-553 | when an entry is the wanted one: its MIME type, and its parameters if some are wanted |
| CodecSwap.HeadMatchesIff | packages/sfu-bot/src/connection/sender.ts:542-553 | the head matches in the end, exactly if it had the properties that are looked at |
| CodecSwap.Idempotent | packages/sfu-bot/src/connection/sender.ts:568-578 | doing it again changes nothing |
| CodecSwap.FixVideoCodecWithParametersOrder | packages/sfu-bot/src/connection/sender.ts:537-586 | the objects end up with those contents, head and target share no property value but the payload type, and no other entry is touched |

## Left out

* Sending failures, ICE candidates, closing, and ICE restarts during negotiation: a restart offers without taking `_isNegotiating`, so it is treated only for termination.
* `add` of a publication that has no stream, which throws with `_isNegotiating` set.
- Negotiation.TameRunsStayTame: states convergence for audio and video only, because a data m-line outlives its last channel and is then refused; `RefusedIff` gives the exact condition for both.
- Negotiation.ConvergesIff: the same; a data channel whose removal was deferred can be offered again, and is then no longer lost.
* The `await`s after which only logging or candidates follow are part of the step before them.
* The receiver's message queue and the sending link are one first-in first-out sequence; that the queue runs one handler at a time in order is proved in `PromiseQueues`.
* SDP is the set of mids of the m-lines that are not inactive. The attributes of an answer and encodings are not modelled.
- IceRestart.RestartOnce: how often the connection will be found connected is a number fixed beforehand, any number; the offers that a restart makes and sends are not modelled.
- IceRestart.BackOff.Wait: numbers are reals; rounding is not modelled.
* The server is an append-only log. Its order of events (publish before subscribe, unsubscribe before unpublish, origins around their relays, members around their subscriptions) is an assumption where a lemma says `WellOrdered`, `NamesPresent`, `OriginsFirst` or `LogInOrder`.
* Exclusivity of the client's `_reconnect` loop: a disconnection during resubscription can start a second one, and nothing is claimed about that.
* Listeners of `onEvent` that push frames back into the jitter buffer, and `dispose`.
* Events that only announce, such as the lists' change notifications, beyond the notices that the mirror and the rooms listen to.
* The codec capabilities and channel id of a publication's record.
* List elements of `ChannelImpl` are values: an update that assigns to a field of a found element is a new element in the same place.
* The objects that `SkyWayChannelImpl` and the rooms keep are reduced to the fields that lookups and filters read; local additions made by `publish` and `subscribe` themselves, outside events, are not modelled.
* The upper and lower case of member and content types, and unknown plugin subtypes.
* JSON text, the numbers of JavaScript (their conversions are parameters of `Fmtp` and `Codecs`, with a witness) and the randomness of jitter (chosen freely).
* Message and request ids are taken to be different from each other.
* That chunks fit the transport's limit: a full chunk inside a client event exceeds it.
* The lookup of the m-line by mid in `applyCodecCapabilities`, with its error, and MIME types without a slash.
* The second parameter list of `_fixVideoCodecWithParametersOrder`, treated by the same code; values are shared by their top-level object.
- CodecSwap.FixVideoCodecWithParametersOrder: asks for a list of different entry objects, as the handler builds it.
* React components, media devices, token schemas, logging, analytics, sockets and their timers.
