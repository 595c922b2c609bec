# Full-mesh WebRTC signalling: a verified model

The signalling crate of just-webrtc lets any number of peers find each other through one server and
set up one WebRTC connection per pair. The server keeps a registry of peers, an overflowing broadcast
ring of registry changes, and two bounded channels per peer. Each client keeps an unordered set of
pending tasks and reacts to whichever completes. The example peer adds a map through which five
callbacks hand connections to each other. Offers and answers (section 4 of RFC 3264) are opaque.

This project models that protocol and proves what it is for: every pair of peers gets connected once,
nothing is lost, duplicated or crossed, and the system always comes to rest.

## How the model is built

- The objects of the program are classes whose methods do what the code does, branch by branch:
  `SignallingServer.Signalling` (registry, ID counter, ring, channels, all eight RPC handlers),
  `SignallingPeer.RtcSignallingPeer` (`step`, its loop over peer changes, the listener tasks, `close`)
  with `StartPeer`, `Channels.SignalChannel`, `Broadcast.BroadcastRing`,
  `Broadcast.PeerListenerStream`, `ConnectionMap.PeerConnectionMap` and `ExamplePeer.Callbacks` (the
  example peer's five callbacks over that map). Every method is proved against
  a specification function on values (`Server.Admit`, `Evict`, `OpenListener`, `Send`; `Client.Step`;
  `Channels.Push`; `Broadcast.Pump`; `ConnectionMap.Insert`, `Take`, `Place`), and also states its
  outcome outright, without that function: what the registry, the log and the channels are afterwards,
  which code a refusal has, which tasks are queued. `StepContract` tells the outcome of `step`.
- `System` puts one server, any number of clients and the streams between them together, from those
  same functions, as a transition system. One event is one request handled, one broadcast taken by a
  stream, one message forwarded, one completed task, one connection taken out of the map, one client
  stopping, or one stream dropped. Which event comes next is free, so the unordered set of tasks may
  return any ready task. A discovery request inside `step` is two events, since other requests can be
  handled before its reply arrives. A run (`System.IsRun`) is any sequence of possible events.
  `Refinement` proves that the events are the steps of the client class and the server's requests.
- States carry history that the program does not keep: the whole broadcast log, everything a channel
  ever accepted, the changes a client applied, the offers and answers its callbacks made, the
  completions, and the stage that the signalling chain of each ordered pair has reached.
- `LockScopes` is a second, finer model in which the server's handlers are cut at their lock scopes;
  `LockRaces` says which of its races leave a trace, and `LockUninterrupted` that a request whose
  lock scopes run without another in between is the atomic handler.
- Main results quantify over all runs, all states of a run and all peers. Their proofs are invariants:
  `Registry` and `Discovery` (registry, log, streams), `Chains` (each pending task and each signal in
  a channel belongs to one stage of one chain), `Connections` and `Crossing` (the map), `Liveness`
  (listener tasks), `Stopping` (what ends a client), `Coverage` and `CalmRuns` (refusals), `Limits`
  (how much the ring and the channels hold). `Runs`, `Startups`, `Lagging`, `Crowding` and
  `Overlapping` build runs that show a limit to be reached.

Assumed of libraries, by construction of the model: a new broadcast receiver starts with no messages;
overflow drops the oldest entry and is reported to a receiver that lags behind; sending on a bounded
channel fails exactly when the channel is full or its receiver is gone; streams are first in, first
out and end at the first error; the unordered set returns some ready task; serialising a payload and
deserialising it gives it back. Handlers are atomic except in `LockScopes`, as they are on a
single-threaded executor, for no handler awaits between its first map access and its last effect.
Clients are honest: callbacks return the ID they were given, and a client is not stepped again after
an error. Nothing else is assumed: clients may stop, streams may be dropped and any ID may be torn down
at any moment.

What is promised and does not always hold, with its exact condition:

- A complete mesh at rest. With serialised starts that nobody leaves it is certain if and only if
  there are at most 16 peers (`Crowding.MeshGuaranteed`). With 17 the offers for the first peer can
  fill its channel, and from 18 on its listener can also lag behind the 16-slot ring
  (`Lagging.LaggingPeerIsLost`). For any number of peers, a run ends in a complete mesh of clients
  that all go on just if neither happened in it (`Limits.MeshIff`).
- A connection map that never errs. It holds for serialised starts. With overlapping starts two peers
  may offer to each other, and then it can err (`Overlapping.OverlappingStartsErr`); in any run it errs
  exactly when a callback inserts a connection for a peer with which an offer and an answer cross
  (`Crossing.MapErrsIffCrossing`).
- Discovery that converges. It does when handlers are atomic. With handlers cut at their lock scopes
  a change can fall between a listener's snapshot and its subscription, and `LockRaces.ViewDiffersIff`
  says, by the moves of the run, exactly which changes are missed.

`Vocabulary` holds the shared types; `Weights` sums task weights.

## Model

| member | source | states |
|---|---|---|
| Crowding.MeshGuaranteed | crates/just-webrtc-signalling/src/server.rs:237-256 | for every N up to 2^64, runs with N serialised starts that nobody leaves do come to rest, and all of them end with exactly one local and one remote completion per pair if and only if N is at most 16 |
| Limits.MeshIff | crates/just-webrtc-signalling/src/client.rs:327-491 | for every number of peers, such a run rests with a complete mesh of clients that all go on if and only if no listener lagged behind the ring and no full channel refused a signal in it |
| Limits.FewPeersMesh | crates/just-webrtc-signalling/src/client.rs:327-491 | up to 16 peers every such run rests with one local completion at the newer and one remote completion at the older peer of each pair, N(N-1)/2 of each, and every client active, without further hypotheses |
| Limits.LossTakesBroadcasts | crates/just-webrtc-signalling/src/server.rs:162-176 | in any run a client reads a data-loss error only after 18 broadcasts |
| Limits.FullTakesPeers | crates/just-webrtc-signalling/src/server.rs:223-225 | in any run a full channel refuses a signal only after 17 advertisements: nobody signals twice on a channel |
| Crowding.CrowdedPeerIsLost | crates/just-webrtc-signalling/src/server.rs:223-225 | for every number of peers from 17 on, a run with serialised starts that nobody leaves in which the 17th message for the first peer is refused, and which rests without a complete mesh |
| Mesh.CompleteMesh | crates/just-webrtc-signalling/src/client.rs:327-491 | every calm run with serialised starts that is at rest has the complete mesh, for any number of peers: one half of Limits.MeshIff |
| Mesh.EverybodyKnown | crates/just-webrtc-signalling/src/client.rs:343-369 | ... and then everybody is in the step loop, registered, and has discovered exactly everybody else |
| Mesh.RestIsReached | crates/just-webrtc-signalling/src/client.rs:327-491 | from any point of any run, the system left to itself comes to rest within a computed number of events |
| Stopping.StopsIff | crates/just-webrtc-signalling/src/client.rs:327-491 | in any run, an event stops a client if and only if it is that client's own stop, a data-loss error it reads, a signal of its own refused as full, an insert of its own that crosses, or a listener refused while it starts |
| Stopping.StopsSerially | examples/signalling-peer/src/main.rs:281-283 | with serialised starts, whoever else departs, is evicted or drops a stream, a client in its step loop stops exactly by itself, by a data-loss error, or by a full channel |
| Lagging.LaggingPeerIsLost | crates/just-webrtc-signalling/src/server.rs:164-174 | for every number of peers from 18 on, a run with serialised starts that nobody leaves in which the first peer reads a data-loss error before anybody has made an offer, and which rests without a complete mesh |
| Coverage.MeshIsCovered | crates/just-webrtc-signalling/src/client.rs:772-775 | if nobody advertises between another peer's opening of its peer listener and of its offer listener, any two live peers whose created offers have been signalled have had at least one of them accepted |
| Coverage.UnheardIsMadeUpFor | crates/just-webrtc-signalling/src/server.rs:205-210 | in such runs a "not listening" refusal between live peers is always made up for by an accepted offer the other way, whose target is found listening |
| Coverage.CoverKept | crates/just-webrtc-signalling/src/client.rs:398-413 | every event keeps what the coverage rests on: mutual snapshots, open listeners, and what each kind of refusal says about the pair for good |
| Crossing.MapErrsIffCrossing | examples/signalling-peer/src/main.rs:169-267 | in any run, an event makes a client's map fail if and only if its callback inserts a connection for a peer whose offer it has answered, or for which it has made an offer |
| Crossing.TakesAndPlacesSucceed | examples/signalling-peer/src/main.rs:181-200 | in any run, every take and every place that a callback is about to make succeeds |
| Crossing.MapNeverErrs | examples/signalling-peer/src/main.rs:169-267 | as long as no two initial lists contain each other, no insert, take or place of any callback has failed in any client, and the next will not fail either |
| Crossing.MapNeverErrsSerially | examples/signalling-peer/src/main.rs:169-267 | with serialised starts the connection map never errs, whatever the interleaving, disconnects and failures |
| Overlapping.OverlappingStartsErr | examples/signalling-peer/src/main.rs:174-179 | a run of two peers whose starts overlap, and which nobody leaves, in which the map of one errs and stops it |
| ConnectionMap.TakeThenPlace | examples/signalling-peer/src/main.rs:181-200 | placing back what was taken succeeds and restores the map |
| ConnectionMap.PeerConnectionMap.Insert | examples/signalling-peer/src/main.rs:174-179 | stores the connection and reports a pre-existing entry, even a taken one |
| ConnectionMap.PeerConnectionMap.Take | examples/signalling-peer/src/main.rs:181-187 | returns the connection iff it is there, and leaves an empty entry |
| ConnectionMap.PeerConnectionMap.Place | examples/signalling-peer/src/main.rs:189-200 | fills an existing entry and reports a missing entry or a dropped connection |
| ExamplePeer.Callbacks.CreateOffer | examples/signalling-peer/src/main.rs:209-219 | keeps the new local connection and passes its offer on, or fails if the map already knows the peer |
| ExamplePeer.Callbacks.ReceiveAnswer | examples/signalling-peer/src/main.rs:225-227 | up to its await the callback takes the local connection out, or fails if it is not there |
| ExamplePeer.Callbacks.AnswerApplied | examples/signalling-peer/src/main.rs:227-231 | after its await it puts the connection back, or fails if the entry was lost or refilled; when applying the answer failed the connection is gone |
| ExamplePeer.Callbacks.ReceiveOffer | examples/signalling-peer/src/main.rs:247-257 | keeps the new remote connection and passes its answer on, or fails if the map already knows the peer |
| ExamplePeer.Callbacks.SigCplt | examples/signalling-peer/src/main.rs:236-267 | both completion callbacks take the connection for good, or fail if it is not there |
| Convergence.DiscoveryConverges | crates/just-webrtc-signalling/src/client.rs:343-369 | in every state of every run, between the steps of a running client past its first message, a peer without unread changes is discovered iff it is registered and not the client; a client without unread changes knows exactly what a discovery request would return |
| Convergence.InterruptedStepIsStep | crates/just-webrtc-signalling/src/client.rs:337-385 | a step cut at its discovery request whose reply comes at once ends where an uninterrupted step would |
| Convergence.RegistryIsFold | crates/just-webrtc-signalling/src/server.rs:48-179 | every event of a run broadcasts exactly the addition of the peer that advertises, the removal of an ID that is torn down whether or not it is registered, or the removal of a peer that a signal finds gone; the registry is the fold of all that, and each listener's snapshot folded with all later changes is the registry without the listener |
| Convergence.RunBroadcasts | crates/just-webrtc-signalling/src/server.rs:48-62 | and the registered IDs change at each event just as that broadcast says |
| Convergence.NoSilentLoss | crates/just-webrtc-signalling/src/server.rs:161-176 | the changes a client applied are the run of the log right after its snapshot; once an untaken broadcast is evicted, the next event of its stream is a data-loss error, which stays the last one |
| Convergence.EndedForGood | crates/just-webrtc-signalling/src/server.rs:162-176 | an ended peer stream never takes another broadcast |
| Convergence.LossStopsClient | crates/just-webrtc-signalling/src/client.rs:57-68 | a client that reads the data-loss error has applied all that precedes the gap, applies nothing beyond it, and stops |
| Convergence.SnapshotOrientation | crates/just-webrtc-signalling/src/server.rs:153-164 | of two peers with open peer listeners and no removal before the later opening, at least one initial list contains the other, and both do iff each advertised before the other opened |
| Chains.FirstMessageStarts | crates/just-webrtc-signalling/src/client.rs:370-385 | the first peer message queues exactly one create-offer task per peer of the initial list, in order, and nothing else |
| Convergence.NoReturn | crates/just-webrtc-signalling/src/server.rs:91-98 | an issued ID that is no longer registered never becomes registered again |
| Convergence.IdentitiesUsedOnce | crates/just-webrtc-signalling/src/server.rs:91-98 | registered IDs are below the counter, the duplicate-ID branch is unreachable before 2^64 advertisements, and a listener that was ever opened is refused a second time, leaving everything as it was |
| Convergence.AdvertiseFailsIff | crates/just-webrtc-signalling/src/server.rs:92-96 | advertising fails exactly if the counter has passed 2^64 and wrapped around onto an ID that is still registered |
| QueueHistory.ChannelGrows | crates/just-webrtc-signalling/src/server.rs:251-254 | a channel, once opened, is never replaced, never forgets what it accepted and never reopens |
| QueueHistory.ChannelsAreFifo | crates/just-webrtc-signalling/src/server.rs:245-256 | in every state, what a channel accepted is what its listener has read followed by what waits, in order; at most 16 messages, the initial empty one included, are buffered |
| QueueHistory.HandedInOrder | crates/just-webrtc-signalling/src/client.rs:71-125 | what a listener has read stays read, in the same order, in all later states |
| Channels.SendAccepts | crates/just-webrtc-signalling/src/server.rs:199-226 | a send appends to what was accepted exactly when it succeeds; it is refused as full exactly at 16 buffered messages of a live receiver, as disconnected exactly when the receiver is gone, and a refusal changes nothing |
| Causality.OffersAreConserved | crates/just-webrtc-signalling/src/client.rs:442-482 | every offer from a accepted for b is unread, or being answered, or turned into an answer attempt, never two of these, and there is at most one |
| Causality.AnswersAreConserved | crates/just-webrtc-signalling/src/client.rs:415-438 | the same for answers through to local completion; completions never exceed accepted answers, nor those answer attempts, nor those accepted offers |
| Causality.AnswersAreCaused | crates/just-webrtc-signalling/src/client.rs:609-636 | while a applies an answer from r, the offer that a made for r was accepted and read by r, and the answer is the one r made to that very offer |
| Causality.OffersAreCaused | crates/just-webrtc-signalling/src/client.rs:638-666 | a peer only answers offers that were made for it and reached it, with the payload that the offerer made, and answers each once |
| CausalOrder.AnswersHaveCauses | crates/just-webrtc-signalling/src/client.rs:387-482 | whenever a holds an answer from r, then earlier in the run and in this order a signalled an offer for r, r read exactly that offer, r made exactly this answer to it, and a read the answer |
| Chains.ChainsKept | crates/just-webrtc-signalling/src/client.rs:327-491 | every event keeps the invariant that ties each pending task, each signal in a channel and each record to one stage of one chain |
| Causality.DoneAlways | crates/just-webrtc-signalling/src/client.rs:435-438 | completions are counted once per chain and side, in every state |
| Termination.EventLowersRank | crates/just-webrtc-signalling/src/client.rs:333-488 | every event other than an advertisement or an explicit teardown strictly lowers a weighted sum over unread lists, tasks, queued signals, unread broadcasts, open streams and registered peers |
| Termination.RunsTerminate | crates/just-webrtc-signalling/src/client.rs:333-488 | after the last advertisement and explicit teardown at most that many events remain, drops of disconnected peers included |
| LocalSteps.ListenersAreConserved | crates/just-webrtc-signalling/src/client.rs:327-491 | in any run of step up to the first error exactly one peer, one offer and one answer listener task is pending, so the set is never empty; a failing signalling or discovery request also keeps all three |
| LocalSteps.StepsAreBounded | crates/just-webrtc-signalling/src/client.rs:387-488 | between two listener completions a client takes at most as many steps as the rank of its pending tasks, in any order |
| Liveness.ListenerOf | crates/just-webrtc-signalling/src/client.rs:182-184 | a running client of the system always has each of its three listener tasks pending |
| Vanishing.VanishedIsRefused | crates/just-webrtc-signalling/src/server.rs:199-226 | an absent, not listening or disconnected target is what a failed precondition means to the sender, and only the disconnected one is dropped, with its removal broadcast |
| Vanishing.RefusedOffererGoesOn | crates/just-webrtc-signalling/src/client.rs:396-409 | in any run, an offer to a vanished peer that does not cross leaves its client active with one task less and nothing queued, ends just that chain, and unregisters a disconnected target |
| Vanishing.RefusedAnswererGoesOn | crates/just-webrtc-signalling/src/client.rs:459-478 | the same for an answer |
| Vanishing.RefusedNeverCompletes | crates/just-webrtc-signalling/src/client.rs:398-409 | a refused chain never completes, on either side, in any later state |
| LockScopes.FoldWithinRegistry | crates/just-webrtc-signalling/src/server.rs:48-62 | with handlers cut at their lock scopes, the folded log is always a subset of the registry, and they differ only on IDs with an advertise or teardown in flight |
| LockRaces.RefusalsReachSenders | crates/just-webrtc-signalling/src/server.rs:197-226 | whatever races, there is an earlier move at which the signal was tried, and the reply is a failed precondition iff the target was then absent, not listening or disconnected, an abort iff its channel was full, and otherwise the channel took the signal; a disconnected target is unregistered by the reply and its removal broadcast |
| LockScopes.OthersLeaveIt | crates/just-webrtc-signalling/src/server.rs:216-222 | a pending drop is only moved by its own two lock scopes, which are always possible |
| LockUninterrupted.SignalAlone | crates/just-webrtc-signalling/src/server.rs:197-226 | the lock scopes of a signal, run without another request in between, change the server and answer as the atomic handler does, drop of a disconnected target included |
| LockUninterrupted.TeardownAlone | crates/just-webrtc-signalling/src/server.rs:48-62 | the same for a teardown |
| LockUninterrupted.AdvertiseAlone | crates/just-webrtc-signalling/src/server.rs:88-112 | the same for advertising |
| LockRaces.ListenerHistory | crates/just-webrtc-signalling/src/server.rs:153-161 | at that granularity, every listener took a snapshot of the other registered peers at some move and subscribed at the end of the log at some later move |
| LockRaces.RegistryHistory | crates/just-webrtc-signalling/src/server.rs:48-62 | between any two states of a run a peer is registered iff it was, or has entered, and has not left; it enters at most once, and leaves only after its removal was broadcast |
| LockRaces.ViewDiffersIff | crates/just-webrtc-signalling/src/server.rs:153-161 | in any run with nothing in flight, a listener's view differs from the registry iff another peer was inserted between its snapshot and its subscription, announced before the subscription and not withdrawn by then, or had its removal announced before the subscription and carried out after the snapshot, and no broadcast since mentions that peer |
| LockRaces.SnapshotRace | crates/just-webrtc-signalling/src/server.rs:153-161 | a run in which a peer advertises between another's snapshot and subscription and is never discovered by it |
| LockRaces.RemovalRace | crates/just-webrtc-signalling/src/server.rs:48-62 | a run in which a peer's removal is announced before another's snapshot and carried out after it, and the peer stays discovered for good |
| SignallingServer.Signalling.Advertise | crates/just-webrtc-signalling/src/server.rs:88-112 | issues the counter value modulo 2^64, registers it with no listener and broadcasts the addition; a duplicate is an internal error that changes only the counter |
| SignallingServer.Signalling.HandleTeardown | crates/just-webrtc-signalling/src/server.rs:48-62 | broadcasts the removal and removes the entry, whether or not there is one; succeeds iff there was one, and is a failed precondition otherwise; with the entry the sending ends of its channels close |
| SignallingServer.Signalling.Teardown | crates/just-webrtc-signalling/src/server.rs:114-123 | the same on request; a request without an ID is an invalid argument |
| SignallingServer.Signalling.PeerDiscover | crates/just-webrtc-signalling/src/server.rs:125-140 | lists the registered peers other than the asker, each once |
| SignallingServer.Signalling.OpenPeerListener | crates/just-webrtc-signalling/src/server.rs:142-178 | a new stream that starts with all other registered peers and subscribes to all later changes |
| SignallingServer.Signalling.OpenOfferListener | crates/just-webrtc-signalling/src/server.rs:229-256 | opens the offer channel of a registered peer once, holding one empty message, and registers its sending end; a second attempt leaves everything as it was |
| SignallingServer.Signalling.OpenAnswerListener | crates/just-webrtc-signalling/src/server.rs:305-334 | the same for the answer channel |
| SignallingServer.Signalling.SignalOffer | crates/just-webrtc-signalling/src/server.rs:183-227 | an absent or not listening answerer is a failed precondition; so is a disconnected one, whose removal is broadcast and which is unregistered; 16 buffered messages abort; otherwise its offer channel, and nothing else, takes the offer |
| SignallingServer.Signalling.SignalAnswer | crates/just-webrtc-signalling/src/server.rs:259-303 | the same for an answer |
| Channels.SignalChannel.TrySend | crates/just-webrtc-signalling/src/server.rs:199-211 | the bounded channel refuses as disconnected when its receiver is gone, as full at 16 buffered messages, and otherwise accepts; a refusal changes nothing |
| Channels.SignalChannel.NextMessage | crates/just-webrtc-signalling/src/client.rs:71-125 | the listener task skips empty messages and returns the next signal with its place; when the stream runs dry it ends iff the sending end is closed and nothing is buffered, and otherwise stays pending |
| Broadcast.BroadcastRing.TryBroadcast | crates/just-webrtc-signalling/src/server.rs:38-39 | the ring keeps the last 16 broadcasts |
| Broadcast.BroadcastRing.RecvDirect | crates/just-webrtc-signalling/src/server.rs:167-174 | a receiver gets the broadcast at its position, an overflow if more than 16 were broadcast since, or waits |
| Broadcast.PeerListenerStream.Turn | crates/just-webrtc-signalling/src/server.rs:162-176 | one turn of the stream's loop: the next change, or a data-loss error that ends the stream |
| SignallingPeer.StartPeer | crates/just-webrtc-signalling/src/client.rs:766-784 | when no other request is handled between its four requests, starting fails only on a duplicate ID; otherwise the peer is registered with both sides, its addition is broadcast, its two channels are new, hold one empty message each and accept signals, nothing else on the server differs, and its initial list is what was registered when it advertised |
| SignallingPeer.RtcSignallingPeer.constructor | crates/just-webrtc-signalling/src/client.rs:172-205 | a new peer has discovered nobody and has its three listener tasks pending |
| SignallingPeer.RtcSignallingPeer.PeerListenerTask | crates/just-webrtc-signalling/src/client.rs:57-68 | resolves to the oldest list of changes on the stream, fails on its error and when it has ended, or stays pending |
| SignallingPeer.RtcSignallingPeer.ListenerTask | crates/just-webrtc-signalling/src/client.rs:71-125 | resolves to the next signal of its own channel, fails once the server has let go of the channel and all it accepted was read, or stays pending |
| SignallingPeer.RtcSignallingPeer.ApplyChanges | crates/just-webrtc-signalling/src/client.rs:343-369 | round by round: an expected change is applied, an unexpected one (a known addition or an unknown removal) replaces the set by the reply to the next discovery request, and the first request that fails ends the loop with its error and the set as it then is |
| SignallingPeer.RtcSignallingPeer.CreateOffers | crates/just-webrtc-signalling/src/client.rs:371-384 | queues one create-offer task per added peer, in order |
| SignallingPeer.RtcSignallingPeer.Step | crates/just-webrtc-signalling/src/client.rs:327-491 | one step on any completed task: a created offer goes to the remote peer's offer channel and a created answer to its answer channel, in the client's own name, and nothing else is sent; exactly the stated tasks are queued, in order; the result is the error of a failed task, of the first failing discovery request, or of a signal refused for any reason but a failed precondition, and otherwise success |
| StepContract.StepOutcome | crates/just-webrtc-signalling/src/client.rs:327-491 | the specified step has that outcome on every task and completion |
| StepContract.StepSucceedsIff | crates/just-webrtc-signalling/src/client.rs:333-478 | a step succeeds iff its task did not fail, every discovery request it called for was answered, and its signal, if any, was accepted or refused for a failed precondition |
| StepContract.LoopEndsOnlySo | crates/just-webrtc-signalling/src/client.rs:343-369 | the loop over peer changes, told round by round, has exactly one outcome: the specified set and result |
| StepContract.SignalledTransmits | crates/just-webrtc-signalling/src/client.rs:387-476 | what a completed callback makes the step send, and to whom |
| StepContract.AddedIdsConcat | crates/just-webrtc-signalling/src/client.rs:371-381 | offers are created for the added IDs, in order, and for no removed ones |
| Refinement.EventIsStep | crates/just-webrtc-signalling/src/client.rs:387-488 | each event of the system that completes a callback is the client's step, with the server as that step leaves it, or the failing last step of a client whose callback fails on the map |
| Refinement.OfferEventIsStep | crates/just-webrtc-signalling/src/client.rs:387-413 | for a created offer, with its payload |
| Refinement.AnswerEventIsStep | crates/just-webrtc-signalling/src/client.rs:456-482 | for a created answer, with its payload |
| Refinement.ListenerEventIsStep | crates/just-webrtc-signalling/src/client.rs:71-125 | a listener event is the client's step on the next signal of its own channel, whose reading cursor moves past it |
| Refinement.EventIsRequest | crates/just-webrtc-signalling/src/server.rs:88-178 | advertising, opening a listener and tearing down are what the handlers do; a starting client that is refused a listener stops |
| SignallingPeer.RtcSignallingPeer.Close | crates/just-webrtc-signalling/src/client.rs:321-324 | broadcasts the removal of the peer and unregisters it; a failed precondition if the server had dropped it already |
| Client.RunChangesThenResume | crates/just-webrtc-signalling/src/client.rs:344-369 | cutting the loop over peer changes at its discovery requests, and resuming it with their replies, does not change its outcome |

## Left out

- gRPC transport, TLS, CORS, deadlines, metadata and the client builder: plumbing over libraries that are not modelled. A request either reaches the server and is answered, or the model's `reachable` flag (or a client stopping) stands for its failure.
- WebRTC itself (`crates/just-webrtc`): a connection is an opaque value that remembers who made it and for whom.
- The bytes of bincode: payloads are opaque strings, and decoding what was encoded gives it back.
- Setters that replace callbacks (crates/just-webrtc-signalling/src/client.rs:212-313): a callback is the event that its task completes with some payload or fails. That a callback which is not set never resolves is a task that never completes.
- The echo tasks and the reconnect timer of the example peer: a completion task that may or may not finish, or fail.
- Logging, keepalive settings and real time.
- Dishonest clients, with forged IDs or signals in another peer's name.
- SignallingPeer.RtcSignallingPeer.Step: takes the completed task, its result and the replies to its discovery requests as arguments instead of polling futures; the system model handles other requests before each such reply.
- SignallingPeer.StartPeer: runs its four requests without another in between. In the system model they are four events, and a teardown between them makes opening the offer or the answer listener fail, which stops the client (`Stopping.StopsIff`).
- Closed listener streams in `System`: removing a registry entry closes its peer's offer and answer channels, and so ends that client. The classes model this; in `System` the client then stops by the event `Stop`, at a moment that is left free.
- SignallingServer.Signalling.Others: lists the hash map in an arbitrary order, as the program does; no property depends on the order.
- SignallingServer.Signalling.SignalOffer: one request at a time; concurrent requests are the subject of `LockScopes`.
- LockScopes.FoldWithinRegistry: assumes that peers tear down and listen only under an ID that an advertise request has returned.
- Runs with more than 2^64 advertisements in the system model: the counter stops there, and `Convergence.AdvertiseFailsIff` alone speaks about what follows.
