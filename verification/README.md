# ERTW: protocol, economy, index, snapshot and codec, verified

ERTW is a two-dimensional world of physical nodes, some of them agents, that advances in fixed
steps of 1/60 s. Outside controllers drive agents over a framed TCP protocol, in lockstep if
they ask for it. This project models the parts of it that keep state across many steps, and
proves what they promise:

- **The lockstep session** (`Negotiation`, `LockstepFrames`, `LockstepServer`, `LockstepClient`,
  `LockstepTurns`, `LockstepSystem`, `LockstepSafety`, `LockstepDelivery`, `LockstepPause`,
  `LockstepProgress`, `LockstepAgent`). The server's transport and the Python client are automata
  at the grain of single socket operations, and the classes `SessionTransport`, `LockstepClient`
  and `LockstepAgent` are the programs, proved to follow them. `LockstepTurns` says what each frame
  that arrives does to either automaton, whoever is on the other side, and what is written. Both
  automata and the network form one transition system: connections are pairs of FIFOs that may
  break at any moment and lose what is in flight, and either side may act in any order. One
  invariant, about channels and both ends together, carries agreement, stop-and-wait, the wire
  grammar and the order of lifecycle events through every run. Whether an exchange can still end
  well is decided exactly.
- **The tick** (`Energy`, `World`, `Economy`, `Actuation`, `Lineage`, `Failure`, `Genesis`,
  `Rejoining`, `Restoration`, `Simulation`, `Rates`, `Ecs`, `Effects`, `Commands`, `Landscape`,
  `Fates`). A world is a map from fresh entities to nodes with joints, queues, chunks and history.
  Every system of the schedule is a function on worlds, and what every run of ticks, arrivals and
  restores conserves and keeps is proved about their composition: energy, mass and transfers; one
  ledger identity per node; the joint graph; fragmentation; chunks; history; rate limits.
  `Effects`, `Commands` and `Landscape` say in numbers and coordinates what each system does to
  whom, and `Fates` what a whole tick comes to for a node. The class `Ecs` is the store the systems
  update in place, item by item; each of its methods is proved to do what its function says, up to
  a whole step. Fields, contacts, relative speeds, physics and random draws are arbitrary inputs of
  a tick (`Simulation.Circumstances`).
- **The spatial index** (`Spatial`, `Neighbors`): the grid against brute force, and its consumers.
- **Snapshots** (`Orders`, `Snapshot`, `Sessions`): stable identities, the canonical form, restoring,
  round trips, and that saving and resuming is the restore event of the simulation.
- **The wire** (`Binary`, `Codec`, `CodecExact`, `Actions`): bytes, headers and tensors as Rust
  writes and Python reads them, exactly which bytes either side accepts, and the trust boundary for
  actions, which the session and the codec share.

`dafny verify dfyconfig.toml` checks everything.

How to read the tick. `World.Conserves(w, z)` says that from `w` to `z` three totals over all
nodes, living and despawned, agree: energy net of vents, dissipation, actuation and streaming;
energy handed over but not yet received; and mass net of streaming. It also says that the
fragmentation potential has not grown. `World.Step(w, z)` and `World.Sound(w, z)` add the
invariants that a system keeps: every node's books, the joint graph, identities and history.
`Simulation.WorldOk` is what holds whenever no tick is under way. Every world reachable from a
fresh seeding satisfies it (`Simulation.ReachableOk`), and so do all worlds that runs lead to from
there (`Simulation.RunKeeps`); what is stated of worlds that satisfy it is stated of all of them.

Where the documentation and the code differ, the code is modelled. `docs/PROTOCOL.md:74-87` has
the world paused from a transport loss until the client is back with a matching action. An error
while a client resumes, such as a second disconnect, leaves `exchange` with an error instead,
and `act` then plays the default action. `LockstepSafety.ResumeFailureAborts` is a run in which
that happens, `LockstepPause.EndsExactly` says exactly when an exchange ends which way, and
`LockstepPause.PausedUntilAction` proves the promise for all runs without such a failure. Such a
failure cannot always be avoided: the server takes waiting connections in order, and one whose
resume request was lost must fail before a later one is heard. `LockstepProgress.ProgressExactly`
says from which states the exchange can still be completed.

## Model

| member | source | states |
|---|---|---|
| Negotiation.MetadataAccepted | clients/python/src/ertw_client/protocol.py:296-352 | the client accepts the metadata a server announces for exactly the configurations with positive dimensions, lengths and sizes that fit 32 bits, a non-empty token and a positive finite sensor radius |
| Negotiation.MetadataExactly | clients/python/src/ertw_client/protocol.py:296-352 | whoever sends it, the client accepts exactly what some session with such a configuration announces, but for versions from 1 to 65535, any positive time step, and action bounds in order |
| Negotiation.MetadataTells | crates/ertw_server/src/lockstep.rs:28-90 | metadata tells its tick and the whole configuration: two announcements are the same only if those are, where 0 and 1 ticks per decision are the same |
| LockstepServer.SessionTransport.constructor | crates/ertw_server/src/lockstep.rs:241-256 | a new transport has no stream and no events, and starts by greeting the first connection at tick 0 |
| LockstepServer.SessionTransport.EmitLifecycle | crates/ertw_server/src/lockstep.rs:143-173 | takes the next saturating number, writes the event if a stream is attached and lets it wait otherwise; performs exactly the automaton's operation |
| LockstepServer.SessionTransport.Attach | crates/ertw_server/src/lockstep.rs:96-122 | metadata, then all waiting events in order, then SessionAttached, for every behaviour of the network; an error ends the call where it happens, with the drained events gone |
| LockstepServer.SessionTransport.AcceptResume | crates/ertw_server/src/lockstep.rs:124-141 | follows the automaton, which `ResumeDecides` pins down: turns away other frames and other credentials and keeps accepting; any socket error ends the exchange; success means attached and about to write the observation |
| LockstepServer.SessionTransport.Converse | crates/ertw_server/src/lockstep.rs:184-208 | follows the automaton, which `ConversationWrites` and `ActionDecides` pin down: observation, extension, then one frame read; succeeds only with an action for that step and entity, and returns it sanitized |
| LockstepServer.SessionTransport.RunExchange | crates/ertw_server/src/lockstep.rs:175-224 | for every finite behaviour of the network, performs exactly the automaton's operations from the head of the loop, and returns an action or an error only where the automaton ends so |
| LockstepServer.SessionTransport.Emit | crates/ertw_server/src/lockstep.rs:271-281 | one event between ticks; an error of its write is ignored |
| LockstepServer.FeedAppend | crates/ertw_server/src/lockstep.rs:175-224 | the program's operations compose: feeding one more answer is one more step of the automaton |
| LockstepTurns.GreetingWrites | crates/ertw_server/src/lockstep.rs:96-122 | greeting a stream writes the metadata of that tick, every waiting event in order, and the event of the attachment, and leaves nothing waiting |
| LockstepTurns.ResumeDecides | crates/ertw_server/src/lockstep.rs:124-141 | from any state that awaits a resume, the session is greeted if and only if the frame is its own resume request; any other frame is turned away and changes nothing |
| LockstepTurns.ConversationWrites | crates/ertw_server/src/lockstep.rs:184-208 | an exchange writes its observation and its own extension, in this order and to the attached stream, before it reads; an action for that step and entity completes it, sanitized |
| LockstepTurns.ActionDecides | crates/ertw_server/src/lockstep.rs:198-220 | from any state that awaits an action, whatever frame arrives, the exchange completes if and only if it is an action for its step and entity; anything else has the observation written again on the same stream |
| LockstepTurns.LossIsNoted | crates/ertw_server/src/lockstep.rs:210-222 | a disconnect in the middle of an exchange detaches the stream, keeps the next event, of kind SessionDetached at that step, for the next one, and awaits a resume |
| LockstepTurns.EventWrites | crates/ertw_server/src/lockstep.rs:143-173 | an event between ticks is written at once with the next number, or waits behind the others if no stream is attached; a failed write changes nothing else |
| LockstepTurns.MetadataDecides | clients/python/src/ertw_client/protocol.py:579-604 | whoever sends it, metadata is taken if and only if it is valid, describes the session negotiated before up to the tick, and has the credentials asked for; otherwise a protocol error, and a socket that was connecting is closed |
| LockstepTurns.EventDecides | clients/python/src/ertw_client/protocol.py:390-409 | a lifecycle event is stored if and only if its numbers fit their fields and it is numbered from one |
| LockstepTurns.ExtensionDecides | clients/python/src/ertw_client/protocol.py:519-532 | an observation becomes a decision if and only if the next frame is its own extension, numbered from one; otherwise a protocol error and no decision |
| LockstepTurns.ObservationDecides | clients/python/src/ertw_client/protocol.py:517-532 | an observation is held back for its extension where deltas were negotiated, and is a decision at once where not |
| LockstepTurns.OtherwiseRaises | clients/python/src/ertw_client/protocol.py:507-517 | any other frame, and the end of the stream, is an error with nothing stored and no decision made |
| LockstepClient.LockstepClient.constructor | clients/python/src/ertw_client/protocol.py:477-495 | a connected client waits for metadata with nothing stored and nothing pending |
| LockstepClient.LockstepClient.StoreLifecycle | clients/python/src/ertw_client/protocol.py:606-608 | appends exactly the valid events |
| LockstepClient.LockstepClient.StoreMetadata | clients/python/src/ertw_client/protocol.py:595-604 | stores valid metadata that equals the negotiated one up to the world tick, and otherwise keeps the old one |
| LockstepClient.LockstepClient.ReceiveMetadata | clients/python/src/ertw_client/protocol.py:579-588 | consumes a prefix of what arrives and ends as the client automaton does on it; closes the socket when it raises |
| LockstepClient.LockstepClient.NextDecision | clients/python/src/ertw_client/protocol.py:507-532 | refuses while a decision is pending; otherwise consumes a prefix of what arrives, keeps its lifecycle events in order, and returns the decision of the automaton, or its error |
| LockstepClient.LockstepClient.SendAction | clients/python/src/ertw_client/protocol.py:534-541 | sends exactly finite actions for the pending decision on an open socket, addressed to its step and entity; the decision stays pending unless the write succeeded |
| LockstepClient.LockstepClient.Reconnect | clients/python/src/ertw_client/protocol.py:543-566 | drops the pending decision and the old socket, asks to resume with the negotiated credentials, and accepts only metadata with those credentials; a socket that cannot be opened or does not take the request leaves the client closed |
| LockstepFrames.ScanPrefix | clients/python/src/ertw_client/protocol.py:507-532 | every prefix of a well-formed stream of frames is well formed and knows its latest observation |
| LockstepSafety.RunInv | crates/ertw_server/src/lockstep.rs:175-224 | every move of server, client or network keeps the invariant that relates channel contents to both ends |
| LockstepSafety.NextFrameAccepted | clients/python/src/ertw_client/protocol.py:507-532 | whatever the client waits for, the next frame on its connection is one it accepts, and the effect on the client is the one the grammar calls for |
| LockstepSafety.ExchangeAgreement | crates/ertw_server/src/lockstep.rs:198-210 | in every run each Ok result of `exchange` is for the very observation that the client sent an action for, and is that action sanitized, hence always within its bands, and equal to what was sent if and only if that was; different results come from different sendings, in the order of sending |
| LockstepSafety.AtMostOneInFlight | clients/python/src/ertw_client/protocol.py:507-541 | on the server's connection at most one action is in flight, it answers the outstanding observation, a decision in the client's hand on a live connection is for that observation with nothing in flight, and every observation in transit is that observation |
| LockstepDelivery.DecisionIsExchange | clients/python/src/ertw_client/protocol.py:507-532 | in every reachable state an extension in transit on the server's live connection, and the decision in the client's hand, observation and extension together, are those of the exchange that is waiting for an action |
| LockstepDelivery.StoredExactly | clients/python/src/ertw_client/protocol.py:606-608 | in every run the lifecycle events the client has stored are exactly those it received over all its connections, in order, and what it received on each is a prefix of what was written |
| LockstepSafety.NoRetryOnInvalidData | crates/ertw_server/src/lockstep.rs:198-220 | with this client the InvalidData branch is never taken and no resume request is turned away |
| LockstepSafety.WireGrammar | crates/ertw_server/src/lockstep.rs:96-122 | on every connection the client receives a prefix of: metadata, lifecycle events, then lifecycle events interleaved with observations each followed by its extension; and it never raises a protocol error |
| LockstepSafety.LifecycleOrder | crates/ertw_server/src/lockstep.rs:106-121 | over all its connections the client stores events in increasing order, strictly below saturation of the counter |
| LockstepSafety.ResumeFailureAborts | crates/ertw_server/src/lockstep.rs:181-183 | a reachable run in which a client that breaks while resuming makes `exchange` fail with no action agreed |
| LockstepPause.EndsExactly | crates/ertw_server/src/lockstep.rs:181-222 | an exchange fails if and only if resuming fails or a fault is not a disconnect, completes if and only if an action arrives, which is then agreed, sanitized, for its observation, and is otherwise still underway |
| LockstepPause.PausedUntilAction | crates/ertw_server/src/lockstep.rs:175-224 | in every run that abandons no exchange, through any number of reconnects, the exchange stays underway until an action for its own observation is agreed |
| LockstepPause.PausedFromCall | crates/ertw_server/src/lockstep.rs:313-318 | the same from the call of `exchange` at a decision boundary on |
| LockstepProgress.ProgressExactly | crates/ertw_server/src/lockstep.rs:124-224 | from any reachable state in the middle of an exchange some continuation that abandons no exchange agrees an action for its observation if and only if such an action is already on its way, or the client knows the session or is about to and every connection the server has yet to take a resume request from carries one |
| LockstepProgress.ProgressFreely | crates/ertw_server/src/lockstep.rs:124-224 | in the latter case the agreed action can be any finite one, sanitized |
| LockstepProgress.HopeLost | crates/ertw_server/src/lockstep.rs:124-141 | hope can be lost: a reachable state in which the client has broken while resuming, from which no continuation that abandons no exchange agrees an action for it |
| LockstepAgent.LockstepAgent.Act | crates/ertw_server/src/lockstep.rs:285-325 | a held tick repeats the action without its fabrication trigger and does not touch the transport; a decision tick runs one exchange and plays the very action that was agreed, or a passive one, all zero, if it failed |
| LockstepAgent.ActAll | crates/ertw_server/src/lockstep.rs:285-325 | calling `act` again and again performs one exchange every max(K, 1) calls, each from its start to its end on the answers of the network, and what each call returns is the action agreed at the end of the exchange of its block, without the fabrication trigger unless the call decides, or a passive action if that exchange failed |
| LockstepAgent.Cadence | crates/ertw_server/src/lockstep.rs:286-323 | N calls perform exactly ceil(N / K) exchanges with K ticks per decision |
| LockstepAgent.HeldActions | crates/ertw_server/src/lockstep.rs:286-324 | call i returns the action agreed on call i - i mod K, with fabrication off unless i mod K is 0, or a passive action if that exchange failed |
| LockstepAgent.LatestDecision | crates/ertw_server/src/lockstep.rs:286-324 | the held action is the outcome of the call K - 1 - remaining ticks ago |
| LockstepAgent.EarlierActions | crates/ertw_server/src/lockstep.rs:286-324 | what a call returned does not depend on later calls |
| LockstepAgent.DeltasTelescope | crates/ertw_server/src/lockstep.rs:292-312 | the reported deltas add up to the latest physical state minus the first |
| LockstepAgent.ExchangeContents | crates/ertw_server/src/lockstep.rs:292-312 | the k-th exchange is of the observation of call k K, has the number k + 1 below saturation, and tells, if deltas were negotiated and there was one before, by how much energy, structure and mass have risen since |
| Energy.EnergyLedger.Record | crates/ertw_core/src/components.rs:185-196 | field by field: the amount is added to the entry of its own flow, and to no other |
| Energy.CreditExactly | crates/ertw_core/src/components.rs:136-148 | an income raises the reserve and its own entry by the valid part of the amount; any other flow changes nothing |
| Energy.DebitExactly | crates/ertw_core/src/components.rs:150-159 | a debit in full goes through if and only if the reserve covers it, and is booked under its own flow |
| Energy.DebitAtMost | crates/ertw_core/src/components.rs:161-176 | a debit of what there is takes all that is due, or else all there is |
| Energy.EnergyLedger.Credit | crates/ertw_core/src/components.rs:136-148 | credits an income flow with the valid part of the amount, ignores other flows, and reports by how much the reserve grew |
| Energy.EnergyLedger.DebitExact | crates/ertw_core/src/components.rs:150-159 | pays in full or not at all, and says which |
| Energy.EnergyLedger.DebitAvailable | crates/ertw_core/src/components.rs:161-176 | pays at most what a non-negative reserve holds, and reports by how much the reserve shrank |
| Energy.EnergyLedger.Drain | crates/ertw_core/src/components.rs:178-183 | dissipates the valid amount even below zero |
| Energy.BooksOverHistories | crates/ertw_core/src/components.rs:134-205 | after any history of transactions the ledger explains the whole change of the reserve, no entry has shrunk, and a reserve that was not negative is negative only if it was drained |
| World.NoSharedJoints | crates/ertw_core/src/actuation.rs:65-72 | no two agents hold the same joint |
| World.DespawnGood | crates/ertw_core/src/actuation.rs:42-55 | a despawned node takes the joints on it along: every live joint still has both ends, every hold is still its holder's own, no identity is reused |
| World.EndowStep | crates/ertw_core/src/lineage.rs:82-108 | a parent that gives mass and energy to a new node conserves all totals and the invariants, without raising the fragmentation potential |
| Economy.EffortsSteady | crates/ertw_core/src/lib.rs:317-326 | locomotion spends exactly what it notes as actuation and makes no reserve negative |
| Economy.DrainKeeps | crates/ertw_core/src/economy.rs:65-96 | the drain pass conserves the balance, and whoever it queues to fall apart has energy and can be divided at the end of the pass |
| Economy.TransferSteady | crates/ertw_core/src/economy.rs:235-249 | what leaves one account arrives in the other, and no reserve becomes negative by it |
| Economy.HarvestSteady | crates/ertw_core/src/economy.rs:190-251 | kinetic harvest conserves all totals for any contacts |
| Economy.PaidInFull | crates/ertw_core/src/economy.rs:326-333 | inverse-distance shares of a release add up to the release |
| Economy.DischargesSteady | crates/ertw_core/src/economy.rs:279-334 | trap discharges conserve all totals for any neighbors |
| Economy.ImpactsKeep | crates/ertw_core/src/fragmentation.rs:104-130 | impacts conserve all totals, and every node they queue is divisible and queued once |
| Economy.ConsumeSteady | crates/ertw_core/src/fragmentation.rs:250-264 | consumption conserves all totals and makes no reserve negative, so victims stay divisible |
| Effects.EffortExactly | crates/ertw_core/src/lib.rs:317-326 | an effort costs a tenth of its size under actuation, if the reserve covers it, and else nothing |
| Effects.DrainJudges | crates/ertw_core/src/economy.rs:65-96 | after the drain pass every living node it visited has lost exactly what its surroundings took, is listed to die if and only if nothing of its reserve is left, and is queued to fall apart if and only if it has energy, no structure and enough to divide; nobody else is touched |
| Effects.DeathsOnce | crates/ertw_core/src/economy.rs:92-94 | nobody is listed to die twice |
| Effects.HarvestExactly | crates/ertw_core/src/economy.rs:190-251 | an agent takes from a convertible node within 4 units, at 1.5 units a second or more, 1.5 (speed - 0.5) / 60 or what there is, and never the other way |
| Effects.TrapExactly | crates/ertw_core/src/economy.rs:279-334 | a trap lets go of half its reserve, and each agent its query returned gets its share in inverse proportion to its distance, counted as 0.1 at least; nobody else is touched |
| Effects.RelaxExactly | crates/ertw_core/src/fragmentation.rs:95-102 | stress fades to 92 hundredths a tick, and below a ten-thousandth to nothing |
| Effects.BlowExactly | crates/ertw_core/src/fragmentation.rs:104-130 | a blow within the yield adds to the stress; beyond it a quarter of the excess is taken off the structure; a victim that crumbles by it is queued once, with half its reserve for the agent that struck it |
| Effects.ConsumeExactly | crates/ertw_core/src/fragmentation.rs:250-264 | a killer takes what it has coming or what is left of its victim, and nobody else is touched |
| Actuation.CleanupExact | crates/ertw_core/src/actuation.rs:65-86 | after cleanup live joints and held clamps correspond one to one with both ends alive, whatever was orphaned or dangling before |
| Actuation.DriveStep | crates/ertw_core/src/actuation.rs:146-157 | driving the oscillator debits what it notes as actuation and keeps all totals and invariants |
| Actuation.UnhookStep | crates/ertw_core/src/actuation.rs:182-186 | letting go, by command or because the target or the energy is gone, keeps all totals and invariants, and an exact joint graph exact |
| Actuation.EngageStep | crates/ertw_core/src/actuation.rs:165-179 | taking hold of a node makes a fresh joint that keeps all totals and invariants, and an exact joint graph exact |
| Actuation.FabricateStep | crates/ertw_core/src/actuation.rs:214-242 | fabrication conserves energy and mass over agent and structure, keeps all invariants, and does not raise the fragmentation potential |
| Actuation.ApplyStep | crates/ertw_core/src/actuation.rs:140-243 | one agent's actuators keep all invariants and totals, and an exact joint graph exact |
| Actuation.ActuatorsStep | crates/ertw_core/src/actuation.rs:105-121 | so does the whole pass, for any actions of any entities in any order |
| Commands.DriveExactly | crates/ertw_core/src/actuation.rs:146-157 | the oscillator goes a fifteenth of the way to the frequency asked for, for 0.005 of the distance, if the reserve pays for it |
| Commands.HoldsExactly | crates/ertw_core/src/actuation.rs:159-211 | after a command an agent holds a node if and only if it was told to (more than 0.5), held it before or took it with an open, cooled hand as the nearest, the node is there, and the reserve outlasts the oscillator and the hold |
| Commands.TakesHoldExactly | crates/ertw_core/src/actuation.rs:165-179 | a hand that takes hold has a fresh joint of its own on the node it takes |
| Commands.LetsGoExactly | crates/ertw_core/src/actuation.rs:182-211 | a hand that lets go is empty with 1.5 seconds to cool, and its joint is gone |
| Commands.FabricateExactly | crates/ertw_core/src/actuation.rs:214-242 | a structure is made if and only if the agent is told to, has waited, and has 3 units of energy and 0.5 of mass, which it costs; it stands a unit to the right, and there are 3 seconds to wait again |
| Commands.CommandBooks | crates/ertw_core/src/actuation.rs:140-243 | a command books the drive and the hold as actuation, and 3 units for a structure if there is enough left for one, and nothing else |
| Commands.CleanupExactly | crates/ertw_core/src/actuation.rs:65-86 | cleanup opens exactly the hands whose target or joint is gone and removes exactly the joints nobody holds on by; every other hand and joint is left as it was |
| Lineage.ReproduceStep | crates/ertw_core/src/lineage.rs:54-135 | births keep all invariants and totals |
| Lineage.ReproduceQueue | crates/ertw_core/src/lineage.rs:56-91 | a queued victim stays divisible though it may become a parent in between |
| Effects.BirthExactly | crates/ertw_core/src/lineage.rs:54-135 | a child is born if and only if the parent has 32 units of energy and 2 of mass, is rested, has been so for 5 seconds, and consents; it costs 12 units and 1.5, and 20 seconds; the child has them, one generation on, where it is put; otherwise only the clocks change |
| Lineage.BirthsStep | crates/ertw_core/src/lineage.rs:42-136 | the same for the whole pass |
| Lineage.NewOutcomesAre | crates/ertw_core/src/lineage.rs:185-199 | the new outcomes are of recorded agents that are no more, once each, with their last record |
| Lineage.RecordKeeps | crates/ertw_core/src/lineage.rs:174-199 | recording a tick leaves one record per living agent, and one record or one outcome, never both, for everyone who ended some tick alive |
| Lineage.CompetenceExactlyOnce | crates/ertw_core/src/lineage.rs:218-238 | the evaluator's view lists each such agent exactly once, alive exactly if it is |
| Failure.CountFits | crates/ertw_core/src/fragmentation.rs:63-72 | there is a daughter count if and only if the node can fragment, and then it is 2 or 3 and mass and structure pay for both minimums |
| Effects.CountExactly | crates/ertw_core/src/fragmentation.rs:67-72 | three daughters if the draw says so and mass 0.15 and yield 1.5 are there, else two if 0.1 and 1.0 are, else none |
| Failure.DaughterOk | crates/ertw_core/src/fragmentation.rs:176-203 | each daughter is above both minimums, is no agent, and all shares add up to the parent's |
| Failure.DaughtersExact | crates/ertw_core/src/fragmentation.rs:176-203 | mass and energy are divided exactly |
| Failure.SplitStep | crates/ertw_core/src/fragmentation.rs:159-205 | a queued victim does fall apart: it and its joints are gone, two or three daughters are there, everyone else is untouched, all totals are conserved |
| Effects.SplitExactly | crates/ertw_core/src/fragmentation.rs:159-205 | a division replaces the victim and the joints on it by that many daughters, each with an equal part of mass, yield and energy, whole and relaxed, no agent, where it was scattered to; everyone else is as before |
| Failure.SplitsStep | crates/ertw_core/src/fragmentation.rs:159-205 | every queued victim falls apart, whatever the ones before it left behind |
| Failure.FragmentationStep | crates/ertw_core/src/fragmentation.rs:141-237 | exactly the queued victims are gone, each counted once, and the queue is empty |
| Failure.BatchIsSplitAll | crates/ertw_core/src/fragmentation.rs:204-210 | despawning all victims first and spawning all daughters afterwards is the same as dividing one victim after another |
| Failure.DespawnAllIs | crates/ertw_core/src/actuation.rs:47-54 | a batch despawn removes exactly the given nodes and exactly the joints on any of them, repeated and absent entities included |
| Failure.DeathsAllStep | crates/ertw_core/src/economy.rs:101-129 | deaths keep all totals, and the joint graph and every node's books valid |
| Failure.DeathsExactly | crates/ertw_core/src/economy.rs:99-130 | who is queued dies even if credited since, nobody else does, the body stays, and no joint touches it |
| Effects.DeathExactly | crates/ertw_core/src/economy.rs:99-130 | a death takes the tags of an agent and every joint on the body, which stays with all it has; nobody else is touched |
| Genesis.OrderedRises | crates/ertw_core/src/genesis.rs:56-61 | chunks are met in strictly ascending order |
| Genesis.StreamStep | crates/ertw_core/src/genesis.rs:190-234 | streaming conserves all totals net of what it streams, and spares every agent |
| Genesis.StreamKeepsChunks | crates/ertw_core/src/genesis.rs:190-234 | after streaming, terrain lies in active chunks, at most five nodes in each, and the active chunks are exactly those within one of an agent's |
| Genesis.TerrainBound | crates/ertw_core/src/genesis.rs:190-234 | after streaming there are at most 45 terrain nodes for each agent |
| Genesis.StreamOutIsDespawn | crates/ertw_core/src/genesis.rs:214-233 | unloading is despawning, with what leaves noted |
| Landscape.ActiveExactly | crates/ertw_core/src/genesis.rs:193-206 | in coordinates: after streaming chunk c is active if and only if some living agent has 32 (c.x - 1) <= x < 32 (c.x + 2), and the same for y |
| Landscape.GoneExactly | crates/ertw_core/src/genesis.rs:207-233 | streaming takes away a node if and only if it is no agent and belongs to a chunk that was active and is no more: its origin, or else the square of 32 units it lies in |
| Landscape.PlantedExactly | crates/ertw_core/src/genesis.rs:137-172 | a chunk that becomes active has exactly its five terrain nodes, of their kinds, each in its own square if scattered by no more than half a unit |
| Landscape.ArrivesInPlace | crates/ertw_core/src/genesis.rs:104-121 | an agent is placed in its own chunk, and one that arrives later where it was put, with 20 units of energy and 8 of mass |
| Landscape.SeededExactly | crates/ertw_core/src/genesis.rs:91-135 | a seeded grid has exactly its chunks, with 4 agents and 5 terrain nodes, 110 units of energy and 38.5 of mass for each |
| Genesis.SeedOk | crates/ertw_core/src/genesis.rs:91-135 | a freshly seeded world satisfies every invariant |
| Genesis.SeedConserves | crates/ertw_core/src/genesis.rs:91-135 | and all its energy and mass is accounted for as streamed in |
| Simulation.PrePhysicsStep | crates/ertw_core/src/lib.rs:107-119 | all systems before physics together keep all invariants and totals; joints and grips correspond one to one at the end, and what is queued to fall apart can |
| Simulation.TickKeeps | crates/ertw_core/src/lib.rs:105-138 | a tick keeps everything, conserves everything, and brings the history up to date |
| Simulation.RunKeeps | crates/ertw_core/src/lib.rs:105-138 | so does every run of ticks, arriving agents and restores |
| Simulation.ReachableOk | crates/ertw_core/src/lib.rs:184-224 | every world that some run from a fresh seeding arrives at, restores included, satisfies all invariants, and its totals come from streaming alone |
| Simulation.EnergyConserved | crates/ertw_core/src/lib.rs:105-138 | in every run energy comes only from vents and streaming and goes only into dissipation, actuation and streaming; all that was transferred out was harvested or consumed; mass only streams |
| Simulation.EnergyBalance | crates/ertw_core/src/lib.rs:105-138 | in every world reachable from a fresh seeding energy equals what streamed in and was vented less what streamed out, dissipated or was spent on actuation; transfers cancel; mass equals what streamed in less what streamed out |
| Simulation.NodeIdentity | crates/ertw_core/src/components.rs:107-131 | between ticks each node's energy is its birth energy plus its income minus its outlays and investments |
| Simulation.FragmentationBound | crates/ertw_core/src/fragmentation.rs:63-72 | in every run there are at most (mass + mass streamed in) / 0.05 fragmentations, births and fabrications included |
| Simulation.JointIntegrity | crates/ertw_core/src/actuation.rs:159-211 | between ticks a clamp has a target if and only if it has a joint, holds only when cooled down, a live held joint is its holder's own on that target, and no two agents share one; from cleanup until physics the graph is exact |
| Simulation.RestoreIntegrity | crates/ertw_core/src/snapshot.rs:363-385 | a restore of any world between ticks, with any of the controllers, keeps all invariants; joints and grips correspond one to one at once if and only if the controller of every agent that held a node still there is supplied, and in any case after the first cleanup |
| Simulation.QueuedVictimsSplit | crates/ertw_core/src/fragmentation.rs:117-205 | every node that fails in the drain pass and every node that breaks under a blow is gone once fragmentation has run, whatever the systems in between did; exactly the queued nodes are gone and each has been counted |
| Fates.BeforePhysics | crates/ertw_core/src/lib.rs:105-119 | each system before physics goes through its items from first to last, on what the one before it left, in the order of the schedule |
| Fates.AfterPhysics | crates/ertw_core/src/lib.rs:120-138 | so do those after it: blows on relaxed nodes, consumption, fragmentation, death |
| Fates.AtTheEnd | crates/ertw_core/src/lib.rs:120-138 | then streaming on every 120th step, the clock and the record |
| Fates.ShattersExactly | crates/ertw_core/src/fragmentation.rs:104-130 | a living node is queued when fragmentation comes if and only if the drain pass left it crumbling or some blow made it crumble |
| Fates.LivesExactly | crates/ertw_core/src/economy.rs:92-130 | an agent is one no more after a tick if and only if the drain pass left it without a reserve, whatever it was credited since, or it was queued to fall apart; the body of one that starves stays where it is |
| Fates.WeatherOfTick | crates/ertw_core/src/economy.rs:65-90 | a node that outlasts a tick has dissipated and vented in it exactly what the drain pass took and gave, and nothing if the pass did not come to it |
| Fates.BooksOfTick | crates/ertw_core/src/lib.rs:105-138 | actuation and structures are booked by efforts and commands alone, harvests and offspring between drain and physics, consumption after it; and the node is where physics has put it |
| Fates.ChunksOfTick | crates/ertw_core/src/genesis.rs:187-235 | the clock goes on by one; on every 120th step the active chunks become those a living agent stands in or next to, on any other they stay |
| Simulation.TerrainInChunks | crates/ertw_core/src/genesis.rs:179-235 | between ticks terrain lies in active chunks, at most five nodes in each |
| Simulation.StreamingTick | crates/ertw_core/src/genesis.rs:187-235 | a streaming tick leaves exactly the halos of living agents active, at most 45 terrain nodes per agent, and every agent as it was |
| Simulation.HistoryExactlyOnce | crates/ertw_core/src/lineage.rs:169-238 | after every tick the records are of exactly the living agents, and the evaluator's view lists everyone who ended some tick of the session alive exactly once |
| Fates.LastWord | crates/ertw_core/src/lineage.rs:174-199 | an agent that was alive after one tick and is not after the next is reported with the generation and the books it had at the end of the former, at the step of the latter |
| Rates.ReclampRate | crates/ertw_core/src/actuation.rs:160-211 | after a hand lets go in a tick it holds nothing for 90 actuator passes in any run, restores included; after a release by cleanup the pass of the same tick is the first of them |
| Rates.RestoreFreesAtOnce | crates/ertw_core/src/snapshot.rs:344-347 | an agent loses its hold across a restore if and only if its target is gone, and then it has no cooldown, unlike after cleanup |
| Rates.FabricationRate | crates/ertw_core/src/actuation.rs:214-242 | two fabrications of one agent are at least 180 ticks apart in any run, restores included |
| Rates.BirthRate | crates/ertw_core/src/lineage.rs:54-93 | two births of one parent are at least 1499 ticks apart in any run, restores included |
| Rates.BirthStreak | crates/ertw_core/src/lineage.rs:54-66 | at every birth, the first included, the last 300 passes that considered the parent all found it eligible, counted from any world in which it has no surplus |
| Ecs.Ecs.FindOrphans | crates/ertw_core/src/actuation.rs:65-72 | finds exactly the joints whose owner is gone or holds something else |
| Ecs.Ecs.OpenDangling | crates/ertw_core/src/actuation.rs:74-86 | opens exactly the clamps whose target or joint is gone |
| Ecs.Ecs.CleanupClampJoints | crates/ertw_core/src/actuation.rs:59-87 | does what `Cleanup` says, the function of `CleanupExact` |
| Ecs.Ecs.VolatileTrapDischarge | crates/ertw_core/src/economy.rs:258-335 | the pass does what `DischargesSteady` is about |
| Ecs.Ecs.DespawnPhysicalEntities | crates/ertw_core/src/actuation.rs:42-55 | joints first, then nodes; the same as despawning one by one, for any list of entities |
| Ecs.Ecs.PlanFragmentation | crates/ertw_core/src/fragmentation.rs:159-205 | collects the victims and their daughters against the unchanged world |
| Ecs.Ecs.RunFragmentation | crates/ertw_core/src/fragmentation.rs:141-237 | for any queue, all victims go before any daughter comes; a queue of divisible victims, each once, comes to one division after another |
| Ecs.Ecs.StreamChunks | crates/ertw_core/src/genesis.rs:179-235 | every 120th step, the pass that `StreamStep` and `StreamKeepsChunks` are about |
| Ecs.Ecs.RecordAgentHistory | crates/ertw_core/src/lineage.rs:169-200 | the pass that `RecordKeeps` is about |
| Ecs.Ecs.Step | crates/ertw_core/src/lib.rs:105-138 | one fixed step of the store is one tick of the model, and keeps and conserves everything |
| Spatial.QueryHas | crates/ertw_core/src/spatial_hash.rs:63-78 | whoever is within the radius lies in a visited cell |
| Spatial.QueryComplete | crates/ertw_core/src/spatial_hash.rs:63-78 | a query returns every node within the radius, each node at most once, and only indexed nodes |
| Spatial.QueryExactly | crates/ertw_core/src/spatial_hash.rs:63-78 | a query returns exactly the nodes in the block of 4 by 4 cells that reaches ceil(radius / 4) cells to each side |
| Spatial.SpatialHash.Rebuild | crates/ertw_core/src/spatial_hash.rs:41-47 | afterwards each cell lists exactly the nodes in it, once each; earlier contents are forgotten |
| Spatial.SpatialHash.QueryRadius | crates/ertw_core/src/spatial_hash.rs:63-78 | returns the block of cells around the position, the function `QueryComplete` is about |
| Neighbors.NearestNeighbor | crates/ertw_core/src/actuation.rs:268-300 | nearest among all other tagged nodes within 12 units, not only among those the grid returned; none only if there is none |
| Neighbors.GatherViews | crates/ertw_core/src/agents.rs:251-290 | exactly the other nodes within the sensor radius, once each |
| Neighbors.ChooseNearest | crates/ertw_core/src/agents.rs:291-297 | keeps that many, and nobody left out is nearer than anybody kept |
| Neighbors.NeighborWindow | crates/ertw_core/src/agents.rs:250-303 | the window holds the nearest other nodes within the radius in ascending distance, as many as fit, no node twice, then ghosts; whoever is left out finds it full of nodes no farther |
| Neighbors.ApplyMagneticForces | crates/ertw_core/src/fields.rs:181-216 | every unordered pair of magnetic nodes within 10 units interacts exactly once; each node ends up with exactly the pulls of its own pairs, equal and opposite on the two sides, so all forces add up to zero |
| Snapshot.StableIdAllocator.Allocate | crates/ertw_core/src/snapshot.rs:23-26 | the next number, saturating |
| Snapshot.StableIdAllocator.Observe | crates/ertw_core/src/snapshot.rs:28-30 | the highest number known |
| Snapshot.AssignStableIds | crates/ertw_core/src/snapshot.rs:390-409 | does what `EnsureStableIds` says, the function of the identity lemmas |
| Snapshot.FreshIdentities | crates/ertw_core/src/snapshot.rs:390-409 | afterwards every node has an identity, old ones are kept, new ones exceed all observed, and no two nodes share one |
| Snapshot.FreshExactly | crates/ertw_core/src/snapshot.rs:23-30 | new identities are fresh and ascending if and only if the counter does not saturate |
| Snapshot.IdentitiesOverRuns | crates/ertw_core/src/snapshot.rs:22-31 | after any sequence of spawns, explicit distinct identities, despawns and assignments no two nodes share an identity, and later ones exceed everything observed |
| Snapshot.CaptureIsCanonical | crates/ertw_core/src/snapshot.rs:99-252 | a capture depends neither on how entities are numbered nor on the order in which queries meet them |
| Snapshot.CapturedExactly | crates/ertw_core/src/snapshot.rs:99-252 | a capture lists exactly the nodes there are, each with its components under its identity, missing ones as zero, and the identity of what it holds; and seed, tick, field time and active chunks of the world |
| Snapshot.RoundTrip | crates/ertw_core/src/snapshot.rs:256-388 | a snapshot with distinct identities is captured again as itself after restoring if and only if it has the current schema, is in order, every agent has a controller and every clamp target is in it |
| Snapshot.CapturesRestore | crates/ertw_core/src/snapshot.rs:99-252 | every capture of a world with distinct identities, which names the nodes that have none, is such a snapshot, given the controllers of its agents |
| Snapshot.CaptureComesBack | crates/ertw_core/src/snapshot.rs:99-388 | captured, restored with all controllers and captured again, a world gives the same snapshot |
| Snapshot.RestoredJoints | crates/ertw_core/src/snapshot.rs:363-385 | for any snapshot and any of the controllers: a joint that a restored clamp holds is live, its own and on its target, and every live joint has both ends; they correspond one to one at once if and only if each joint's owner has its controller and made no later joint |
| Snapshot.RestoredAfresh | crates/ertw_core/src/snapshot.rs:279-361 | every restored agent has a controller of its own, the allocator has seen the highest identity of the snapshot and none above, and nobody is under stress |
| Snapshot.RestoreSession | crates/ertw_core/src/snapshot.rs:256-388 | for any snapshot, repeated identities included: nodes first, then joints; comes to the restored world that the other results are about, or to the schema error |
| Restoration.RestoredConserves | crates/ertw_core/src/snapshot.rs:279-361 | renumbering the nodes leaves all totals as they are |
| Restoration.RestoredExact | crates/ertw_core/src/snapshot.rs:363-385 | joints and grips of a restored world correspond one to one if and only if the controller of every agent that held a node still there is supplied |
| Restoration.RestoredOk | crates/ertw_core/src/snapshot.rs:256-388 | every invariant of the simulation survives a restore, whatever controllers are supplied |
| Sessions.ResumeIsRestore | crates/ertw_core/src/snapshot.rs:99-388 | whatever live world is captured and restored, the simulation sees a possible restore event, with the nodes in the order of their identities and exactly the supplied controllers |
| Binary.WordRoundTrip | crates/ertw_server/src/lib.rs:102-116 | a little-endian word comes back |
| Binary.PackRoundTrip | crates/ertw_server/src/lib.rs:100-118 | so does any list of words |
| Binary.UnpackRoundTrip | crates/ertw_server/src/lib.rs:102-116 | and any bytes, four to a word: there is one way to write a list of words |
| Binary.MaskRoundTrip | crates/ertw_interface/src/lib.rs:314-317 | four 16-bit chunks hold the whole 64-bit mask |
| Binary.FloatExact | crates/ertw_interface/src/lib.rs:314-317 | the binary32 pattern of every 16-bit number, bit for bit, denotes exactly that number |
| Codec.HeaderRoundTrip | clients/python/src/ertw_client/protocol.py:72-95 | every header field comes back, both 64-bit ids whole; exactly a wrong version or an out-of-range length is refused |
| CodecExact.HeaderExactly | clients/python/src/ertw_client/protocol.py:72-95 | the bytes taken for a header are exactly those the encoder writes for it, with version 4 and a length from 56 bytes to 16 MiB |
| Codec.NeighborRoundTrip | clients/python/src/ertw_client/protocol.py:436-453 | a neighbor comes back with all 64 tag bits and its flag |
| Codec.ObservationRoundTrip | clients/python/src/ertw_client/protocol.py:428-462 | what Rust encodes Python reads and decodes to the same observation, leaving the rest of the stream alone, if and only if the frame is within the size limit |
| Codec.StreamRoundTrip | clients/python/src/ertw_client/protocol.py:214-242 | any list of frames within the limit is read back as the same list with the same meaning |
| CodecExact.FrameExactly | clients/python/src/ertw_client/protocol.py:214-242 | a frame is read off a stream if and only if it stands at the front as the encoder writes it and has no fault; the rest is left alone |
| CodecExact.StreamExactly | clients/python/src/ertw_client/protocol.py:214-242 | a stream is read to its end as a list of frames if and only if it is these frames, one after another |
| CodecExact.FaultlessExactly | clients/python/src/ertw_client/protocol.py:222-242 | a frame has no fault if and only if it is of the form of its kind: no floats announced for JSON, seven for an action, as many as its dimensions ask for in an observation |
| CodecExact.HeaderCounts | crates/ertw_server/src/lib.rs:41-45 | the neighbor count in the header is the number of valid slots |
| CodecExact.ExactExactly | clients/python/src/ertw_client/protocol.py:465-471 | a float is a 16-bit number if and only if it denotes one |
| CodecExact.DecodesExactly | clients/python/src/ertw_client/protocol.py:428-462 | a frame that was let through is an observation if and only if it says so, every tag chunk is a 16-bit number, and the count in its header is the number of set flags |
| Codec.ActionRoundTrip | crates/ertw_server/src/lib.rs:76-98 | the client encodes exactly the finite actions; from the bytes the server reads the same step and entity and the action sanitized, which is sane, and the client's own if and only if that was sane |
| CodecExact.ActionExactly | crates/ertw_server/src/lib.rs:76-98 | the server takes for an action exactly 56 bytes of header that say so, five words of them unread, and seven floats |
| CodecExact.ActionInPlaces | crates/ertw_server/src/lib.rs:76-98 | each float ends up in its own component: force, torque, clamp, fabrication, frequency, phase |
| CodecExact.ServerReadsExactly | crates/ertw_server/src/lib.rs:120-140 | the server cuts off a stream exactly what starts like a frame and is as long as it says |
| Codec.Socket.RecvExact | clients/python/src/ertw_client/protocol.py:204-211 | however the bytes arrive, exactly the next ones, or an error if and only if the stream ends before |
| Codec.Socket.ReceiveFrame | clients/python/src/ertw_client/protocol.py:214-219 | reads exactly one frame off the stream, or fails as the byte-level reader does |
| Codec.Socket.ReceiveAll | clients/python/src/ertw_client/protocol.py:214-242 | however a list of messages is cut into pieces on the way, exactly those frames are received, in order |
| Actions.SanitizeIsExact | crates/ertw_interface/src/lib.rs:168-206 | the result is finite and in its bands, NaN and infinities included, and an action is left alone if and only if it was so already |
| Actions.SanitizeKeeps | crates/ertw_interface/src/lib.rs:168-206 | beyond its band a component becomes the bound it lies beyond, what is no number becomes zero, a force longer than a unit keeps its direction, and a phase its angle |
| Actions.WithinAnnouncedBounds | crates/ertw_server/src/lockstep.rs:44-45 | what the world acts on is exactly what lies within the bounds that the session metadata announces, with a force of at most a unit and less than a full turn |

## Left out

- LockstepSafety.LifecycleOrder: states order only; an event whose write fails is lost, so sequence numbers may have gaps.
- LockstepSafety.WireGrammar: frames are structured values there; the bytes under them are in `Codec`, and the text of JSON payloads is not part of this model; nor are the socket timeouts that `connect` and `reconnect` take (clients/python/src/ertw_client/protocol.py:484-487 and 543-547): one that runs out in the middle of a frame, or between an observation and its extension, leaves the stream open and out of step, so that a later `next_decision` may raise a protocol error.
- LockstepServer.SessionTransport.RunExchange: the network answers from a finite script, so a call that outlives it is still blocked; timeouts, threads and mutex poisoning are not modelled, nor are frames whose payload does not parse.
- LockstepPause.PausedUntilAction: holds for runs that abandon no exchange, as the code promises no more; `LockstepPause.EndsExactly` says when one is abandoned.
- Codec.ObservationRoundTrip: takes dimensions that fit a 32-bit header word; a larger one would be truncated before any check.
- Codec.StreamRoundTrip: JSON payloads are opaque bytes, and floats are opaque 32-bit words except tag chunks and the valid flag.
- Actions.SanitizeIsExact: over reals, here and in `LockstepSafety.ExchangeAgreement` and `Codec.ActionRoundTrip`; the length of the force is given with the property of a square root.
- Simulation.FragmentationBound: over reals; rounding of binary32 shares is not modelled anywhere in the tick.
- Simulation.EnergyBalance: reachable means from a fresh seeding by ticks, arrivals and restores of what was captured; a snapshot that was edited is not.
- LockstepProgress.ProgressExactly: says what can still happen, not that it will; fairness of network and client is not modelled.
- Simulation.TickKeeps: the nearest node that an actuator reaches for is an arbitrary input, not tied to `Neighbors.NearestNeighbor`, and the drain pass is given each node at most once, as a query visits entities; other inputs may repeat entities or leave some out, which allows more behaviours than the program has.
- Simulation.HistoryExactlyOnce: a restored session begins with an empty history; outcomes of one tick are listed in ascending order of entities, where the hash map has no order; lineage, born step and controller ids are not modelled.
- Rates.BirthStreak: each agent is met at most once per pass, as queries and pending actions do.
- Economy.DischargesSteady: recipients are whatever nodes the query returned, because the code applies no exact range filter.
- Ecs.Ecs.DespawnPhysicalEntities: an entity that is not there is skipped, as a deferred command on it is.
- Lineage.ReproduceStep: the branch in which an eligible parent cannot pay cannot be taken and has no counterpart; a controller that refuses a child does.
- Snapshot.RoundTrip: snapshots with repeated identities are outside it, because captures never have any below saturation; rotation is an opaque value, and the mass given to the physics engine is not modelled.
- Snapshot.IdentitiesOverRuns: an allocator of a restored world knows only the identities in the snapshot, not those of nodes that had vanished earlier.
- Spatial.QueryComplete: cell and chunk coordinates are unbounded integers, without the saturation of the cast to 32 bits.
- Neighbors.NeighborWindow: slots name entities; what the views contain besides is copied component by component.
- Neighbors.ApplyMagneticForces: every magnetic node has a dynamic body, and the force between two nodes is any function of the pair.
- Rendering, HUD, camera and gizmos, and the physics engine, noise and random streams behind the inputs of a tick.
- `RemoteAgent`, the real-time controller that drops stale actions, and the single comparator of the evaluator.
- Nothing is claimed about debris without a chunk of origin in chunks that are already inactive; the code does not clean it up.
- The source body recorded with accumulated stress, which no modelled system reads.
