# Pigeon: a verified model

Pigeon is a relay for paired devices. Two peers pair over an untrusted relay, open
named streams and datagram channels over one connection, move traffic between the
relay and a direct path, and find each other through the relay's table of
registered backends. This project models the parts of it in which several parties
or goroutines act on shared state, and the codecs they talk through, and proves what
holds in every run and for every input.

| files | what they model |
|---|---|
| `StreamTable`, `Rendezvous`, `RendezvousSteps`, `RendezvousRuns`, `RendezvousProgress`, `StreamPolicy` | `AcceptStream` meeting incoming streams: the locked table as a class, and every interleaving of acceptors, deliveries, expiry timers, drain and close as a state machine over the unlocked gaps |
| `Pairing`, `PairingRuns`, `PairingRecords`, `PairingConfirmed`, `PairingCompletes`, `PairingMachines` | the commit-welcome-reveal ceremony with two FIFO channels and a relay that may replace or drop messages |
| `StateForest`, `TransitionTable`, `Interpreter` | hierarchical state machines: flattening, the meaning of a table, the indexed interpreter and the generated case lists |
| `SessionCommands`, `BackendPath`, `BackendHistory`, `BackendTable`, `BackendMachine`, `ClientPath`, `ClientHistory`, `ClientMachine` | the backend's and the client's path machines with their commands, ping failures and backoff |
| `RelayHub`, `ListenMatching` | the relay's slot table, and the hand-off of parked listens to clients |
| `Bytes`, `Framing`, `StreamBridge` | length-prefixed messages over chunked streams, and one direction of a bridged stream |
| `Uvarint`, `Wire`, `SecureChannel`, `Fragments` | wire codecs, the encrypted channel, splitting a datagram |
| `Throttle` | the token bucket of the fault-injecting proxy |
| `Sequences`, `Options` | shared facts about sequences, and optional values |

How to read it:

- Whatever lies outside the model enters as a parameter and is otherwise
  unconstrained: which goroutine runs next, what a guard or an action callback answers, when
  a connection dies, how bytes are chunked, when writes start failing, the clock.
- An object that the source updates in place is a class whose methods are proved against
  functions on values; the theorems over runs are about those functions.
- Keys, commits and codes are free symbols: a commit determines its key and a code its
  unordered pair of keys. The cipher is any one with RFC 5116's two operations.
  Stream ends have the meaning of section 2.4 of RFC 9000.
- Where code and documentation differ the model follows the code, gives an input and says
  exactly when the documented property holds. That a ceremony with differing codes never ends with
  both sides Paired rests on the users (`PairingRuns.BlindConfirmationPairs`,
  `PairingConfirmed.PairingIsGenuineIff`). The client's path fields are not reset by a re-dial
  (`ClientPath.RedialExample`, `ClientPath.StaleExactlyAfterRedial`). The receive
  counter moves before a frame is opened and wraps, so repeats are shut out and strict
  delivery is lossless only under the conditions of `SecureChannel.ShutsOutIff` and
  `SecureChannel.StrictLosesIff`.

## Model

| member | source | states |
|---|---|---|
| `StreamTable.Session.constructor` | api.go:620-639 | a fresh session has no waiters, no parked streams, no name policy and is not draining |
| `StreamTable.Session.ApplyStreamPolicy` | stream_lifecycle.go:44-57 | an empty list leaves the policy alone; any other declares exactly its non-empty names |
| `StreamTable.Session.AcceptLocked` | api.go:730-742 | the locked part of AcceptStream takes the oldest parked stream or queues the caller last |
| `StreamTable.Session.RemovePending` | api.go:758-768 | exactly the first occurrence of the waiter leaves its queue, or nothing changes |
| `StreamTable.Session.DeliverLocked` | api.go:784-813 | the locked part of a delivery runs the section whose verdicts `StreamPolicy.DeliveryVerdict` characterises |
| `StreamTable.Session.ExpireBufferedLocked` | stream_lifecycle.go:90-105 | the stream leaves the park if it is still there, and the answer says so |
| `StreamTable.Session.SwapParkedLocked` | stream_lifecycle.go:107-111 | the whole park is taken in one step |
| `StreamTable.Session.EnterDrainLocked` | stream_lifecycle.go:119-126 | draining is set, and only the first caller learns it was first |
| `RendezvousSteps.InvStep` | api.go:726-817 | every step of every goroutine and timer keeps the joint invariant: one holder per stream, waiters and channels in step, park limits, arrival order |
| `RendezvousRuns.ExactlyOneHolder` | api.go:726-817 | in every interleaving each delivered stream is in exactly one pair of hands |
| `RendezvousRuns.SendNeverBlocks` | api.go:790-797 | a delivery that popped a waiter always finds room in that waiter's channel |
| `RendezvousRuns.Settled` | api.go:770-817 | when nothing under way can move, a stream was returned by exactly one call and never reset, or was reset exactly once and returned by none |
| `RendezvousRuns.ChannelMover` | api.go:772-804 | a stream left in a waiter's channel always has a goroutine that can still take it out |
| `RendezvousRuns.Mover` | api.go:726-817 | no deadlock: whoever holds an unsettled stream, some step under way can move it on |
| `RendezvousProgress.InternalStepsEnd` | api.go:726-817 | every step of work under way lowers a natural-number measure |
| `RendezvousProgress.InternalStretchIsBounded` | api.go:726-817 | any stretch of a run made of such steps is no longer than the measure at its start, so quiet is always reached |
| `RendezvousRuns.ParkDiscipline` | api.go:731-741 | a name never has both a waiter and a parked stream, and never more parked than configured, or one where nothing is configured |
| `RendezvousRuns.ArrivalOrder` | api.go:731-741 | waiters are served and parked streams handed out in order of arrival, whatever is cancelled or expires |
| `RendezvousRuns.NamesAgree` | api.go:744-746 | a call returns only a stream opened under the name it asked for |
| `RendezvousRuns.LateStreamIsReset` | api.go:785-789 | a stream delivered after draining began is never returned and ends up reset once |
| `RendezvousRuns.DrainedParkStaysEmpty` | stream_lifecycle.go:107-128 | after the drain's swap no application stream is ever parked again |
| `StreamPolicy.DeliveryVerdict` | api.go:785-812 | refusal, hand-over and parking each told exactly: by draining and the declared names with the three control names exempt, by whether someone waits, and by the room per name, one where none is configured |
| `StreamPolicy.OnlyUndeclaredNamesAreRefused` | stream_lifecycle.go:79-88 | with nobody waiting and nothing parked, exactly an undeclared name outside the three control names is refused, and any other is parked |
| `StreamPolicy.AcceptVerdict` | api.go:730-742 | a call takes the oldest parked stream of its name exactly if there is one, and no other name's queues change |
| `StreamPolicy.UndeclaredStreamsAreReset` | stream_lifecycle.go:79-88 | in every run a stream of an undeclared application name is never parked, never returned and ends up reset once |
| `StreamPolicy.UndeclaredNamesStayEmpty` | stream_lifecycle.go:79-88 | in every run nothing is ever parked under such a name |
| `StreamPolicy.DrainsFromGoAwayOn` | stream_lifecycle.go:119-128 | a session drains exactly from its first go-away on |
| `StreamPolicy.CallsAreNamed` | api.go:727-729 | no call with an empty name ever waits or returns a stream |
| `Pairing.CodesArePairs` | pairing/pairingceremony_gen.go:187-188 | two codes are equal exactly when their unordered key pairs are |
| `PairingRuns.InvStep` | pairing/pairingceremony_gen.go:118-196 | every step of either side and every replacement or loss on a channel keeps the ceremony's invariant |
| `PairingRuns.CodesAgreeIffUntouched` | pairing/pairingceremony_gen.go:199-201 | when both sides show a code, the codes agree exactly if no key was ever substituted |
| `PairingRuns.EqualCodesMeanRealKeys` | pairing/pairingceremony_gen.go:199-201 | two shown codes are equal exactly when each side holds the other's real key |
| `PairingRuns.CodeNeedsCommit` | pairing/pairingceremony_gen.go:204-205 | the acceptor has a code only after the reveal opened the commit stored from hello |
| `PairingRecords.AcceptorEntersIff` | pairing/pairingceremony_gen.go:119-129 | each acceptor state is entered by exactly the listed edges, and nothing else is taken |
| `PairingRecords.InitiatorEntersIff` | pairing/pairingceremony_gen.go:132-142 | each initiator state is entered by exactly the listed edges, and nothing else is taken |
| `PairingRecords.RecordsNameThePeer` | pairing/pairingceremony_gen.go:122-136 | in every run a side past hello or welcome holds the peer's own identity and instance, and the initiator what its token said |
| `PairingRecords.PairedRecordsAreValid` | pairing/pairingceremony_gen.go:203-203 | a side in Paired has a peer key and the peer's own identity and instance, both users confirmed, and the peer's confirmation is on record |
| `PairingRuns.CodesStay` | pairing/pairingceremony_gen.go:118-143 | a code once shown is never replaced |
| `PairingRuns.ConfirmedMeansMatch` | pairing/pairingceremony_gen.go:125-125 | if users confirm only matching codes, a recorded confirmation means the codes match now |
| `PairingRuns.PairedMeansRealKeys` | pairing/pairingceremony_gen.go:200-200 | with such users, either side being Paired means both hold each other's real key and nothing was substituted |
| `PairingRuns.BlindConfirmationPairs` | pairing/pairingceremony_gen.go:200-200 | the documented claim fails without it: both sides can reach Paired with different codes, for every substituted welcome key |
| `PairingConfirmed.ShownCodesAreFinal` | pairing/pairingceremony_gen.go:118-143 | from the display of its code on, a side shows that code for good |
| `PairingConfirmed.PairingIsGenuineIff` | pairing/pairingceremony_gen.go:200-200 | the exact condition, over all runs with both sides Paired: nothing was substituted exactly if the acceptor's user confirmed a code and the initiator's user confirmed the same one |
| `PairingConfirmed.PairedRunsAreDecided` | pairing/pairingceremony_gen.go:200-200 | in every run with both sides Paired both confirmations are there and decide it, and then each side holds the other's real key |
| `PairingRuns.HonestCeremonyCompletes` | pairing/pairingceremony_gen.go:202-202 | a run with an idle relay and careful users that ends with both sides Paired exists for all parties |
| `PairingCompletes.NextStep` | pairing/pairingceremony_gen.go:202-202 | without interference or cancellation some step is available until both sides are Paired |
| `PairingCompletes.HonestRunsComplete` | pairing/pairingceremony_gen.go:202-202 | every such run has at most seventeen steps, and cannot go further exactly when both sides are Paired |
| `PairingMachines.AcceptorMachine.constructor` | pairing/pairingceremony_gen.go:230-245 | a new acceptor is idle with nothing received |
| `PairingMachines.AcceptorMachine.HandleEvent` | pairing/pairingceremony_gen.go:340-425 | an ignored event and a failing callback change nothing; otherwise the machine takes the table's step exactly when the callback writes the message-dependent fields the table asks for |
| `PairingMachines.InitiatorMachine.constructor` | pairing/pairingceremony_gen.go:447-464 | a new initiator is idle with nothing received |
| `PairingMachines.InitiatorMachine.HandleEvent` | pairing/pairingceremony_gen.go:573-672 | an ignored event and a failing callback change nothing; otherwise the machine takes the table's step exactly when the callback writes the message-dependent fields the table asks for |
| `PairingMachines.AcceptorCallbacks` | pairing/pairingceremony_gen.go:119-129 | which of the acceptor's moves run a callback, told by where they lead |
| `PairingMachines.InitiatorCallbacks` | pairing/pairingceremony_gen.go:132-142 | which of the initiator's moves run a callback, told by where they lead |
| `StateForest.ExpandNode` | protocol/protocol.go:335-352 | expanding a node appends its rows copied to each leaf below it, then its children's |
| `StateForest.FlattenedTransitions` | protocol/protocol.go:322-358 | the table of an actor: its explicit rows, then every superstate row once per leaf; a composed actor's sub-machines in turn |
| `StateForest.RowsOfALeaf` | protocol/protocol.go:322-358 | the rows leaving a state are its explicit ones in order, then its superstates' outermost first as self-loops; a name that is no leaf inherits nothing |
| `StateForest.LoopsKeepTheRow` | protocol/protocol.go:340-346 | an inherited row is its superstate's row in all but its ends, which are both the leaf |
| `StateForest.TableOfAFlatActor` | protocol/protocol.go:326-328 | an actor without a hierarchy has exactly its own rows, in their order |
| `StateForest.ExplicitRowsKept` | protocol/protocol.go:322-358 | no actor loses an explicit row: a plain one starts its table with them, a composed one has every sub-machine's |
| `StateForest.LeavesAreChildless` | protocol/protocol.go:223-235 | the leaf states of a node are exactly the names of the childless nodes at or below it |
| `StateForest.LeavesInOrder` | protocol/protocol.go:226-235 | leaves are listed from left to right |
| `StateForest.RowsOfAComposedActor` | protocol/protocol.go:261-288 | a composed actor's state gets the rows of each sub-machine in turn |
| `StateForest.TableSize` | protocol/protocol.go:322-358 | explicit rows plus, over all superstates, rows times leaves |
| `TransitionTable.ScanTakesTheFirst` | protocol/machine.go:159-186 | the meaning of a table: the enabled row of least index fires, and rejection means none is enabled |
| `TransitionTable.LeafPriority` | protocol/protocol.go:322-358 | in a leaf, explicit rows take precedence over inherited ones and outer superstates over inner ones |
| `TransitionTable.TryAgainstScan` | protocol/machine.go:159-186 | the interpreter stops on an unregistered name exactly when a row it reaches needs one, and otherwise equals the scan |
| `TransitionTable.InterpreterIsScan` | protocol/machine.go:116-186 | with every callback registered, the indexed interpreter takes the row the linear scan takes |
| `TransitionTable.GeneratedMessages` | protocol/gogen.go:426-445 | the generated HandleMessage cases take the row the scan takes, for every environment |
| `TransitionTable.GeneratedSteps` | protocol/gogen.go:447-467 | the generated Step cases take the row the scan takes |
| `TransitionTable.VariableAfter` | protocol/gogen.go:703-714 | what a variable holds after a list of updates: the last literal assigned, or its old value, or 0 if it had none, plus the increments after that; updates left to the action count for nothing |
| `TransitionTable.HandledEffect` | protocol/gogen.go:693-758 | a handled call matched a case, moved to its target with its commands, and left every variable as that list says |
| `TransitionTable.GeneratedEventsByName` | protocol/gogen.go:469-492 | the generated HandleEvent cases are the scan that compares event names, for every table and environment |
| `TransitionTable.OwnRowIffShielded` | protocol/gogen.go:469-492 | in every environment the row HandleEvent picks has the trigger it was called for, exactly if no row of the state answers to that event name under another trigger without an earlier row of the trigger that is unguarded or has the same guard |
| `TransitionTable.GeneratedEvents` | protocol/gogen.go:469-492 | under that exact condition the generated HandleEvent takes the row the scan takes |
| `TransitionTable.ClashesNeedReceiveNames` | protocol/gogen.go:480-486 | the condition holds everywhere in a table without internal events named like receive events |
| `TransitionTable.ClashExample` | protocol/gogen.go:480-486 | with such a name HandleEvent and HandleMessage really go to different states |
| `TransitionTable.AllExecutorsAgree` | protocol/gogen.go:426-492 | where no unregistered callback is reached and that condition holds, interpreter, HandleMessage or Step, and HandleEvent all take the same first enabled row with the same updates; when none fires, a failing action included, no field changes |
| `TransitionTable.WriteMessageCases` | protocol/gogen.go:426-445 | the emission loop writes one case per receive row in table order |
| `TransitionTable.WriteStepCases` | protocol/gogen.go:447-467 | the emission loop writes one case per internal row in table order |
| `TransitionTable.WriteEventCases` | protocol/gogen.go:469-492 | the emission loop writes one case per row, under its event name and with its commands |
| `Interpreter.Machine.constructor` | protocol/machine.go:45-87 | both indexes hold, for every state and name, exactly the table's rows in order |
| `Interpreter.Machine.TryTransitions` | protocol/machine.go:159-186 | the state moves only when a row fires, and then to that row's target |
| `Interpreter.Machine.HandleMessage` | protocol/machine.go:116-127 | a message takes the first enabled row of the table, or is refused without a change; unregistered names are reported exactly when reached |
| `Interpreter.Machine.CollectInternal` | protocol/machine.go:145-155 | whatever order the index is walked in, exactly the internal rows of the current state are collected |
| `Interpreter.Machine.Step` | protocol/machine.go:133-157 | a named event behaves like a message; without a name only an enabled internal row can fire, and refusal means none is enabled |
| `BackendPath.CommandsMatchState` | session_gen.go:1065-1503 | after any run, monitor, both alt readers and alt-ready signal are all on in AltActive and AltDegraded and all off elsewhere, and the four path fields agree |
| `BackendPath.FieldsKept` | session_gen.go:1065-1503 | any single event keeps that agreement of the path fields |
| `BackendPath.RunningKept` | session_gen.go:1065-1503 | obeying the commands of any single event keeps what is running in step with the state |
| `BackendPath.TrafficPasses` | session_gen.go:1414-1500 | in every connected state a traffic event is answered by its one command and no change, alternate-path traffic only on that path, and no other event issues a traffic command |
| `BackendHistory.EntersIff` | session_gen.go:291-325 | each state is entered from another exactly along its listed edges, guard by guard, when that move's callback does not fail |
| `BackendHistory.CommandsMeanMoves` | session_gen.go:1165-1410 | each path command is issued exactly on its move or event: backoff timer, candidates, pair check acknowledgement, datagram key, closing, pings, pong timeouts, resetting the signal |
| `BackendHistory.ClearedWasJudged` | session_gen.go:1095-1147 | a run at StorePaired or beyond took a hello with a valid token, then judged the entered code correct, and passed through nothing else in between |
| `BackendHistory.SessionWasVerified` | session_gen.go:1148-1167 | a run in a session verified the device as known, in AuthCheck, and has been in that session since |
| `BackendHistory.AltWasChallenged` | session_gen.go:1171-1202 | a run on the alternate path took a pair check with a valid challenge and has been on it since |
| `BackendHistory.Decisions` | session_gen.go:1095-1164 | token, code and device: a positive answer lets the backend on, a negative one alone sends it back to Idle, no answer leaves it |
| `BackendHistory.EveryRankWasPassed` | session_gen.go:292-306 | a run at some stage of pairing or authentication has been at every earlier one |
| `BackendTable.Counters` | session_gen.go:308-324 | under the table, ping failures are 0 outside AltDegraded and 1 to limit-1 inside; the backoff level is the capped number of RelayBackoff entries since the last reset and 0 on the alternate path |
| `BackendTable.FallsBackOnTheLimit` | session_gen.go:308-324 | from AltActive with no pong and no other fallback, the machine stays through limit-1 ping timeouts and falls back on exactly the limit-th |
| `BackendMachine.Machine.constructor` | session_gen.go:594-617 | a new backend machine is idle, on the relay, with all counters zero and nothing running |
| `BackendMachine.Machine.HandleEvent` | session_gen.go:1065-1503 | in place: the fields keep agreeing with the state, what is running is in step again once the commands are obeyed, and an error changes nothing |
| `ClientPath.ReadersMatchState` | session_gen.go:1812-2082 | after any run both alt readers run exactly in AltActive, and the alt-ready signal is up exactly when the active path is the alternate one |
| `ClientPath.StaleExactlyAfterRedial` | session_gen.go:379-379 | outside AltActive the path fields name the alternate path exactly while the last departure was a re-dial; the dispatcher recovers when a pair check is given up |
| `ClientPath.RedialExample` | session_gen.go:1958-1965 | a failed re-dial leaves a relayed client whose fields and signal still name the alternate path |
| `ClientPath.TrafficPasses` | session_gen.go:1999-2079 | wherever the client is connected a traffic event is answered by its one command and no change, and no other event issues a traffic command |
| `ClientHistory.EntersIff` | session_gen.go:357-383 | each state is entered from another exactly along its listed edges when that move's callback does not fail |
| `ClientHistory.CommandsMeanMoves` | session_gen.go:1868-1998 | each path command is issued exactly on its move or event, and none of the backend's ever is |
| `ClientHistory.KnownWasCompleted` | session_gen.go:1848-1855 | a run at Paired or beyond completed a pairing and has stayed known since |
| `ClientHistory.SessionWasAuthorized` | session_gen.go:1862-1867 | a run in a session had its authentication accepted and has been in that session since |
| `ClientHistory.ReachingWasInvited` | session_gen.go:1868-1884 | a run that dials, checks or uses the alternate path received candidates with that path enabled |
| `ClientHistory.AltWasAcknowledged` | session_gen.go:1885-1904 | a run in AltActive had its pair check acknowledged and has been there since |
| `ClientHistory.EveryRankWasPassed` | session_gen.go:357-368 | a run at some stage of pairing or authentication has been at every earlier one |
| `ClientMachine.Machine.constructor` | session_gen.go:1520-1532 | a new client machine is idle and on the relay |
| `ClientMachine.Machine.HandleEvent` | session_gen.go:1812-2082 | in place: readers, signal and fields stay in step once the commands are obeyed, and an error changes nothing |
| `RelayHub.InvStep` | session.go:74-99 | registrations, deaths, removals and cancellations keep: every slot's holder registered under that ID, every live registered instance holds its slot |
| `RelayHub.KeepsItsSlot` | session.go:74-99 | a registered instance keeps its slot until its own connection dies or its own unregister runs, whatever others do |
| `RelayHub.StaleUnregister` | session.go:84-99 | unregistering an instance that lost its slot changes no slot, cancels nothing and touches no other instance |
| `RelayHub.RemoveIsLocal` | session.go:84-99 | an unregister never changes who owns another slot |
| `RelayHub.LiveInstancesShareNoId` | session.go:74-99 | two live registered instances share an ID only while one is between its delete and its cancel |
| `RelayHub.RegistrationSucceedsIff` | session.go:68-82 | a registration succeeds exactly when no live registered instance serves the ID |
| `RelayHub.Table.Register` | session.go:74-82 | a live holder keeps its slot, any other gives way |
| `RelayHub.Table.RemoveLocked` | session.go:88-95 | only the current holder empties its slot |
| `RelayHub.Table.Unregister` | session.go:88-99 | the holder's slot is emptied and the holder cancelled; anyone else's call changes nothing |
| `ListenMatching.InvMove` | quicserver.go:235-311 | every step of the listen and connect handlers and of the hub keeps the matching invariant |
| `ListenMatching.OneToOne` | session.go:123-146 | a listen is handed to at most one client and a client gets at most one listen, both of one instance and one ID |
| `ListenMatching.OneCloser` | quicserver.go:261-310 | until a listen is closed exactly one handler answers for it; afterwards none does, and it was closed once |
| `ListenMatching.FailedParkIsNeverMatched` | session.go:123-132 | a listen whose park returned an error was never handed over and never will be |
| `ListenMatching.ClientClosedOnce` | quicserver.go:272-311 | a client connection is closed exactly once, when its handler is done |
| `ListenMatching.ListenMeetsClient` | quicserver.go:255-311 | a listen and a client that ask for a registered ID can always meet: look up, acknowledge, hand over, bridge |
| `ListenMatching.CancelledInstanceFreesAll` | session.go:123-146 | nobody is stuck on a cancelled instance: its parked listens and waiting clients can give up |
| `ListenMatching.ParkErrorsHaveACause` | session.go:123-132 | a park fails only if its own connection or the instance is gone |
| `ListenMatching.WaitErrorsHaveACause` | session.go:137-146 | a wait fails only if the client's connection or the instance is gone |
| `ListenMatching.IdsAreChecked` | quicserver.go:236-277 | in every run a listen that parks names an instance, and a client that waits gave an ID of 1 to 64 characters |
| `Bytes.BigEndianInverse` | webtransport.go:133-134 | fixed-width big-endian integers are read back |
| `Bytes.FromBigEndianInverse` | webtransport.go:148-148 | any header is the encoding of the number it is read as |
| `Bytes.ByteOrders` | webtransport.go:133-148 | in big-endian numbers the first byte counts most, in little-endian ones least |
| `Framing.ParseFrame` | webtransport.go:129-157 | a frame at the head of a stream is read back whatever follows |
| `Framing.RefusedAboveOneMebibyte` | webtransport.go:148-151 | an announced length is refused exactly above 1024 times 1024, and a message is read exactly when all of it is there |
| `Framing.ReadsBackExactly` | webtransport.go:129-157 | any list of messages within the limit is read back exactly, then the stream ends |
| `Framing.ParseIsPrefix` | webtransport.go:143-157 | what a reader accepts are frames at the head of the stream, each within the limit |
| `Framing.Incoming.ReadFull` | webtransport.go:145-147 | exactly n bytes however they are chunked, or everything used up |
| `Framing.Incoming.ReadMessage` | webtransport.go:143-157 | one message, an ended stream or an oversized length, depending only on the bytes and not on the chunks |
| `StreamBridge.Outgoing.WriteMessage` | webtransport.go:129-140 | header then payload, cut where writes start failing; an oversized message writes nothing |
| `StreamBridge.CopyOne` | session.go:321-337 | one turn: forward a message as far as there is room, half-close on a clean end or framing error, reset on a reset |
| `StreamBridge.BridgeStream` | session.go:319-338 | the direction forwards what `Forward` says; the source's sending half and the destination's received bytes are untouched, and only a reset stops the destination's reading |
| `StreamBridge.ForwardsAPrefix` | session.go:319-338 | what was written is a prefix of the whole messages read, and the far reader gets a prefix of exactly those messages, all of them if the direction ended |
| `StreamBridge.ForwardsWholeStreams` | session.go:319-338 | k messages then FIN, or RESET, arrive as those k messages then the same end |
| `Uvarint.RoundTrip` | wire_gen.go:23-27 | any 64-bit value is read back with its length, whatever follows, in at most ten bytes |
| `Uvarint.DecodedFits` | wire_gen.go:36-40 | whatever is decoded fits 64 bits and used one to ten bytes of the input |
| `Uvarint.PutIsBase128` | wire_gen.go:23-27 | the encoding is base 128, least significant group first, with the top bit set on every byte but the last |
| `Uvarint.RefusedIff` | wire_gen.go:36-40 | truncated exactly when at most ten bytes never end the number; overflow exactly when it goes on after ten bytes or ends in a tenth byte above 1 |
| `Wire.FieldRoundTrip` | discovery.go:111-121 | a length-prefixed field is read back with the rest of the input |
| `Wire.FieldReadIff` | discovery.go:111-121 | a field is read exactly when its length decodes and that many bytes follow, and it and the rest make up the input |
| `Wire.StreamHeaderRoundTrip` | wire_gen.go:21-51 | any stream name is read back, whatever follows |
| `Wire.StreamHeaderReadIff` | wire_gen.go:33-51 | a header is accepted exactly when it starts with a whole length-prefixed name |
| `Wire.DatagramRoundTrip` | wire_gen.go:54-81 | any channel ID and payload are read back |
| `Wire.DatagramReadIff` | wire_gen.go:66-81 | a plaintext is accepted exactly when its channel ID decodes, and everything after that is payload |
| `Wire.RoutesRoundTrip` | discovery.go:74-107 | any route list is read back, whatever follows |
| `Wire.EncodeRoutes` | discovery.go:74-83 | the encoding loop writes the count and then every entry in order |
| `Wire.DecodeRoutes` | discovery.go:85-107 | the decoding loop returns the entries, or the first broken field's error |
| `Wire.GreetingRoundTrip` | wire_gen.go:101-195 | a greeting survives exactly when its token has no ':'; the instance ID is free |
| `Wire.GreetingsNeverCollide` | wire_gen.go:101-147 | different greeting variants never share an encoding |
| `Wire.DecodedGreeting` | wire_gen.go:149-195 | whatever is decoded is the greeting's encoding, or one of the spellings with a colon too few or two for nothing |
| `Wire.RefusedGreeting` | wire_gen.go:149-195 | refused are exactly the texts with no variant's word or with something other than ':' after it |
| `SecureChannel.Channel.constructor` | crypto/crypto.go:171-203 | a new channel starts both counters at zero |
| `SecureChannel.Channel.Encrypt` | crypto/crypto.go:238-245 | a frame under the current counter, which then advances modulo 2^64 |
| `SecureChannel.Channel.Decrypt` | crypto/crypto.go:249-280 | acceptance by mode, with the counter moved before the text is opened |
| `SecureChannel.NonceReuse` | crypto/crypto.go:238-245 | two encryptions share a nonce exactly when their ranks agree modulo 2^64 |
| `SecureChannel.NoncesDistinct` | crypto/crypto.go:238-245 | fewer than 2^64 encryptions never share a nonce |
| `SecureChannel.NonceLayout` | crypto/crypto.go:282-286 | a nonce is the counter in eight bytes, least significant first, then four zeros |
| `SecureChannel.StrictDeliversAPrefix` | crypto/crypto.go:261-266 | over any loss, duplication or reordering of the peer's frames strict mode delivers a prefix of what was sent |
| `SecureChannel.StrictInOrder` | crypto/crypto.go:261-266 | frames that all arrive in order are all delivered |
| `SecureChannel.DatagramsDeliverTheRecords` | crypto/crypto.go:267-276 | over any loss, duplication or reordering of the peer's frames datagram mode delivers exactly those numbered above all earlier ones, each at most once |
| `SecureChannel.ShutsOutIff` | crypto/crypto.go:260-276 | for arbitrary bytes: accepting a number shuts out it and all smaller ones, exactly if it is not 2^64-1 |
| `SecureChannel.CounterNeverFalls` | crypto/crypto.go:260-276 | over arbitrary bytes without the number 2^64-1 the receive counter never goes back |
| `SecureChannel.NoNumberTwice` | crypto/crypto.go:247-276 | over such bytes accepted numbers strictly increase, so none is accepted again |
| `SecureChannel.DatagramsOpenTheRecords` | crypto/crypto.go:267-279 | over such bytes a datagram is opened exactly when its number exceeds every number claimed before |
| `SecureChannel.LastNumberRestarts` | crypto/crypto.go:267-276 | one datagram numbered 2^64-1 takes the counter back to zero, and an earlier frame is delivered once more |
| `SecureChannel.StrictPrefixAmongOthers` | crypto/crypto.go:261-279 | strict mode delivers a prefix among arbitrary other datagrams, as long as none that fails to open carries the number expected just then |
| `SecureChannel.StrictLosesIff` | crypto/crypto.go:261-279 | the exact condition: after a datagram that does not open, all undelivered messages can still be delivered exactly if it did not carry the expected number |
| `SecureChannel.StrictSkips` | crypto/crypto.go:261-279 | after such a loss the delivered list is no prefix of what was sent |
| `Fragments.PartWireRoundTrip` | fragment.go:59-101 | a fragment's metadata and ciphertext come back; a whole message comes back as part 0 of 1 |
| `Fragments.DecodedPart` | fragment.go:77-101 | a tagged datagram is exactly the encoding of what is decoded from it; any other first byte means an unframed whole message |
| `Fragments.RefusedPart` | fragment.go:77-101 | refused are exactly datagrams of fewer than two bytes and fragments that no sender produces |
| `Fragments.SplitShape` | api.go:1136-1145 | a split has at least two parts for every limit, so the adjustment of the count is never needed; none is empty or over budget |
| `Fragments.PartCount` | api.go:1122-1139 | one part exactly up to the limit less 35 bytes, and otherwise as few parts as chunks of the limit less 43 allow |
| `Fragments.PartsMakeThePayload` | api.go:1147-1155 | the parts in index order are the payload |
| `Fragments.Slice` | api.go:1148-1155 | each slice is in range and is the part of its index |
| `Fragments.SendChunks` | api.go:1146-1166 | what the transport took is a prefix of the parts' frames under consecutive counters, and a refused part uses up its number too |
| `Fragments.Send` | api.go:1110-1167 | whole or split, with the counter exact after success and failure, or refused beyond 65535 parts before anything is encrypted |
| `Fragments.PartsFitIff` | fragment.go:46-56 | the parts of a split fit the limit exactly when a one-byte part does, which is always so from 44 bytes on |
| `Fragments.WholeFits` | api.go:1122-1133 | a message sent whole fits every limit of at least 36 bytes |
| `Fragments.SendFits` | api.go:1114-1166 | every datagram of a send fits the configured limit from 44 bytes on, or 1200 bytes when none is set |
| `Fragments.PartArrives` | api.go:940-972 | each part of a send, arriving after nothing newer, is delivered with its message ID, index, total and bytes |
| `Fragments.SendArrives` | api.go:940-972 | end to end: the frames of a completed send, delivered in order, come out as all parts in index order, and their bytes concatenate to the payload |
| `Throttle.Limiter.constructor` | faultproxy/faultproxy.go:439-447 | a new limiter is full with one second of burst |
| `Throttle.Limiter.Wait` | faultproxy/faultproxy.go:449-470 | accrual, capping, charging and the length of the sleep |
| `Throttle.RateIsBounded` | faultproxy/faultproxy.go:439-470 | over any calls, bytes released never exceed burst plus rate times time passed plus rate times sleeps, and the tokens stay between 0 and the burst |
| `Throttle.SleepsIff` | faultproxy/faultproxy.go:453-462 | a call sleeps exactly when it asks for more than the bucket holds or has by then |
| `Throttle.ChargesExactly` | faultproxy/faultproxy.go:453-461 | without a sleep the bucket keeps what it had and accrued, capped, less what was asked |
| `Throttle.RestedBurstPasses` | faultproxy/faultproxy.go:439-462 | at any point of any run, after a second of rest one second's bytes pass at once |

## Left out

- QUIC, WebTransport, TLS, HTTP and socket I/O, and dialing: streams are byte sequences, contexts are flags that only go up.
- Real cryptography: HKDF, X25519, AES-GCM and the digits of a confirmation code; codes are not claimed to be collision-free as digits.
- A relay that repeats messages of the ceremony: the documented environment replaces, and the model adds losses, but nothing is replayed.
- PairingRuns.HonestCeremonyCompletes: shows that a completing run exists; that every honest run completes is `PairingCompletes.HonestRunsComplete`.
- BackendMachine.Machine.HandleEvent: the session variables that do not steer the path, such as tokens, codes and nonces, are not modelled.
- ClientMachine.Machine.HandleEvent: the session variables that do not steer the path are not modelled.
- BackendTable.Counters: is about the table's updates; the generated machine leaves the capped backoff increment to its callbacks.
- Interpreter.Machine.Step: without an event name the row that fires depends on map order, so only that it is enabled is stated.
- TransitionTable.WriteMessageCases: names are compared as they stand, so two names with one camel-case constant are not modelled, and parsing update expressions into literals and increments is not either.
- TransitionTable.WriteStepCases: as for WriteMessageCases.
- TransitionTable.WriteEventCases: as for WriteMessageCases.
- PairingRuns.PairedMeansRealKeys: a sufficient rule for users; the exact condition is `PairingConfirmed.PairingIsGenuineIff`.
- SecureChannel.StrictDeliversAPrefix: is about the peer's frames only; other bytes are in `SecureChannel.StrictPrefixAmongOthers`.
- SecureChannel.DatagramsDeliverTheRecords: is about the peer's frames only; other bytes are in `SecureChannel.DatagramsOpenTheRecords`.
- The composite type generated for composed actors, with its routing between sub-machines, and protocol validation and the other exporters.
- The relay actor's session machine, and the older session and path-switch protocols under protocol/.
- The generated HandleMessage and Step of the session machines: they repeat HandleEvent's rows without commands.
- ListenMatching.OneCloser: is about the QUIC handlers; the WebTransport handlers follow the same order.
- StreamBridge.BridgeStream: copies one direction of one stream; the goroutines of the bridge around it, its datagram loops and the stream tracker are not modelled, nor is half-close on WebTransport.
- Fragments.SendChunks: the cipher's own errors are not modelled.
- Fragments.Send: the refusals of a session without a channel or transport and the cipher's own errors are not modelled, and the process-wide message ID counter is a parameter.
- Wire.DecodeRoutes: the allocation sized by the announced count is not modelled.
- Throttle.Limiter.Wait: computes with reals where the source computes with floating-point numbers.
- Go-away signalling, route enumeration over the stream, LAN offers and carrier swaps, the executor behind the commands.
- C bindings and the cross-language channel, taken to have the encrypted channel's contract.
