# gearman-rs in Dafny

A Dafny model of gearman-rs, a client and worker library for the Gearman job server, with proofs
about it. It covers the binary packet codec, the client's connection actor and its demultiplexer
for coalesced jobs, the ketama ring and round-robin routing of submissions, and the worker's grab
loop. `dafny verify dfyconfig.toml` checks everything.

## How it is laid out

| file | what it holds |
|---|---|
| `Wrappers.dfy`, `Protocol.dfy`, `Decimal.dfy` | `Option`/`Result`, packet types with codes and arities, decimal numbers as the crate writes and parses them |
| `WireLaws.dfy` | the wire format byte by byte; when the decoder waits and what it refuses |
| `Codec.dfy` | the wire format, the incremental decoder, streams of packets; the codec's methods over a byte buffer |
| `ClientCore.dfy` | one connection of the client as functions: subscribers of a job, reply queue, what one packet does |
| `ClientSide.dfy` | the actor around it: commands, connections, failures; conservation of commands |
| `ClientActor.dfy` | the same as classes that change in place (`HandleSubscribers`, `ServerActor`), proved equal to the functions |
| `ClientRuns.dfy` | a transition system: the actor, two FIFO wires and a job server that keeps the protocol |
| `ClientTheorems.dfy`, `ClientGuarantees.dfy`, `ClientStreams.dfy` | the coupling invariant, one lemma per kind of step, and what callers get from it |
| `ClientApi.dfy` | requests and the packets they make, the server and channel each call uses |
| `Ketama.dfy`, `KetamaLaws.dfy`, `KetamaRing.dfy`, `KetamaOrder.dfy`, `KetamaSpelling.dfy`, `KetamaTies.dfy` | the ring and its fail-over chain as functions, their laws, the ring's methods, what a walk finds, what is hashed, and colliding points |
| `ServerPool.dfy` | round-robin selection and its counting law, the pool class |
| `WorkerCore.dfy` | a worker connection as a machine of its suspension points; assignments, shutdown, unregistering |
| `WorkerConnection.dfy` | the grab loop, the notification channel and the reporter as classes, proved equal to the machine |
| `WorkerRuns.dfy` | the worker against a job server that keeps the protocol; what the server thinks it can do |
| `WorkerShutdown.dfy` | how a task ends once the shutdown flag is set |
| `WorkerFailures.dfy` | runs in which the worker does not do what one would hope for |
| `JobStory.dfy` | from a handler's reports, through the wire in arbitrary reads, to the submitters' event streams |

Code that changes state in place is a class or a method with loops; each is tied by its `ensures`
to a function of the old state, and the properties are proved about those functions and over runs
of them.

Two environments are modelled. Laws such as `ClientSide.CommandsAreConserved`,
`ClientGuarantees.PruningIsInvisible` or `WorkerCore.HonestIff` hold whatever the other end sends.
The others assume a server that keeps the protocol as the source's comments describe it: requests
are answered in order, each event is sent once per registration with the copies back to back, a
GRAB_JOB gets one reply, and a NOOP goes only to a sleeping worker.

## Where the code does not do what is hoped for

- *NUL bytes.* The encoder does not look for NUL bytes in the arguments before the last. A packet
  it accepts comes back exactly when those arguments are free of NUL (`Codec.EncodedComesBackIff`);
  `Codec.NulInNameIsLost` is a submission that does not.
- *The cursor's word.* Round-robin counts exactly once per turn unless the machine word of the
  cursor wraps in the turn and its size is no multiple of the number of servers
  (`ServerPool.EachOnceIff`, with `ServerPool.WrapSkips` for an input).
- *Requests too large for a packet.* A submission that the codec refuses, over 64 MiB, is taken for
  a lost connection. It fails every other waiting caller and ends every stream of that connection
  (`ClientStreams.RefusedRequestCosts`, `ClientStreams.OversizeIsReachable`).
- *Results too large for a packet.* `Connection::send` fails before anything is written when the
  codec refuses a packet, and `dispatch_job` drops the error. A result whose packet exceeds 64 MiB
  is never sent, the connection lives on, and the next GRAB_JOB follows
  (`WorkerFailures.RefusedResultIsNeverAnswered`, `WorkerFailures.RefusedResultIsReachable`).
- *Reporters that outlive their handler.* A `Reporter` can be cloned and kept. What it then sends
  falls outside its job (`WorkerFailures.StrayReportIsReachable`).
- *A sleeping worker* takes any packet for its wake-up. An assignment sent to it is never answered
  (`WorkerFailures.SwallowedAssignmentIsReachable`); a conforming server sends none
  (`WorkerRuns.ConformingRun`). As long as writes succeed and no handler panics, these three are
  the only ways in which the accounting of assignments breaks (`WorkerCore.HonestIff`).
- *Shutting down.* `Worker::shutdown` waits for its tasks, and the read of the answer to GRAB_JOB
  does not look at the flag. A server that is silent there holds it up
  (`WorkerShutdown.StandsStillIff`); one that keeps the protocol does not
  (`WorkerShutdown.ShutdownOfARunFinishes`).
- *Unregistering a stranger.* The documentation of `Worker::unregister` calls it a no-op for a
  function that was never registered; the code broadcasts in any case. It is a no-op exactly in the
  case of `WorkerCore.UnregisteringAStrangerIff`. Otherwise it can send a CANT_DO
  (`WorkerFailures.StrangerIsRetractedIsReachable`) or push the retraction of another function out
  of a full channel (`WorkerFailures.OverflowIsReachable` with a name never registered).
- *Lost retractions.* A function unregistered after the CAN_DO packets and before the discard of
  old notifications stays advertised (`WorkerRuns.DrainRace`, `WorkerFailures.DrainRaceIsReachable`),
  and so does one whose notification is pushed out of the full broadcast channel
  (`WorkerRuns.OverflowLoses`, `WorkerFailures.OverflowIsReachable`). These are the only two ways
  (`WorkerRuns.ForgetsIff`, `WorkerRuns.StaysKept`). The discard also stops at the first report of
  lost notifications; what it leaves queued is harmless.
- *Colliding points.* Points of different servers with equal values have no fixed order on the
  ring. The choice of owner is the same on all rings of a list if and only if no two entries share
  a point (`KetamaTies.RingsAgreeIff`), and a list of distinct addresses is independent of its
  order under the same condition (`KetamaTies.OrderIndependentIff`). `h` and `h:4730` share all their
  points (`KetamaTies.SpellingsCollide`). The consistent-hashing law is stated without collisions;
  everything else about the ring holds for any order among ties.

## Model

| member | source | states |
|---|---|---|
| Protocol.FromCodeOfCode | src/protocol/command.rs:132-188 | the code of every packet type reads back as that type |
| Protocol.CodeOfFromCode | src/protocol/command.rs:132-188 | a number that reads as a type is that type's code, so no two numbers mean one type |
| Protocol.FromCodeIff | src/protocol/command.rs:132-188 | a number reads as a type exactly when it is its code |
| Protocol.UnassignedCodes | src/protocol/command.rs:135-181 | exactly the unassigned numbers are refused, naming the number |
| WireLaws.TypesAreListed | src/protocol/command.rs:132-222 | every type has the number and the count of arguments that the protocol lists for it |
| Decimal.ParseFormat | src/client/mod.rs:762-763 | a number written in decimal parses back, or is refused exactly when it is too wide for the type |
| Decimal.FormatIsCanonical | src/worker/mod.rs:307 | numbers are written without leading zeros |
| Decimal.ParsesIff | src/client/ketama.rs:123-126 | a string is read as a number exactly when it spells it, with a plus sign or leading zeros or none, and the number is not too wide |
| Codec.SplitIff | src/protocol/packet.rs:76-111 | splitting finds the one list of arguments that has the type's length, no NUL before the last one, and joins to the payload, whenever there is one |
| Codec.SplitArgs | src/protocol/packet.rs:80-111 | the loop returns that list, or the type's error when no list reads as the payload |
| Codec.EncodedBodyLen | src/protocol/packet.rs:69-74 | the declared length is the number of body bytes written |
| Codec.DecodeIff | src/protocol/codec.rs:44-75 | decoding yields a packet and a rest exactly when the packet is well-formed and the bytes are its encoding followed by the rest |
| WireLaws.WaitsIff | src/protocol/codec.rs:44-69 | the decoder asks for more exactly when it has less than twelve bytes or a proper beginning of a frame with a valid header and a body within the cap |
| WireLaws.FailsIff | src/protocol/codec.rs:49-75 | it fails with an error exactly when that is what is wrong with the bytes, the first of magic, type, length and body, each named by its own field |
| WireLaws.FrameLayout | src/protocol/codec.rs:96-106 | a packet's bytes: a NUL and REQ or RES, type and length as big-endian words, the body |
| Codec.DecodeStable | src/protocol/codec.rs:44-75 | a packet or an error, once decoded, is not changed by bytes that arrive later |
| Codec.GearmanCodec.Decode | src/protocol/codec.rs:44-75 | one call on the buffer in place: result and remaining bytes, error order included; a request for more bytes leaves the buffer alone |
| Codec.GearmanCodec.Encode | src/protocol/codec.rs:81-107 | succeeds exactly for the right arity and a body within the cap, appends the wire form, and leaves the buffer alone on error |
| Codec.FramedReader.Read | src/protocol/codec.rs:44-75 | the loop of append, then decode until more is wanted, is the stream function that the next laws are about |
| Codec.ChunkingIndependence | src/protocol/codec.rs:44-75 | for any bytes and any split into reads: same packets, same first error, same bytes left over |
| Codec.StreamRoundTrip | src/protocol/codec.rs:78-107 | encoding any list of well-formed packets and decoding the bytes gives the list, whatever follows |
| Codec.StreamReencodes | src/protocol/codec.rs:44-75 | conversely, a stream is the encodings of the packets it produced, then what is left: less than a frame, or one unreadable frame and the rest after an error |
| Codec.EncodedComesBackIff | src/protocol/codec.rs:81-107 | a packet the encoder accepts is decoded unchanged if and only if its arguments before the last are NUL-free |
| Codec.NulInNameIsLost | src/client/mod.rs:215-219 | a concrete submission that the encoder accepts is read back as one of another function, with another unique id and payload |
| ClientCore.TerminalRound | src/client/mod.rs:578-601 | from any cursor, n terminal copies to n slots visit each slot once despite swap_remove, and the slots run out with the last copy |
| ClientCore.Round | src/client/mod.rs:578-601 | as many other copies as slots visit every slot once, in order from the cursor, and restore the cursor |
| ClientCore.RunCopies | src/client/mod.rs:751-788 | handling copies of one event packet is delivering to the slots of its job in turn, and touches nothing else |
| ClientCore.SweptClean | src/client/mod.rs:608-616 | after a sweep no slot is left to a dropped stream, and every other slot and every cursor is as it was |
| ClientCore.RepliesTakeTheOldest | src/client/mod.rs:698-736 | every reply takes the oldest request and no other: one of its kind answers it, any other drops its oneshot |
| ClientActor.HandleSubscribers.Add | src/client/mod.rs:572-574 | appends a live slot |
| ClientActor.HandleSubscribers.Deliver | src/client/mod.rs:578-601 | new slots and cursor, the one stream that gets the event, and whether slots remain |
| ClientActor.HandleSubscribers.Prune | src/client/mod.rs:608-616 | empties the slots of dropped streams and keeps their places |
| ClientActor.ServerActor.DispatchWorkEvent | src/client/mod.rs:751-788 | one copy goes to its job's subscribers, and the map entry goes with the last slot |
| ClientActor.ServerActor.HandleIncoming | src/client/mod.rs:692-749 | the new reply queue and subscribers and what callers are sent, for every packet; a mismatched reply still takes the front of the queue |
| ClientActor.ServerActor.PruneClosedSubscribers | src/client/mod.rs:608-616 | the sweep over all jobs |
| ClientActor.ServerActor.FailAllPending | src/client/mod.rs:677-690 | every waiting request is told that the connection is closed, in order |
| ClientActor.ServerActor.ActorLoop | src/client/mod.rs:624-675 | the loop over one connection is a run of the client side's machine |
| ClientActor.ServerActor.RunServerActor | src/client/mod.rs:463-519 | so is the whole life of the actor, over any number of connections |
| ClientSide.CommandsAreConserved | src/client/mod.rs:624-690 | for any server and any failures, a command put on the channel is queued, or waiting, or resolved, as often as it was put there |
| ClientSide.QueueSurvives | src/client/mod.rs:463-519 | commands leave the channel only from the front, so those not taken survive in order to the next connection, and off a connection nothing waits for a reply |
| ClientSide.ResolvedAtMostOnce | src/client/mod.rs:463-519 | the oneshot of each command is used at most once, and exactly once when it has left the channel and the connection is gone |
| ClientSide.StopsOnlyWithoutClients | src/client/mod.rs:502-517 | an actor stops only when the last Client is gone and its channel is empty; lost connections never stop it |
| ClientTheorems.SubmitsKeeps | src/client/mod.rs:299-305 | a new command on the channel keeps the coupling invariant |
| ClientTheorems.TakesKeeps | src/client/mod.rs:640-648 | taking and sending a command keeps it |
| ClientTheorems.AcceptsKeeps | src/client/mod.rs:551-564 | the server's answer to its oldest request keeps it, registering a foreground submission |
| ClientTheorems.BroadcastsKeeps | src/client/mod.rs:551-564 | one event, sent once per registration back to back, keeps it, terminal events included |
| ClientTheorems.DeliversKeeps | src/client/mod.rs:664-668 | handling the next packet keeps it |
| ClientTheorems.SweepsKeeps | src/client/mod.rs:635-637 | a prune sweep keeps it |
| ClientTheorems.BrokenKeeps | src/client/mod.rs:673-690 | losing the connection, with packets on both wires, keeps it |
| ClientTheorems.Coupling | src/client/mod.rs:551-564 | in every reachable state, replaying the wire through the client ends with one slot per registration, in order, and every cursor at 0 |
| ClientGuarantees.ExactlyOnce | src/client/mod.rs:551-602 | in every run, any coalescing and interleaving: a stream has a prefix of the events broadcast since its JOB_CREATED, in order, nothing after a terminal one, and all of them once the wire is read |
| ClientGuarantees.NothingIsStranded | src/client/mod.rs:692-788 | from any reachable state the packets now on the wire complete every open stream of the connection |
| ClientGuarantees.OwedEndsWithTerminal | src/client/mod.rs:551-564 | what a stream is owed has no terminal event but its last |
| ClientGuarantees.FifoPairing | src/client/mod.rs:692-736 | in every run the next reply finds a request of its kind at the front, no oneshot is dropped, and a JOB_CREATED finds its job's cursor at 0 |
| ClientGuarantees.OwnReply | src/client/mod.rs:628-671 | every caller gets the server's reply to its own request, at most once, or an error about the connection |
| ClientGuarantees.SlotsAreRegistrations | src/client/mod.rs:560-564 | with the wire empty, slots are the server's registrations, job by job and in order; only dropped streams have empty slots |
| ClientGuarantees.PruningIsInvisible | src/client/mod.rs:604-616 | any sweeps at any points of any run leave events, replies, slot counts and cursors of open streams as they are without them |
| ClientGuarantees.TerminalCopiesRetireTheJob | src/client/mod.rs:578-601 | for any earlier history, n terminal copies give each of n slots its event once; the job's entry goes with the n-th and not before |
| ClientStreams.AwaitResult | src/client/mod.rs:345-363 | the waiting loop returns what the first terminal event says, and the loss of the connection when the stream ends without one |
| ClientStreams.StreamEndsWithConnection | src/client/mod.rs:677-690 | in every run, the last Client dropped included, the open stream of an accepted submission that has had no terminal event ends exactly when its connection does |
| ClientStreams.ClosedIffConnectionEnded | src/client/mod.rs:345-363 | in every run the caller is told that the connection is closed exactly when it ended before a terminal event was delivered |
| ClientStreams.FirstTerminalDecides | src/client/mod.rs:345-360 | the first terminal event of a stream decides: the payload of a completion, the failure, or the payload of an exception |
| ClientStreams.ReportedResultIsTheJobs | src/client/mod.rs:331-364 | in every run a caller that was sent a terminal event is told what the first terminal event broadcast for its job since JOB_CREATED says |
| ClientStreams.TakeKeepsConnectionIff | src/client/mod.rs:641-661 | a connection outlives the sending of a request exactly when the codec takes its packet and the write works |
| ClientStreams.RefusedRequestCosts | src/client/mod.rs:641-675 | what a request costs that the codec refuses, whatever the server did: its caller, every waiting caller and every stream of the connection, and nothing that is still on the channel |
| ClientStreams.RefusedRequestEndsStreams | src/client/mod.rs:641-647 | in every run that comes to such a request, each open stream of the connection without a terminal event is reported lost |
| ClientStreams.OversizeIsReachable | src/client/mod.rs:641-647 | a run from the start in which one caller's oversize submission ends the accepted job's stream of another |
| ClientApi.RequestsAreReadableIff | src/client/mod.rs:214-291 | each request's packet has its type's arity, and is decoded unchanged exactly when the names in it are NUL-free |
| ClientApi.WireTellsRequestsApart | src/client/mod.rs:409-419 | two readable requests have the same bytes exactly when they are the same but for an absent unique id written as an empty one: priority, background, epoch and reducer all count |
| ClientApi.ServerReadsWhatIsAsked | src/client/mod.rs:214-291 | the packet of a request, read by its type and arguments, is that request: priority, function, unique id, reducer, epoch, payload; and the actor keeps a stream exactly when its type brings events |
| ClientApi.SameUniqueSameServer | src/client/mod.rs:283-287 | submissions with one unique id stay on one server while the servers on its chain up to that one are as they were |
| ClientApi.Client.SubmitPacket | src/client/mod.rs:276-305 | one new command on the channel of one server that is up, refused exactly when all are down; with a ring and a unique id it is the ring's choice |
| ClientApi.Client.FinishSubmit | src/client/mod.rs:307-316 | exactly a JOB_CREATED makes a handle, and it names the server whose channel the submission went on; an ERROR, a failed send, a closed connection and a dropped oneshot each give their own error |
| ClientApi.Client.GetStatus | src/client/mod.rs:376-388 | the query for a handle goes on the channel that holds the submission the handle answers, behind it, and on no other |
| ClientApi.Client.GetStatusUnique | src/client/mod.rs:392-406 | the same by unique id, refused exactly when the handle has none |
| Ketama.SpelledPort | src/client/ketama.rs:110-128 | every spelling of a nonzero 16-bit port names the same endpoint |
| Ketama.SpelledPortInBrackets | src/client/ketama.rs:110-128 | the same for a bracketed IPv6 host, without the brackets |
| Ketama.CanonicalPort | src/client/ketama.rs:110-128 | a canonical port is kept; an absent or zero port is 4730 |
| KetamaSpelling.HostAndPort | src/client/ketama.rs:116-127 | host:port names the host and the port that is spelled, leading zeros or a plus sign included; a port that spells none, or 0, is 4730 |
| KetamaSpelling.BareIPv6 | src/client/ketama.rs:117-121 | an address with two colons or more and no bracket is a host with port 4730 |
| KetamaSpelling.Bracketed | src/client/ketama.rs:111-115 | a bracketed host, with a port, without one or with anything else after it |
| KetamaSpelling.Unclosed | src/client/ketama.rs:111-115 | a bracket that is never closed is part of the host |
| KetamaSpelling.KeyOfCanonical | src/client/ketama.rs:34 | the key of a canonical address is the address as written, a dash and the replica |
| KetamaSpelling.KeysDiffer | src/client/ketama.rs:34 | different endpoints or replicas never share a key |
| KetamaSpelling.PointsAreOfTheEndpoint | src/client/ketama.rs:33-38 | a point is a word, lowest byte first, of the digest of its endpoint's key |
| KetamaSpelling.HashIsOfTheId | src/client/ketama.rs:65-104 | the hash of a unique id is the first word of its own digest, so two ids hash alike exactly when their digests begin alike |
| KetamaRing.Ring.New | src/client/ketama.rs:29-42 | the ring is a sorted permutation of the points of the listed servers |
| KetamaRing.PartitionPoint | src/client/ketama.rs:66 | binary search finds the first point not below the hash |
| KetamaRing.Ring.WalkChain | src/client/ketama.rs:68-79 | the loop ends, and finds the first healthy server of the unbounded chain exactly when there is one: the cut-off at a repetition loses nothing |
| KetamaRing.Ring.FindNextAfter | src/client/ketama.rs:88-98 | the first other server on from the failed server's first point |
| KetamaRing.Ring.Select | src/client/ketama.rs:56-84 | the choice is the chain's first healthy server, else the first in ring order from the hash |
| KetamaLaws.ChosenOnHit | src/client/ketama.rs:44-55 | when the unbounded chain has a healthy server, its first one is the choice |
| KetamaOrder.NextAfterIsNext | src/client/ketama.rs:86-98 | the fail-over step takes the first point past the failed server's first one that is another server's; all in between are its own |
| KetamaOrder.FallbackIsNearest | src/client/ketama.rs:81-83 | with no healthy server on the chain the choice is the first healthy one in ring order from the hash, and no healthy server owns a nearer point |
| KetamaLaws.RepeatAddsNothing | src/client/ketama.rs:68-79 | after a repetition the chain visits no server it has not visited |
| KetamaLaws.HitIsEarly | src/client/ketama.rs:68-79 | a hit comes before the chain is as long as the number of servers |
| KetamaLaws.ChosenIsHealthy | src/client/ketama.rs:44-84 | a server is chosen exactly when the ring has a healthy one, and it is healthy and on the ring |
| KetamaLaws.ChoiceIsSticky | src/client/ketama.rs:68-79 | a choice made on the chain depends only on the servers of the chain up to it |
| KetamaLaws.OwnerIsNearest | src/client/ketama.rs:64-68 | the first server is the owner of a point at the least distance ahead of the hash, round the circle |
| KetamaLaws.AddingMovesOnlyToTheNew | src/client/ketama.rs:29-42 | adding a server anywhere in the list moves a hash only to it, and exactly when one of its points is nearer; read backwards, removing one moves only what it owned |
| KetamaLaws.ChosenWhenAllHealthy | src/client/ketama.rs:64-72 | with every server up the choice is that owner |
| KetamaLaws.RelabelChosen | src/client/ketama.rs:56-98 | selection, fail-over and fallback commute with renaming the servers |
| KetamaLaws.ListOrderIsIrrelevant | src/client/ketama.rs:29-98 | with no collisions, a permuted list gives the same address for every hash and every health of the addresses |
| KetamaLaws.SixteenPointsEach | src/client/ketama.rs:30-41 | every listed server has exactly sixteen points |
| KetamaTies.RingsAgreeIff | src/client/ketama.rs:40 | all rings that the unstable sort can leave choose the same owner for every hash if and only if no two list entries share a point |
| KetamaTies.OrderIndependentIff | src/client/ketama.rs:29-98 | a list of distinct addresses chooses the same address in any order, for every hash and every health, fail-over included, if and only if no two of them share a point |
| KetamaTies.SpellingsCollide | src/client/ketama.rs:107-128 | a host without a port and the same host with port 4730 share every point, whatever MD5 is, so a list with both depends on its order |
| ServerPool.Pool.AnyHealthy | src/client/multi.rs:48-50 | whether some server is connected |
| ServerPool.Pool.NextHealthy | src/client/multi.rs:77-86 | the first connected server from the cursor on, and the cursor one further, wrapping with its word |
| ServerPool.Pool.SelectForSubmit | src/client/multi.rs:63-70 | by ring for a non-empty unique id when there is a ring, else round-robin; fails exactly when all are down |
| ServerPool.PickFailsOnlyWhenAllDown | src/client/multi.rs:83-85 | a pick fails exactly when every server is down, and never takes one that is |
| ServerPool.PickGoesTo | src/client/multi.rs:83-85 | a pick goes to a server exactly when it starts at most as far behind it as the run of down servers before it is long |
| ServerPool.RoundRobinCounts | src/client/multi.rs:77-86 | in one turn of picks a server that is up is taken once, and once more for each consecutive down server just before it |
| ServerPool.Pool.FullTurn | src/client/multi.rs:77-86 | the same of the calls themselves: as many of them as there are servers return each server that is up so often |
| ServerPool.EachOnceIff | src/client/multi.rs:82 | with all up, each is taken once per turn if and only if the cursor's word does not wrap in it or its size is a multiple of the number of servers |
| ServerPool.WrapSkips | src/client/multi.rs:82 | three servers, all up, and a cursor about to wrap: one turn picks the first twice and the last not at all |
| WorkerCore.AssignmentsAreAnswered | src/worker/mod.rs:298-483 | whatever the server sends, in every run without the three inputs of HonestIff: each connection carries registrations, then rounds of retractions, a GRAB_JOB and its answer; an assignment is followed by its reports and exactly one terminal packet with its handle, NO_JOB by PRE_SLEEP; a connection is left owing only by a failed write or a panic |
| WorkerCore.HonestIff | src/worker/mod.rs:376-482 | those rules of the wire break in exactly three ways: an assignment reaches a sleeping worker, the codec refuses a result too large for a packet, or a report gets through from a reporter that outlived its handler |
| WorkerCore.ShutdownIsPrompt | src/worker/mod.rs:336-338 | after the flag is set at most one more GRAB_JOB is sent and at most one more job started; neither, unless the loop had passed its check |
| WorkerShutdown.FewStepsLeft | src/worker/mod.rs:232-283 | however inputs interleave, a task makes at most four more steps of its own once the flag is set, and none that does not bring it nearer its end |
| WorkerShutdown.StandsStillIff | src/worker/mod.rs:357-388 | a task that is shutting down has a step of its own in every phase but three: over, reading the answer to GRAB_JOB, which only a packet or the end of the connection ends, and running a handler, which only its return or panic ends |
| WorkerShutdown.ServerLetsGo | src/worker/mod.rs:357-360 | a server that answers what it was sent always lets it out of the read |
| WorkerShutdown.WaitsUntil | src/worker/mod.rs:357-388 | a worker sleeps exactly until a packet, the end of its connection or the shutdown; it reads exactly until the first two; a lost connection is left |
| WorkerShutdown.EndsOnlyOnDemand | src/worker/mod.rs:221-283 | in every run a task ends only if it was told to shut down or a handler panicked |
| WorkerShutdown.ShutdownOfARunFinishes | src/worker/mod.rs:199-210 | from every state of every run with the flag set, answers of the server, returning handlers and its own steps take the task to its end |
| WorkerCore.UnregisteredNeverStarts | src/worker/mod.rs:437-453 | in any run no handler ever starts for a function that is not registered, so none does after it is unregistered |
| WorkerCore.UnregisteringAStrangerIff | src/worker/mod.rs:189-197 | in every state of every run, unregistering a function that is not registered leaves a connection as it is exactly when its channel is full of notifications of that function and known to have lost some |
| WorkerConnection.Notices.TryRecv | src/worker/mod.rs:402-416 | a report of lost notifications once, then the oldest notification, then nothing |
| WorkerConnection.GrabLoop.RegisterFunctions | src/worker/mod.rs:298-319 | one CAN_DO or CAN_DO_TIMEOUT per function, in the order of the iteration, up to the first that the codec refuses or whose write fails |
| WorkerConnection.GrabLoop.DiscardOld | src/worker/mod.rs:262 | empties the channel, but stops at a report of lost notifications |
| WorkerConnection.GrabLoop.FlushUnregistrations | src/worker/mod.rs:399-418 | a CANT_DO for each notification in order, past reports of lost ones, up to the first that is refused or whose write fails |
| WorkerConnection.GrabLoop.DispatchJob | src/worker/mod.rs:420-466 | the job the handler is given, with the fields of its kind of assignment, or WORK_FAIL when the function is not registered |
| WorkerConnection.GrabLoop.TakeReply | src/worker/mod.rs:362-392 | the new state and wire for every reply to GRAB_JOB |
| WorkerConnection.GrabLoop.Finish | src/worker/mod.rs:468-482 | the terminal packet of a handler's result; one that the codec refuses is not sent, and the connection lives on |
| WorkerConnection.GrabLoop.RunWorkerConnection | src/worker/mod.rs:221-283 | the life of a connection task is a run of the machine in WorkerCore |
| WorkerConnection.Reporter.ReportStatus | src/worker/job.rs:67-77 | a WORK_STATUS on the job's own connection with its handle and both counts, or an error: one of the codec leaves the connection usable, one of the write does not |
| WorkerConnection.Reporter.SendData | src/worker/job.rs:80-86 | the same for WORK_DATA, too large a chunk included |
| WorkerConnection.Reporter.Warn | src/worker/job.rs:89-95 | the same for WORK_WARNING |
| WorkerRuns.ConformingRun | src/worker/mod.rs:329-394 | in every run at most one GRAB_JOB is unanswered, a waiting worker reads the answer to it, and a sleeping one reads a NOOP |
| WorkerRuns.StaysHonestIff | src/worker/mod.rs:329-482 | with such a server a step breaks the accounting exactly when the codec refuses a result or a reporter that outlived its handler speaks |
| WorkerRuns.EveryAssignmentIsAnswered | src/worker/mod.rs:329-482 | in every run without those two no assignment of any connection goes without its one terminal packet |
| WorkerRuns.NobodyIsForgotten | src/worker/mod.rs:366-388 | a waiting worker's request or its answer is on the wire; a sleeping worker's announcement, the server's note of it, or its NOOP exists |
| WorkerRuns.JobsShowWhatTheModeGrabs | src/worker/job.rs:32-53 | in every run the job about to start has a unique id exactly when the worker grabs with Uniq or All, and a reducer only with All |
| JobStory.GrabsSuit | src/worker/mod.rs:345-349 | each mode sends the request that is answered by the assignment showing what the mode shows |
| JobStory.AnyJobCanBeGiven | src/worker/mod.rs:345-365 | from every waiting state of a run the server can give the worker any job of a function it has, with its unique id and, in mode All, its reducer |
| JobStory.UnregisteredJobFails | src/worker/mod.rs:442-453 | the submitter of a job whose function the worker does not have is told that it failed |
| WorkerRuns.AbilitiesAreBounded | src/worker/mod.rs:249-262 | in every run in which no retraction is lost, the server's ability set contains the registry and lies within it and the queued notifications |
| WorkerRuns.StaysKept | src/worker/mod.rs:194-197 | a step of the system breaks that bound if and only if it is an unregistration that loses a retraction |
| WorkerRuns.ForgetsIff | src/worker/mod.rs:259-262 | unregistering loses one exactly between CAN_DO and discard, or by pushing a still advertised function out of the full channel |
| WorkerRuns.DrainRace | src/worker/mod.rs:259-262 | from any such state the function stays advertised with nothing queued to retract it |
| WorkerFailures.DrainRaceIsReachable | src/worker/mod.rs:249-262 | a run from the start that ends there |
| WorkerRuns.OverflowLoses | src/worker/mod.rs:402-416 | a notification pushed out leaves its function advertised, with nothing queued, and a flush does not change that |
| WorkerFailures.OverflowIsReachable | src/worker/mod.rs:194-197 | a run from the start in which sixteen of seventeen functions are unregistered before the loop flushes, and then any name but the first of them, registered or not: the first stays advertised |
| WorkerFailures.StrangerIsRetracted | src/worker/mod.rs:194-197 | unregistering a function that was never registered sends CANT_DO for it from any loop that finds its queue empty |
| WorkerFailures.StrangerIsRetractedIsReachable | src/worker/mod.rs:194-197 | a run from the start that ends with such a CANT_DO |
| WorkerFailures.RefusedResultIsNeverAnswered | src/worker/mod.rs:468-482 | after any result that the codec refuses the next GRAB_JOB goes out on the same live connection with the job unanswered |
| WorkerFailures.RefusedResultIsReachable | src/protocol/codec.rs:91-94 | a run from the start in which a handler returns 64 MiB and that happens |
| WorkerFailures.SwallowedAssignmentIsReachable | src/worker/mod.rs:376-388 | a run in which a sleeping worker takes an assignment for its wake-up and asks for the next job |
| WorkerFailures.StrayReportIsReachable | src/worker/job.rs:56-63 | a run from the start in which a kept clone of a reporter speaks for a job that is over |
| JobStory.ReportIsSeen | src/worker/job.rs:65-96 | a report reads back on the client as the event with the same contents |
| JobStory.StoryIsTold | src/client/mod.rs:751-788 | a handler's reports and result, sent once per registration, cut into any reads, decoded and dispatched, are in order what every open stream of the job yields, however many share it, and the job is then forgotten |
| JobStory.StatusReadsBack | src/client/mod.rs:790-810 | a status written by the server is the status the caller gets, with its client count when asked by unique id |
| JobStory.StatusIsRead | src/client/mod.rs:790-810 | of any status packet: only "1" is true, a count that spells no 64-bit number is 0, and the number of clients is one that is spelled or none |
| JobStory.ErrorReadsBack | src/client/mod.rs:724-736 | an ERROR on the wire tells whoever waits its code and its text |
| JobStory.CreatedReadsBack | src/client/mod.rs:698-704 | a JOB_CREATED on the wire tells the submitter the handle |
| JobStory.AssignmentReadsBack | src/worker/mod.rs:423-435 | an assignment, encoded and decoded, gives the handler the handle, function, unique id, reducer and payload that were sent |
| JobStory.RegistrationReadsBack | src/worker/mod.rs:302-316 | the decoded CAN_DO names the function and its timeout |

## Left out

- TCP, TLS, boxed streams and `Framed`'s own buffering: a connection is two packet sequences that may be cut; leftover bytes at end of stream are not turned into an error.
- MD5: a parameter from byte strings to 16 bytes, without hypotheses beyond those named in a lemma.
- UTF-8: names and handles are compared as bytes, so the cases in which `arg_str` refuses bytes that are not UTF-8 do not arise.
- Timers, backoff durations and the connect deadline: an interval or a delay that ends is a step that may happen at any time.
- `negotiate_exceptions`: part of a connection attempt that succeeds or fails.
- Scheduling inside a step: a server's health does not change during one selection, `Worker::unregister` removes and notifies in one step, and so do connecting and registering.
- Handlers and callers: a handler's reports and result are arbitrary; a panic ends its connection task.
- Kept reporters: what a clone sends after the loop has left its connection, between the loop's reading of a packet and its answer to it, or between its sending of GRAB_JOB or PRE_SLEEP and the read that follows, is not tracked; each is a stray report.
- Several connections of one worker share the registry and the shutdown flag; one of them is modelled, with its own receiver of the notifications.
- `connect`, `all_attempted`, the builders, the admin text client, logging and error texts: only easy members.
- The width of counts: `Decimal` bounds them where they are parsed; a worker's counts are arbitrary naturals, and 64-bit ones where they are read back.
- The width of `usize`: the cursor's word is taken to be 64 bits wide.
- Resubmission: a stream that loses its connection before a terminal event keeps what it has; the code resubmits nothing.
- KetamaLaws.AddingMovesOnlyToTheNew: assumes that no two servers of the longer list share a point, as ties have no fixed order.
- KetamaLaws.ListOrderIsIrrelevant: assumes the same for both lists.
