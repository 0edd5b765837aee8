# A verified model of the MQTT server's hard core

This project models, in Dafny 4.11, the parts of the server whose correctness is
hardest to see by reading one function at a time, and proves what they promise
for every input, every interleaving and every run. `dafny verify dfyconfig.toml`
checks all of it.

**Remote authorization** (`src/auth/mqtt_auth_remote.cpp`)

- `LeaseCache.dfy`: the LRU lease cache of one shard, updated in place, as a
  refinement of a map whose keys carry the time of their last touch.
- `AuthDecision.dfy`: how a reply of the policy service becomes a decision.
- `RemoteAuth.dfy`: lookups, single-flight jobs, the workers that take them,
  completions, polls, waits and both kinds of invalidation as a machine over
  atomic steps. A step is one critical section, or one load of an atomic or a
  clock inside one: a completion enters its callback, loads the second counter,
  loads the revision, reads the wall clock and reads the monotonic clock in five
  steps, with the shard's lock held and anything else in between.
- `RemoteAuthSteps.dfy`, `RemoteAuthTimes.dfy`, `RemoteAuthHands.dfy`: three
  invariants every step keeps, of the fence and the shards, of the clock readings
  and leases, and of who holds which job.
- `RemoteAuthRuns.dfy`, `RemoteAuthTheorems.dfy`, `RemoteAuthAnswers.dfy`,
  `RemoteAuthLeases.dfy`, `RemoteAuthGrants.dfy`: what follows for every run, about
  invalidations and jobs, the service's answers, leases, and grants.
- `RemoteAuthWitness.dfy`: two runs that show what is not promised.
- `WorkQueue.dfy`: the byte-bounded queue, its workers and their batches.
- `BatchReply.dfy`: which request of a batch an answer reaches.
- `CircuitBreaker.dfy`: the breaker, and every legal log of requests and reports.
- `BreakerWorkers.dfy`: the workers around it on both paths, with exceptions at
  any point, as a machine all of whose logs are legal.

**The connection handler** (`src/core/mqtt_protocol_handler.cpp`,
`src/core/mqtt_socket.cpp`)

- `PacketDecoder.dfy`: what the packets of a stream are.
- `PacketCourse.dfy`: the connection loop as a function of what the socket, the
  allocator, the session and the handlers do in each turn, and when the packets it
  hands over are the decoder's.
- `PacketReader.dfy`: the incremental reader with its growing buffer, proved to do
  in each turn what that function says.
- `WireSender.dfy`: one send over partial writes, and many senders behind the
  write lock, down to single system calls.
- `Subscribe.dfy`: SUBSCRIBE over the connection's list, the topic tree and the
  durable record, with its rollbacks.
- `Will.dfy`: what becomes of a will over the life of a connection.

**Strings, buffers, topics and the forwarding pool**

- `Utf8.dfy`, `MqttString.dfy`: the UTF-8 scanner, the control-character scan
  and the length-prefixed fields.
- `Buffer.dfy`: the growable buffer.
- `TopicMatch.dfy`: the matcher of the access rules.
- `ConnectionPool.dfy`: slots reserved under a lock, connections made outside it.

`Basics.dfy`, `Bytes.dfy` and `Wrappers.dfy` hold concatenation, the byte type
and the option type.

## How the outside appears

Clocks are parameters or a step that advances time; the wall clock is the
monotonic one plus a constant. What the network, the allocator, the router, the
policy service, the topic tree, the durable store and the parser do is a
parameter of the operation or a choice in the action, and every choice is
allowed. The cache key is the tuple its digest is computed from, so the digest
counts as injective; the shard of a key and the partition of a user name are
arbitrary functions. Bit masks and shifts on bytes are written as the ranges,
divisions and remainders they stand for. Machine states carry some history (step
numbers, logs of invalidations, clock readings, grants, batches and packets) that
no step consults.

## What does not hold as one might expect

- At most one *unfinished* job per key is not kept: a completion callback takes
  its job out of the pending map before the job's finished flag is set, and a
  caller in between starts another. `SecondUnfinishedJob` is such a run;
  `UnfinishedTogether` says exactly when two coexist, and `SingleFlight` what is
  kept instead: at most one job per key whose callback has not run.
- A grant from the cache may come after the session's or the decision's expiry:
  the wall clock and the monotonic clock are read one after the other when a lease
  is stored (line 622), and the time compared with a lease is read before the
  shard's lock is taken (line 574). `LateGrant` is a run in which both have passed,
  and the lease too by the time of the grant. `ServesInTime` says exactly which
  leases never serve a reading past an expiry, and `LeaseBound` how late a reading
  can be.
- A polled publish or delivery compares session, user, client and topic with its
  job, not the action or the payload (lines 169-171), so a polled grant is for
  the same identity and an unpolled one for the same request.
- A SUBSCRIBE is answered by no SUBACK when the last of its filters that is not
  refused outright cannot be added to the connection's own list: the macros that
  test each step also assign the handler's result. `HandleSubscribe` states it as
  an equivalence on the packet and the table before it, and `SubackSwallowed` gives
  packets that show it.
- A packet may be handed over that the peer never sent. When another coroutine closes
  the socket while a read waits, the read reports as many bytes as were asked for
  and stores none, and what the buffer holds in their place is taken for them
  (`src/core/mqtt_socket.cpp` lines 331 and 375). `ForgedPacket` is an example, and
  `GenuineUnlessForged` says exactly when it happens: in a turn whose read vanishes
  when only a known number of payload bytes is missing, or when a zero left in the
  buffer ends a zero length, and no takeover follows.
- A client's own CONNACK is taken at its word and replaces its session expiry, and
  so can decide whether a later DISCONNECT is in order and deletes the will.
  `ConnackMatters` says exactly when it makes a difference.
- A tree that cannot be put back after a durable failure leaves the connection
  open with its stores in disagreement, and nothing else does: `SubscribeOne`
  states it as an equivalence.
- A pattern that accepts a filter covers all its topics. The converse fails for
  exactly three pairs: `#` under `+/#`, and `/#` under `/+/#` and `+/+/#`
  (`AcceptanceIsCoverage`).
- Amortised copying holds for appends; two explicit reservations already copy
  more than they reach (`ReservationsCopyMore`).
- A string field whose write runs out of memory leaves its first bytes behind;
  `SerializeString` says how many.
- The reader accepts a Remaining Length written with more bytes than needed; the
  decoder does the same, and `DecodeInvertsPackets` is about shortest ones.

## Model

| member | source | states |
|---|---|---|
| LeaseCache.Shard.Touch | src/auth/mqtt_auth_remote.cpp:584-585 | a hit moves the key to the front, which in the reference map is a new stamp and nothing else |
| LeaseCache.Shard.Erase | src/auth/mqtt_auth_remote.cpp:590 | an entry that fails its check leaves the map and the list together |
| LeaseCache.Shard.Clear | src/auth/mqtt_auth_remote.cpp:466-472 | an invalidation empties the shard |
| LeaseCache.Shard.Evict | src/auth/mqtt_auth_remote.cpp:627-629 | the eviction loop ends, and drops entries from the back until one more fits |
| LeaseCache.Shard.Store | src/auth/mqtt_auth_remote.cpp:616-634 | the list stays the keys of a map of last touches in their order; the map forgets its oldest keys, no more than needed for one more, and stamps the new one; the size grows by one up to the shard's share exactly |
| LeaseCache.TouchedRefines | src/auth/mqtt_auth_remote.cpp:584-585 | touching the list refines stamping the map |
| LeaseCache.StoredConsistent | src/auth/mqtt_auth_remote.cpp:616-634 | list and map hold the same keys once each, no other entry changes its value, and the size is exactly one more, or the limit |
| LeaseCache.StoredRefines | src/auth/mqtt_auth_remote.cpp:616-634 | storing refines a map of stamps that forgets its least stamps until one more fits and then stamps the new key, defined without the list |
| LeaseCache.StoredEvictsOldest | src/auth/mqtt_auth_remote.cpp:627-629 | what a store evicts is older than whatever it keeps |
| AuthDecision.Parse | src/auth/mqtt_auth_remote.cpp:317-361 | success exactly for a well-formed, unexpired permission; authoritative exactly when the reply is intelligible; freshness within age within the configured limits, and refusals for at most a second |
| AuthDecision.ParsedLease | src/auth/mqtt_auth_remote.cpp:330-361 | how long a decision may be reused: not at all without an offer, else the least of the limits that apply, and the age exactly |
| AuthDecision.ParseCarries | src/auth/mqtt_auth_remote.cpp:317-361 | an intelligible reply becomes a decision that permits exactly when the service said so and its expiry is ahead, with the reply's expiry and revision; any other becomes no decision |
| AuthDecision.ExpiryIsLeast | src/auth/mqtt_auth_remote.cpp:621-625 | a lease ends at exactly the least of its age and, for each expiry that is set, the monotonic reading plus what is left of it |
| AuthDecision.ExpiryIsExact | src/auth/mqtt_auth_remote.cpp:621-625 | a lease ends by each of its bounds up to the time between its two clock readings, and by a bound itself exactly when none passed or another bound is tighter by that much |
| RemoteAuthSteps.StepPreserves | src/auth/mqtt_auth_remote.cpp:547-641 | every atomic step of callers, workers, completions, polls and invalidations, each load a step of its own, keeps the invariant of fence, shards, pending maps and queue |
| RemoteAuthTimes.StepTimes | src/auth/mqtt_auth_remote.cpp:574-635 | every step keeps clock readings in order and every lease what its job, its two readings and its three loads make it, and forgets no record |
| RemoteAuthHands.StepHands | src/auth/mqtt_auth_remote.cpp:408-453 | every step keeps each unfinished job in the hands of exactly the agent it names |
| RemoteAuthRuns.RunInvariant | src/auth/mqtt_auth_remote.cpp:505-641 | all three invariants hold in every state of every run |
| RemoteAuthRuns.GuardsHold | src/auth/mqtt_auth_remote.cpp:547-641 | the conditions that make a step defined never keep a real step from happening |
| RemoteAuthRuns.AgentsHold | src/auth/mqtt_auth_remote.cpp:420-451 | an answer or a publication is made by a worker or caller that has the job in hand |
| RemoteAuthRuns.CallsMayMove | src/auth/mqtt_auth_remote.cpp:547-641 | nothing but the shard's lock keeps a call from its next step up to submitting its job |
| RemoteAuthRuns.WaitersMayMove | src/auth/mqtt_auth_remote.cpp:108-157 | nothing but its job's flag keeps a waiting or polling call from its next step |
| RemoteAuthRuns.CallsMayBegin | src/auth/mqtt_auth_remote.cpp:160-180 | a caller whose session has not expired may begin a call, or poll a job of its own identity |
| RemoteAuthRuns.JobsMayMove | src/auth/mqtt_auth_remote.cpp:420-453 | nothing but its worker's gathering and the shard's lock keeps a job from its next step |
| RemoteAuthRuns.CompletionsMayMove | src/auth/mqtt_auth_remote.cpp:607-636 | inside its callback nothing keeps a completion from its next step |
| RemoteAuthRuns.ReadingsAreSteps | src/auth/mqtt_auth_remote.cpp:574-577 | every clock and revision reading ever recorded is what the state held at the step that made it |
| RemoteAuthTheorems.RevocationFence | src/auth/mqtt_auth_remote.cpp:108-157 | every grant, from a hit, a poll or a wait, comes from a request of the same session, user, client and topic whose two captured counters were both current at one instant of the granting call; every invalidation was made before the request loaded the counter or after that instant; and a call that waits makes its check only after the job was published |
| RemoteAuthTheorems.ChecksAreReadings | src/auth/mqtt_auth_remote.cpp:214-220 | the counters a check recorded are those of the state it was made in, though they are loaded one after the other |
| RemoteAuthTheorems.CapturesAreReadings | src/auth/mqtt_auth_remote.cpp:575-577 | the two counters every job captured are those of the states in which its caller loaded them, the first before the second |
| RemoteAuthTheorems.FenceDecides | src/auth/mqtt_auth_remote.cpp:108-125 | a call that looks at the fence goes on exactly while each counter is still the captured one |
| RemoteAuthTheorems.SingleFlight | src/auth/mqtt_auth_remote.cpp:592-600 | the pending maps hold exactly the shared jobs whose callback has not run, at most one per key, each map within queue capacity plus workers |
| RemoteAuthTheorems.CompletionRemovesOwnEntry | src/auth/mqtt_auth_remote.cpp:607-610 | a completion finds its own pending entry and removes exactly that one |
| RemoteAuthTheorems.OneHolder | src/auth/mqtt_auth_remote.cpp:420-453 | a job is unfinished exactly when its creator, the queue or a worker has it, and then exactly one of them |
| RemoteAuthTheorems.NothingLeftBehind | src/auth/mqtt_auth_remote.cpp:427-451 | a worker that comes back for work or leaves has nothing in hand |
| RemoteAuthTheorems.FinishedByPublish | src/auth/mqtt_auth_remote.cpp:126-137 | a finished job was published at the step it names, with the value it has |
| RemoteAuthTheorems.FinishedExactlyOnce | src/auth/mqtt_auth_remote.cpp:126-137 | no job is finished twice, and once every worker has left and no caller holds a job, none is unfinished |
| RemoteAuthTheorems.UnfinishedTogether | src/auth/mqtt_auth_remote.cpp:126-135 | two jobs of a key are both unfinished exactly when one is past its callback and before its flag |
| RemoteAuthWitness.SecondUnfinishedJob | src/auth/mqtt_auth_remote.cpp:607-609 | a run that ends with two unfinished jobs for one key |
| RemoteAuthLeases.LeaseProvenance | src/auth/mqtt_auth_remote.cpp:608-634 | every lease in every cache at every moment was stored by the completion of a job for its key, from an intelligible answer of the service to that job, whose word, expiry and revision it carries, after both captured counters were found current and the revision it names in force; and it is fresh as long as it was granted to be |
| RemoteAuthAnswers.DecisionsAreCarried | src/auth/mqtt_auth_remote.cpp:317-361 | every authoritative decision a job ever carries is what the service answered that job |
| RemoteAuthAnswers.AnswersAreHeard | src/auth/mqtt_auth_remote.cpp:607-636 | a job that was answered and is through its completion has exactly what its answer was worth when both counters were current as its callback looked, and nothing otherwise; and an authoritative answer that may be kept went on to be leased |
| RemoteAuthLeases.InsertStores | src/auth/mqtt_auth_remote.cpp:621-634 | a completion caches its answer exactly when it is fresh and has time left, until the least of its ends, and fresh up to its freshness or that end |
| RemoteAuthLeases.LeaseTakesRoom | src/auth/mqtt_auth_remote.cpp:627-634 | a stored lease is the latest used, and others make room for it only past the shard's share |
| RemoteAuthLeases.RetryHistory | src/auth/mqtt_auth_remote.cpp:612-615 | a lease's retry time is one that a failed completion for its key set, or none |
| RemoteAuthLeases.PostponeDelays | src/auth/mqtt_auth_remote.cpp:612-615 | a failed completion delays the next refresh of its key by the cooldown and moves nothing else |
| RemoteAuthLeases.ClearEmpties | src/auth/mqtt_auth_remote.cpp:466-472 | clearing a shard leaves nothing leased in it |
| RemoteAuthGrants.GrantsArePermissions | src/auth/mqtt_auth_remote.cpp:108-157 | every grant rests on a permission the service gave to its job, intelligible and in force when it came, whose expiry and revision it carries; one that is not from the cache is made before that expiry |
| RemoteAuthGrants.PermissionsAreGranted | src/auth/mqtt_auth_remote.cpp:108-125 | a call past its fence that reads its job's decision is granted exactly a permission that has not expired |
| RemoteAuthGrants.LookupEnters | src/auth/mqtt_auth_remote.cpp:579-600 | a lookup goes on with the lock held exactly when a lease under its key is in time and its epoch current; otherwise the lease is forgotten and the service asked |
| RemoteAuthGrants.LookupServes | src/auth/mqtt_auth_remote.cpp:582-600 | a lookup whose second counter is current is served its lease, a permission is granted, and the service asked again exactly when it is stale and no failed attempt is recent; asking joins the pending job, else creates one while there is room |
| RemoteAuthGrants.CallsAreAsked | src/auth/mqtt_auth_remote.cpp:547-578 | every grant went to a call made with that request and session, while the session had not expired, and about the job it asked for when it polls |
| RemoteAuthLeases.LeaseHistory | src/auth/mqtt_auth_remote.cpp:611-634 | whatever is cached under a key was cached under it, unchanged but for the retry time, at every moment since the completion of a job for that key stored it |
| RemoteAuthLeases.LeaseBound | src/auth/mqtt_auth_remote.cpp:574-635 | a grant from the cache is in time by the clock its call read: before the reading made when its job was created plus the granted age, within the age limit, and before the session's and the decision's expiry up to the time between the lease's two readings |
| RemoteAuthLeases.ServesInTime | src/auth/mqtt_auth_remote.cpp:621-626 | a lease serves no reading at or past an expiry exactly when no time passed between its two readings, or another of its bounds ends it in time |
| RemoteAuthWitness.LateGrant | src/auth/mqtt_auth_remote.cpp:574-589 | a run with a cached grant past both expiries by its call's reading, and past the lease by the time it is given |
| WorkQueue.Queue.Enqueue | src/auth/mqtt_auth_remote.cpp:408-419 | accepts exactly within count, bytes and batch size while not stopping, appends, and keeps the byte count exact |
| WorkQueue.Queue.PopFront | src/auth/mqtt_auth_remote.cpp:429 | takes the oldest job and keeps the byte count exact |
| WorkQueue.Queue.Gather | src/auth/mqtt_auth_remote.cpp:436-442 | the gathering loop takes the front of the queue that fits, in order, and no more |
| WorkQueue.FitIsLongest | src/auth/mqtt_auth_remote.cpp:436-442 | what is gathered are authorize jobs within both limits, and the next job does not belong |
| WorkQueue.StepKeeps | src/auth/mqtt_auth_remote.cpp:408-453 | every step of submitters and workers keeps the queue's invariant, the lock being free while a worker waits to fill its batch |
| WorkQueue.QueueIsFifo | src/auth/mqtt_auth_remote.cpp:408-453 | in every run: accepted is taken followed by queued, the byte count is their sum and within its limit, and the batches divide the taken jobs, each a single job or authorize jobs in order within both limits |
| WorkQueue.AcceptedExactly | src/auth/mqtt_auth_remote.cpp:408-419 | in every run a job is accepted exactly when not stopping and the queue with it is within its count and bytes and it would fit a batch by itself |
| WorkQueue.TakenExactly | src/auth/mqtt_auth_remote.cpp:427-433 | a worker takes the oldest job, and goes on gathering exactly when it is an authorize job of the batching protocol and in time |
| WorkQueue.FilledExactly | src/auth/mqtt_auth_remote.cpp:436-442 | a gathering worker takes from the front all that belongs, and leaves the first that does not |
| WorkQueue.WorkersShareNoJob | src/auth/mqtt_auth_remote.cpp:420-446 | two workers never hold the same job |
| WorkQueue.ShutdownStrandsNothing | src/auth/mqtt_auth_remote.cpp:427-428 | once a worker has left, every job ever accepted has been taken, for good |
| BatchReply.Pigeonhole | src/auth/mqtt_auth_remote.cpp:368-400 | n distinct identifiers from 1 to n leave none out |
| BatchReply.EveryRequestAnswered | src/auth/mqtt_auth_remote.cpp:368-400 | a well-formed reply has an item for each request |
| BatchReply.Associate | src/auth/mqtt_auth_remote.cpp:368-401 | each request gets the decision carrying its identifier, in any reply order; a malformed envelope gives nobody anything |
| BatchReply.RpcBatch | src/auth/mqtt_auth_remote.cpp:363-407 | each job gets exactly the decision that belongs to it when the call was attempted, the reply is usable and the answer in time, and nothing otherwise; attempted exactly when not stopping, in time and admitted; the breaker hears of an attempted call once and of nothing else |
| CircuitBreaker.Breaker.Admit | src/auth/mqtt_auth_remote.cpp:257-263 | refines the admission rule and takes the probe slot |
| CircuitBreaker.Breaker.Report | src/auth/mqtt_auth_remote.cpp:264-272 | refines the report rule |
| CircuitBreaker.Summary | src/auth/mqtt_auth_remote.cpp:257-272 | in every run the counters are what the reports alone say, and the slot is taken exactly after one admission since the last report |
| CircuitBreaker.OpenCircuit | src/auth/mqtt_auth_remote.cpp:257-263 | after three consecutive failures nothing is admitted before the last report plus the cooldown, and at most one request between two reports |
| CircuitBreaker.Recovers | src/auth/mqtt_auth_remote.cpp:257-272 | and nothing else is refused |
| CircuitBreaker.ProbeIsOwed | src/auth/mqtt_auth_remote.cpp:257-272 | the probe slot is never lost: whoever has it owes a report |
| CircuitBreaker.OwedOrReported | src/auth/mqtt_auth_remote.cpp:257-272 | in a legal log an admitted worker does nothing else at the breaker until its report |
| BreakerWorkers.StepKeeps | src/auth/mqtt_auth_remote.cpp:273-316 | every step of a worker on either path, exceptions included, keeps breaker, log and debts in agreement |
| BreakerWorkers.LogsAreLegal | src/auth/mqtt_auth_remote.cpp:363-402 | in every run no worker asks while it owes a report, the breaker has heard exactly the log, and the workers that owe a report are exactly those in the middle of a call |
| BreakerWorkers.EveryExitReports | src/auth/mqtt_auth_remote.cpp:446-450 | a worker in the middle of a call and later not has reported in between, however it left |
| BreakerWorkers.AdmissionsAreReported | src/auth/mqtt_auth_remote.cpp:273-402 | no admission in the log of any run is left without a report, unless its call is still under way |
| BreakerWorkers.ReportsAreOutcomes | src/auth/mqtt_auth_remote.cpp:273-402 | health is reported only for a call answered so, and failure only for one answered so or thrown out of |
| BreakerWorkers.OutcomesAreReported | src/auth/mqtt_auth_remote.cpp:273-402 | every answer of an admitted call is reported as it is, and every exception in one as a failure, before the worker is out of the call |
| BreakerWorkers.ProbeIsReturned | src/auth/mqtt_auth_remote.cpp:257-272 | once no worker is in the middle of a call the breaker admits again a cooldown after its latest report |
| PacketReader.Reader.EnsureBufferSize | src/core/mqtt_protocol_handler.cpp:335-370 | refuses exactly what would pass the limit, otherwise makes room, keeps the bytes and stays within the limit |
| PacketReader.Reader.ReadPacket | src/core/mqtt_protocol_handler.cpp:408-487 | takes the next bytes of the buffer for bytes just read, whatever they are, and a refusal is the decoder's fault |
| PacketReader.Reader.Recv | src/core/mqtt_socket.cpp:323-383 | stores some of the stream and says how many bytes, fails, or, closed while it waits, reports the bytes asked for without storing any |
| PacketReader.Reader.ReadLength | src/core/mqtt_protocol_handler.cpp:432-472 | the length read byte by byte agrees with the header read at once |
| PacketReader.Reader.ReleaseGrownBuffer | src/core/mqtt_protocol_handler.cpp:372-386 | a grown buffer is replaced only once its packet is whole |
| PacketReader.Reader.Receive | src/core/mqtt_protocol_handler.cpp:204-256 | makes room and reads as the loop's function says, or stops for the reason it says |
| PacketReader.Reader.HandOver | src/core/mqtt_protocol_handler.cpp:258-298 | a whole packet is handed over exactly as received and the reader starts afresh |
| PacketReader.Reader.TakeTurn | src/core/mqtt_protocol_handler.cpp:204-298 | one turn of the loop does what the loop's function says, for every outcome of its surroundings |
| PacketReader.Reader.ProcessLoop | src/core/mqtt_protocol_handler.cpp:201-301 | the loop is its function; for every split of every stream and any limit the packets handed over are the decoder's unless a vanished read forges one; left alone it hands over every packet; the buffer stays within the limit |
| PacketCourse.HeadResumes | src/core/mqtt_protocol_handler.cpp:432-466 | resuming the header at any length byte is reading it from the start |
| PacketReader.AgreesDecides | src/core/mqtt_protocol_handler.cpp:258-259 | the reader's registers know whether the packet is whole, and otherwise how many bytes the next read must ask for |
| PacketCourse.RunDecodes | src/core/mqtt_protocol_handler.cpp:201-301 | the packets handed over are the decoder's on the bytes counted as read, a fault is the decoder's, and only a takeover leaves a whole packet behind |
| PacketCourse.GenuineUnlessForged | src/core/mqtt_socket.cpp:331-375 | they are the decoder's on the bytes received exactly when no turn's read vanishes with what completes a packet and no takeover |
| PacketCourse.CompletesExactly | src/core/mqtt_protocol_handler.cpp:415-486 | the bytes taken for a read make the packet whole exactly when its length was known or a zero ends a zero length |
| PacketCourse.ForgedPacket | src/core/mqtt_socket.cpp:331-375 | two bytes of a packet and a vanished read hand over a packet the stream does not hold |
| PacketCourse.StopHasCause | src/core/mqtt_protocol_handler.cpp:204-298 | the loop stops in the first turn that gives it cause, and with that cause |
| PacketCourse.CauseStops | src/core/mqtt_protocol_handler.cpp:204-298 | every cause stops the loop, and a packet is handed over exactly when the bytes of a turn complete one and no takeover follows |
| PacketCourse.LeftAlone | src/core/mqtt_protocol_handler.cpp:201-301 | with nothing in the way every packet of the stream is handed over, up to its first fault |
| PacketDecoder.DecodeMonotone | src/core/mqtt_protocol_handler.cpp:201-301 | more bytes never change packets already found or a fault |
| PacketDecoder.DecodeSplits | src/core/mqtt_protocol_handler.cpp:201-301 | decoded packets are whole and with the rest make up the stream |
| PacketDecoder.DecodeInvertsPackets | src/core/mqtt_protocol_handler.cpp:418-486 | any packets framed as section 1.5.5 of MQTT Version 5.0 says, within the limit, come back one by one |
| WireSender.Remaining | src/core/mqtt_socket.cpp:249-263 | the scatter list points at exactly the bytes not yet sent |
| WireSender.Socket.SendParts | src/core/mqtt_socket.cpp:220-302 | succeeds exactly when some first attempts all go on and take the whole packet; otherwise it has written exactly what those before the first that ends it took, and the socket is closed |
| WireSender.StepKeeps | src/core/mqtt_protocol_handler.cpp:1874-1937 | every step of every sender, and closing or breaking from outside, keeps the lock, the log of packets and the wire in agreement |
| WireSender.WireIntegrity | src/core/mqtt_protocol_handler.cpp:1886-1913 | in every run the wire is whole packets, one for each success and no other, then at most a part of one, of the lock's holder or of a failed call on a closed socket |
| WireSender.NothingAfterFailure | src/core/mqtt_socket.cpp:299-300 | after a failed send nothing is ever written again |
| WireSender.ResultsHaveCause | src/core/mqtt_protocol_handler.cpp:1874-1937 | in every run each result of a call has its cause: its arguments, the lock, a socket not connected when it got the lock, or a deadline, a closed socket or a refusal while it was sending |
| WireSender.SuccessIsWhole | src/core/mqtt_protocol_handler.cpp:1894-1912 | a successful call's packet is on the wire in one piece |
| Subscribe.Connection.AddSubscription | src/core/mqtt_protocol_handler.cpp:2107-2140 | the list becomes the table with the filter at these options, or is unchanged on failure |
| Subscribe.Connection.RemoveSubscription | src/core/mqtt_protocol_handler.cpp:2142-2171 | the list becomes the table without the filter |
| Subscribe.Connection.RollbackLocal | src/core/mqtt_protocol_handler.cpp:1737-1744 | the list is the table it was before the filter |
| Subscribe.Connection.Register | src/core/mqtt_protocol_handler.cpp:1769-1842 | tree and durable record follow or are put back for every pattern of failures, closing the socket exactly when the record cannot be |
| Subscribe.Connection.SubscribeOne | src/core/mqtt_protocol_handler.cpp:1667-1850 | a grant exactly when every step succeeds, with the lesser of the requested and the server's QoS, which every store then holds with the other options as requested; each refusal with its own reason; otherwise all stores as before, and a connection left open disagrees with its stores exactly when putting the tree back failed and mattered |
| Subscribe.Connection.HandleSubscribe | src/core/mqtt_protocol_handler.cpp:1634-1866 | each filter is answered with what it is due on the table the filters before it leave, up to the first whose record cannot be put back, which ends the connection; the list holds for each filter what the last granted request for it asked for, with the lesser QoS; the stores agree when compensations succeed; and no SUBACK is sent exactly when the last filter not refused outright cannot be added |
| Subscribe.SwallowedByLast | src/core/mqtt_protocol_handler.cpp:1667-1858 | only the last filter that is not refused outright can keep the SUBACK from being sent |
| Subscribe.SubackSwallowed | src/core/mqtt_protocol_handler.cpp:1713-1726 | a granted filter and then an empty one get no SUBACK, in the other order they get one |
| Subscribe.Settings.DueIsRight | src/core/mqtt_protocol_handler.cpp:1667-1850 | the answer due is a grant with the lesser QoS exactly when every step goes well, and each reason exactly for the first step that does not |
| Subscribe.Settings.TableIsRight | src/core/mqtt_protocol_handler.cpp:1667-1850 | after any filters the table holds for each filter what the last granted request asked for, or what it held |
| Subscribe.UpdatedView | src/core/mqtt_protocol_handler.cpp:2119-2126 | updating every match is one table update |
| Subscribe.WithoutView | src/core/mqtt_protocol_handler.cpp:2152-2153 | erasing every match is removing the key |
| Will.Handler.RememberWill | src/core/mqtt_protocol_handler.cpp:2276-2309 | a will is present exactly when given and stored, and starts unsettled |
| Will.Handler.DisposeWill | src/core/mqtt_protocol_handler.cpp:2336-2365 | settles a will once and schedules it unless discarded, unmanaged, unnamed or not copied |
| Will.Handler.Cleanup | src/core/mqtt_protocol_handler.cpp:2367-2420 | closes the socket and disposes of the will, harmlessly when repeated |
| Will.Handler.HandleDisconnect | src/core/mqtt_protocol_handler.cpp:1568-1606 | refused exactly when not connected or when it would lengthen an expiry of zero, and only an accepted 0x00 discards |
| Will.Handler.HandleConnack | src/core/mqtt_protocol_handler.cpp:1199-1222 | accepted exactly when connected and successful, and then replaces the session expiry |
| Will.ConnackMatters | src/core/mqtt_protocol_handler.cpp:1199-1222 | a client's CONNACK makes no difference to its will exactly when the session is not durable or it does not move the expiry to or from zero |
| Will.Handler.ProcessLoop | src/core/mqtt_protocol_handler.cpp:201-301 | what the flags say after any packets, CONNACKs of the client included, agrees with the story those packets tell |
| Will.Lifetime | src/core/mqtt_protocol_handler.cpp:303-333 | over a whole connection with its up to three clean-ups the will is scheduled exactly once when stored and not deleted, and otherwise never |
| Will.StoryExactly | src/core/mqtt_protocol_handler.cpp:1568-1606 | there is a will exactly when some CONNECT left one after handled packets only, and it is deleted exactly when that was acknowledged and a DISCONNECT in order with reason 0x00 follows handled packets only |
| Utf8.IsValidUtf8 | src/common/mqtt_string_utils.cpp:6-76 | accepts exactly the concatenated shortest encodings of scalar values |
| Utf8.ReadContinuation | src/common/mqtt_string_utils.cpp:43-56 | reads the continuation bytes, or reports that one is missing or wrong |
| Utf8.FirstOfEncode | src/common/mqtt_string_utils.cpp:14-73 | an encoding reads back as its scalar value whatever follows |
| Utf8.FirstIsEncode | src/common/mqtt_string_utils.cpp:14-73 | what is read as a scalar value is its shortest encoding |
| Utf8.DecodeExact | src/common/mqtt_string_utils.cpp:6-76 | decoding succeeds exactly on encodings |
| Utf8.EncodeInjective | src/common/mqtt_string_utils.cpp:6-76 | the sequence of scalar values is unique |
| MqttString.ScanAgrees | src/common/mqtt_string_utils.cpp:79-109 | on well-formed text the raw byte scan finds exactly the control characters U+0000 to U+001F and U+007F to U+009F |
| MqttString.ValidateMqttString | src/common/mqtt_string_utils.cpp:112-140 | each result code exactly for its reason |
| MqttString.ParseString | src/common/mqtt_string_utils.h:35-61 | succeeds exactly when the input starts with a serialised text, and returns it and its length |
| MqttString.OneField | src/common/mqtt_string_utils.h:35-61 | at most one text is at the start of an input |
| MqttString.SerializeString | src/common/mqtt_string_utils.h:85-115 | writes the field of a text and nothing for anything else; runs out of memory exactly when the buffer's level and the allocator say, and leaves exactly the bytes they let through |
| MqttString.RoundTrip | src/common/mqtt_string_utils.h:35-115 | serialising and parsing give the string back with any bytes behind it, exactly for texts |
| Buffer.Buffer.Reserve | src/common/mqtt_buffer.cpp:111-131 | grows to the capacity asked for and keeps contents, or changes nothing |
| Buffer.Buffer.EnsureCapacity | src/common/mqtt_buffer.cpp:133-143 | a growth reaches the first doubling that is enough, which is 64 or less than twice the need |
| Buffer.Buffer.Append | src/common/mqtt_buffer.cpp:145-161 | accepts exactly what fits or can be given memory, appends it, or leaves the contents unchanged; copying stays paid for |
| Buffer.Buffer.Insert | src/common/mqtt_buffer.cpp:217-232 | inserts one byte in place, or changes nothing |
| Buffer.Buffer.PutUint | src/common/mqtt_buffer.cpp:243-279 | appends the bytes of a number in either order |
| Buffer.Buffer.GetUint | src/common/mqtt_buffer.cpp:289-349 | reads the number those bytes are and moves past them, or moves nothing |
| Buffer.AppendAll | src/common/mqtt_buffer.cpp:133-161 | over any run of appends, failures among them, the contents are exactly the accepted chunks in order, the capacity the one their doublings reach, and the bytes copied by growth fewer |
| Buffer.AllAccepted | src/common/mqtt_buffer.cpp:145-161 | with memory throughout every chunk is accepted |
| Buffer.DoubledBounds | src/common/mqtt_buffer.cpp:133-143 | the doubling is enough and less than twice what is needed |
| Buffer.ReservationsCopyMore | src/common/mqtt_buffer.cpp:111-131 | explicit reservations escape that bound |
| Buffer.WriteThenRead | src/common/mqtt_buffer.cpp:243-349 | any numbers of any widths and orders written are read back in order |
| Buffer.LeRoundTrip | src/common/mqtt_buffer.cpp:273-279 | little-endian bytes give the number back |
| Buffer.BeRoundTrip | src/common/mqtt_buffer.cpp:265-271 | big-endian bytes give the number back |
| TopicMatch.SplitTopicLevels | src/auth/mqtt_auth_manager.cpp:12-28 | the splitting loop yields the levels between the slashes |
| TopicMatch.JoinLevels | src/auth/mqtt_auth_manager.cpp:12-28 | joining the levels gives the topic back |
| TopicMatch.LevelsJoin | src/auth/mqtt_auth_manager.cpp:12-28 | splitting joined levels gives the levels back |
| TopicMatch.MatchTopicPattern | src/auth/mqtt_auth_manager.cpp:30-43 | the matching loop is the recursive matcher |
| TopicMatch.MatchTransitive | src/auth/mqtt_auth_manager.cpp:30-43 | for all strings, a pattern that accepts a filter matches whatever the filter matches |
| TopicMatch.MatchMeets47 | src/auth/mqtt_auth_manager.cpp:30-43 | on topic names and well-formed filters it is section 4.7 of MQTT Version 5.0 with the parent level and the dollar rule |
| TopicMatch.AcceptanceIsCoverage | src/auth/mqtt_auth_manager.cpp:30-43 | accepting a well-formed filter is covering all its topics, but for exactly three pairs |
| ConnectionPool.RemotePool.Take | src/forwarding/forwarding_connection_pool.cpp:66-90 | the last healthy idle connection when there is one, with those after it destroyed; else a slot exactly while fewer than the limit are in use; else a connection the pool does not count |
| ConnectionPool.RemotePool.PutBack | src/forwarding/forwarding_connection_pool.cpp:149-160 | a slot becomes an idle connection |
| ConnectionPool.RemotePool.Sweep | src/forwarding/forwarding_connection_pool.cpp:177-186 | spares exactly the connections not idle too long, in order |
| ConnectionPool.TakeDecides | src/forwarding/forwarding_connection_pool.cpp:66-90 | taking comes to exactly one of the three, each exactly under its condition |
| ConnectionPool.AcquireDecides | src/forwarding/forwarding_connection_pool.cpp:66-90 | a call of the pool uses the last healthy connection or makes one, and is counted exactly when one was found or a slot reserved |
| ConnectionPool.GiveBackDecides | src/forwarding/forwarding_connection_pool.cpp:149-160 | a connection given back is the latest idle one and its slot free; a slot given up leaves the idle ones alone |
| ConnectionPool.SparedSplits | src/forwarding/forwarding_connection_pool.cpp:177-186 | a sweep looks at each connection by itself and keeps their order |
| ConnectionPool.StepSlots | src/forwarding/forwarding_connection_pool.cpp:50-188 | every step keeps the count of slots exact and within the limit |
| ConnectionPool.StepPlaces | src/forwarding/forwarding_connection_pool.cpp:50-188 | every step keeps each live socket in one place |
| ConnectionPool.SlotsAreExact | src/forwarding/forwarding_connection_pool.cpp:50-161 | in every run idle plus in use is within the limit, taken as zero when negative, and in use counts exactly the calls that hold or await a pooled connection |
| ConnectionPool.SocketsHaveOnePlace | src/forwarding/mqtt_forwarding_rpc_client.cpp:106-170 | in every run each live socket is once in one idle list or with exactly one call, for clients that release as forward_publish does |

## Left out

- Remote authorization: `cleanup()` and re-initialisation while calls are under way, the revision poll's own loop, payload canonicalisation, the second attempt of `fetch` at start-up and the statistics; counters are unbounded, so 64-bit wrap-around is not modelled.
- Remote authorization: queue, breaker and batches are modules of their own; in the provider's machine the queue accepts or refuses and the service answers as it likes.
- Waiting: wake-ups, signals and timeouts are choices; no progress is claimed beyond termination of the loops.
- Remote authorization: a completion callback that runs out of memory midway.
- RemoteAuthLeases.LeaseBound: stated with the time between the two clock readings, because the code reads the wall clock first, and for the call's own reading, because the code reads it before taking the lock.
- RemoteAuthTheorems.SingleFlight: stated for jobs whose callback has not run, because the pending entry goes before the finished flag is set.
- Packet parsing and handling behind the reader: an answer per packet; the limit is fixed for a run.
- PacketReader.Reader.ProcessLoop: what the buffer holds past the bytes read is whatever earlier packets or the allocator left there, and is not followed from packet to packet.
- PacketReader.Reader.HandOver: also resets when the packet was refused, where the source leaves the loop with its registers as they were.
- Subscribe.Connection.Register: does not model the durable store's deferred answers, which are asked again with nothing changed, nor the moment at which other connections see the tree.
- Subscribe: the router announcement is not undone by the source on a later failure and is no part of the agreement; UNSUBSCRIBE, retained messages and the SUBACK's own sending are not modelled.
- WireSender: the WebSocket handler writes to its socket by itself and is not one of the senders; descriptor reuse after close is not modelled.
- BatchReply.RpcBatch: alone with the breaker; other workers between its request and its report are the worker machine's.
- Will: the CONNECT's own computation of the session expiry, the scheduler, the delay and an allocation failure while a will is being copied.
- MqttString: the null-pointer code and the binary variants, which skip validation.
- Buffer.Buffer.PutUint: one width-generic operation for the twelve written-out ones; capacities are unbounded, so overflow of the doubling is not modelled.
- Buffer: resizing without initialisation, decimal output and copying whole buffers.
- ConnectionPool: refusing an empty host or port, and shutdown.
- Access rules from SQLite and Redis, configuration, logging, the topic tree, the router, the journal and the WebSocket bridge.
