# TunnelEdge in Dafny

TunnelEdge exposes local services through gateways: agents open QUIC connections to a gateway, the
gateway routes public hostnames to their tunnels, and a registry leases each tunnel to one relay.
This project models the parts of it whose correctness is decided by its own code, and proves what
they keep over every interleaving, every run or every input.

Concurrent code is a step system: one step per locked section, channel operation, pool operation or
piece of an I/O call, and a run is any interleaving of steps. Objects that the Go code changes in
place are classes whose methods are proved against the functions that the step systems use.
Times and sizes are unbounded integers; byte and length widths are written out where the wire format
truncates. Strings on the wire are byte sequences.

| part | files |
|---|---|
| bounded relay pipeline | `Relay.dfy` (steps), `RelayProofs.dfy` (safety and accounting), `RelayProgress.dfy` (progress), `RelayDelivery.dfy` (what happens while nothing fails, and the first failure), `RelayResult.dfy` (what the result means), `RelayBlame.dfy` (where errors and figures come from), `RelayCounting.dfy` (what becomes of each chunk, byte counters), `RelayBuffers.dfy` (where buffers end up), `RelayWrite.dfy` (partial-write loop) |
| lease coordinator | `Coordinator.dfy` (object and locked sections), `LeaseProofs.dfy` (exclusivity, versions), `LeaseRefinement.dfy` (refinement, purges), `LeaseAnswers.dfy` (replies read off the history) |
| registry watch | `Watch.dfy` (what is tracked and shown), `WatchHistory.dfy` (what is performed and published), `WatchLoss.dfy` (what can be lost), `WatchView.dfy` (what a client knows), `WatchDrain.dfy` (streaming and catching up) |
| gateway tunnel lifecycle | `Gateway.dfy` (sections and steps), `GatewayProofs.dfy` (every interleaving), `GatewayLeases.dfy` (where leases go), `GatewayAlone.dfy` (undisturbed operations), `GatewayOutcomes.dfy` (what they leave, field by field), `GatewayTending.dfy` (who looks after an attached tunnel), `GatewayAnytime.dfy` (what every reachable state allows), `GatewayObject.dfy` (the object with its tables, timers and router), `Router.dfy` (hostnames) |
| wire codec and handshake | `Wire.dfy`, `WireFrames.dfy` (format), `WireLayout.dfy` (the same frames byte by byte), `Refusals.dfy` (why authentication frames are refused), `Codec.dfy` (buffers and readers), `Handshake.dfy`, `HandshakeExact.dfy` (exactly what is accepted), `Truncation.dfy` (cut-off input) |
| rate limiter | `RateLimiter.dfy`, `RateLimiterProofs.dfy` (pruning, window bound), `RateRule.dfy` (the exact rule) |
| distributed router, scorer | `DistributedRouter.dfy`, `Scorer.dfy` |
| shared | `Common.dfy`, `Runs.dfy` (induction over runs and ranks) |

Assumptions, all explicit in the contracts: generated lease IDs are non-empty and never repeat; an
operation's clock reading is no later than the real time at its lock step; RPCs, writes and reads may
succeed or fail in any way; a source read returns at most the buffer it is given; a destination takes
a prefix of what it is offered; the token bucket is exact (starts full, refills linearly, spends one
token per admit) and the rate limiter reads the clock once per call, nondecreasing between calls.
A context keeps the error it ended with first, and its end reaches a child context at some later
step. Suspending a tunnel that is already detached has no step: there the source would close a
connection that is not there.

Statements that are false as one might first put them, with their exact conditions:

- A relay pair that returns nil need not have delivered everything: a timeout that no write reported
  is turned into nil, and a chunk about to be queued is given up when the group is cancelled. This
  happens when the other direction's read times out (`RelayResult.IdleHidesLoss`) and when the
  parent context's deadline passes, although no read times out (`RelayResult.DeadlineHidesLoss`).
  Nil means complete delivery exactly when no source read can time out and the parent has no
  deadline (`RelayResult.PairNilIff`).
- A lease that another relay loses need not have expired by the granting operation's own clock
  reading: a sweep with a later reading can overtake it (`LeaseProofs.StaleReadingGrants`). It does
  exactly when no earlier operation used a later reading (`LeaseProofs.StrongExclusivityIff`); in
  real time it always has (`LeaseProofs.LeaseExclusivity`).
- Pruning the rate limiter is invisible exactly when a full bucket refills within the cleanup
  interval (`RateLimiterProofs.PruningInvisibleIff`); both callers, which pass their rate as the
  burst, are inside that condition.
- An AuthV2 response frame decodes to its message exactly when labels, hostnames and gateways fit
  (`WireFrames.ResponseRoundTripIff`); the encoder checks none of the three.
- A UDP datagram survives the trip exactly when it is not all empty
  (`WireFrames.DatagramRoundTripIff`).
- The distributed router need not follow the last event about a tunnel: a tunnel with the same
  trimmed ID answers for it (`DistributedRouter.CollisionMisroutes`), and a tunnel that this gateway
  takes over from a peer stays routed to the peer (`DistributedRouter.TakeoverStaysRouted`). Without
  collisions a history is followed exactly unless it ends in such a takeover
  (`DistributedRouter.FollowsUnlessTakenOver`); all histories are, exactly when there is no collision
  and this gateway is never named (`DistributedRouter.RoutesFollowIff`). IDs with the `t-` prefix
  never collide.
- A watch that asked for existing leases can lose an event in two ways: a failed session listing ends
  the snapshot silently (`WatchLoss.FailedListingHidesGrant`), and a publish that finds the channel
  full is dropped (`WatchLoss.FullChannelLosesGrant`). It loses nothing exactly when the listing
  succeeds and the channel never fills (`WatchLoss.NothingLostIff`). A client that has caught up knows
  every lease it asked for (`WatchView.StandingIsKnown`), and was told of the end of every lease it
  knew (`WatchView.KnownIsStanding`) except one that a lookup found run out, which goes silently
  (`WatchView.PurgeIsSilent`).
- A relay report that is nowhere worse need not score higher: the round-trip term changes sign at -500
  ms. It does for all reports exactly when the two times are on the same side
  (`Scorer.ScoreMonotoneIff`).
- An attached tunnel need not have anything that will ever suspend or remove it: a resumption whose
  reply fails leaves the row attached to a connection that is then closed
  (`GatewayTending.FailedReplyStrands`). Every attached tunnel is looked after exactly when
  resumption replies never fail (`GatewayTending.TendedIff`).

Where comments and code disagree, the model follows the code: `DecodeAuthV2` is said to start after
the type byte but reads it, and `DecodeHello` is said to reject unsupported versions but leaves that
to its caller.

## Model

| member | source | states |
|---|---|---|
| RelayProofs.StepKeepsInv | internal/relay/relay.go:318-389 | every step of either goroutine of either direction, of the parent context and of other pool users keeps buffer ownership, the byte accounting of both directions, and the statistics |
| RelayProofs.OneHolderPerBuffer | internal/relay/relay.go:322-402 | in every interleaving each buffer is in exactly one place: the pool, another relay, the garbage, a reader, a queue or a writer |
| RelayProofs.ReleasedOncePerCheckout | internal/relay/relay.go:391-402 | between two releases of one buffer there is a checkout of it from the pool |
| RelayProofs.DeliveredIsPrefix | internal/relay/relay.go:318-402 | in every interleaving the bytes written to a destination are a prefix of the bytes read from its source, although buffers are recycled between directions |
| RelayProofs.NilMeansDelivered | internal/relay/relay.go:322-421 | if relayOneWay returns nil, its last read reported the end of the source, the destination has exactly the bytes its reads returned, and the byte counter equals their number |
| RelayProofs.PairNilMeansDelivered | internal/relay/relay.go:281-296 | if the outer group ends without an error, before timeouts are turned into nil, both directions read their sources to the end and delivered all of it |
| RelayResult.StepKeepsTimeouts | internal/relay/relay.go:333-378 | as long as no source read times out and the parent has no deadline, every timeout a direction or the pair reports was counted as a write timeout |
| RelayResult.IdleHidesLoss | internal/relay/relay.go:281-304 | for every positive buffer size and every queue size a run in which one direction's read times out, the other gives up a byte it has read, and the pair returns nil |
| RelayResult.DeadlineHidesLoss | internal/relay/relay.go:281-342 | for every positive buffer size and every queue size a run in which the parent's deadline passes, no read times out, a byte that was read is given up, and the pair returns nil |
| RelayResult.PairNilIff | internal/relay/relay.go:281-304 | a nil result of the pair means both sources were read to the end and delivered completely exactly when no source read can time out and the parent context has no deadline |
| RelayCounting.CounterIsExact | internal/relay/relay.go:355-387 | in every run a direction's counter is the sum of the sizes of the chunks its writer took, in order of reading, without the one it still has or the one whose write failed; it never runs ahead of the bytes delivered and lags by at most one chunk |
| RelayCounting.FailureStopsCounter | internal/relay/relay.go:372-381 | from a failed write on, the counter of that direction does not change |
| RelayCounting.OnlyFaultsLose | internal/relay/relay.go:318-389 | a direction that returns without having given up a chunk, failed a write or been stopped by its context delivered and counted exactly what its reads returned, also when the last read failed |
| RelayCounting.DropsAreTimeouts | internal/relay/relay.go:341-346 | dropped frames and queue timeouts each count the enqueue timeouts of both directions, but for those a reader has yet to record |
| RelayCounting.DeliveredAddsUp | internal/relay/relay.go:404-421 | a destination has as many bytes as its writes made it take |
| RelayProofs.BacklogBounded | internal/relay/relay.go:319-348 | bytes read minus bytes written never exceed (queueSize + 2) * bufferSize |
| RelayDelivery.BacklogReached | internal/relay/relay.go:319-348 | that bound is reached: for every positive buffer size and every queue size by a run without timeouts |
| RelayProofs.StatsAreExact | internal/relay/relay.go:155-161 | recorded queue depth is at most queueSize + 1; once both directions returned, dropped frames equal queue timeouts and count exactly the readers that hit backpressure |
| RelayProgress.NeverDeadlocks | internal/relay/relay.go:322-388 | until a direction returns, one of its own steps is enabled |
| RelayProgress.AnyRead | internal/relay/relay.go:323-325 | a source read can return exactly the bytes that fit its buffer, with any end |
| RelayProgress.QueueWaits | internal/relay/relay.go:331-346 | reader and writer wait exactly for room, a waiting writer, a chunk, the closed queue or the end of the context |
| RelayProgress.CancelledReturns | internal/relay/relay.go:322-422 | once its context has ended, a direction can return within sixteen steps of its own that keep the io.Writer contract, whatever its queue holds |
| RelayProgress.ParentStops | internal/relay/relay.go:281-286 | at any moment and with any error the parent can end the pair's context, and a direction that hears of it can return within sixteen steps of its own |
| RelayDelivery.FaultFreeIsNil | internal/relay/relay.go:322-388 | as long as no read, write, timer or parent fails, nothing has an error and no context ends, and a direction that has returned relayed its whole stream |
| RelayDelivery.FaultFreeFinishes | internal/relay/relay.go:322-388 | from every such state either direction can still deliver all it has read and return nil, in seven steps per queued chunk and twenty-five more of its own |
| RelayDelivery.ErrorsCancel | internal/relay/relay.go:318-388 | in every run an error reported to a group has ended that group's context |
| RelayDelivery.FirstCauseStays | internal/relay/relay.go:281-294 | the first error of a context, of a direction and of the pair is the one that stays |
| RelayBlame.ErrorsHaveCauses | internal/relay/relay.go:333-378 | the error a direction returns was reported by one of its own reads or writes or is that of the pair's context; the backpressure error follows a queue timeout of its own reader |
| RelayBlame.ContextHasCause | internal/relay/relay.go:281-294 | the pair's context ends with an error of the parent, or is cancelled by a direction that failed |
| RelayBlame.PairErrorIsADirections | internal/relay/relay.go:281-296 | the outer group's error is that of a direction that returned it |
| RelayBlame.PairResultMeans | internal/relay/relay.go:296-304 | the result is nil exactly if neither direction has an error, or the first error was a timeout and no write timed out; otherwise it is the error of a direction |
| RelayBlame.DepthIsDeepest | internal/relay/relay.go:155-161 | the recorded queue depth is the largest that any reader recorded |
| RelayBlame.DepthWasMeasured | internal/relay/relay.go:328-329 | what a reader records is one more than the chunks queued when it measured, which was the reader's last step before recording |
| RelayBlame.WriteTimeoutsAreExact | internal/relay/relay.go:374-378 | once both directions returned, the write timeouts are exactly the writes that timed out |
| RelayBuffers.BuffersComeBack | internal/relay/relay.go:391-402 | when both directions have returned nil, every buffer of the pooled size is in the pool, unless another relay has it, the garbage collector took it, or it was garbage before |
| RelayBuffers.BufferChangesHands | internal/relay/relay.go:391-402 | a run in which one direction reads into a buffer, gives it back, and the other reads into the same one |
| RelayWrite.WriteChunk | internal/relay/relay.go:404-422 | the loop ends; on nil the whole chunk was taken in order and no error reported, otherwise a prefix of it and exactly the returned error; short writes without an error are retried |
| Coordinator.MemCoordinator.CurrentLeaseLocked | internal/registry/mem_coordinator.go:138-154 | returns the unexpired lease and purges an expired or dangling one from both indexes |
| Coordinator.MemCoordinator.AcquireLease | internal/registry/mem_coordinator.go:50-87 | grants, re-grants with the next version, or refuses a tunnel another relay holds; whole new state of both indexes |
| Coordinator.MemCoordinator.RenewLease | internal/registry/mem_coordinator.go:89-108 | extends an unexpired lease by ID and counts the version up; otherwise not found and nothing changed |
| Coordinator.MemCoordinator.ReleaseLease | internal/registry/mem_coordinator.go:110-130 | removes a lease by ID from both indexes, expired or not |
| Coordinator.MemCoordinator.CurrentLease | internal/registry/mem_coordinator.go:132-136 | the lookup as one atomic step, with its purge |
| Coordinator.MemCoordinator.ReleaseExpiredLeases | internal/registry/mem_coordinator.go:324-345 | the sweep, in any visiting order, removes exactly the expired leases from both indexes and returns each of them |
| Coordinator.MemCoordinator.SnapshotLeases | internal/registry/mem_coordinator.go:272-293 | lists exactly the unexpired leases that match both filters, each once |
| LeaseProofs.RunHistory | internal/registry/mem_coordinator.go:50-154 | after every run the two indexes are mutually inverse, each lease is as last granted, its version is the number of its grants, and a lease that is gone was released by ID or outlived some clock reading |
| LeaseProofs.LeaseKeepsOwner | internal/registry/mem_coordinator.go:59-78 | all grants of one lease ID go to one relay and one tunnel |
| LeaseProofs.LeaseExclusivity | internal/registry/mem_coordinator.go:50-130 | when a tunnel is granted to a relay, every earlier lease on it held by another relay was released by ID or its last-granted expiry is before the real time of the grant, although clocks are read before the lock |
| LeaseProofs.StaleReadingGrants | internal/registry/mem_coordinator.go:54-59 | for every positive TTL a run, with real times after all its readings, in which the grant's own reading does not show the other lease as expired |
| LeaseProofs.StrongExclusivityIff | internal/registry/mem_coordinator.go:54-62 | expiry before the grant's own reading holds of every such grant exactly when no earlier operation used a later reading |
| LeaseRefinement.StepRefines | internal/registry/mem_coordinator.go:50-154 | one operation on the two indexes is one operation on a single map in which expired leases are absent |
| LeaseRefinement.CoordinatorRefinesMap | internal/registry/mem_coordinator.go:50-345 | over every run with ordered readings the replies are those of the single map, except that releasing an expired lease may still find it and that a sweep lists what it removed |
| LeaseRefinement.PurgesAreInvisible | internal/registry/mem_coordinator.go:132-154 | inserting a sweep or a lookup anywhere in a run with ordered readings changes no later acquire, renew, current or snapshot reply; a later release differs only on an expired lease |
| LeaseAnswers.AcquireAnswer | internal/registry/mem_coordinator.go:50-87 | with ordered readings an acquire is refused exactly when a lease on the tunnel, as last granted to another relay, has not been released and its expiry is at or after the reading; otherwise it re-grants what stands or grants a first version, until the reading plus the TTL |
| LeaseAnswers.InvalidIffIncomplete | internal/registry/mem_coordinator.go:50-113 | exactly the requests without a tunnel, a relay or a lease ID are refused as invalid, and they change nothing |
| LeaseAnswers.RenewAnswer | internal/registry/mem_coordinator.go:89-108 | a renewal finds exactly the leases that stand at its reading, extends them from it and counts the version up |
| LeaseAnswers.CurrentAnswer | internal/registry/mem_coordinator.go:132-154 | a lookup returns exactly the lease on its tunnel that stands at its reading |
| LeaseAnswers.SnapshotAnswer | internal/registry/mem_coordinator.go:272-293 | a snapshot lists exactly the leases that stand at its reading and pass both filters |
| LeaseAnswers.SweepAnswer | internal/registry/mem_coordinator.go:324-345 | a sweep removes and returns exactly the leases whose expiry is before its reading, ordered readings or not |
| LeaseAnswers.ReleaseAnswer | internal/registry/mem_coordinator.go:110-130 | a release finds every lease that stands, and only what was granted last and not yet released |
| Watch.WatchMissesNothing | internal/registry/server.go:143-176 | the snapshot is what the action that took it read: exactly the leases that the operations up to then left in the table, that had not run out at that action's own reading and that pass both filters; and every event of every later grant, renewal, release or sweep is exactly once pending, queued, taken or refused by a full channel |
| Watch.SnapshotStays | internal/registry/mem_coordinator.go:271-293 | the same for every action that takes a snapshot and every later state |
| Watch.OneSnapshot | internal/registry/server.go:148-156 | a watch takes its snapshot at most once |
| Watch.DrainedWatchSentAll | internal/registry/server.go:156-174 | once publishing and the channel are drained and nothing was refused, every matching event after the snapshot was sent |
| Watch.NothingMissedUnlessFull | internal/registry/mem_coordinator.go:200-209 | an event is refused only if the 64-slot channel was full |
| Watch.UnfilledWatchSentAll | internal/registry/server.go:143-176 | if the channel never filled, a drained watch has sent every matching event after its snapshot |
| Watch.SubscriberMissesNothing | internal/registry/server.go:143-176 | with any listing outcome and without a snapshot too, every event of every operation after the subscription is exactly once pending, queued, taken or refused, and sent exactly as often as taken if it passes the filters, else never |
| WatchHistory.LogIsPerformed | internal/registry/mem_coordinator.go:50-154 | in every run the operations are those of the coordinator's past and then exactly those that the actions perform, in order, with the lookups of the visited sessions that pass the filter |
| WatchHistory.PendingIsAnnounced | internal/registry/mem_coordinator.go:85-128 | an action adds to the publishes still to run exactly one event for each lease that its operation granted or took out of the table, and only a publish takes one away |
| WatchHistory.AnnouncedIsTracked | internal/registry/server.go:143-176 | whatever an action announces after the subscription is from then on exactly once pending, queued, taken or refused, and sent as often as taken if it passes the filters |
| Watch.SentInOrder | internal/registry/server.go:156-174 | in every run the stream carries exactly those taken events whose lease passes both filters, in the order in which their publishes found room in the channel |
| Watch.EventsTell | internal/registry/mem_coordinator.go:85-128 | an operation publishes exactly what it did to the table: the lease it granted, or each lease a release or a sweep took out |
| Watch.VisitLooksUp | internal/registry/server.go:286-293 | visit number n looks up the lease of listed session number n, unless the request names another tunnel |
| Watch.SnapshotAfterVisits | internal/registry/server.go:286-305 | the snapshot is taken once every listed session has been visited |
| Watch.SnapshotIffListed | internal/registry/server.go:281-285 | a streaming watch that asked for existing leases has a snapshot exactly when its session listing succeeded |
| WatchLoss.FailedListingHidesGrant | internal/registry/server.go:281-285 | for every filter a run with a failed listing in which a matching earlier grant is neither in a snapshot nor on its way |
| WatchLoss.FullChannelLosesGrant | internal/registry/mem_coordinator.go:200-209 | for every filter a run with a successful listing in which sixty-four unread grants fill the channel and the next matching one is refused |
| WatchLoss.NothingLostIff | internal/registry/server.go:143-315 | in all runs to a streaming watch every operation lies before a snapshot that lists exactly the matching leases left standing at its own reading, or each matching event is exactly once on its way or sent, exactly when the session listing succeeds and the channel never fills |
| WatchView.SnapshotShowsStanding | internal/registry/mem_coordinator.go:271-293 | with ordered readings, the snapshot lists exactly the matching leases that the history of grants and releases leaves standing at the reading of the action that took it |
| WatchView.StandingIsKnown | internal/registry/server.go:143-176 | once drained with nothing refused, every matching lease of the table was listed by the snapshot or its grant was sent, unless it had run out before the snapshot |
| WatchView.KnownIsStanding | internal/registry/server.go:143-176 | once drained with nothing refused, a lease the client was told of that is no longer in the table had its release or its next version sent, unless a lookup found it run out and purged it |
| WatchView.PurgeIsSilent | internal/registry/mem_coordinator.go:138-154 | for every filter a run in which a granted lease is sent and then purged by a lookup, and nothing is left to send |
| WatchView.NothingInvented | internal/registry/mem_coordinator.go:85-128 | whatever is waiting, queued, taken or refused is an event of the operation it names |
| WatchDrain.StreamCatchesUp | internal/registry/server.go:156-174 | a streaming watch can always be brought to have nothing pending and nothing queued, without refusing anything, in two steps per pending and one per queued event |
| WatchDrain.NothingBlocks | internal/registry/mem_coordinator.go:199-209 | in every state any operation and any pending publish can run, whether or not the watch has room |
| WatchDrain.EveryWatchStreams | internal/registry/server.go:143-315 | whatever the session listing returns and the clock reads, a watch streams after one step for each listed session and at most three more |
| WatchDrain.SnapshotComesFirst | internal/registry/server.go:148-156 | nothing is taken off the channel before the snapshot is done |
| WatchDrain.UnaskedStreamsAtOnce | internal/registry/server.go:148-156 | a watch that does not ask for existing leases streams once subscribed and never lists, visits or takes a snapshot |
| Router.HostnameInjective | internal/gateway/router.go:27-29 | default hostnames are equal exactly when the trimmed tunnel IDs are, so never for two prefixed IDs |
| Router.HostnamesRead | internal/gateway/router.go:27-34 | before the dot and the domain stands the ID without a "t-" at its front, and for a label the label, a dash and that ID |
| Router.TunnelRouter.DeregisterAll | internal/gateway/router.go:70-79 | the scan, in any order, removes exactly the tunnel's hostnames |
| GatewayObject.Server.RemoveTunnel | internal/gateway/gateway.go:362-396 | leaves what the removal sections leave, and in so many words: no row, no hostname, the lease tried once, nothing else changed |
| GatewayObject.Server.FinalizeTunnelRemoval | internal/gateway/gateway.go:462-504 | the whole finalization, timer cancellation included, leaves what its sections leave |
| GatewayObject.Server.SuspendTunnel | internal/gateway/gateway.go:404-459 | leaves what the suspension sections leave: the row detached with one new timer armed and recorded, or, without a token or without storing it, no row, no hostname, the lease tried and no timer; and says when it cannot finish |
| GatewayObject.Server.ResumeSession | internal/gateway/agent_handler.go:427-475 | timer cancellation, re-attachment and reply leave what their sections leave, and go on to serve exactly if the tunnel was there and the reply succeeded |
| GatewayObject.Server.HandleV1Auth | internal/gateway/agent_handler.go:195-213 | leaves what the V1 sections leave: serving exactly if lease, reply and announcement went well, then with a new row on the connection that has the lease granted; otherwise without one and with that lease tried |
| GatewayObject.Server.HandleV2Auth | internal/gateway/agent_handler.go:260-312 | leaves what the V2 sections leave: serving exactly if lease, reply and announcement went well, then with a new row on the connection that has the lease granted; otherwise without one and with that lease tried |
| GatewayObject.Server.RegisterLabels | internal/gateway/agent_handler.go:270-282 | the loop leaves exactly the routes of the recursive registration, which `GatewayAlone.RegisterAllRoutes` describes hostname by hostname |
| GatewayProofs.StepKeepsInv | internal/gateway/gateway.go:343-504 | every locked section of every operation keeps attachment, timer ownership, coverage of suspended tunnels, hostname coverage and row uniqueness |
| GatewayProofs.SuspendedIffDetached | internal/gateway/gateway.go:423-425 | in every interleaving a tunnel is suspended exactly when no connection is attached |
| GatewayProofs.NeverStranded | internal/gateway/gateway.go:404-504 | each suspended tunnel is covered by an armed timer or an operation in flight, and the gateway alone can end the suspension within five steps |
| GatewayProofs.QuietMeansNoOrphans | internal/gateway/agent_handler.go:179-333 | once no operation but stream loops is in flight, every routed hostname names a tunnel in the table |
| GatewayProofs.QuietMeansServed | internal/gateway/public_handler.go:52-81 | once no operation but stream loops is in flight, a request for a routed hostname is served on its tunnel's connection under its label, exactly unless that tunnel is suspended |
| GatewayProofs.OneReleasePerRow | internal/gateway/gateway.go:362-396 | removal and finalization together try to release a row's lease at most once |
| GatewayProofs.QuietMeansReleased | internal/gateway/gateway.go:462-504 | once no operation but stream loops is in flight, the lease of every row taken out has been tried |
| GatewayLeases.LeasesConserved | internal/gateway/gateway.go:343-391 | in every interleaving a lease is with an operation, on a row or tried for release exactly as often as it was granted, less the rows replaced by another authentication of the same tunnel ID |
| GatewayLeases.QuietLeases | internal/gateway/gateway.go:343-391 | once only stream loops are in flight and no row was replaced, every grant of a lease is on a row or was tried |
| GatewayLeases.RowLeaseWasGranted | internal/gateway/agent_handler.go:198-214 | in every interleaving the lease of a row is one that a lease call granted for that very tunnel |
| GatewayTending.AttachedIsTended | internal/gateway/agent_handler.go:335-356 | as long as resumption replies succeed, each attached tunnel has an operation in flight that looks after it, and the gateway alone can suspend or remove it within three steps |
| GatewayTending.FailedReplyStrands | internal/gateway/agent_handler.go:469-475 | for every tunnel a run in which a resumption's reply fails, the row stays attached and no operation is left |
| GatewayTending.TendedIff | internal/gateway/agent_handler.go:427-497 | every attached tunnel is looked after in every run exactly when resumption replies never fail |
| GatewayTending.AloneRuns | internal/gateway/gateway.go:343-504 | what an operation achieves undisturbed is reachable by the interleaving in which only it moves |
| GatewayAnytime.V1Anytime | internal/gateway/agent_handler.go:179-220 | from every reachable state a V1 authentication can end with its default hostname served on its connection |
| GatewayAnytime.V2Anytime | internal/gateway/agent_handler.go:222-333 | from every reachable state a V2 authentication can end with every label's hostname served on its connection |
| GatewayAnytime.RemovalAnytime | internal/gateway/gateway.go:362-396 | from every reachable state a removal can leave neither the tunnel's row nor, if it had one, any hostname of it |
| GatewayAnytime.ResumeAnytime | internal/gateway/agent_handler.go:427-475 | from every reachable state a resumption can end with every hostname of its tunnel served on its connection |
| GatewayAnytime.OperationsAdvance | internal/gateway/gateway.go:362-504 | an operation's next section can run in every state and with every outcome of its call, except the suspension of a tunnel with no connection; an armed timer can fire at any time |
| GatewayAlone.RegisterAllRoutes | internal/gateway/agent_handler.go:270-282 | registering the labels routes each label's hostname to its label and changes no other hostname |
| GatewayOutcomes.V1Outcome | internal/gateway/agent_handler.go:194-218 | an undisturbed V1 authentication, for every outcome of its calls: a new row with the connection and the lease granted and the default hostname leading to it, or no row, the hostname gone and a granted lease tried; no timer touched |
| GatewayOutcomes.V1LeavesOthers | internal/gateway/agent_handler.go:194-218 | it leaves every other hostname as it was, except that taking the row out again takes all of the tunnel's |
| GatewayOutcomes.V2Outcome | internal/gateway/agent_handler.go:250-316 | the same for V2 with every label's hostname leading to the row under its label; without a lease nothing changes, and after a lease a failure leaves no hostname of the tunnel |
| GatewayOutcomes.AuthThenRemove | internal/gateway/gateway.go:343-391 | after a V1 or V2 authentication the row has the lease granted, and a removal then tries that lease once |
| GatewayAlone.AuthThenServe | internal/gateway/public_handler.go:52-81 | after an undisturbed V2 authentication a request for any label's hostname is served on the new connection under that label |
| GatewayAlone.AuthLeavesOthers | internal/gateway/agent_handler.go:260-312 | whatever the outcome of a V2 authentication, hostnames of other tunnels that are not among its labels are served as before |
| GatewayOutcomes.SuspendOutcome | internal/gateway/gateway.go:404-459 | an undisturbed suspension detaches the row and arms and records one timer; without a token or without storing it no row and no hostname is left, the lease is tried and no timer is armed; on a detached tunnel it does not get past its first section |
| GatewayOutcomes.ResumeOutcome | internal/gateway/agent_handler.go:427-475 | an undisturbed resumption puts the connection on the row, which keeps its ID and lease, and stops and forgets the recorded timer |
| GatewayOutcomes.RemovalOutcome | internal/gateway/gateway.go:362-396 | an undisturbed removal leaves no row and no hostname of the tunnel, tries its lease once and touches nothing else |
| GatewayOutcomes.ExpiryOutcome | internal/gateway/gateway.go:462-504 | a timer that fires does the same and forgets the recorded timer |
| GatewayOutcomes.LoopOutcome | internal/gateway/agent_handler.go:335-358 | a stream loop that ends without suspending leaves no row and no hostname, tries the lease once and arms no timer; one that suspends leaves the row detached with one timer armed and recorded |
| GatewayAlone.SuspendThenResume | internal/gateway/agent_handler.go:427-456 | a resumption in time gives back the same row, lease and hostnames on the new connection and leaves no timer armed |
| GatewayAlone.SuspendThenExpire | internal/gateway/gateway.go:452-499 | a timer that fires undisturbed removes the row and its hostnames and tries its lease once |
| Wire.AuthV2RoundTrip | internal/transport/transport.go:300-471 | decoding the frame of an encodable message, followed by any bytes, returns the message and those bytes |
| Wire.AuthV2Canonical | internal/transport/transport.go:365-471 | every accepted input is the frame of its result followed by the remainder |
| Codec.EncodeAuthV2 | internal/transport/transport.go:300-362 | accepts exactly the encodable messages; every write is inside the buffer and the frame fills the precomputed size |
| Codec.DecodeAuthV2 | internal/transport/transport.go:365-471 | the field-by-field decoder is the format's parser, errors included |
| WireFrames.ResponseRoundTripIff | internal/transport/transport.go:484-700 | an accepted response round-trips with any remainder exactly when labels are within 255 bytes and hostnames and gateways within 512 |
| WireFrames.ResponseCanonical | internal/transport/transport.go:563-700 | every accepted response is the canonical frame of its result |
| Codec.EncodeAuthV2Response | internal/transport/transport.go:484-560 | accepts exactly what it checks; every write is inside the buffer and the frame fills the precomputed size, truncated lengths included |
| Codec.DecodeAuthV2Response | internal/transport/transport.go:563-700 | the field-by-field decoder is the format's parser |
| WireFrames.ResumeReplyRoundTrip | internal/transport/transport.go:739-804 | a resume reply round-trips with any remainder |
| WireFrames.ResumeReplyCanonical | internal/transport/transport.go:766-804 | every accepted resume reply is the frame of its result |
| WireFrames.DatagramRoundTripIff | internal/transport/transport.go:808-878 | an encodable datagram round-trips exactly when it is not all empty |
| WireFrames.DatagramExact | internal/transport/transport.go:840-878 | a decoded datagram and its ignored remainder make up the input exactly, and its payload is within the limit |
| WireFrames.DatagramCanonical | internal/transport/transport.go:840-878 | a decoded datagram re-encodes to a prefix of its input, and is encodable exactly when label and address are within 64 bytes |
| Codec.EncodeUDPDatagram | internal/transport/transport.go:808-836 | accepts exactly the encodable datagrams and fills its buffer |
| Codec.DecodeUDPDatagram | internal/transport/transport.go:840-878 | decodes by offsets that stay inside the datagram, whatever the bytes, to the format's parse |
| WireLayout.AuthV2Limits | internal/transport/transport.go:300-362 | what the encoder accepts, in numbers |
| WireLayout.AuthV2Layout | internal/transport/transport.go:322-362 | the AuthV2 frame is, byte by byte, type 6, token, tunnel count, each tunnel's label, address and type, and region, with big-endian lengths |
| WireLayout.ResponseLimits | internal/transport/transport.go:484-505 | what the response encoder accepts and what fits its fields, in numbers |
| WireLayout.ResponseLayout | internal/transport/transport.go:505-560 | the response frame byte by byte |
| WireLayout.ResumeReplyLayout | internal/transport/transport.go:739-764 | the resume reply byte by byte, and exactly which replies the encoder accepts |
| WireLayout.DatagramLayout | internal/transport/transport.go:808-836 | the datagram byte by byte, and exactly which datagrams the encoder accepts |
| WireLayout.HelloLayout | internal/transport/transport.go:78-92 | the hello byte by byte, its client version cut to 64 bytes |
| WireLayout.TokenLayouts | internal/transport/transport.go:126-139 | the auth and session-resume frames byte by byte |
| Refusals.AuthV2Refusals | internal/transport/transport.go:365-395 | which inputs an AuthV2 decoder refuses for their type, their token length, their tunnel count or their shortness |
| Refusals.AuthRefusals | internal/transport/transport.go:141-162 | auth and session-resume frames are refused for another type or an overlong token |
| Handshake.HelloRoundTrip | internal/transport/transport.go:78-114 | a hello decodes to its version and its client string: whole within 64 bytes, else its first 64 |
| Handshake.HandshakeParses | internal/gateway/agent_handler.go:57-138 | the gateway reads an agent's hello, optional rejected resumption and authentication into exactly the messages sent, with exactly what followed left over |
| HandshakeExact.AcceptedIff | internal/gateway/agent_handler.go:57-138 | the gateway accepts a control stream as given messages and a remainder exactly if it consists of their frames and the remainder: an optional hello of version 3, then an authentication, an accepted resumption, or a rejected one and an authentication, every field within its limit |
| HandshakeExact.HelloCanonical | internal/transport/transport.go:94-114 | a decoded hello is its input again, with a client version of at most 64 bytes |
| Handshake.ResumedParses | internal/gateway/agent_handler.go:98-109 | an accepted resumption ends the handshake: the gateway has exactly the hello and the token, and leaves exactly what followed |
| Handshake.HelloIsOptional | internal/gateway/agent_handler.go:57-88 | the hello may be left out |
| Handshake.OtherVersionsRefused | internal/gateway/agent_handler.go:73-78 | a hello of any other protocol version is refused, whatever follows |
| Handshake.OtherTypesRefused | internal/gateway/agent_handler.go:96-138 | any other frame type is refused, first, after the hello and after a rejected resumption |
| Truncation.DispatchStable | internal/gateway/agent_handler.go:57-138 | bytes that arrive after a complete handshake change neither its result nor the remainder before them |
| Truncation.NoPrefixHandshakes | internal/agent/agent.go:346-374 | no proper prefix of an agent's control stream is taken for a complete handshake |
| Truncation.NoPrefixResumes | internal/gateway/agent_handler.go:98-109 | no proper prefix of a stream that resumes a session is taken for a complete handshake |
| Truncation.NoPrefixAuthV2 | internal/transport/transport.go:365-471 | no proper prefix of an AuthV2 frame is accepted |
| Truncation.NoPrefixResponse | internal/transport/transport.go:563-700 | no proper prefix of an AuthV2 response whose fields fit is accepted |
| Truncation.NoPrefixResumeReply | internal/transport/transport.go:766-804 | no proper prefix of a resume reply is accepted |
| Truncation.NoPrefixHello | internal/transport/transport.go:94-114 | no proper prefix of a hello is accepted after its type byte |
| Truncation.NoPrefixAuth | internal/transport/transport.go:141-162 | no proper prefix of an auth frame is accepted |
| Truncation.NoPrefixResume | internal/transport/transport.go:718-735 | no proper prefix of a session-resume frame is accepted |
| RateLimiter.IPRateLimiter.constructor | internal/auth/rate_limiter.go:28-42 | defaults for non-positive arguments, an interval of a minute divided by the rate, five minutes between cleanups |
| RateLimiter.IPRateLimiter.MaybeCleanup | internal/auth/rate_limiter.go:61-72 | when due, removes exactly the entries idle for longer than the interval |
| RateLimiter.IPRateLimiter.Allow | internal/auth/rate_limiter.go:46-57 | one call: cleanup, find or create the bucket, spend a token |
| RateLimiterProofs.PruningIsInvisible | internal/auth/rate_limiter.go:46-72 | over every trace the pruning limiter admits exactly what one that never prunes admits, if a bucket refills in time |
| RateLimiterProofs.EqualBurstRefillsInTime | internal/auth/rate_limiter.go:28-42 | a burst equal to the rate refills in time |
| RateLimiterProofs.PruningInvisibleIff | internal/auth/rate_limiter.go:61-72 | pruning is invisible on all traces exactly when a full bucket refills within the cleanup interval |
| RateLimiterProofs.LateRefillDiffers | internal/auth/rate_limiter.go:61-72 | for every configuration that refills too slowly a trace on which pruning admits something else |
| RateLimiterProofs.WindowBound | internal/auth/rate_limiter.go:46-57 | any window admits at most burst plus window length divided by interval requests per key, and all of them if the rate is so high that the interval is zero |
| RateLimiterProofs.CallersWindowBound | internal/gateway/gateway.go:113-116 | the window bound for the pruning limiter as its callers configure it |
| RateRule.AdmittedIff | internal/auth/rate_limiter.go:46-57 | a request is admitted exactly when, counting back to any earlier request, the requests of its key admitted since then, plus one, times the interval are at most burst times interval plus the time since |
| RateRule.PruningAdmitsIff | internal/auth/rate_limiter.go:46-72 | the same rule for the pruning limiter, if a bucket refills in time |
| RateRule.CallersAdmitIff | internal/gateway/gateway.go:113-116 | the same rule for the limiter as its callers configure it |
| RateLimiterProofs.ConfiguredIs | internal/auth/rate_limiter.go:28-42 | interval, burst and cleanup interval in numbers |
| RateLimiterProofs.CacheIsDated | internal/auth/rate_limiter.go:46-72 | a key is in the cache under the time of its last request, admitted or not, and for at least a cleanup interval after it |
| RateLimiterProofs.CacheIsRecent | internal/auth/rate_limiter.go:61-72 | the cache holds only keys seen within the last two cleanup intervals |
| DistributedRouter.Watcher.UpsertTunnelRoutes | internal/gateway/distributed_router.go:159-171 | routes the default hostname to the owner at its known address |
| DistributedRouter.Watcher.RemoveTunnelRoutes | internal/gateway/distributed_router.go:181-191 | the scan, in any order, removes exactly the tunnel's routes |
| DistributedRouter.Watcher.HandleEvent | internal/gateway/distributed_router.go:92-157 | the effect of each event kind on routes and relay addresses |
| DistributedRouter.Watcher.Lookup | internal/gateway/distributed_router.go:56-67 | returns a peer's route and hides the gateway's own |
| DistributedRouter.RoutesFollowPeers | internal/gateway/distributed_router.go:92-191 | after any history without collisions a tunnel's hostname leads to the last peer named as its owner since it was last dropped, at the address known when it was named |
| DistributedRouter.FollowsUnlessTakenOver | internal/gateway/distributed_router.go:123-142 | such a history is routed by its last event, this gateway's own grants included, exactly unless this gateway owns the tunnel now and a peer was named since it was last dropped |
| DistributedRouter.TakeoverStaysRouted | internal/gateway/distributed_router.go:135-142 | after a grant to a peer and one to this gateway, the lookup still leads to the peer |
| DistributedRouter.CollisionMisroutes | internal/gateway/router.go:27-29 | one acquired lease of a colliding tunnel makes the other tunnel's hostname lead to the wrong owner |
| DistributedRouter.RoutesFollowIff | internal/gateway/distributed_router.go:92-191 | all histories over two tunnels are routed by their last event exactly when the two do not share a default hostname and this gateway, if it has an ID, is never named as the owner |
| DistributedRouter.PrefixedNeverCollide | internal/gateway/router.go:27-29 | prefixed tunnel IDs never share a default hostname |
| DistributedRouter.ScanIsOneKey | internal/gateway/distributed_router.go:181-191 | the full-map removal scan deletes just the tunnel's own hostname |
| Scorer.ScoreMonotone | internal/gateway/relay_scorer.go:119-130 | a report that is nowhere worse scores no lower, if -500 ms does not lie between the round-trip times |
| Scorer.ScoreMonotoneIff | internal/gateway/relay_scorer.go:119-130 | for two round-trip times this holds of all reports exactly when they are on the same side of -500 ms |
| Scorer.ScoreIs | internal/gateway/relay_scorer.go:119-130 | a report scores 1 minus 0.4 times rtt / (rtt + 500), minus 0.4 times its loss and 0.2 times its mean utilisation, each capped at a hundred percent |
| Scorer.ScoreRange | internal/gateway/relay_scorer.go:119-130 | a score is positive for every round-trip time above -500 ms, and at most 1 without negative figures |
| Scorer.SmoothBetween | internal/gateway/relay_scorer.go:46-50 | a smoothed score stays between any bounds of its reports |
| Scorer.HistoryMonotone | internal/gateway/relay_scorer.go:40-58 | a componentwise no-worse history of equal length ends no lower |
| Scorer.HistoryRange | internal/gateway/relay_scorer.go:40-58 | a history without negative figures ends in [0, 1] |
| Scorer.RepeatsConverge | internal/gateway/relay_scorer.go:46-50 | k repeats of one report shrink the distance to it by exactly 0.7 to the k |
| Scorer.RelayScorer.Update | internal/gateway/relay_scorer.go:40-58 | the stored score is the smoothing of the relay's whole history; region and address are kept when given |
| Scorer.RelayScorer.BestRelaysForRegion | internal/gateway/relay_scorer.go:89-116 | at most n eligible relays, best first; an eligible relay left out scores no higher than any chosen |

## Left out

- Real timers and deadlines, bandwidth limiting and the byte callback of the relay: they decide when I/O fails, and here it may fail at any time.
- Relay records, relay health and their events in the coordinator and the watch: plain copies beside the leases.
- Several watchers at once and the end of a subscription: each watch has its own channel, so one is modelled.
- The etcd coordinator: its guarantees rest on the etcd server.
- Agreement between the distributed router and the lease table: publishes are asynchronous, may be dropped, and lazy purges emit no event.
- UpdateRelayAddr and the scorer updates of the distributed router's events: they change no ownership.
- Stream counting and quotas, access lists and the public listener beyond its choice of a connection: their checks are separate steps and decide no invariant.
- The goroutines of the relay and the gateway are step systems on values, not methods: interleaving is what is proved, and Dafny methods do not interleave.
- The hello, auth, session-resume and resume-reply frames are functions on byte sequences; AuthResponse, StreamLabel and heartbeat frames have the same shape and are not repeated.
- Several clock readings inside one rate-limiter call: one reading stands for all of them.
- BestRelay and floating-point rounding of the scores.
- The last renaming of the pair's error, a closed connection into the context's error: both are errors, so nil is not affected.
- Session records sent before the snapshot: the lookups they make are modelled, the records are plain copies.
- Scorer.RelayScorer.Update: not for a round-trip time of -500 ms, because there the source divides by zero in floating point and stores an infinity, which real numbers do not have.
- Scorer.ScoreIs: not for a round-trip time of -500 ms, for the same reason.
- Scorer.ScoreRange: not for a round-trip time of -500 ms, for the same reason; no upper bound with negative figures, because they raise the score above 1.
- Scorer.ScoreMonotone: not with -500 ms between the round-trip times, because there it is false.
- Scorer.HistoryMonotone: not with -500 ms between two round-trip times, because there it is false.
- Scorer.HistoryRange: not with negative figures, because they take the score out of the interval.
- Dashboard, configuration, storage, authentication back ends, TLS, QUIC, metrics and logging.
