# Remote device sync: a Dafny model

The agent of this system lets a peer use a device only after the peer has presented a signed grant, and
takes the device away again when the grant expires or is revoked. Around that core it carries audio,
desktop frames and clipboard text, and it keeps an evidence log. This project models that logic and
proves what it keeps, over every input and every interleaving.

**Grant admission.** `AuthzProtocol` is a concurrent state machine: any number of connections, on each
any number of authorization streams with their clients, one watchdog per connection, a shared replay set
and a shared denylist. A critical section is cut into atomic steps wherever it reads a clock, the
denylist, the replay set or the connection, so other tasks interleave there. Clock readings are inputs
of a step and are unconstrained: the clocks may stop, step back or be unreadable. A run is any sequence
of actions from the empty agent; an action that is not enabled changes nothing. `AuthzInvariant` and
`AuthzRuns` hold the invariant and show that every step keeps it; `AuthzTheorems`, `AuthzSessions` and
`AuthzResponse` draw the conclusions. `ConnAuthz.dfy` holds the same operations as the mutable objects
they are in the agent, with their methods run to the end, and connects the two: the protocol's small
steps, when nothing interrupts them, do what the methods do. `ClientAuthz` holds the client's half with
its two guards, `ServiceWait` the services that wait for an authorization in progress. `Grant`, `Clock`, `Revocations` and
`AuthzState` are the parts both share.

**Media and text.** `JitterBuffer`, `JitterTheorems` and `JitterReorder` are the audio reorder buffer;
`DecodeChain`, `FrameOrder`, `ReceiveLoop` and `ReceiveStream` the way of a desktop frame to the native
decoder, in a direct session and in a relayed viewer; `Clipboard` the chunked text transfer; `DeliveryRate` the goodput floor.

**Evidence and configuration.** `HashChain`, `Receipts` and `ReceiptLog` are the hash-chained receipt
log; `TcpTarget` the canonical TCP destination and the policy lookup that compares destinations.

Cryptography, serialization, codecs and the standard library's address parser enter as function
parameters. What is relied on from them is a named predicate (`Grant.DecodersAgree`, `Receipts.Sound`,
`TcpTarget.Sound`). Hash collisions are never assumed away: the results that depend on a hash either
hold or exhibit a collision between the very values they speak of.

Two things the code's own comments promise hold only under a condition, which is proved exactly:

- The relay decoder's promise to apply the discipline of a direct session. It holds for what is fed to a
  decoder, but the two make the same decoder calls if and only if no reference that the session gave up on
  while its chain was whole then arrives after all, as the next frame that is not stale and with a payload
  (`DecodeChain.FedAlike`, `FrameOrder.ForkHappens`).
- Appending a receipt does not check everything validation demands, writes after an unterminated line,
  and does not make sure that its line is read back as written. It keeps a log valid exactly when its
  caller sees to these three, short of a collision (`ReceiptLog.AppendsExact`,
  `ReceiptLog.UncheckedTopology`, `ReceiptLog.UnterminatedLog`, `ReceiptLog.ReadBackOtherwise`).

The reorder queue's promise that only an independently decodable frame skips a gap holds in the program
(`ReceiveLoop.ReceivedInOrder`), because the receive loop empties the queue before each push. The queue
type alone does not give it: `FrameOrder.QueueOrderly`, `FrameOrder.PutOk`, `FrameOrder.SpoiledHead` and
`FrameOrder.ClobberHappens` say exactly when an arbitrary caller keeps the order, and
`ReceiveLoop.ClobberOutOfReach` that the loop never makes the calls that break it.

And one guard turns out to be idle: the goodput floor has a two-second age limit, but a floor is always
less than a second old (`DeliveryRate.FloorJustified`, `DeliveryRate.AgeLimitIdle`).

`dafny verify dfyconfig.toml` checks the whole project.

## Model

| member | source | states |
|---|---|---|
| Clock.RemainingAt | crates/rds-discovery/src/clock.rs:91-107 | a lease has time left exactly while it is valid at that reading |
| Clock.LeaseSpan | crates/rds-discovery/src/clock.rs:69-107 | however wall and continuous clock move, a lease is never valid for longer of continuous time than the interval it was accepted with |
| Grant.NoVersionConfusion | crates/rds-core/src/grant.rs:393-562 | bytes signed under one payload version are never accepted as the other; a version-2 payload carries no version-3 claim |
| Grant.IdNamesSession | crates/rds-core/src/grant.rs:178-190 | two grants share an id iff they share issuer, subject, audience and nonce, or their session keys collide under the hash |
| Grant.RenewalOrder | crates/rds-core/src/grant.rs:203-219 | renewal is a strict order within one scope: it cannot be undone by a renewal and it composes |
| Grant.VerifiedClaims | crates/rds-core/src/grant.rs:393-437 | everything an accepted token establishes: trusted issuer, signature over the version's domain, peer, audience, tenant, revision floor, live interval, bounded lifetime |
| Revocations.RunConsistent | crates/rds-agent/src/revocations.rs:94-159 | in every interleaving of feeds there is at most one owner, ownership excludes local authority, and lease and revision are those of the owner's own latest publication, the lease withdrawn once it failed |
| Revocations.ObsoleteFeedInert | crates/rds-agent/src/revocations.rs:114-182 | a feed that lost ownership can never change the value again, in any continuation, although its task may still run |
| Revocations.FreshnessIsOwned | crates/rds-agent/src/revocations.rs:86-159 | managed freshness is always backed by a valid lease of the current, unfailed owner |
| Revocations.RevocationsSurvive | crates/rds-agent/src/revocations.rs:94-159 | an id leaves the denylist only by an explicit replacement or by the owner's next snapshot |
| Revocations.Denylist.Send | crates/rds-agent/src/revocations.rs:133-159 | an update is applied and receivers are woken exactly when the closure reports a change |
| Revocations.Denylist.StartFeed | crates/rds-agent/src/revocations.rs:187-215 | a feed starts only if there is no owner; it then owns the value, with the cached snapshot or with no freshness at all |
| Revocations.Denylist.Poll | crates/rds-agent/src/revocations.rs:212-258 | the polling loop applies exactly its publications up to the first fatal error; a displaced feed changes nothing |
| AuthzState.LifetimeBound | crates/rds-agent/src/authz.rs:56-74 | an accepted grant is usable for at most the agent's largest lifetime plus thirty seconds of continuous time |
| AuthzRuns.LocalKeeps | crates/rds-agent/src/authz.rs:122-575 | every step of every task, client, watchdog and teardown keeps the connection invariant |
| AuthzRuns.ReplayStep | crates/rds-agent/src/authz.rs:27-48 | a step claims an id that was free, releases exactly its own reservation, or leaves the replay set alone |
| AuthzRuns.RunInv | crates/rds-agent/src/authz.rs:93-575 | the agent invariant holds in every run: all connection invariants and an exact replay set |
| AuthzTheorems.NothingReopens | crates/rds-agent/src/authz.rs:258-264 | in every continuation of every run a closed connection stays closed, the Closed state is absorbing, and committed grants are only added to, and not once the state is Closed |
| AuthzTheorems.ReplayGuard | crates/rds-agent/src/authz.rs:27-48 | in every run an id is in the replay set iff exactly one connection holds that reservation |
| AuthzTheorems.OneSessionPerGrant | crates/rds-agent/src/authz.rs:137-166 | no grant authorizes two connections at once, although renewal claims nothing |
| AuthzTheorems.NothingLeaks | crates/rds-agent/src/authz.rs:27-89 | when all connections are closed and no lease is still being dropped the replay set is empty, whatever failed or was cancelled before |
| AuthzTheorems.OneOwner | crates/rds-agent/src/authz.rs:122-135 | two tasks are inside transactions of one connection only after its state was closed under them, and then neither commits in any continuation |
| AuthzTheorems.LoserInert | crates/rds-agent/src/authz.rs:433-460 | in every run, until its own begin succeeds, no step of a task changes anything but that task's record: not the winner's state, reservation, watchdog or log, nor the replay set, the denylist or another connection |
| AuthzTheorems.UnfinishedCloses | crates/rds-agent/src/authz.rs:418-431 | a task that ended with its guard armed has closed state and connection and holds no reservation |
| AuthzTheorems.ClientAgreement | crates/rds-client/src/lib.rs:59-103 | the client's call returns Ok only if the server task of that stream has committed a grant that the client's own token verifies as |
| AuthzTheorems.FailedCommitHidden | crates/rds-agent/src/authz.rs:433-526 | after an acknowledgement whose commit failed, FIN is never sent, the client cannot succeed, and the task ends with state and connection closed |
| AuthzTheorems.NoStaleExpiry | crates/rds-agent/src/authz.rs:225-256 | once a grant is committed, no later watchdog close is an expiry judged on an older revision |
| AuthzTheorems.NoLostRevocation | crates/rds-agent/src/authz.rs:528-575 | a watchdog that waits with no denylist update pending has checked the current denylist against the grant in force |
| AuthzSessions.SessionScope | crates/rds-agent/src/authz.rs:203-256 | all grants a connection ever commits share id, services, constraints, tenant and policy revision; between two of them either nothing changed, deadline included, or revision and expiry strictly grew |
| AuthzSessions.SlotIsSession | crates/rds-agent/src/authz.rs:76-89 | the reservation is the id of the grant in force and of every grant committed before it |
| AuthzSessions.DeadlineAccepted | crates/rds-agent/src/authz.rs:56-74 | every deadline in force was set by accepting that very grant once, at one clock reading |
| AuthzSessions.ScopeSound | crates/rds-agent/src/authz.rs:288-311 | whenever scope yields a grant, a task of that connection verified it, acknowledged it and committed it last, and it is live, unrevoked and under fresh policy at the call's readings |
| AuthzSessions.ScopeLifetime | crates/rds-agent/src/authz.rs:288-311 | a grant scope yields has at most the largest lifetime plus thirty seconds left |
| AuthzResponse.NeverStuck | crates/rds-agent/src/authz.rs:528-575 | while a revoked session lives, its watchdog has a step to take, whatever the clock says |
| AuthzResponse.WatchProgress | crates/rds-agent/src/authz.rs:528-575 | each watchdog step on a revoked session closes it or strictly lowers a rank |
| AuthzResponse.RevocationBound | crates/rds-agent/src/authz.rs:528-575 | under every interleaving during which a session stays on the denylist, its watchdog takes at most six steps before the session is over |
| ServiceWait.LeavingNotifies | crates/rds-agent/src/authz.rs:174-286 | the state leaves Authorizing only in a section that ends by notifying the waiting services |
| ServiceWait.NoMissedWakeup | crates/rds-agent/src/authz.rs:313-336 | in every interleaving a service that listens with no wake-up pending sees an authorization in progress, or the section that ended it has yet to notify; once all notifications are out only an authorization in progress keeps a service waiting |
| ServiceWait.AnsweredFromState | crates/rds-agent/src/authz.rs:313-336 | a waiting service is answered only with what scope says of the state at one of its looks, and never while that is an authorization in progress |
| ConnAuthzObject.ConnAuthz.constructor | crates/rds-agent/src/authz.rs:101-120 | a connection starts Pending when grants are required and Open otherwise |
| ConnAuthzObject.ConnAuthz.BeginTransaction | crates/rds-agent/src/authz.rs:122-201 | begin and begin_renewal: the new state, or the refusal and no change |
| ConnAuthzObject.ConnAuthz.Install | crates/rds-agent/src/authz.rs:137-172 | state, replay set and error of an install; a claim whose lease cannot be built is returned |
| ConnAuthzObject.ConnAuthz.CommitFirstGrant | crates/rds-agent/src/authz.rs:174-190 | the pending lease is granted if still open, live, fresh and unrevoked; otherwise the state closes and the reservation is returned |
| ConnAuthzObject.ConnAuthz.Prepare | crates/rds-agent/src/authz.rs:203-223 | a prepared renewal has the presented payload and the id in force; an exact retry keeps the current grant and deadline |
| ConnAuthzObject.ConnAuthz.CommitRenewal | crates/rds-agent/src/authz.rs:225-256 | the held lease takes the new grant if both are live and policy permits; otherwise the state closes and the reservation is returned |
| ConnAuthzObject.ConnAuthz.DropLease | crates/rds-agent/src/authz.rs:76-89 | dropping a lease returns exactly its reservation |
| ConnAuthzObject.ConnAuthz.CloseAll | crates/rds-agent/src/authz.rs:258-264 | closing ends in Closed with the reservation returned |
| ConnAuthzObject.ConnAuthz.CurrentScope | crates/rds-agent/src/authz.rs:288-311 | scope yields exactly the held grant, and only while it is live, fresh and unrevoked |
| ConnAuthzObject.Authorize | crates/rds-agent/src/authz.rs:433-526 | a refused begin changes nothing; after a successful one there are two endings only: granted with acknowledgement and FIN sent, or state and connection closed, no FIN, reservation returned |
| ConnAuthzObject.InstallUninterrupted | crates/rds-agent/src/authz.rs:137-172 | the protocol's install steps, uninterrupted, do what the method does |
| ConnAuthzObject.CommitUninterrupted | crates/rds-agent/src/authz.rs:174-190 | the protocol's commit steps, uninterrupted, do what the method does |
| ConnAuthzObject.RenewUninterrupted | crates/rds-agent/src/authz.rs:225-256 | the protocol's renewal steps, uninterrupted, do what the method does and show the new grant to the watchdog |
| ClientAuthz.RequestStreams.Complete | crates/rds-client/src/request.rs:39-54 | the pair is released and the request finished only after the end of the response was seen |
| ClientAuthz.RequestStreams.Drop | crates/rds-client/src/request.rs:56-63 | a guard that still owns its streams resets them; it never finishes a request implicitly |
| ClientAuthz.Authorization.Drop | crates/rds-client/src/request.rs:77-102 | an uncommitted authorization closes the connection when it is dropped |
| ClientAuthz.RequestAuthorization | crates/rds-client/src/lib.rs:59-103 | the call succeeds iff positive acknowledgement and FIN were seen; otherwise the connection is closed and the request reset |
| ClientAuthz.Exchange | crates/rds-client/src/lib.rs:59-103 | both halves together, whatever part of the response arrives: the client succeeds only on a connection granted for its token with its reservation held, and a failed call leaves the connection closed |
| ClientAuthz.ClientUninterrupted | crates/rds-client/src/request.rs:39-75 | the protocol's client, left alone with a finished response, succeeds exactly when the call does |
| JitterBuffer.Jitter.New | crates/rds-audio/src/lib.rs:364-386 | a buffer is built exactly for a valid format, a capacity in range and a delay below it |
| JitterBuffer.Jitter.Offer | crates/rds-audio/src/lib.rs:388-416 | an invalid packet is refused without a change; any other updates buffer and counters as specified and keeps the buffer well formed |
| JitterBuffer.Jitter.Take | crates/rds-audio/src/lib.rs:418-455 | one playout step as specified, keeping the buffer well formed |
| JitterBuffer.Jitter.Begin | crates/rds-audio/src/lib.rs:457-474 | playout starts at the given sequence or nothing changes |
| JitterBuffer.PushValid | crates/rds-audio/src/lib.rs:388-416 | no arrival exceeds the capacity, retains an exhausted or past sequence, or misplaces a packet |
| JitterTheorems.PlayoutExact | crates/rds-audio/src/lib.rs:388-474 | in every run the outcomes tile the interval from the first expected sequence to the playout position, the gap counter is exactly the number of missing sequences, and every admitted packet is accounted for once |
| JitterTheorems.TilesOrdered | crates/rds-audio/src/lib.rs:418-455 | of any two outcomes the later starts where or after the earlier ends |
| JitterTheorems.DrainBounded | crates/rds-audio/src/lib.rs:418-455 | the pops a buffer can answer are bounded by retained packets times capacity plus one, however distant the sequences |
| JitterReorder.ReorderingInvisible | crates/rds-audio/src/lib.rs:344-455 | playout shows no gap iff each packet arrives after at most target_delay of its successors, and then it is the in-order stream with no overflow |
| JitterReorder.WholeStream | crates/rds-audio/src/lib.rs:344-455 | a whole stream, boundedly reordered, comes out whole and in order and leaves the buffer empty |
| DecodeChain.DirectChain | crates/rds-desktop/src/client.rs:138-236 | with gaps, expiries and decode timeouts anywhere, a new decoder is fed a keyframe first and each further payload is the direct successor of the one before |
| DecodeChain.RelayChain | crates/rds-desktop/src/client.rs:755-801 | the same discipline in the relay decoder |
| DecodeChain.FedAlike | crates/rds-desktop/src/client.rs:749-801 | without decode timeouts the receive loop and the relay make the same native calls iff no reference given up on while the session's chain was whole arrives after all, as the next frame that is not stale and with a payload |
| DecodeChain.FedAlikeWithoutExpiry | crates/rds-desktop/src/client.rs:749-801 | they make the same calls on every run in which the queue never expires |
| DecodeChain.ReportsLimited | crates/rds-desktop/src/client.rs:749-801 | in every run and with any clock two keyframe requests of the relay decoder are at least 500 ms apart, and a frame that fails is reported or comes less than 500 ms after the last report |
| FrameOrder.PutOk | crates/rds-desktop/src/order.rs:24-49 | the queue type alone: with the queue in order, the next release after an arrival stays in order iff that arrival does not replace a queued keyframe by a delta frame |
| FrameOrder.QueueOrderly | crates/rds-desktop/src/order.rs:23-70 | the queue type alone, called in any order: at most three frames are held beside the awaited one; and frames leave consecutively, with only a keyframe skipping a gap or coming first, iff no pop comes while a delta frame stands in for the keyframe it replaced |
| FrameOrder.SpoiledHead | crates/rds-desktop/src/order.rs:23-70 | the queue type alone: a delta frame that nothing released precedes is next to leave iff an arrival replaced the awaited keyframe by it and neither a keyframe at or past its number nor a pop nor an expiry has come since |
| FrameOrder.ClobberHappens | crates/rds-desktop/src/order.rs:24-49 | the queue type alone: calls, for any number and time, after which a delta frame is the first one released; the receive loop never makes them |
| ReceiveLoop.LoopedOrderly | crates/rds-desktop/src/order.rs:1-70 | whenever arrivals only meet a queue whose awaited frame is absent, frames leave consecutively and only a keyframe skips a gap or comes first |
| ReceiveLoop.LoopIsLooped | crates/rds-desktop/src/client.rs:903-1007 | every run of the receive loop, which releases all it can before it takes anything in, consists of such calls and leaves the awaited frame absent |
| ReceiveLoop.ReceivedInOrder | crates/rds-desktop/src/client.rs:885-1008 | in every run of the receive loop frames leave consecutively, only a keyframe skips a gap or comes first, and no more than three frames wait |
| ReceiveLoop.ReceivedIsFed | crates/rds-desktop/src/client.rs:903-961 | in every run of the receive loop without expiry, with a decoder that answers, the decoder is fed every released frame in that order |
| ReceiveLoop.ClobberOutOfReach | crates/rds-desktop/src/client.rs:903-1007 | the calls that make the queue type fail its promise are not made by the receive loop |
| ReceiveStream.StreamReceived | crates/rds-desktop/src/order.rs:24-60 | a keyframe and its successors, arriving once each in any order, leave the receive loop whole and in order iff each frame arrives after at most three of its successors |
| ReceiveStream.StreamFed | crates/rds-desktop/src/client.rs:903-961 | and then a decoder that answers is fed the whole stream in order |
| FrameOrder.NoFrameWasted | crates/rds-desktop/src/client.rs:904-961 | while the queue does not expire and the decoder answers, every released frame reaches the decoder in order |
| FrameOrder.ForkHappens | crates/rds-desktop/src/client.rs:904-976 | arrivals, for any number and time, after which direct session and relay make different native calls |
| FrameOrder.Ordered.Push | crates/rds-desktop/src/order.rs:24-49 | the insertion with its eviction loop, as specified |
| FrameOrder.Ordered.Pop | crates/rds-desktop/src/order.rs:50-60 | releases the awaited frame and advances, or changes nothing |
| FrameOrder.Ordered.GiveUp | crates/rds-desktop/src/order.rs:61-69 | empties the queue exactly when it has been blocked for the timeout |
| FrameOrder.RelayDecoder.Push | crates/rds-desktop/src/client.rs:773-801 | one relayed frame as specified, with the answer to the viewer and its rate-limited keyframe request |
| FrameOrder.Receive | crates/rds-desktop/src/client.rs:903-961 | the receive loop feeds the decoder everything the queue releases, in that order |
| Clipboard.Assembly.Push | crates/rds-desktop/src/clipboard.rs:37-97 | one chunk as specified; every error leaves no partial text |
| Clipboard.CompletedText | crates/rds-desktop/src/clipboard.rs:37-97 | for arbitrary arrivals a completed text is the concatenation of one contiguous run of chunks of one id and total, has that length and is UTF-8 |
| Clipboard.ReverseSender.MakeOffer | crates/rds-desktop/src/clipboard.rs:107-118 | a text over the bound is not offered; any other replaces the offer and leaves a running transfer alone |
| Clipboard.ReverseSender.Request | crates/rds-desktop/src/clipboard.rs:120-137 | an offer is consumed once, by its own id, in time, and only when no transfer runs |
| Clipboard.ReverseSender.NextChunk | crates/rds-desktop/src/clipboard.rs:145-167 | the next chunk and what is left, as specified |
| Clipboard.TransferUndisturbed | crates/rds-desktop/src/clipboard.rs:106-167 | whatever is offered, withdrawn or requested meanwhile, the chunks sent are those of the requested text, in order |
| Clipboard.RoundTrip | crates/rds-desktop/src/clipboard.rs:37-167 | every text up to the bound, sent in chunks and received in time, comes back exactly, at the last chunk and not before |
| Clipboard.RequestedText | crates/rds-desktop/src/clipboard.rs:37-167 | from an accepted request on, whatever is offered, withdrawn or requested while the chunks go out, the receiver gets the text offered under that id, at the last chunk and not before |
| DeliveryRate.Estimator.Take | crates/rds-desktop/src/delivery_rate.rs:14-54 | one sample as specified |
| DeliveryRate.FloorJustified | crates/rds-desktop/src/delivery_rate.rs:14-54 | a reported floor is four fifths of the slower of two adjacent windows on one unimpaired path, each of 1000 to 2500 ms with three receipts and 4096 bytes; it leaves a fifth of either delivery unused and is less than a second old |
| DeliveryRate.AgeLimitIdle | crates/rds-desktop/src/delivery_rate.rs:51-53 | the two-second age limit never hides a floor |
| HashChain.HeadPins | crates/rds-bench/src/receipt.rs:278-307 | two valid chains with the same last hash are equal entry by entry, or hold two clashing entries |
| HashChain.HashesDistinct | crates/rds-bench/src/receipt.rs:278-307 | no hash occurs twice in a valid chain, unless two of its entries clash |
| HashChain.Prefix | crates/rds-bench/src/receipt.rs:278-307 | every prefix of a valid chain is valid, so truncation is seen only by who knows the last hash |
| Receipts.ReceiptsBind | crates/rds-bench/src/receipt.rs:194-197 | equal hashes mean equal receipts with equal predecessors, or a collision; no receipt hashes to the genesis marker |
| Receipts.ReceiptLinks | crates/rds-bench/src/receipt.rs:133-192 | the receipt that appending builds continues the chain iff topology, time stamp, build identity and digests are what validation asks for |
| ReceiptLog.Validate | crates/rds-bench/src/receipt.rs:278-307 | counts the receipts of a valid log; on an invalid one names the first line that breaks it and why |
| ReceiptLog.HistoryPinned | crates/rds-bench/src/receipt.rs:278-307 | two valid logs with the same last hash hold the same receipts in the same order, or a receipt of the one and a receipt of the other collide |
| ReceiptLog.BrokenStays | crates/rds-bench/src/receipt.rs:278-307 | a complete line that breaks the log breaks it for good |
| ReceiptLog.LogFile.Append | crates/rds-bench/src/receipt.rs:199-250 | appends one line and returns its hash, or changes nothing; succeeds iff the input is accepted and the last line has a hash |
| ReceiptLog.LastHashIsHead | crates/rds-bench/src/receipt.rs:260-276 | on a valid log the last hash is that of the last receipt, or the genesis marker |
| ReceiptLog.AppendValid | crates/rds-bench/src/receipt.rs:199-250 | appending to a valid log succeeds; if the receipt is complete, its line is read back as written and the log ended in a line feed or white space that JSON ignores, the log stays valid and is one receipt longer; otherwise it is valid only if the receipt collides with what is read back in its place |
| ReceiptLog.Unterminated | crates/rds-bench/src/receipt.rs:240-250 | the same for every valid log with more than white space after its last line feed and every accepted input |
| ReceiptLog.ReadBackOtherwise | crates/rds-bench/src/receipt.rs:237-249 | every accepted receipt that is not read back as written makes the log invalid whatever follows, short of that collision |
| ReceiptLog.AppendsExact | crates/rds-bench/src/receipt.rs:199-250 | any number of requests to an absent log: if every accepted one is complete and read back as written, the log is valid and holds exactly their receipts; otherwise it is invalid, or the first careless receipt collides with what is read back in its place |
| ReceiptLog.UncheckedTopology | crates/rds-bench/src/receipt.rs:199-212 | an accepted input with an empty topology makes a log that is invalid whatever follows, short of that collision |
| ReceiptLog.UnterminatedLog | crates/rds-bench/src/receipt.rs:240-250 | a valid log of one receipt that lost its line feed is invalid whatever follows once a complete receipt is appended, short of that collision |
| TcpTarget.CaseInsensitive | crates/rds-core/src/tcp_target.rs:23-64 | letter case never changes a target |
| TcpTarget.NewFixed | crates/rds-core/src/tcp_target.rs:23-64 | a canonical host is its own canonical form |
| TcpTarget.RoundTrip | crates/rds-core/src/tcp_target.rs:77-136 | printing any target and parsing the text gives the target back; the size limit refuses none |
| TcpTarget.ParseRoundTrip | crates/rds-core/src/tcp_target.rs:77-136 | the same for every text that parses |
| TcpTarget.SpellingExact | crates/rds-core/src/tcp_target.rs:23-64 | an accepted host has the same target as another text iff the two differ in letter case at most or are addresses with one canonical form |
| TcpTarget.PermitsExact | crates/rds-agent/src/lib.rs:190-202 | a policy permits exactly the well-formed requests whose port and host it lists in some spelling, or all of them if it allows any |
| TcpTarget.SpellingIrrelevant | crates/rds-agent/src/lib.rs:190-202 | writing the request and every policy entry in other letter case, or their addresses in other notation, changes no decision |
| TcpTarget.PolicyCanonical | crates/rds-agent/src/lib.rs:190-202 | a policy decides alike on a request, its lower-case form and its canonical form, which spells the same host, and permits only what it lists |

## Left out

- QUIC, streams and deadlines: a stream is reduced to which of acknowledgement and FIN left while the connection was open; write and request timeouts appear only as steps that may fail.
- Cryptography and encodings: Ed25519, BLAKE3, postcard, JSON, Opus, H.264 and UTF-8 validation are function parameters. Of the JSON parser it is assumed that a printed hash is read back as it was; other values, such as floating-point budgets, may come back changed.
- The watch channel's internals: its contract is used, that a receiver sees the latest value and is woken when the version differs from the one it saw. The one-second timer beside it is the reason a parked watchdog can always wake.
- Waiting services: the deadline of `service_scope` is a step that may come at any time. Service and sync slots, the service handlers and the single permission helpers of a grant are not modelled.
- In the interleaved protocol the client half is three steps and its guard's close is the protocol's transport close; the guards themselves are objects only in `ClientAuthz`. A cancelled request's reset is not seen by the server task, which may go on; that is the protocol's ordinary interleaving.
- The lease's drop is one step after the state is taken, not a destructor with aborts and joins inside it; `close_and_wait` adds only the join.
- The grammar of sync scope paths is a parameter of grant decoding.
- Persistence of the policy store and of the replay floor: a polling turn either persisted a snapshot or did not.
- The session's own requests for a keyframe, gap repair, heartbeats and frame memory budgets: they change nothing that reaches the decoder. The relay decoder's requests are modelled.
- Clipboard backends, and the random draw of an offer's id, which is a parameter.
- File-system errors other than an absent log; the repository, toolchain and lockfile probes that fill a receipt's build identity.
- The parsing and printing of IP addresses: parameters with the properties named in `TcpTarget.Sound`.
- Settings, command line, relay, discovery server, reports, scaling benches and scripts.
