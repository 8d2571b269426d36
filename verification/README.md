# A verified model of the MRMI Gateway's core

MRMI Gateway is a store-and-forward policy gateway. An envelope passes a dedup index, the
policy engine, a hash-chained audit log, tiered forwarding with retries, a transit buffer and
a dead-letter queue. This project models those parts in Dafny and proves what they keep over
whole runs and under every interleaving.

Components whose methods update fields are classes (`Dedup.Index`, `Audit.Log`,
`AuditStore.Store`, `RateLimit.Limiter`, `Crl.Store`, `Transit.Cache`, `Dlq.DLQ`,
`Policy.Engine`, `Forwarder.Forwarder`, `Discovery.Broadcaster`). Each method is proved equal
to a function of the old state, and the lemmas are about runs of those functions. Concurrent
parts are step machines: one step is what one lock protects, time is an explicit clock that
does not go back, and a run is any sequence of steps.

| module | subject |
|---|---|
| `Gateway` | `SendEnvelope` as a step machine: many calls, purges, the drain, the operator's queue actions |
| `GatewayDedup`, `GatewaySettlement`, `GatewayLedger` | the three invariants of that machine: at most once per TTL, finality covered by approvals, conservation of envelopes |
| `GatewayReplay` | replays of dead letters as threads of that machine: when an envelope survives, which entry is removed |
| `GatewayRuns`, `GatewayReplayRuns` | runs put together step by step, for counterexamples |
| `SendEnvelope` | one call without interference, on the component classes |
| `GatewayRegions`, `RegionsAreSteps`, `SendIsARun` | the refinement from the component classes to the machine, region by region and for a whole call |
| `Dedup`, `Audit`, `AuditStore`, `RateLimit`, `Crl`, `Policy`, `Transit`, `Dlq`, `Retry`, `Cutoff`, `Forwarder` | the components |
| `Discovery`, `Flooding` | discovery on one node, and across a graph of nodes |
| `Clock`, `Config`, `Schema`, `Envelopes`, `Wrappers`, `Collections` | shared vocabulary |

## Main results

- **Conservation.** At every moment of every run, an allowed call is in exactly one of:
  forwarder, delivered, transit buffer, drain, dead-letter queue, or a closed list of seven
  named losses; a call that was not allowed is in none; and the sizes add up.
- **At most once per TTL.** Two calls with one idempotency key that are not answered DUPLICATE
  are at least the first one's TTL apart, in every interleaving of calls and purges.
- **Settlement finality.** In every prefix of the log, SETTLEMENT/FINAL entries never outnumber
  the iso20022 ALLOW entries of the same corridor and version; once nothing is about to be
  appended there is exactly one per delivered message.
- **Tamper evidence.** Two verifying logs with one root are equal, or the digest was broken on
  entries they contain. A file verifying to a node's root is that node's log, numbered 1..n.
- **Refinement.** The sharded, purged dedup index answers as a flat map that is never purged; a
  limiter that evicts idle buckets answers as one that never does, under an exact condition.
- **Rate limit.** A call is admitted if and only if no window ending in it overflows
  burst + rate * length, for timestamps in any order; after a burst, exactly from 1/rate seconds on.
- **Flooding** ends on every peer graph after a bounded number of steps, with one fan-out per
  node and one request per peer edge of a node that fanned out.
- **Replay.** A call's envelope is safe if and only if its key was free, it was allowed, forwarding
  kept it and nothing displaced it since; which entry a replay removes has its own exact condition.
- **Refinement of the pipeline.** Every locked region of the component classes, of whichever call,
  and of the purge, the drain and the operator's queue actions, extends any run of the step machine,
  so interleavings of these regions are runs and the invariants of all runs hold of them. A whole
  undisturbed call is such a run, ending as its contract says.
- **Revocation** gossip is a join of signature sets; revocation is permanent and reaches every
  later policy decision.

## Where the code does less than one might expect

Each of these has an exact condition, for all inputs.

- Large configured iso20022 dedup TTLs overflow 64-bit durations. The TTL is what is configured up
  to 2,562,047 hours (`GatewayDedup.IsoTtlExactIff`); the promised 72 hours hold over all runs if
  and only if the wrapped product still comes to that (`GatewayDedup.FloorHoldsIff`, with a run that
  breaks them in `GatewayDedup.FloorBroken`).
- `Broadcast` reads the clock twice. One nanosecond between the readings lets a request fan out
  twice (`Discovery.TwoReadingsFanOutTwice`); `Discovery.LetThroughOnceIff` says exactly which
  requests are safe for a given gap, over all runs of the index.
- Idle eviction is invisible if and only if a bucket refills completely in five minutes and a
  nanosecond (`RateLimit.EvictionInvisibleIff`). The deployed 10 per second with a burst of 20 does.
- `evictOldest` uses the empty key for "none yet", so with an empty key in the buffer it may
  evict a later entry (`Transit.EvictsEarliestIff`). The gateway never buffers an empty key.
- `NextOpen` names an instant inside the window if and only if open and close differ
  (`Cutoff.NextOpenInsideIff`). Its comment promises an opening at or after t. For a wrapping
  window that fails exactly after the day's opening, when it returns the opening that has passed
  (`Cutoff.NextOpenAtOrAfterIff`, `Cutoff.NextOpenHasPassed`). The model follows the code.
  `Forward` calls it only outside the window.
- Delays are truncated to whole nanoseconds, so the k-th wait is min(cap, base * m^(k-1)) if and
  only if the terms below the cap are whole (`Retry.WaitsExactIff`).
- A retry policy with no attempts reports success without sending
  (`Forwarder.AcceptedWasSentIff`).
- The reason and time of a revocation do not converge (`Crl.ReasonsAgreeIff`, `Crl.TimesAgreeIff`,
  `Crl.StayDifferent`).
- A replay of a dead letter removes an entry whatever it was answered. The envelope survives as the
  new call if and only if its key was not held at the lookup, the verdict was ALLOW, forwarding
  delivered, buffered or queued it and nothing displaced it since
  (`GatewayReplay.ReplaySurvivesIff`). The entry removed is the one replayed if and only if none at
  or below its index was removed meanwhile (`GatewayReplay.RemovesItsOwnLetterIff`).
  `GatewayReplayRuns` has runs in which the key is held, the verdict is a denial, the jitter wait is
  cancelled, there is no peer, the replay removes itself, and it removes another letter.
- An envelope for which there is no peer is recorded in no buffer or queue (loss `NoPeer`). That is
  so if and only if its window is open and no peer is eligible (`Forwarder.NoPeerIff`,
  `Gateway.CanEnd`).
- The persistent copy of the log drops the hashes and five other columns, and is complete if and
  only if no write is pending or has failed (`AuditStore.WholeLogIffNothingMissing`).

## Model

| member | source | states |
|---|---|---|
| `GatewayLedger.EveryEnvelopeInOnePlace` | internal/core/gateway.go:175-195 | conservation: over every run, an allowed call's envelope is in exactly one of forwarder, delivered, transit, drain, queue or a named loss, and any other call's in none |
| `GatewayLedger.LedgerBalances` | internal/delivery/forwarder.go:71-119 | the number of allowed calls is the sum of the sizes of the six places, after every run |
| `GatewayLedger.NextKeepsInv` | internal/transit/cache.go:49-89 | every step of the machine, including eviction and overwriting by `Put`, keeps the ledger balanced |
| `GatewayLedger.DrainKeepsInv` | internal/app/app.go:525-539 | draining takes exactly the expired entries out of the buffer, each once, and loses none |
| `GatewayReplay.SafeIffKept` | internal/core/gateway.go:139-195 | at every moment of every run, a call's envelope is delivered, buffered, being drained or queued if and only if its key was not held at the lookup, the verdict was ALLOW, forwarding ended in such a place, and no later step evicted, overwrote or discarded it |
| `GatewayReplay.ReplaySurvivesIff` | internal/server/http.go:489-516 | when a replay is over, the envelope is safe as the new call exactly under that condition |
| `GatewayReplay.EnvelopeSurvivesIff` | internal/server/http.go:489-516 | and safe at all exactly if so or if nothing displaced the old dead letter |
| `GatewayReplay.RemovesItsOwnLetterIff` | internal/server/http.go:499-510 | the dead letter a replay removes is the one it sent if and only if no other step removed one at or below its index in between |
| `GatewayReplay.RefusedReplayLoses` | internal/server/http.go:504-510 | if the key was held or the verdict not ALLOW, and the replay removes its own letter, the envelope is lost in every later state |
| `GatewayReplay.HeldKeyGoesNowhere` | internal/core/gateway.go:150-164 | a call looked up while its key is held is in no place, in every later state of every run |
| `GatewayReplay.DeniedGoesNowhere` | internal/core/gateway.go:196-200 | nor is a call whose verdict was not ALLOW |
| `GatewayReplay.LostForGood` | internal/delivery/dlq.go:54-61 | a lost envelope stays lost |
| `GatewayReplayRuns.HeldReplayLoses` | internal/server/http.go:489-516 | for any engine configuration that allows the envelope and any forwarder with a peer for it: a run in which a replay under a held key loses it |
| `GatewayReplayRuns.DeniedReplayLoses` | internal/server/http.go:489-516 | likewise, a replay that is let through, denied because the sender was revoked meanwhile, and loses the envelope |
| `GatewayReplayRuns.CancelledReplayLoses` | internal/core/gateway.go:183-184 | likewise, a replay that is allowed, cancelled in its jitter wait, and loses the envelope |
| `GatewayReplayRuns.UnroutedReplayLoses` | internal/delivery/forwarder.go:73-89 | a message queued outside its window for a region no peer serves, replayed inside the window after its key expired: allowed, without a peer, and lost |
| `GatewayReplayRuns.ReplayRemovesAnother` | internal/server/http.go:499-510 | a run in which a concurrent discard makes a replay remove a dead letter nobody sent again, while its own stays queued |
| `GatewayReplayRuns.ReplayRemovesItself` | internal/server/http.go:499-510 | a run in which a replay is queued again and, its letter discarded meanwhile, removes its own new entry |
| `GatewayReplayRuns.SampleRoutes` | internal/delivery/forwarder.go:43-66 | a configuration with one peer meets what these runs ask for |
| `GatewayReplayRuns.SampleUnrouted` | internal/delivery/forwarder.go:71-89 | and, for a corridor with a window and no peer, what the unrouted one asks for |
| `GatewayDedup.AnsweredWasAdmitted` | internal/core/gateway.go:150-164 | a non-dummy call answered anything but DUPLICATE was let through by the index |
| `GatewayDedup.LetThroughIffNotHeld` | internal/core/gateway.go:139-150 | over every run, a call is let through if and only if no earlier admission still holds its key, and found a duplicate otherwise |
| `GatewayDedup.HeldKeyIsDuplicate` | internal/dedup/index.go:40-65 | while an admission's TTL lasts, any other call with its key is found a duplicate, through any purges |
| `GatewayDedup.IsoTtlExactIff` | internal/core/gateway.go:140-146 | the TTL is the configured hours raised to 72 if and only if they fit 64-bit durations, and then at least 72 h |
| `GatewayDedup.LetThroughOncePerTtl` | internal/core/gateway.go:139-164 | in every interleaving, two calls with one key that are both let through are at least the first one's TTL apart, and at least 72 h for iso20022 if the configured TTL fits |
| `GatewayDedup.FloorHoldsIff` | internal/core/gateway.go:140-146 | in every run iso20022 calls with one key are let through at least 72 h apart, if and only if the hours, raised to 72 and wrapped to 64 bits, come to 72 h or more |
| `GatewayDedup.FloorBroken` | internal/core/gateway.go:140-146 | otherwise, a run that lets one through again within 72 h |
| `GatewayDedup.IsoFloorIff` | internal/core/gateway.go:142-146 | the same condition for the TTL of one call |
| `GatewayDedup.IsoFloorOverflows` | internal/core/gateway.go:142-146 | one hour above the largest representable number gives a negative TTL |
| `GatewayDedup.WrappedHours` | internal/core/gateway.go:142-146 | hours whose wrapped TTL is positive and under an hour, and larger ones that fit again |
| `GatewaySettlement.FinalityIsCovered` | internal/core/gateway.go:166-192 | in every prefix of the log, under every interleaving, finality entries of a corridor and version never outnumber its iso20022 ALLOW entries |
| `GatewaySettlement.FinalityIffDelivered` | internal/core/gateway.go:186-192 | once none is about to be appended, there is exactly one finality entry per delivered call that asks for one, and no other |
| `SendEnvelope.SendingGateway.Send` | internal/core/gateway.go:120-210 | exactly when a call is rejected, dummy, duplicate, denied, allowed only or forwarded, by what the index holds under the key and by the verdict; a duplicate is answered DUPLICATE and recorded so, a dummy is answered ALLOW and recorded ALLOW/DUMMY, and any other answer repeats decision, reason and profile of the entry it appended; the answer has the hash of the last entry, and a peer's root only if a peer accepted, which with an attempt allowed is what a peer on the route answered to a send; how long the key is held from now on; the finality entry; what reaches queue and buffer |
| `SendEnvelope.SendingGateway.SendAnswered` | internal/core/gateway.go:120-210 | the same about answer and log, next to the new index |
| `SendEnvelope.SendingGateway.SendBySpec` | internal/core/gateway.go:120-210 | index, log, queue, buffer and answer as functions of what they were, at each of five clock readings |
| `SendEnvelope.AnswerTells` | internal/core/gateway.go:127-209 | for every end of a call, what answer and new entries say, in the words a caller and an auditor read |
| `SendEnvelope.VerdictTells` | internal/core/gateway.go:166-209 | the same past the index: the answer repeats the recorded verdict, and the finality entry comes on top |
| `SendEnvelope.PeerAnswered` | internal/core/gateway.go:183-205 | with an attempt allowed, a peer's root in the answer is what a peer on the route answered to one of the sends |
| `SendEnvelope.SendingGateway.SendAdmitted` | internal/core/gateway.go:166-209 | the same past the index: denied exactly on a verdict other than ALLOW, allowed only exactly without a forwarder or with the jitter wait cancelled |
| `SendEnvelope.SendingGateway.ForwardAllowed` | internal/core/gateway.go:183-195 | forwards exactly with a forwarder and an uncancelled wait, carries what forwarding came to, and appends a finality entry exactly for a delivered iso20022 message with finality switched on |
| `SendIsARun.SendOnMachine` | internal/core/gateway.go:120-210 | refinement: an undisturbed call on the components, with a clock reading wherever the code takes one, extends any run of the step machine whose state stands for what they hold, to one that stands for what they hold afterwards, with the call allowed, delivered and lost exactly as its path says |
| `SendIsARun.SendExtendsRun` | internal/core/gateway.go:120-210 | the same on values: the steps of one call reproduce its effect on index, log, queue, buffer, ledger and losses |
| `SendIsARun.FreshIsARun` | internal/core/gateway.go:120-210 | empty components stand for the initial state |
| `RegionsAreSteps.Lookup` | internal/core/gateway.go:139-149 | the index's locked region, of any call at any time, extends any run by its step, keeping machine and components side by side |
| `RegionsAreSteps.Record` | internal/core/gateway.go:127-153 | so does the log's region for dummy traffic and duplicates |
| `RegionsAreSteps.Judge` | internal/core/gateway.go:166-173 | so does the log's region for a verdict |
| `RegionsAreSteps.Forward` | internal/core/gateway.go:185-187 | so does forwarding, with the outcome its contract says it came to |
| `RegionsAreSteps.Settle` | internal/core/gateway.go:188-192 | so does the log's region for finality |
| `RegionsAreSteps.PurgeShard` | internal/dedup/index.go:70-79 | so does the purge of one shard, with an older clock reading |
| `RegionsAreSteps.Drain` | internal/app/app.go:532-536 | so does taking the expired entries out of the buffer |
| `RegionsAreSteps.Promote` | internal/app/app.go:533-536 | and queueing them, one by one |
| `RegionsAreSteps.Discard` | internal/server/http.go:485-485 | so does discarding a dead letter |
| `RegionsAreSteps.StartReplay` | internal/server/http.go:499-505 | so does reading a letter to send it again |
| `RegionsAreSteps.FinishReplay` | internal/server/http.go:510-510 | and removing whatever is at its index when that call was answered |
| `SendEnvelope.SendingGateway.SeenBefore` | internal/core/gateway.go:139-149 | the index is asked with the schema type's TTL |
| `Dedup.Index.SeenOrAdd` | internal/dedup/index.go:40-51 | answer and new shards as the specification of one locked region |
| `Dedup.Index.SeenOrAddWithTTL` | internal/dedup/index.go:54-65 | the same with a TTL of the caller's |
| `Dedup.Index.PurgeShard` | internal/dedup/index.go:70-79 | the locked loop on one shard deletes exactly the entries that expired before the reading, keeps the others as they are, and touches no other shard |
| `Dedup.Index.Purge` | internal/dedup/index.go:68-80 | an undisturbed purge does so on all sixteen: no key that expired before the reading is left |
| `Dedup.ShardedRefinesFlat` | internal/dedup/index.go:31-80 | for any hash, TTLs and purges (also with clock readings older than the lock), every answer is that of one flat map that is never purged |
| `Dedup.AfterAgrees` | internal/dedup/index.go:68-80 | the refinement relation after every run: they differ only in keys that have expired |
| `Dedup.SeenIffRegisteredWithinTtl` | internal/dedup/index.go:37-65 | a call is answered "seen" if and only if an earlier call that registered the key still has it within its own TTL |
| `Audit.TamperEvidence` | internal/audit/log.go:170-193 | two lists of any lengths that verify and end in one root are equal in every field, or contain a digest collision or a payload hashing to the zero hash |
| `Audit.FileWithNodeRootIsNodeLog` | internal/audit/log.go:214-289 | a file verifying to a node's root is the node's log, so numbered 1..n, unless the digest was broken |
| `Audit.AppendedIsChain` | internal/audit/log.go:84-118 | after any run of appends the log is an intact chain numbered 1..n, from the zero hash on |
| `Audit.ExtendKeepsChain` | internal/audit/log.go:86-110 | appending keeps chain and numbering |
| `Audit.ExtendRecords` | internal/audit/log.go:84-110 | for every event, the columns of the new entry: number, time, decision, reason, tier, regions, schema, retention, finality, the node's and the profile's own, and the previous hash |
| `Audit.Scan` | internal/audit/log.go:174-183 | reports nothing if and only if every entry is linked and hashed right, else the first faulty entry and which comparison failed |
| `Audit.VerifyFile` | internal/audit/log.go:226-240 | accepts exactly the intact chains and returns their root |
| `Audit.Log.AppendEntry` | internal/audit/log.go:84-118 | extends the chain by one entry with the caller's fields, hashed, and naming the hash before it or the zero hash |
| `Audit.Log.Append` | internal/audit/log.go:71-75 | a decision entry with the caller's columns and the configuration's, kept long for iso20022 whatever the configuration |
| `Audit.Log.AppendFinality` | internal/audit/log.go:79-82 | a finality entry: SETTLEMENT/FINAL for iso20022, kept long, with the corridor and version |
| `Audit.Log.Verify` | internal/audit/log.go:170-193 | accepts exactly the intact chains whose stored root is theirs; a root mismatch is reported only for an intact chain |
| `Audit.Log.RecentInMemory` | internal/audit/log.go:154-167 | the latest n entries, newest first, clamped at both ends |
| `AuditStore.BigEndianOrder` | internal/store/bbolt/store.go:179-183 | fixed-width big-endian keys compare byte-wise as the numbers do, and are equal only for equal numbers, for every width |
| `AuditStore.SeqKeyOrder` | internal/store/bbolt/store.go:179-183 | the same for the 8-byte keys of 64-bit sequence numbers |
| `AuditStore.Walk` | internal/store/bbolt/store.go:121-128 | walking the byte-ordered cursor backwards yields the rows of the n greatest sequence numbers, greatest first |
| `AuditStore.Store.AuditAppend` | internal/store/bbolt/store.go:106-115 | the row under the entry's number, all others unchanged |
| `AuditStore.Store.AuditLatest` | internal/store/bbolt/store.go:118-132 | the n greatest rows, greatest first |
| `AuditStore.Recent` | internal/audit/log.go:139-168 | the store's rows if it has any, else the in-memory entries |
| `AuditStore.LatestIsNewestFirst` | internal/audit/log.go:111-117 | whatever order writes land in, once none is pending or failed the store's latest n are the log's latest n, newest first |
| `AuditStore.WholeLogIffNothingMissing` | internal/audit/log.go:114-116 | asking for the whole log returns all of it if and only if no write is pending or failed |
| `AuditStore.RecentReadsBackTheLog` | internal/audit/log.go:291-325 | what is then read back agrees with the in-memory entries, newest first, in every persisted column |
| `RateLimit.Bucket.Allow` | internal/ratelimit/tokenbucket.go:24-36 | admitted exactly if level plus rate times seconds passed, capped at the burst, comes to a token; an admitted call takes one |
| `RateLimit.GainIs` | internal/ratelimit/tokenbucket.go:25-27 | what refills is rate times seconds, a second being a billion nanoseconds |
| `RateLimit.AdmittedAgainIff` | internal/ratelimit/tokenbucket.go:24-36 | after a burst has emptied a bucket, the next call is admitted if and only if at least 1/rate seconds have passed |
| `RateLimit.AdmittedIffNoWindowOverflows` | internal/ratelimit/tokenbucket.go:24-36 | for instants in any order, a call is admitted if and only if no window ending in it would hold more than burst + rate * length admissions |
| `RateLimit.WindowBound` | internal/ratelimit/tokenbucket.go:24-36 | every window ending in an admitted call holds at most burst + rate * length admissions |
| `RateLimit.LevelIsLeastBudget` | internal/ratelimit/tokenbucket.go:25-30 | the level is the least budget over all earlier starting points, and is reached by one |
| `RateLimit.Limiter.constructor` | internal/ratelimit/tokenbucket.go:50-65 | no buckets; 10 per second and a burst of 20 for settings that are not positive |
| `RateLimit.Limiter.Allow` | internal/ratelimit/tokenbucket.go:68-78 | only the key's own bucket changes, created full if absent |
| `RateLimit.Limiter.Cleanup` | internal/ratelimit/tokenbucket.go:101-106 | removes exactly the buckets idle for more than five minutes |
| `RateLimit.AnswerIffNoWindowOverflows` | internal/ratelimit/tokenbucket.go:68-78 | the window law for each key among interleaved keys |
| `RateLimit.EvictionIsInvisible` | internal/ratelimit/tokenbucket.go:92-109 | with nondecreasing time, if a bucket refills in five minutes and a nanosecond, cleanups at any times never change an answer |
| `RateLimit.EvictionInvisibleIff` | internal/ratelimit/tokenbucket.go:92-109 | and that condition, rate * 300.000000001 seconds at least the burst, is exact on a nanosecond clock, for every positive rate and burst |
| `RateLimit.EvictionShows` | internal/ratelimit/tokenbucket.go:98-105 | otherwise a concrete run in which going quiet gains a call |
| `RateLimit.DeployedSettingIsTransparent` | internal/app/app.go:371-371 | 10 per second with burst 20 meets the condition |
| `Crl.Store.Revoke` | internal/crl/store.go:28-43 | the signature is added once, under the first reason and time; other nodes' entries stay as they are |
| `Crl.Store.QueryRevoked` | internal/crl/store.go:46-52 | true exactly from two signatures on |
| `Crl.Store.Snapshot` | internal/crl/store.go:55-71 | each entry once, in any order |
| `Crl.Store.Merge` | internal/crl/store.go:74-80 | equals receiving every signature of every entry in order |
| `Crl.StoreHoldsWhatItReceived` | internal/crl/store.go:28-80 | after any run a store holds, without repetition, exactly the signatures received, and revokes if and only if there are two different ones |
| `Crl.ReceiveAllIsUnion` | internal/crl/store.go:37-42 | receiving in any order and with any repetition is set union |
| `Crl.MergeIsJoin` | internal/crl/store.go:74-80 | merging a snapshot gives the union of what both stores hold |
| `Crl.ExchangeConverges` | internal/crl/store.go:55-80 | stores that merge each other's entries agree on signatures and verdict for every node |
| `Crl.RevocationIsPermanent` | internal/crl/store.go:46-52 | no later receipts undo a revocation |
| `Crl.ReasonsAgreeIff` | internal/crl/store.go:32-36 | after two stores exchange snapshots both know a node if one did, and agree on its reason if and only if they did not both have it with different ones |
| `Crl.TimesAgreeIff` | internal/crl/store.go:32-36 | they agree on its time if and only if both had the same or, if one learned the node in the exchange, the merge came at the recorded time |
| `Crl.StayDifferent` | internal/crl/store.go:28-43 | two stores whose reasons and times still differ after an exchange |
| `Policy.AllowedIff` | internal/policy/engine.go:77-152 | ALLOW if and only if every constraint holds, each written out: no quorum of revocations, trust tier, deny list, own region or allow list, health data on a regional node under the strict profile in any case, edifact defaults without a rule of its own, and tiers, jurisdictions and profile of the first isolation rule for the type |
| `Policy.DeniedBecause` | internal/policy/engine.go:77-285 | a verdict names the first constraint that fails in the order they are tried, or POLICY_ACCEPTED, and the active profile; it is ALLOW exactly with the latter and DENY otherwise |
| `Policy.DecisionMatchesReason` | internal/policy/engine.go:77-152 | ALLOW with POLICY_ACCEPTED and DENY with anything else, under the active profile |
| `Schema.NormalizeIs` | internal/schema/messaging.go:15-20 | a blank schema type counts as messaging, any other as it is |
| `Schema.EqualFoldIff` | internal/policy/engine.go:192-192 | profile names agree letter by letter up to case |
| `Schema.ToLowerIff` | internal/policy/engine.go:274-274 | lower case, letter by letter |
| `Policy.IsolationHonoured` | internal/policy/engine.go:157-206 | isolation passes if and only if the first rule for the schema type, if any, is honoured |
| `Policy.RuleGovernsIff` | internal/policy/engine.go:287-294 | a first rule for a schema type exists if and only if some rule names it |
| `Policy.Engine.Reload` | internal/policy/engine.go:69-75 | an invalid configuration leaves the old one in force |
| `Policy.Engine.Evaluate` | internal/policy/engine.go:77-152 | the verdict, with or without a revocation store, and, if there is a log, one entry that records it, the request's tier, regions and schema, and the time, under the active configuration |
| `Policy.HealthDataStaysRegional` | internal/policy/engine.go:123-129 | over every run of reloads, revocations and evaluations, an hl7fhir ALLOW entry records a regional scope and the strict profile |
| `Policy.RevokedSenderIsDenied` | internal/policy/engine.go:80-88 | once a sender reached quorum, every evaluation that consults the store afterwards is DENY NODE_REVOKED |
| `Policy.LaterEvaluateIsDenied` | internal/policy/engine.go:77-88 | an evaluation that begins after the quorum never has another verdict, whatever interleaves |
| `Policy.LaterEvaluateIsRecordedAsDenied` | internal/policy/engine.go:296-301 | and the entry it appends says so |
| `Policy.RevokedForGood` | internal/crl/store.go:46-52 | a node revoked in one state of a run is revoked in all later ones |
| `Transit.EffectiveTtl` | internal/transit/cache.go:37-45 | the TTL in force: 30 s for none, what was asked for up to 60 s, 60 s beyond |
| `Transit.EvictsEarliest` | internal/transit/cache.go:105-115 | with non-empty keys and any iteration order, an entry that expires first is evicted |
| `Transit.EvictsEarliestIff` | internal/transit/cache.go:105-115 | for all buffers: every iteration order evicts an earliest entry if and only if the empty key is absent, alone, or not strictly earliest |
| `Transit.Cache.EvictOldest` | internal/transit/cache.go:105-115 | removes the entry its iteration order selects, and no other |
| `Transit.Cache.Put` | internal/transit/cache.go:49-60 | makes room only at capacity, then inserts or replaces, to expire one TTL from now; nothing else is new or changed |
| `Transit.Cache.Pending` | internal/transit/cache.go:63-74 | each entry whose expiry has not passed, once |
| `Transit.Cache.Drain` | internal/transit/cache.go:77-89 | returns and removes each entry whose expiry has passed, once, and keeps the others as they are |
| `Transit.Cache.Delete` | internal/transit/cache.go:92-96 | removes that key only |
| `Transit.RunStaysBounded` | internal/transit/cache.go:37-96 | over every run with non-empty keys, at most 1000 entries, each expiring one TTL (at most 60 s) after the `Put` that made it |
| `Transit.RunEvictsEarliest` | internal/transit/cache.go:49-60 | over every run, a `Put` at capacity drops one entry that expires first and keeps the others |
| `Transit.RoomLeftDropsNone` | internal/transit/cache.go:52-54 | over every run, a `Put` below 1000 entries drops none |
| `Dlq.DLQ.Append` | internal/delivery/dlq.go:34-41 | appended last, stamped if it has no first-seen time |
| `Dlq.DLQ.Remove` | internal/delivery/dlq.go:54-61 | that entry goes, the others keep their order; out of range changes nothing |
| `Retry.SendWithRetry` | internal/delivery/retry.go:32-66 | exactly how many sends are made, when each error is returned, every wait, and what reaches the queue with which time stamps |
| `Retry.SendsAfterMakes` | internal/delivery/retry.go:36-60 | the number of sends is the first at which a send succeeds, the context is done or attempts run out |
| `Retry.MakesMeans` | internal/delivery/retry.go:36-60 | sends before the last failed and found the context open; the last succeeded, used up the attempts or found it done |
| `Retry.WaitsNeverDecrease` | internal/delivery/retry.go:56-59 | with multiplier >= 1 and base <= cap, waits never decrease or exceed the cap |
| `Retry.WaitsExactIff` | internal/delivery/retry.go:56-59 | the waits are min(cap, base * m^(k-1)) if and only if the terms below the cap are whole |
| `Retry.IntegralMultiplierIsExact` | internal/delivery/retry.go:56-59 | always so for an integral multiplier |
| `Retry.ShortDelayStalls` | internal/delivery/retry.go:56-59 | a base delay too short to gain a nanosecond never grows |
| `Retry.DefaultPolicyWaits` | internal/delivery/retry.go:18-25 | the default policy makes ten attempts, waits 511 s in all and 256 s at most, below its cap of 300 s |
| `Retry.ExhaustionUsesEveryAttempt` | internal/delivery/retry.go:36-48 | uncancelled failure makes exactly MaxAttempts sends |
| `Cutoff.TimeOfDay` | internal/schema/iso20022.go:89-91 | the minute of the local day that contains the instant |
| `Cutoff.InWindowIff` | internal/schema/iso20022.go:32-40 | an instant is inside a window if and only if on some local day it lies from the opening to before the next closing, which is on the day after for a wrapping window |
| `Cutoff.NextOpenIsFirst` | internal/schema/iso20022.go:44-71 | outside a window that is ever open, `NextOpen` is the first instant inside: strictly later, within 24 h, none in between; normal and wrapping windows |
| `Cutoff.NextOpenInsideIff` | internal/schema/iso20022.go:62-70 | it is inside the window if and only if open differs from close |
| `Cutoff.NextOpenAtOrAfterIff` | internal/schema/iso20022.go:42-71 | for any instant t, the result is at or after t if and only if the window does not wrap or t is not after the day's opening |
| `Cutoff.NextOpenHasPassed` | internal/schema/iso20022.go:69-70 | an instant inside a wrapping window for which the result lies in the past |
| `Forwarder.PeersFor` | internal/delivery/forwarder.go:43-66 | for every iteration order, each peer that may be used exactly once, spelled out by scope, key, regions and allowed tiers; regional peers first and global ones last |
| `Forwarder.RankPeers` | internal/delivery/forwarder.go:46-65 | the loop behind it, against the ranking |
| `Forwarder.RankedIsTierOrdered` | internal/delivery/forwarder.go:65-65 | the ranking is by scope: regional, alliance, global |
| `Forwarder.ReorderByHint` | internal/delivery/forwarder.go:153-164 | a permutation that puts the first peer of the hinted region in front and keeps the order of the rest, or changes nothing |
| `Forwarder.MoveIsPermutation` | internal/delivery/forwarder.go:156-160 | moving one peer to the front keeps all peers and the order of the rest |
| `Forwarder.HeldBackIff` | internal/delivery/forwarder.go:73-84 | an envelope is held back if and only if it is iso20022, its corridor, sender first, has a window, and that does not parse or is open on no day at this instant |
| `Forwarder.ClosedUntil` | internal/delivery/forwarder.go:124-149 | the stamp on a held envelope is the first instant its corridor is open again |
| `Forwarder.SendsAreBounded` | internal/delivery/forwarder.go:96-107 | the first i peers cost at most i * MaxAttempts sends |
| `Forwarder.AcceptedWasSentIff` | internal/delivery/forwarder.go:96-107 | a reported acceptance was sent and answered with that root if and only if the policy allows an attempt |
| `Forwarder.RefusedMeans` | internal/delivery/forwarder.go:96-107 | a peer that did not accept was sent to at least once, every send failed, and fewer than MaxAttempts only if the context was found done |
| `Forwarder.LettersSay` | internal/delivery/forwarder.go:73-118 | exactly when a dead letter is left, and its envelope, address, reason, next opening and time stamps |
| `Forwarder.Forwarder.TryPeers` | internal/delivery/forwarder.go:96-107 | the root of the first peer whose retries succeed, after every earlier one failed |
| `Forwarder.Forwarder.Forward` | internal/delivery/forwarder.go:71-119 | outside the window nothing is tried; else the tiered and hinted list is tried in order up to the first peer that accepts, whose root is returned; exactly what reaches queue and buffer in each case, a buffered envelope under its key, for the first peer and for one TTL |
| `Forwarder.NoPeerIff` | internal/delivery/forwarder.go:86-89 | for any iteration order, there is no peer to try if and only if none is eligible |
| `Forwarder.Forwarder.SetAside` | internal/delivery/forwarder.go:109-118 | the buffer if there is one, else the queue if there is one |
| `Discovery.Broadcaster.Broadcast` | internal/discovery/broadcaster.go:56-91 | fans out if and only if not over 30 s old, unseen and hops are left; then every peer is asked once with one hop less, and a response is returned if and only if a peer gave it with a token |
| `Discovery.AnswersOfAll` | internal/discovery/broadcaster.go:73-90 | whatever the order in which the peers are asked |
| `Discovery.LetThroughOnce` | internal/discovery/broadcaster.go:56-68 | a request first processed later than its own timestamp, by more than the gap between the two clock readings, is never let through again, even after its entry expired and was purged |
| `Discovery.LetThroughOnceIff` | internal/discovery/broadcaster.go:57-64 | over runs of the index: none lets a request through twice, first at a given time, if and only if that time less the gap lies after its timestamp |
| `Discovery.SeenWithinWindow` | internal/discovery/broadcaster.go:62-64 | within the index TTL every further call is recognised |
| `Discovery.TwoReadingsFanOutTwice` | internal/discovery/broadcaster.go:57-64 | a gap of a nanosecond and a run that passes both tests twice |
| `Flooding.FloodIsBounded` | internal/transport/grpc/adapter.go:178-232 | on every graph and interleaving, each node fans out at most once, at most one request per peer edge of a node that fanned out, and depth and hop limit of a handler add up to what its own originator asked for |
| `Flooding.BroadcastTakesStep` | internal/discovery/broadcaster.go:56-71 | what `Broadcast` decides on the dedup index is a step of the flooding machine, and index and machine agree on who saw the request for the entry's TTL |
| `Flooding.BroadcastOnMachine` | internal/discovery/broadcaster.go:56-91 | the same on the broadcaster, which asks each peer once if the step begins a fan-out |
| `Flooding.FloodTerminates` | internal/discovery/broadcaster.go:56-91 | k originators cause at most 3k steps plus three per peer edge, cycles included |
| `Flooding.NextUsesWork` | internal/discovery/broadcaster.go:62-90 | every step but a new originator leaves strictly less work |
| `Flooding.NextKeepsInv` | internal/transport/grpc/adapter.go:208-219 | what every step keeps |

## Left out

- HTTP handlers, authentication, the dashboard, metrics and logging: input and output; only the dead-letter discard and replay handlers appear, as steps of the ledger.
- gRPC client, server and connection pool, TLS: a peer is an arbitrary function from address and send number to an outcome.
- Redis backend: its list order depends on a server outside the model.
- TOML parsing: `Validate` is an arbitrary predicate and a configuration a value; a cutoff window that does not parse is `None`.
- Ed25519, HMAC, UUID and token generation; trust decay, peer cache, sessions, registry, dummy traffic, DNS publisher: they would only add easy members.
- SHA-256 and the JSON rendering that is hashed: an arbitrary function of an entry's fields. Tamper evidence therefore names the broken digest instead of assuming it away; two field values that JSON renders alike (invalid UTF-8) count as a collision.
- FNV: any hash will do.
- Payload padding, and the jitter sleep except for whether it was cancelled.
- IANA zones and daylight saving: windows are at a fixed offset. `parseTOD` text scanning: a window starts as minutes in 0..1439.
- Floating-point rounding: tokens, rates and the backoff multiplier are reals, and the conversion of a delay to 64 bits does not overflow.
- Overflow of `time.Time.Add`, and of durations other than the iso20022 TTL.
- Case folding in `Schema.EqualFold` and `Schema.ToLower` covers the letters that fold to ASCII; others compare as they are.
- A store that returns an error to `Recent`.
- Callbacks and webhooks after a decision, and the token a discovery handler issues from its local registry.
- Persistence across restarts: sequence numbers restart with the process, so the store results hold within one run from an empty bucket.
- Update in place of the signature list behind a pointer in `Crl.Store`, and aliasing of the returned slices: the store's map holds values.
- Flooding follows one request id while its dedup entries last; `Discovery.LetThroughOnce` is what holds afterwards on one node.
- SDKs, command line and demo user interfaces.
- RegionsAreSteps.Judge: `Evaluate` reads configuration, revocation store and log in turn; here they are read together, while the machine's step takes any configuration and any answer of the store.
- Discovery.Broadcaster.Broadcast: peers are a function, so a handler that a peer calls back on this node during the fan-out is not part of the call; in `Flooding` such handlers interleave freely.
- Forwarder.Forwarder.Forward: the instants of the sends are not stated, only their number and the waits between them.
- Crl.Store.Merge: one clock reading serves a whole merge, although each `Revoke` in it takes its own.
- Dedup.Index.Purge: stated for a purge no call interrupts; interrupted purges are the `Sweep` operations of `Dedup.ShardedRefinesFlat`.
- Policy.Engine.Evaluate: stated without interference; the interleavings are the runs of `Policy.LaterEvaluateIsDenied`.
