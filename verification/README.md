# Verified model of the usage-metering engine

The system meters LLM usage. Events arrive one at a time (`POST /v1/events`) or in batches
(`POST /v1/events/batch`), are deduplicated in Redis, checked against the organizations and end
users of the control plane, and buffered on their way to ClickHouse. This project models the parts
of it that have real protocols and data structures, and proves what they guarantee over every
input, every interleaving and every pattern of failures. `dafny verify dfyconfig.toml` checks it.

| file | what it models |
|---|---|
| `Counting.dfy`, `Keys.dfy`, `Models.dfy` | numeric helpers; Redis key strings and when they collide; events, key contexts, enrichment |
| `InProcessBloom.dfy` | the bitmap filter used while Redis is down, with its 32- and 64-bit arithmetic |
| `RedisDedup.dfy`, `BatchDedup.dfy` | Redis commands with lost replies; the batch deduplication loop |
| `OutageLoss.dfy` | the fresh events that a batch refuses |
| `SeenSet.dfy` | both ingest paths against one plain set of seen (org, event id) pairs |
| `ConcurrentBatches.dfy` | batches and single requests whose Redis commands interleave, with lost replies and expiries |
| `Gates.dfy`, `BatchHandler.dfy` | the org and end-user checks of both paths; the whole batch handler |
| `SingleEvent.dfy`, `Gateway.dfy` | the single-event idempotency protocol; the gateway's retries on top of it |
| `Flush.dfy`, `AnalyticsService.dfy` | the accumulate/flush/requeue buffer and the ClickHouse writer |
| `Audit.dfy`, `AuditRaces.dfy` | audit chains; row writes and log entries of interleaved requests |
| `OrgCache.dfy`, `OrgRaces.dfy`, `OrgAuditRaces.dfy` | the org existence cache by whole operations and by interleaved steps; the org audit log |
| `Customers.dfy`, `CustomerRaces.dfy` | the customer status machine and its audit log, sequential and interleaved |
| `Router.dfy` | the analytics API's path splitter and wildcard routes |

Code that updates fields or loops is a class or a method here, proved equal to a function on
values; the theorems are about those functions, so they hold of the methods.

## Main results

- **Double acceptance in a batch.** `BatchDedup.NeverAcceptsTwiceIffSafeOutage` characterises the
  outage patterns exactly: no batch, prior Redis content or false positive makes one event accepted
  twice, if and only if every BF.ADD before an answered BF.EXISTS, and every recording SETNX before
  an answered duplicate check, took effect. A Redis that stops and stays down meets this
  (`CrashStopNeverAcceptsTwice`); one that fails and comes back need not.
- **Lost events in a batch.** `OutageLoss.NeverLosesFreshIff` is the dual: for every hash, no fresh event
  is ever refused, if and only if every duplicate check is answered (a batch's first event may lose its
  BF.EXISTS too). In a total outage a batch accepts at most one event per usable bit of the local filter
  (`TotalOutageCapacity`), so longer batches of fresh events always lose one.
- **The fast form is the simple form.** While Redis answers, Bloom in front of SETNX gives the
  verdicts of a plain seen-set over every run of batches and expiries, whatever the false positives
  (`SeenSet.RunRefines`), if and only if no org id is another org id followed by a colon
  (`RefinesIffNoColonExtension`). With single requests in the run, both paths agree with one shared
  seen-set if and only if no batch repeats an event that only the single path accepted
  (`AgreesIffNoSinglePathRepeat`).
- **Concurrent requests.** With batches and single requests interleaved command by command, replies lost
  and keys expiring, an (org, event id) is accepted at most once within its TTL in every run if and only if
  only single requests may be busy with it, or one batch at a time whose BF.EXISTS is answered and whose
  BF.ADD and recording SETNX take effect (`ConcurrentBatches.PairsOnceIff`); an idempotency key is, if and
  only if moreover no org id extends another by a colon where batches run (`KeysOnceIff`).
- **Single-event protocol.** `SingleEvent.TokensBalance` is an exact balance for every interleaving,
  lost reply and expiry; at-most-once acceptance follows, and carries over to the gateway
  (`Gateway.AcceptedAtMostOnceEndToEnd`). For the replies that Redis may give, "at rest the key exists iff
  exactly one request was accepted" holds in every run if and only if they never strand a key
  (`SingleEvent.AlwaysWitnessesIff`).
- **Two gates, one answer.** The ids are uuid columns, so one malformed id fails the batch's whole query.
  Batch and single end-user checks agree in every cache and database state if and only if every end-user
  id survives joining and splitting, and the pairs of the list either all are spelled as stored or none is
  two UUIDs (`Gates.EndUserGatesAgreeIff`; for orgs `OrgGatesAgreeIff`). In one direction they always agree:
  the batch admits no surviving id that the single path refuses (`BatchNeverAdmitsMore`).
- **Flush.** No event is lost or duplicated in any interleaving (`Flush.RunConserves`), a full buffer
  always has a wake-up on the way if and only if no insert may fail (`AlwaysWokenIffNoFailure`), arrival order is kept if and only if at most one flush is in flight
  (`OrderedIffOneFlusher`), and every row is the one its first attempt would have written
  (`RowsAreFirstAttemptRows`).
- **Org cache.** "An org cached under any spelling of its id is ACTIVE" survives an operation if and only
  if the operation is not one of the unsafe ones (`OrgCache.SoundIffSafe`). When reads, row writes, SETs and
  DELs of different parties interleave, every run from a cache with stored spellings only is sound if and
  only if suspensions wait for the SETs under way, suspensions and the checks that cache use the stored
  spelling, DELs take effect, and only ACTIVE orgs have active API keys (`OrgRaces.AlwaysSoundIffAllRules`).
- **Audit logs.** Sequentially each customer's log is a chain along allowed edges throughout, if and only if
  updates name customers by their stored spelling (`Customers.RunsAreAuditSoundIff`). When the statements of
  different requests interleave, the logs explain the tables at rest in every run if and only if one request
  per row may be under way and names it as stored (`CustomerRaces.AlwaysAuditSoundIff`,
  `OrgAuditRaces.AlwaysExplainsIff`).

Claims that are false of the code, each with a concrete failing run: an event accepted by the single
path can be accepted again by a batch (`SeenSet.SingleThenBatchAcceptsTwice`); two overlapping batches
can both accept (`ConcurrentBatches.TwoBatchesBothAccept`); a Redis that recovers inside a batch can
lead to a double acceptance (`BatchDedup.UnsafeOutageCanAcceptTwice`); an outage can refuse a fresh event
(`OutageLoss.UnsparingCanLose`); one malformed id makes the batch path refuse members that the single path
admits (`Gates.MalformedUserDisagrees`), and so does another spelling of a stored id
(`RespelledUserDisagrees`) or a cached id with a colon (`UnrecoverableDisagrees`); an unanswered command can leave a key behind that blocks its event
(`SingleEvent.StrandingRun`); two flushers break arrival order (`Flush.TwoFlushersBreakOrder`); a requeued
full buffer has no wake-up (`Flush.RequeueLeavesNoWakeUp`; it takes a failing insert, which the present
`InsertEventBatch` never reports); a backfill racing a suspension caches a
suspended org (`OrgRaces.BackfillRace`); a suspension under another spelling
leaves the org cached (`OrgRaces.RespelledRun`), and an org cached by a check under another spelling goes
on ingesting after its suspension (`OrgRaces.RespelledCheckRun`); a batch after one whose add or record was
lost, or that gets no answer itself, accepts again (`ConcurrentBatches.ForgettingAcceptsTwice`); overlapping updates can revive a CHURNED customer
(`Customers.OverlapRevivesChurned`); overlapping requests can log their writes in the wrong order
(`AuditRaces.SwappedLogsDoNotExplain`), and one under another spelling logs under an id that names no row
(`RespelledLogDoesNotExplain`).

## How the environment enters

- Every Redis command takes a `Reply`: answered, or lost with or without having taken effect. Bloom
  false positives, Postgres availability, the clock, fresh ids, and which requests and replies the
  network loses are parameters, so the theorems quantify over them.
- The string hash (FNV-1a) is an arbitrary function into 32 bits. The shard count is any number for
  which the code divides by a nonzero modulus (`InProcessBloom.UsableShards`, which covers 1 to
  2^18 - 1).
- The id columns of organizations, end users and customers are of type uuid. How Postgres reads a text as a UUID is
  an arbitrary partial function onto stored spellings, defined on no text with a colon; a query fails if
  it is passed any text that is not one.
- Idempotency keys, Bloom filters and existence keys are separate fields, since their prefixes
  `idem:`, `bf:` and `org:` differ. Idempotency keys do not expire inside one batch; between batches,
  and at any point of the single-event protocol, they may.
- `InsertEventBatch` is all-or-nothing with an arbitrary outcome, as `Flush` expects; its present body
  always succeeds.
- The gateway model takes a nonempty event id: for an empty one the server makes up a new id for each
  request, so no two attempts share a key.

Where code and documents disagree the model follows the code. The batch story asks for a
`DUPLICATE_EVENT` error entry per duplicate, but the loop only counts duplicates. The comment on the
bulk end-user query speaks of pairs, but the query is a cross product of the two id lists. The batch
path never validates events. The API's example ids, such as `user_joe`, are no UUIDs, while the id columns
are of type uuid.

## Model

| member | source | states |
|---|---|---|
| InProcessBloom.ModulusIsZeroIff | engine/internal/handler/batch_handler.go:474 | the 32-bit probe modulus is zero exactly for shard counts that are multiples of 2^18, otherwise at least 16384, and 16384 times the shards for the usual counts |
| InProcessBloom.ProbesAreRunningSums | engine/internal/handler/batch_handler.go:452-474 | probe j is the j-th running sum, each addition wrapping at 32 bits, of the hashes of `org:event` and `event:org`, reduced by the modulus |
| InProcessBloom.AtMostFourProbes | engine/internal/handler/batch_handler.go:473-476 | a key never has more than four bits, and for some hash every key has four different ones |
| InProcessBloom.KeysCanBeToldApart | engine/internal/handler/batch_handler.go:452-474 | for any two different keys, of one org or two, some hash keeps the second from being covered by the first |
| InProcessBloom.OrBitSetsOneBit | engine/internal/handler/batch_handler.go:477-479 | setting a bit in a word turns on that bit and changes no other |
| InProcessBloom.BitmapIsUnionOfProbes | engine/internal/handler/batch_handler.go:466-498 | after any calls, a bit is on iff some inserted key probes it |
| InProcessBloom.OrderAndRepetitionIrrelevant | engine/internal/handler/batch_handler.go:466-498 | equal sets of inserted keys give equal bitmaps, whatever the order, repetition and kind of call |
| InProcessBloom.InsertedKeyIsPresent | engine/internal/handler/batch_handler.go:464-484 | no false negatives: all bits of an inserted key are on |
| InProcessBloom.OnlyFirstBlocksAreUsed | engine/internal/handler/batch_handler.go:443-450 | only the first 256 blocks per shard can ever be used, because the modulus counts blocks and indexes bits |
| InProcessBloom.Filter.ExistsAndAdd | engine/internal/handler/batch_handler.go:466-484 | true iff all probed bits were on before the call, even when probes coincide; the bitmap gains exactly the key's probes |
| InProcessBloom.Filter.Add | engine/internal/handler/batch_handler.go:487-498 | the bitmap gains exactly the key's probes |
| Models.Enrich | engine/internal/models/models.go:90-103 | org, source mode and key always come from the key context, the customer if the key has one; a missing event id becomes the fresh one and a missing timestamp the current time; nothing else changes, so validity does not |
| Models.SpoofedFieldsAreIgnored | engine/internal/models/models.go:87-103 | whatever the payload says of org, source mode, key and (if the key has one) customer, the enriched event is the same |
| Models.EnrichIsIdempotent | engine/internal/models/models.go:90-103 | enriching twice is enriching once |
| Models.Validate | engine/internal/models/models.go:65-85 | which error is reported first, for each field, and that none is reported iff all six conditions hold |
| BatchDedup.ProcessBatchEvents | engine/internal/handler/batch_handler.go:144-218 | the result is the tally of the per-event verdicts and Redis ends in the state of the event-by-event specification, for every pattern of replies |
| BatchDedup.DedupEvent | engine/internal/handler/batch_handler.go:166-212 | Bloom lookup, local fallback, duplicate check and recording do what the specification step does to Redis, the reserved shards and the bitmap |
| BatchDedup.WorldGrows | engine/internal/handler/batch_handler.go:150-215 | within a batch no key, Bloom entry or local bit disappears |
| BatchDedup.AcceptedLeavesTraces | engine/internal/handler/batch_handler.go:203-214 | an accepted event passed both checks, is in the local filter, and is in Bloom and among the idempotency keys when those commands took effect |
| BatchDedup.RepeatIsRefused | engine/internal/handler/batch_handler.go:175-201 | a repeat of an accepted event is refused unless the later lookup or check is answered by a Redis that missed the earlier write |
| BatchDedup.UnsafeOutageCanAcceptTwice | engine/internal/handler/batch_handler.go:175-212 | every other outage pattern has a batch that accepts one event twice |
| BatchDedup.NeverAcceptsTwiceIffSafeOutage | engine/internal/handler/batch_handler.go:144-218 | over all batches, prior Redis contents and false positives, no double acceptance iff the outage pattern is safe |
| BatchDedup.CrashStopNeverAcceptsTwice | engine/internal/handler/batch_handler.go:144-218 | if Redis stops answering at any command and stays down, no (org, event id) is accepted twice |
| BatchDedup.FallbackHoldsAdmittedKeys | engine/internal/handler/batch_handler.go:178-191 | with Redis down throughout, the local bitmap holds exactly the probes of the admitted events so far |
| BatchDedup.FallbackHoldsLocalKeys | engine/internal/handler/batch_handler.go:178-207 | for every pattern of replies the local bitmap holds exactly the probes of the events accepted so far and of those whose BF.EXISTS was not answered |
| BatchDedup.ReservedAreTheFiltersUsed | engine/internal/handler/batch_handler.go:166-173 | BF.RESERVE has been sent for exactly the filters of the admitted events so far |
| BatchDedup.FiltersAreByOrgAndShard | engine/internal/handler/batch_handler.go:167-168 | two events share a filter iff they are of one org and their ids hash to the same shard |
| BatchDedup.TotalOutageVerdict | engine/internal/handler/batch_handler.go:182-190 | with Redis down throughout, an admitted event is dropped iff its probes are covered by those of earlier admitted events |
| OutageLoss.FreshVerdict | engine/internal/handler/batch_handler.go:175-201 | a fresh event is refused iff Bloom (or the local filter when BF.EXISTS is lost) suspects it and the duplicate check is not answered |
| OutageLoss.TotalOutageCapacity | engine/internal/handler/batch_handler.go:178-191 | with Redis down throughout, at most one event per bit below the probe modulus is accepted |
| OutageLoss.TotalOutageLosesFresh | engine/internal/handler/batch_handler.go:178-191 | for every hash, a batch of more fresh events than that loses one of them |
| OutageLoss.SameProbes | engine/internal/handler/batch_handler.go:452-476 | for every hash there are two different event ids of at most 20 characters with the same probes |
| OutageLoss.DownBatchCanAcceptBoth | engine/internal/handler/batch_handler.go:178-191 | for any two different keys there is a hash under which a batch of both, with Redis down throughout, accepts both |
| OutageLoss.UnsparingCanLose | engine/internal/handler/batch_handler.go:178-201 | every reply pattern outside the condition below has a batch, of one org and with ids of at most 20 characters, that refuses a fresh event |
| OutageLoss.NeverLosesFreshIff | engine/internal/handler/batch_handler.go:144-218 | over all batches, prior Redis contents and false positives, no fresh event is refused iff every duplicate check is answered, save that of the first event when its BF.EXISTS is lost |
| BatchDedup.CountersBalance | engine/internal/handler/batch_handler.go:150-217 | accepted plus failed is the input length, failed is the sum of the three reasons, and the errors are the two gate refusals |
| BatchDedup.CountersCount | engine/internal/handler/batch_handler.go:152-200 | each counter is the number of events with that fate: unknown org, end user not in org, duplicate, accepted |
| BatchDedup.ErrorsAreTheGateRefusals | engine/internal/handler/batch_handler.go:152-164 | the error list holds exactly the gate refusals, with their codes and ids, at strictly increasing indexes |
| BatchDedup.PositionsAscend | engine/internal/handler/batch_handler.go:150-215 | the accepted positions are strictly increasing and complete |
| BatchDedup.AcceptedIsInOrderSubsequence | engine/internal/handler/batch_handler.go:214 | the accepted events are the input events at those positions, in order |
| Keys.IdemKeyCollision | engine/internal/handler/batch_handler.go:184 | two idempotency keys coincide only for the same pair or when one org id extends the other by a colon |
| Keys.ExtensionCollides | engine/internal/handler/batch_handler.go:184 | an org id that extends another by a colon does collide with it |
| Keys.KeyTexts | engine/internal/handler/batch_handler.go:168-184 | the texts of the four kinds of Redis keys |
| SeenSet.DedupOutcome | engine/internal/handler/batch_handler.go:166-214 | with Redis answering, when an event is fresh, and that exactly its own key and its own filter entry are added |
| SeenSet.StepRefines | engine/internal/handler/batch_handler.go:152-214 | the verdict on one event is the seen set's iff a repeat is caught by Bloom, and then Redis still represents the book |
| SeenSet.RunRefines | engine/internal/handler/batch_handler.go:166-214 | over every run of batches and expiries all verdicts equal those of the seen set, and every live key stays in its Bloom shard |
| SeenSet.RefinesIffNoColonExtension | engine/internal/handler/batch_handler.go:166-214 | every run agrees with the seen set iff no org id of the deployment extends another by a colon |
| SeenSet.ColonFreeIdsSuffice | engine/internal/handler/batch_handler.go:184 | colon-free org ids meet that condition |
| SeenSet.CollidingEventsDisagree | engine/internal/handler/batch_handler.go:192-201 | two different events with one key: the second is refused by the engine and accepted by the seen set |
| SeenSet.RunAgreesIffCaught | engine/internal/handler/ingest_handler.go:82-144 | over every run mixing batches, single requests and expiries, the verdicts are those of one shared seen set iff every repeat in a batch is caught by Bloom or a false positive |
| SeenSet.AgreesIffNoSinglePathRepeat | engine/internal/handler/batch_handler.go:192-212 | whatever the false positives, both paths agree with the shared seen set iff no batch carries an admitted event whose key is live and which no batch has accepted |
| SeenSet.SingleThenBatchAcceptsTwice | engine/internal/handler/batch_handler.go:207-214 | from an empty Redis, the single path accepts an event and a batch accepts it again |
| SeenSet.BatchThenSingleIsRefused | engine/internal/handler/ingest_handler.go:82-95 | once a batch accepted an event, the single path refuses it, whatever comes between except the key's expiry |
| ConcurrentBatches.UndisturbedIsDedup | engine/internal/handler/batch_handler.go:174-214 | in any state, with other requests and pairs about and for any replies, the four steps of one batch are the sequential deduplication, for its event, all keys and all filters |
| ConcurrentBatches.UndisturbedIsSingle | engine/internal/handler/ingest_handler.go:82-144 | likewise the steps of a single request, for any replies, are the undisturbed protocol |
| ConcurrentBatches.OneBatchPerPairAcceptsOnce | engine/internal/handler/batch_handler.go:174-214 | with one unforgetting batch per (org, event id) at a time, in every reachable state an acceptance is in Bloom, a batch that has still to set the key is the first to accept, and otherwise acceptances balance the key and its expiries |
| ConcurrentBatches.TwoBatchesBothAccept | engine/internal/handler/batch_handler.go:209-212 | two batches that look up before either adds both accept, because the recording SETNX's answer is ignored |
| ConcurrentBatches.DifferentPairsBothAccept | engine/internal/handler/batch_handler.go:167-212 | different pairs have different filter entries, so both are accepted one after the other even if they share their idempotency key |
| ConcurrentBatches.ForgettingAcceptsTwice | engine/internal/handler/batch_handler.go:174-214 | after an add or record without effect, or with its own lookup lost, a second batch accepts the pair again |
| ConcurrentBatches.SinglesAcceptOnce | engine/internal/handler/ingest_handler.go:82-144 | any number of single requests, without batches and for any replies, accept no key twice within its TTL |
| ConcurrentBatches.SingleThenBatchBothAccept | engine/internal/handler/batch_handler.go:174-214 | a single request and then a batch both accept the pair |
| ConcurrentBatches.PairsOnceIff | engine/internal/handler/batch_handler.go:174-214 | at most one acceptance per (org, event id) and lifetime of its key, in every interleaving with lost replies and expiries from every Redis state, iff only single requests may be busy with it, or one batch at a time whose lookups are answered and whose adds and records take effect |
| ConcurrentBatches.KeysOnceIff | engine/internal/handler/batch_handler.go:166-214 | at most one acceptance per idempotency key and lifetime in every run over a set of orgs iff no batch or no org is there, or that condition holds and no org id extends another by a colon |
| Gates.SplitPair | engine/internal/handler/batch_handler.go:335-342 | a pair with a colon is cut so that the parts rejoin to it and the right one has no colon; one without is returned whole |
| Gates.SplitUndoesJoin | engine/internal/handler/batch_handler.go:319-342 | splitting a joined pair gives it back when the end-user id has no colon |
| Gates.CollectUniqueOrgIds | engine/internal/handler/batch_handler.go:307-317 | the org ids of the events, each once |
| Gates.CollectUniqueEndUserPairs | engine/internal/handler/batch_handler.go:319-333 | the pairs of the events that have an end user, each once |
| Gates.Cache.VerifyOrg | engine/internal/handler/ingest_handler.go:147-169 | true iff cached or ACTIVE in an answering Postgres; only the latter is backfilled |
| Gates.Cache.VerifyEndUser | engine/internal/handler/ingest_handler.go:172-192 | true iff cached or a member row in an answering Postgres; only the latter is backfilled |
| Gates.Cache.BatchOrgCheck | engine/internal/handler/batch_handler.go:221-255 | the cached ids and the ACTIVE rows of one query over the others, which one malformed id fails; exactly those rows are backfilled |
| Gates.Cache.BatchEndUserCheck | engine/internal/handler/batch_handler.go:258-301 | the cached pairs and all rows of the cross-product query, which one malformed id fails; exactly those rows are backfilled |
| Gates.OrgCheckLaws | engine/internal/handler/ingest_handler.go:147-169 | a hit suffices, an unanswered EXISTS is a miss, and after a miss Postgres decides iff it answers |
| Gates.EndUserCheckLaws | engine/internal/handler/ingest_handler.go:172-192 | the same of the end-user check |
| Gates.BulkQueryLaws | engine/internal/handler/batch_handler.go:361-426 | which rows the two bulk queries return: the org query by id, the end-user query by ids and orgs in any combination, and none if some id is no UUID |
| Gates.VerifiedIsCached | engine/internal/handler/ingest_handler.go:161-188 | after a check that passed its key is cached if the SET took effect, and nothing else changes |
| Gates.PassedEventIsCached | engine/internal/handler/ingest_handler.go:97-114 | after an event passed both checks, exactly its two keys are cached in addition |
| Gates.BatchOrgsAreCached | engine/internal/handler/batch_handler.go:245-252 | every org the batch check passes is cached afterwards, and no other key is added |
| Gates.BatchEndUsersAreCached | engine/internal/handler/batch_handler.go:291-298 | every pair the batch check passes is cached afterwards, and only keys of returned rows are added |
| Gates.MalformedOrgDisagrees | engine/internal/handler/batch_handler.go:361-391 | one org id that is no UUID makes the batch refuse an org that the single path finds |
| Gates.RespelledOrgDisagrees | engine/internal/handler/batch_handler.go:245-252 | a second spelling of a stored org is found by the single path and not recognised by the batch |
| Gates.OrgGatesAgreeIff | engine/internal/handler/batch_handler.go:221-255 | batch and single path agree on every event's org in every state iff the org ids all are spelled as stored or none is a UUID |
| Gates.RecoverableIff | engine/internal/handler/batch_handler.go:266-276 | the batch looks up the single path's cache key iff the end-user id is colon-free after any number of leading "enduser:" |
| Gates.BatchNeverAdmitsMore | engine/internal/handler/batch_handler.go:258-301 | in every state and list, a recoverable end user admitted by the batch is admitted by the single path |
| Gates.UniformEndUsersAgree | engine/internal/handler/batch_handler.go:258-342 | for uniform pairs both paths answer alike, despite the cross product and the re-splitting |
| Gates.UnrecoverableDisagrees | engine/internal/handler/batch_handler.go:335-342 | a cached end user whose id is not recoverable is known to the single path and refused by the batch |
| Gates.RespelledUserDisagrees | engine/internal/handler/batch_handler.go:291-298 | a second spelling of a stored member is found by the single path and not recognised by the batch |
| Gates.MalformedUserDisagrees | engine/internal/handler/batch_handler.go:397-426 | one pair that is not two UUIDs makes the batch refuse a member that the single path finds |
| Gates.EndUserGatesAgreeIff | engine/internal/handler/batch_handler.go:258-426 | the end-user gates agree in every Redis and Postgres state iff all ids are recoverable and the pairs all are spelled as stored or none is two UUIDs |
| BatchHandler.HandleBatchEvent | engine/internal/handler/batch_handler.go:54-141 | the error responses and their order, no effect when refused early, and otherwise the published events, the partition key, the failed count, and the new Redis and cache contents |
| BatchHandler.BatchNeverAdmitsMoreThanSinglePath | engine/internal/handler/batch_handler.go:78-98 | after enrichment, the batch admits no event with a recoverable end user that the single path would refuse in the same state |
| BatchHandler.BatchAdmitsAsSinglePath | engine/internal/handler/batch_handler.go:78-98 | for uniform ids it admits an event iff the single path would |
| BatchHandler.NextBatchNeedsNoPostgres | engine/internal/handler/batch_handler.go:89-95 | what a batch admitted, the next one admits from the cache alone, with Postgres down |
| BatchHandler.PublishedBatchIsSound | engine/internal/handler/batch_handler.go:78-113 | every published event carries the partition key's org; with recoverable end users it passes the single path's checks; and no id is published twice under a safe outage pattern |
| SingleEvent.HandleSingleEvent | engine/internal/handler/ingest_handler.go:66-144 | 401 iff unauthenticated, 400 iff one of the six fields is wrong, and both change nothing; then each status code, the idempotency keys and the existence keys, for every pattern of replies; Bloom is untouched |
| SingleEvent.ClaimAndCheck | engine/internal/handler/ingest_handler.go:82-144 | from the idempotency check on: which check, serialization included, rolls the key back and with which status |
| SingleEvent.UndisturbedIsARun | engine/internal/handler/ingest_handler.go:82-114 | a request alone is a run of the interleaved protocol |
| SingleEvent.StepConservesTokens | engine/internal/handler/ingest_handler.go:82-144 | every step of every party conserves the tokens of every key |
| SingleEvent.TokensBalance | engine/internal/handler/ingest_handler.go:82-144 | in every reachable state: accepted, stranded and pending requests of a key balance its presence and its expiries exactly |
| SingleEvent.AcceptedAtMostOncePerLifetime | engine/internal/handler/ingest_handler.go:82-144 | a key is accepted at most once more than it expired |
| SingleEvent.NoTwoAcceptedWithinTtl | engine/internal/handler/ingest_handler.go:82-144 | no two requests for one key are both accepted while it does not expire |
| SingleEvent.StrandedAreStrandingSteps | engine/internal/handler/ingest_handler.go:85-123 | the stranded requests of a key are as many as the steps that strand it: an unanswered SETNX that sets the absent key, or a holder's DEL without effect |
| SingleEvent.KeyWitnessesAcceptanceIff | engine/internal/handler/ingest_handler.go:85-123 | once all are answered, "the key exists iff exactly one request was accepted" holds iff no step of the run strands the key |
| SingleEvent.AlwaysWitnessesIff | engine/internal/handler/ingest_handler.go:85-123 | for the replies SETNX and DEL may get, that holds in every run iff no SETNX is applied unanswered and, where SETNX is answered at all, every DEL takes effect |
| SingleEvent.StrandedKeyBlocksAcceptance | engine/internal/handler/ingest_handler.go:86-104 | a stranded key means that nobody was accepted, and it stays until it expires |
| Gateway.PostEvent | gateway/custom_logger.py:78-102 | true iff some attempt is answered 202; total sleep and server state of the retry loop, refusals before the idempotency check included; a dead-letter line iff it fails and the file is writable; then the event is accepted or dead-lettered |
| Gateway.PostStopsAtFirst202 | gateway/custom_logger.py:84-92 | the loop ends right after the first attempt answered 202, or after all, having slept 2^i seconds after each unanswered attempt i |
| Gateway.DeliverReports | gateway/custom_logger.py:86-89 | a reply that gets back tells what became of the request |
| Gateway.OkMeansAccepted | gateway/custom_logger.py:84-88 | true is returned only for an event that the server accepted |
| Gateway.BackoffBound | gateway/custom_logger.py:84-92 | total sleep is at most 2^retries - 1 seconds, reached iff no attempt gets a reply |
| Gateway.CallsConserveTokens | gateway/custom_logger.py:78-102 | posts, retries and replays, with any interfering requests, conserve the tokens of every key |
| Gateway.AcceptedAtMostOnceEndToEnd | gateway/custom_logger.py:78-102 | for every pattern of lost requests and replies an event is accepted at most once within its TTL, and exactly once if any call returned true |
| Flush.DefaultIsIdempotent | engine/internal/clickhouse/writer.go:101-109 | defaulting twice is defaulting once |
| Flush.DefaultKeepsWhatIsSet | engine/internal/clickhouse/writer.go:101-109 | a reported total and source mode are kept, a missing total becomes the 32-bit sum, a missing mode "direct_ingest", and no other field changes |
| Flush.Wrap32Wraps | engine/internal/clickhouse/writer.go:104 | the sum wraps to the congruent 32-bit value, for all counts |
| Flush.DefaultedTotal | engine/internal/clickhouse/writer.go:103-105 | for nonnegative counts the defaulted total is the sum iff it is at most 2^31 - 1, and otherwise the negative wrapped value |
| Flush.StepConserves | engine/internal/orchestration/analytics_service.go:53-125 | every step conserves the copies of every event |
| Flush.RunConserves | engine/internal/orchestration/analytics_service.go:53-125 | in every interleaving each added copy is written, in flight or buffered, exactly once |
| Flush.RunCountsRows | engine/internal/clickhouse/writer.go:116 | `InsertedRows` is the number of events written |
| Flush.DrainedMeansAllWritten | engine/internal/orchestration/analytics_service.go:103-134 | with nothing buffered or in flight, written equals added as multisets |
| Flush.FinalFlushWritesEverything | engine/internal/orchestration/analytics_service.go:103-134 | a successful flush with no other batch in flight leaves nothing unwritten |
| Flush.NoLostWakeUp | engine/internal/orchestration/analytics_service.go:58-111 | in every reachable state a full buffer has a wake-up queued, about to be sent or taken by a flush that has not yet swapped, or was requeued since the last swap |
| Flush.RequeueLeavesNoWakeUp | engine/internal/orchestration/analytics_service.go:120-124 | the requeue case is needed: a failed flush leaves a full buffer with no wake-up |
| Flush.AlwaysWokenIffNoFailure | engine/internal/orchestration/analytics_service.go:58-125 | in every run a full buffer has a wake-up on the way, without that case, iff no insert may fail |
| Flush.TickFlushes | engine/internal/orchestration/analytics_service.go:85-96 | a tick over any nonempty buffer leads to a flush of exactly that buffer |
| Flush.WakeUpsAreEarned | engine/internal/orchestration/analytics_service.go:58-94 | a wake-up starts only with a tick over a nonempty buffer or an addition that fills it, and with every such addition |
| Flush.OneFlusherKeepsOrder | engine/internal/orchestration/analytics_service.go:103-125 | with one flush at a time, written then in flight then buffered is exactly the sequence added, through any failures |
| Flush.TwoFlushersBreakOrder | engine/internal/orchestration/analytics_service.go:109-115 | with two flushes allowed, a later batch can overtake |
| Flush.OrderedIffOneFlusher | engine/internal/orchestration/analytics_service.go:103-125 | order is kept in every run iff at most one flush may be in flight |
| Flush.RowsAreFirstAttemptRows | engine/internal/clickhouse/writer.go:101-109 | however often an event is requeued, the row written is the one its first attempt would have written |
| AnalyticsService.Writer.DefaultEvent | engine/internal/clickhouse/writer.go:153-160 | the pointed-to event becomes its defaulted form; one with total and mode set stays as it came |
| AnalyticsService.Writer.InsertEventBatch | engine/internal/clickhouse/writer.go:94-127 | all events are defaulted in place even when pointers repeat or the insert fails, reported totals kept; rows and counter grow by the batch or not at all |
| AnalyticsService.Service.AddEvents | engine/internal/orchestration/analytics_service.go:53-74 | buffer and wake-up change as in the protocol's add and send |
| AnalyticsService.Service.Flush | engine/internal/orchestration/analytics_service.go:103-134 | swap, insert and requeue change the buffer and the counter as in the protocol, and write the defaulted rows |
| Audit.LoggedWriteExplains | control-plane/src/customer/customer.service.ts:62-83 | logging a write with the value it replaced keeps every row's log a chain that ends in the stored value |
| OrgCache.Deployment.CreateOrg | control-plane/src/identity/identity.service.ts:14-43 | a new ACTIVE row, its audit entry, and the existence key if the SET took effect |
| OrgCache.Deployment.UpdateOrg | control-plane/src/identity/identity.service.ts:64-97 | any update makes the org ACTIVE unless it is DELETED, logs old and new status, does not touch the cache |
| OrgCache.Deployment.SuspendOrg | control-plane/src/identity/identity.service.ts:99-140 | which calls succeed, and the row, key and log afterwards |
| OrgCache.Deployment.WarmAll | engine/internal/daemon/cache_daemon.go:54-116 | the three warming steps in order, each of whose queries may fail on its own |
| OrgCache.StatusEdges | control-plane/src/identity/identity.service.ts:64-140 | an org changes its status only by a suspension while ACTIVE or an update while SUSPENDED |
| OrgCache.SuspendThenUpdateRestores | control-plane/src/identity/identity.service.ts:64-122 | a suspension that no subscription prevents makes the org SUSPENDED and uncached, and the next update restores the table |
| OrgCache.CreateActivates | control-plane/src/identity/identity.service.ts:14-26 | a new org is ACTIVE, and cached if its SET took effect |
| OrgCache.WarmingCaches | engine/internal/daemon/cache_daemon.go:63-113 | after warming, every ACTIVE org, every org and end user of an API key, and every active end user is cached |
| OrgCache.NewOrgKey | engine/internal/daemon/cache_daemon.go:63-113 | which operations can add an org key, for which orgs and under which spelling |
| OrgCache.SoundIffSafe | control-plane/src/identity/identity.service.ts:14-140 | from a state where an org cached under any spelling is ACTIVE, an operation keeps that iff it neither suspends an org that is cached under another spelling or whose DEL is lost, nor warms from an API key of an org that is not ACTIVE |
| OrgCache.SafeRunsKeepCacheSound | control-plane/src/identity/identity.service.ts:14-140 | over every run of such operations an org cached under any spelling is ACTIVE |
| OrgCache.AuditExplainsIff | control-plane/src/identity/identity.service.ts:64-140 | an operation keeps the log explaining every stored status iff it names the row by its stored spelling |
| OrgCache.RunsKeepAudit | control-plane/src/identity/identity.service.ts:14-140 | over every run of such operations each org's log is a chain ending in the stored status |
| OrgCache.ChecksAnswerActive | engine/internal/postgres/fallback.go:14-24 | with a sound cache and Postgres answering, the single path answers exactly "ACTIVE in Postgres" for every UUID; the batch never says more, and the same for ids spelled as stored in lists of UUIDs |
| OrgRaces.BackfillRace | engine/internal/handler/ingest_handler.go:155-165 | a check reads ACTIVE, the org is suspended and its key deleted, and the check's SET then caches the suspended org for good |
| OrgRaces.DelayedSetIff | engine/internal/handler/ingest_handler.go:155-165 | a delayed SET, under any spelling, keeps "cached implies ACTIVE" iff the org is still ACTIVE when it takes effect |
| OrgRaces.SoundAtRest | control-plane/src/identity/identity.service.ts:116-122 | once nothing is under way, the invariant of the step machine is the plain "cached implies ACTIVE" |
| OrgRaces.StepSoundIff | control-plane/src/identity/identity.service.ts:99-122 | with steps interleaved, "for each spelling it is cached under, an org is ACTIVE or has a DEL to come" survives a step iff the step is not a SET for an org that is neither, nor the loss of the last DEL for a cached org that is not ACTIVE, nor the suspension of an org cached under another spelling with no DEL to come |
| OrgRaces.RunSoundIff | control-plane/src/identity/identity.service.ts:14-140 | every interleaving is sound throughout iff each of its steps is safe |
| OrgRaces.RespelledRun | control-plane/src/identity/identity.service.ts:116-122 | a suspension under another spelling deletes another key and leaves the org cached |
| OrgRaces.RespelledCheckRun | engine/internal/handler/ingest_handler.go:155-165 | a check caches the org under another spelling; after the suspension that key is still there and admits events |
| OrgRaces.AlwaysSoundIffAllRules | control-plane/src/identity/identity.service.ts:14-140 | all interleavings, from all sound starts with orgs cached as stored, stay sound iff suspensions wait for SETs under way, suspensions and caching checks use the stored spelling, DELs take effect and only ACTIVE orgs have active API keys |
| OrgRaces.UninterruptedCreate | control-plane/src/identity/identity.service.ts:14-43 | the row write and the SET of a creation, uninterrupted, are the whole operation |
| OrgRaces.UninterruptedUpdate | control-plane/src/identity/identity.service.ts:64-79 | the row write of an update is the whole operation on table and cache |
| OrgRaces.UninterruptedApiKey | engine/internal/daemon/cache_daemon.go:76-85 | the read and the SET of the API-key warming step, uninterrupted, are the whole operation |
| OrgRaces.UninterruptedSuspend | control-plane/src/identity/identity.service.ts:116-122 | the two steps of a suspension, uninterrupted, are the whole operation |
| OrgRaces.UninterruptedVerify | engine/internal/handler/ingest_handler.go:147-169 | the read and the SET of a check, uninterrupted, are the whole operation |
| Customers.CustomerService.CreateCustomer | control-plane/src/customer/customer.service.ts:10-38 | a new ACTIVE row with the given org, name and email, and its audit entry |
| Customers.CustomerService.UpdateCustomer | control-plane/src/customer/customer.service.ts:58-86 | succeeds iff the id finds a row and the transition is allowed; name, email and status of that row alone change as given; one entry with old row, new row and the action is logged under the id as given; otherwise nothing changes |
| Customers.MergeTakesWhatIsGiven | control-plane/src/customer/customer.service.ts:62-69 | given fields are taken over, the others kept, and the org never changes |
| Customers.RunsAreAuditSoundIff | control-plane/src/customer/customer.service.ts:10-104 | over every sequential run, each customer's log is throughout a chain ending in the stored row along allowed edges, iff every update names its row by the stored spelling |
| Customers.ChurnedIsAbsorbing | control-plane/src/customer/customer.service.ts:88-104 | for every run and all spellings, a CHURNED row stays CHURNED and was not ACTIVE the step before |
| Customers.LoggedChurnIsAbsorbing | control-plane/src/customer/customer.service.ts:71-104 | for every run and all spellings, what is logged under one id never leaves CHURNED |
| Customers.OverlappingUpdateIff | control-plane/src/customer/customer.service.ts:58-86 | when another update comes between read and write, and the entry follows its write at once, the log still explains the table iff the row read is still the stored one and is named as stored |
| Customers.OverlapFollowsEdgesIff | control-plane/src/customer/customer.service.ts:58-104 | every update validated against the row read follows the stored row's edges iff the status is unchanged or SUSPENDED by now |
| Customers.ChurnedSurvivesOverlapIff | control-plane/src/customer/customer.service.ts:58-104 | a CHURNED row survives every validated overlapping update iff it was read as CHURNED |
| Customers.OverlapRevivesChurned | control-plane/src/customer/customer.service.ts:58-104 | a run in which an overlapping update turns CHURNED back into ACTIVE |
| CustomerRaces.UninterruptedUpdate | control-plane/src/customer/customer.service.ts:58-86 | read, write and log append, uninterrupted, are the whole update |
| AuditRaces.OneRequestKeepsOrder | control-plane/src/customer/customer.service.ts:10-86 | with one request per row at a time, under its stored spelling, in every reachable state its log explains its row or the request under way will complete it |
| AuditRaces.OneRequestLogsGood | control-plane/src/customer/customer.service.ts:58-86 | and every entry is one that its request would make from the row it read |
| AuditRaces.SwappedLogsDoNotExplain | control-plane/src/customer/customer.service.ts:62-83 | two requests that each read the stored row but log in the other order leave a log that does not explain it |
| AuditRaces.RespelledLogDoesNotExplain | control-plane/src/customer/customer.service.ts:71-83 | an update under another spelling, even alone, leaves an entry under an id that names no row |
| CustomerRaces.AlwaysAuditSoundIff | control-plane/src/customer/customer.service.ts:10-104 | in every interleaving that comes to rest the logs explain the table along allowed edges, iff no request, or at most one per customer and under its stored spelling, may be under way |
| OrgAuditRaces.UninterruptedOps | control-plane/src/identity/identity.service.ts:64-140 | read, row write and log append of an update or suspension, uninterrupted, are the whole operation |
| OrgAuditRaces.AlwaysExplainsIff | control-plane/src/identity/identity.service.ts:14-140 | in every interleaving of creations, updates and suspensions that comes to rest the log explains every status, iff no request, or at most one per org and under its stored spelling, may be under way |
| Router.SplitPath | engine/cmd/analytics-api/main.go:130-151 | the loop computes the segments between slashes |
| Router.SegmentsRejoin | engine/cmd/analytics-api/main.go:130-151 | segments contain no slash and join back to the stripped path |
| Router.SplitUndoesJoin | engine/cmd/analytics-api/main.go:130-151 | splitting a joined path gives the segments back |
| Router.StripLaws | engine/cmd/analytics-api/main.go:131-137 | exactly one slash is dropped on each side, if there is one |
| Router.TrailingSlashIsIrrelevant | engine/cmd/analytics-api/main.go:135-137 | a trailing slash makes no difference to the segments |
| Router.Match | engine/cmd/analytics-api/main.go:112-128 | true iff equal segment by segment, where a star matches any |
| Router.MatchLaws | engine/cmd/analytics-api/main.go:112-128 | a star takes any segment, anything else only itself, and the lengths must agree |
| Router.EveryRouteIsReached | engine/cmd/analytics-api/main.go:32-78 | every case of every switch is reached by its path with any id in place of the star |
| Router.OverlapIffCompatible | engine/cmd/analytics-api/main.go:112-128 | two patterns share a path iff they differ only where one has a star |
| Router.AtMostOneRouteMatches | engine/cmd/analytics-api/main.go:32-78 | at most one case of each switch matches any path, so their order is irrelevant |

## Left out

- Traceparent parsing and printing: a slice and a concatenation; its round trip would only add easy members.
- HTTP methods, headers, body limits, JSON parsing and response bodies, logging, metrics, environment parsing: plumbing.
- SingleEvent.HandleSingleEvent: starts from a parsed event; whether it can be serialized is a parameter, and the text of an error response is not modelled. Its outcome is a ghost result; the status code is the real one.
- BatchHandler.HandleBatchEvent: starts from parsed events; publishing is the value returned, and failures of the Kafka producer, which the code only logs, are not modelled.
- InProcessBloom.Filter.ExistsAndAdd: the word operations `w & (1 << k)` and `w | (1 << k)` are written bit by bit on 64-bit words instead of with machine shifts.
- AnalyticsService.Service.Flush: the method runs undisturbed; interleaving is covered by the step machine in `Flush.dfy`. `lastFlush` and the warning above twice the batch size are not modelled, and the row counter does not wrap at 64 bits.
- BatchDedup.ProcessBatchEvents: the parallel slice of event ids is read from the events themselves; filter capacity and the error rate given to BF.RESERVE are not modelled.
- OrgCache.SafeRunsKeepCacheSound: operations are atomic; overlapping ones are in `OrgRaces.dfy` (cache) and `OrgAuditRaces.dfy` (log). Names, currencies and other columns that do not affect status are not modelled.
- Customers.CustomerService.UpdateCustomer: the requested status is one of the three stored ones or absent; other strings, which the transition table refuses (or, if empty, the column's type), are not modelled.
- End-user status: the engine's Postgres query ignores it, so "cached implies active" does not hold for end users and is not claimed.
- `SyncKey` and the other single-key upserts of the cache daemon and API-key authentication.
- Kafka consumption and the ClickHouse connection: placeholders in the code, so no delivery claim can rest on them.
- Analytics query handlers: constant responses.
- Invoicing, rating, proration and wallets: described in documents, not implemented.
- Encryption, hashing and token libraries, the web front end, database schema and deployment files.
