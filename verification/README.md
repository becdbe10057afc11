# Signal Yard: the ingest, quarantine, propose, approve and replay loop

Signal Yard takes in events from agents. The gateway publishes them on a stream; the normalizer
checks each one against the active schema of its category and routes it, or quarantines it. The
classifier gathers quarantined events into clusters of one shape and proposes a schema; a reviewer
approves it at the registry, which announces the new version; the normalizer then replays what was
quarantined. This project models that loop and the gateway's two stateful guards, and proves what
holds of every run, with calls that fail, messages that are redelivered and requests that
interleave.

`dafny verify dfyconfig.toml` checks the whole project.

## How the model is built

Code that works step by step is modelled twice. A *step function* on values says what one external
call does (`Normalizer.CallStep`, `Review.Step`, `ClusterEngine.JobStep`, `Idempotency.Step`,
`RegistryClient.Get`, `RateLimiting.Step`). A *class* holds the program's own fields and has the
program's own methods, loops and early exits; each method is proved to leave exactly the state that
the step functions reach when nothing else happens. Runs then interleave the steps freely, and the
theorems are about all runs.

A step function is only as good as what is said about it without calling it. So validation is
restated in terms of JSON values (`SchemaInference.Conforms`), pending rows in terms of their status
and stored envelope (`QuarantineTable.Waits`), the rate in tokens per second, envelopes field by
field, and the cache by the registry's own answers; the main results use these forms.

| file | what it models |
|---|---|
| `RateLimiter.dfy` | the per-agent token bucket, in exact real arithmetic |
| `Idempotency.dfy`, `KeyedRequests.dfy` | the collect endpoint and its table of stored responses; when overlapping requests publish |
| `Json.dfy`, `SchemaInference.dfy` | JSON values, shapes, schema inference, and the validator fragment it needs |
| `LlmResponse.dfy`, `ExtractedText.dfy` | finding the JSON object in a language model's answer |
| `Envelope.dfy`, `QuarantineTable.dfy` | envelopes and their stored form; the quarantine table |
| `RegistryTables.dfy` | categories, schema versions and event rows |
| `Review.dfy`, `ReviewProtocol.dfy`, `ReviewReads.dfy` | the review of proposals, and what any interleaving of reviews keeps |
| `RegistryClient.dfy` | the normalizer's schema cache, against the registry it stands in for |
| `Normalizer.dfy`, `NormalizerWorker.dfy`, `Verdicts.dfy` | message handling: one external call per step, the methods themselves, and what a call does when nothing goes wrong |
| `NormalizerRuns.dfy`, `Origins.dfy`, `ServedSchemas.dfy`, `NoLoss.dfy`, `NormalizerCounts.dfy`, `RowBounds.dfy`, `ReplayForward.dfy`, `ReplayContract.dfy`, `ReplayProgress.dfy`, `EventLinks.dfy` | runs of the normalizer and what they keep |
| `ClosedLoop.dfy` | reviews and the normalizer at work on the same tables |
| `ClusterEngine.dfy`, `ClassifierJobs.dfy`, `EngineObjects.dfy` | clusters and classification jobs, as values and as objects |
| `EndToEnd.dfy` | from a cluster to its events: an approved schema drains the quarantine |
| `Redelivery.dfy` | messages delivered, acknowledged and delivered twice |

An external call ends in one of three ways: it succeeds, it fails without effect, or it takes effect
and its reply is lost (`Prelude.Outcome`). One SQL statement, one transaction and one cache lookup
are each one step. A task that is never stepped again has crashed. Times are reals.

Where the code and its documentation differ, the model follows the code:

- `docs/product.json:7876` asks for idempotent replay. `Process` does not remember what it stored,
  so a redelivered or replayed event can be stored again; `Redelivery.StoredTwice` is a run that
  does it. An event is stored at most once when it is delivered or replayed only once and no version
  has more than one postgres destination (`RowBounds.StoredAtMostOnce`; `RowBounds.StoredAtMost` is
  the bound in general). `NormalizerCounts.EveryRowAccounted` says exactly how many rows there are.
- `docs/openapi.json:224` promises the original response for a duplicate key. A lookup keeps that
  promise if and only if a save under the key has taken effect before (`KeyedRequests.LookupIff`), so
  overlapping requests can both publish (`Idempotency.OverlapPublishesTwice`).
  `KeyedRequests.PublishedTwiceIff` is the exact condition: two requests look up before the first
  save, and the publishes of both take effect. A client that waits for the reply before it sends the
  key again is safe as long as no publish is reported as failed after it took effect and no save
  fails (`KeyedRequests.WaitForReply`).
- The comment on `parse_llm_json` speaks of the first JSON object. The code takes the text from the
  first opening brace to the last closing one; `ExtractedText.ExtractIff` says so for every text, and
  `LlmResponse.ExtractFromProse` gives the exact condition for an object in prose.
- `internal/normalizer/worker.go:130` speaks of quarantining the raw bytes of an unparseable
  message. The code acknowledges and counts it, and stores nothing.

## Model

| member | source | states |
|---|---|---|
| RateLimiting.RateLimiter.constructor | internal/coreapi/rate.go:25-38 | non-positive limits become 50 per second and a burst of 100; no agent has a bucket |
| RateLimiting.RateLimiter.Allow | internal/coreapi/rate.go:40-61 | the table of buckets and the decision are those of one step; other agents' buckets stay |
| RateLimiting.AvailableIsLeastHeadroom | internal/coreapi/rate.go:45-60 | a bucket holds the least allowance left by any window that opens with a call of the agent, burst + rps x its length - what it granted, capped at burst |
| RateLimiting.RefusedIffWindowOverspent | internal/coreapi/rate.go:40-61 | a call is refused if and only if some window of the agent's calls ending with it would exceed burst + rps x its length |
| RateLimiting.WindowBound | internal/coreapi/rate.go:40-61 | over any stretch of time an agent gets at most burst + rps x its length calls |
| RateLimiting.SpacedNeverRefused | internal/coreapi/rate.go:40-61 | an agent whose calls are at least 1/rps apart is never refused when burst is at least one |
| RateLimiting.FirstCallAllowedIffBurst | internal/coreapi/rate.go:44-60 | with a burst below one nothing ever passes; otherwise an agent's first call does |
| RateLimiting.RefillsCompose | internal/coreapi/rate.go:49-55 | refilling in two capped stages is refilling once |
| RateLimiting.RefusedAndForeignCallsInvisible | internal/coreapi/rate.go:45-60 | deleting any refused calls of an agent and any calls of others leaves its remaining decisions as they were |
| Idempotency.Gateway.HandleCollect | internal/coreapi/handlers.go:215-268 | reply, stream and table are those of the steps lookup, check, publish, save run without interruption |
| Idempotency.Gateway.SaveIdempotencyResponse | internal/coreapi/store.go:260-266 | the response is stored only if the key has none |
| Idempotency.StoredResponseStays | internal/coreapi/store.go:260-266 | under any interleaving a stored response never changes and nothing leaves the stream |
| Idempotency.RepliesAgree | internal/coreapi/handlers.go:219-266 | every 200 reply repeats the event id of a 201 reply under the same key, and all 200 replies for a key the same one; the event of a 201 reply is on the stream and carries the request's agent, category, source, timestamp and payload; no event id is there twice |
| KeyedRequests.InTableIffSaved | internal/coreapi/store.go:250-266 | under any interleaving a key is in the table if and only if a save under it took effect |
| KeyedRequests.LookupIff | internal/coreapi/handlers.go:218-231 | under any interleaving a keyed request's successful lookup is answered 200 if and only if a save under its key took effect before; otherwise the request goes on |
| KeyedRequests.PublishedIff | internal/coreapi/handlers.go:219-266 | under any interleaving a request publishes if and only if its lookup succeeds before any save under its key takes effect, or it has no key, its body is complete, and its publish takes effect |
| KeyedRequests.OncePerRequest | internal/coreapi/handlers.go:254-257 | a request publishes once at most |
| KeyedRequests.RepliesMean | internal/coreapi/handlers.go:219-266 | under any interleaving: 500 if and only if the lookup failed, 400 if and only if it found nothing and the body is incomplete, 503 if and only if it found nothing, the body is complete and the publish was reported as failed, 201 if and only if it was reported as done and the save, if there is a key, has been tried; 200 if and only if the lookup found a response; no other reply |
| KeyedRequests.PublishedTwiceIff | internal/coreapi/handlers.go:219-266 | a key is published twice if and only if two complete requests look up before the first save under it takes effect, and both publishes take effect |
| KeyedRequests.WaitForReply | internal/coreapi/handlers.go:219-266 | if a request with a key looks up only when all others with it have been answered or not started, and no publish reply and no save under the key is lost, the key is published at most once |
| Idempotency.PublishesIffUnsaved | internal/coreapi/handlers.go:219-266 | in particular, without overlap a request publishes if and only if it gets that far and no earlier request published and saved under its key; requests without a key always publish |
| Idempotency.PublishesOnce | internal/coreapi/handlers.go:219-266 | where publishes are reported and saves succeed, a key publishes once as soon as one of its requests can, and never again |
| Idempotency.OverlapPublishesTwice | internal/coreapi/handlers.go:219-266 | two overlapping requests with one key can both publish, with different event ids |
| SchemaInference.ShapeKeyIsShape | classifier/app/schema_infer.py:14-17 | two payloads share a fingerprint if and only if they have the same fields with the same types |
| SchemaInference.InferSchema | classifier/app/schema_infer.py:38-62 | the loops over samples and fields compute the inferred schema |
| SchemaInference.TallySample | classifier/app/schema_infer.py:47-50 | after a sample, the dictionaries hold the types and counts of all samples so far |
| SchemaInference.BuildProperties | classifier/app/schema_infer.py:51-56 | every field gets its set of types, as one name or a sorted list |
| SchemaInference.InferSound | classifier/app/schema_infer.py:38-62 | the inferred schema accepts every sample |
| SchemaInference.AcceptsIff | classifier/app/schema_infer.py:38-62 | a payload is accepted if and only if it has every required field and each declared field it has holds a JSON value of a declared type, an integer being a number too |
| SchemaInference.InferMeaning | classifier/app/schema_infer.py:38-62 | a payload meets the inferred schema if and only if it has every field that all samples have, and each field that some sample has holds a value of a type some sample has there; without samples every object does |
| SchemaInference.MakeSpecForm | classifier/app/schema_infer.py:51-54 | a single type is written as its name, several as the list of their names in alphabetical order |
| SchemaInference.InferLeast | classifier/app/schema_infer.py:38-62 | another schema over the sampled fields accepts the samples if and only if it accepts all that the inferred one accepts |
| SchemaInference.InferOrderIrrelevant | classifier/app/schema_infer.py:38-62 | order and repetition of samples do not matter |
| SchemaInference.InferJoin | classifier/app/schema_infer.py:45-57 | appending sample lists unites types and intersects required fields |
| SchemaInference.InferOneShape | classifier/app/schema_infer.py:38-62 | samples of one shape give the schema of any single one of them |
| SchemaInference.InferAcceptsShape | classifier/app/schema_infer.py:14-62 | the schema of a cluster's samples accepts every payload with the cluster's fingerprint |
| LlmResponse.ExtractFromProse | classifier/app/schema_infer.py:67-76 | without a fence, an object in prose is found if and only if no brace opens before it and none closes after it |
| LlmResponse.ExtractFromFence | classifier/app/schema_infer.py:67-76 | in a fence, between lines with no stray braces, an object is found if and only if none of its lines looks like a fence |
| LlmResponse.ExtractFromPlainFence | classifier/app/schema_infer.py:67-76 | the same for an object alone between an opening fence, with any language tag, and a closing one |
| ExtractedText.ExtractIff | classifier/app/schema_infer.py:65-76 | for every text: what is extracted is the text from the first opening to the last closing brace, of the text itself if it does not start with a fence after white space, otherwise of its lines that do not |
| ExtractedText.NothingExtracted | classifier/app/schema_infer.py:72-75 | from a text without a fence nothing is extracted if and only if no closing brace comes after an opening one |
| ExtractedText.StripAt | classifier/app/schema_infer.py:67 | stripping leaves the text from its first to its last character that is not white space |
| Envelopes.DecodeEncode | internal/normalizer/store.go:16-26 | the JSON of an envelope decodes back to it, and its category can be read from it |
| Envelopes.DecodeMeans | internal/normalizer/store.go:16-26 | a stored object decodes to an envelope if and only if each field is the text the object has under its name, or empty if that is absent or null, and the payload the object it has or none |
| QuarantineTable.PendingInOrder | internal/normalizer/store.go:141-160 | the rows fetched for a category are exactly those with status pending whose stored category is that text, each once, in order of creation |
| QuarantineTable.UpsertEffect | internal/normalizer/store.go:85-101 | quarantining an envelope whose id has a row gives that row an attempt and the new reason; otherwise it adds a pending row that decodes to the envelope |
| QuarantineTable.MarkEffect | internal/normalizer/store.go:162-166 | only the row with the id changes, and only its status |
| QuarantineTable.BumpEffect | internal/normalizer/store.go:168-172 | only the row with the id changes, by an attempt and a reason |
| RegistryTables.QueriesAgree | internal/registry/store.go:94-182 | GetActiveSchema, ListCategories and the insert's lookup all see the newest version |
| RegistryTables.CreateVersionEffect | internal/registry/store.go:128-158 | creating a version gives the category its next number, makes it the active one and keeps all table invariants |
| RegistryTables.CreateVersionElsewhere | internal/registry/store.go:128-158 | no other category notices |
| RegistryTables.DeleteEffect | internal/registry/store.go:227-236 | a category is deleted unless it is missing or some event row refers to it; no other category notices |
| RegistryTables.DeletedCategoryRestarts | internal/registry/store.go:227-236 | a category can be deleted if and only if it has no events, and then its numbering starts again at 1 |
| RegistryTables.EveryRunNumbered | internal/registry/store.go:115-158 | after any creates, deletes and inserts a live category has versions 1..n of which exactly n is active |
| RegistryTables.RoutedCategoryNeverRestarts | migrations/0001_init.sql:97-108 | a category with events keeps its id for good and its version never goes back |
| Review.RegistryServer.DeactivateVersions | internal/registry/store.go:139-141 | all versions of the category, and no others, are deactivated |
| Review.RegistryServer.LatestVersion | internal/registry/store.go:143-147 | the greatest version of the category, or 0 |
| Review.RegistryServer.CreateSchemaVersion | internal/registry/store.go:128-158 | the tables and the returned row are those of one creation step |
| Review.RegistryServer.FinalizeProposal | internal/registry/store.go:304-317 | succeeds if and only if the proposal is still pending and the schema row it is to name exists, and then sets its decision, reviewer, notes and schema |
| Review.RegistryServer.HandleReview | internal/registry/handlers.go:240-301 | reply, tables, audit log and announcements are those of the review's steps run without interruption |
| Review.RegistryServer.Reject | internal/registry/handlers.go:270-278 | finalise, then audit, stopping if the finalise is reported as failed |
| Review.RegistryServer.Approve | internal/registry/handlers.go:281-300 | create the version, finalise, audit, announce, stopping if one of the first two is reported as failed; the reply says whether the failed call took effect |
| Review.RegistryServer.Announce | internal/registry/handlers.go:290-300 | audit entry and schema.approved event are written, each unless its call fails |
| ReviewProtocol.DecisionsHold | internal/registry/handlers.go:259-301 | a proposal carries the decision of the review that finalised it, and no two reviews finalise one proposal |
| ReviewProtocol.DecisionsSettle | internal/registry/store.go:304-317 | a proposal leaves pending at most once; decision, reviewer and notes never change after |
| ReviewReads.UnlessPendingRefused | internal/registry/handlers.go:248-262 | in every run a review whose read fails is answered 500, one whose proposal is missing 404, one whose proposal is not pending 400, for good, and the read changes nothing |
| ReviewReads.CreatedForPending | internal/registry/handlers.go:259-283 | a version is created for a proposal only by an approval that has read it while it was pending, with the proposal's category, schema and routing |
| ReviewReads.ReferencesHold | internal/registry/store.go:304-317 | an approved proposal names the version its approval created as long as that row exists, and none afterwards; a rejected or pending one names none |
| ReviewProtocol.AuditAndEventsAgree | internal/registry/handlers.go:270-296 | a proposal has at most one audit entry and one schema.approved event, each agreeing with its final status |
| ReviewProtocol.VersionsAreAccountedFor | internal/registry/handlers.go:281-289 | versions created by reviews = approved proposals + approvals in flight + approvals whose finalise failed + approvals whose insert took effect but was reported as failed |
| ReviewProtocol.VersionsPerProposal | internal/registry/handlers.go:281-289 | proposal by proposal: versions created for it = 1 if it is approved + its approvals in flight + those whose finalise failed + those whose insert took effect but was reported as failed |
| ReviewProtocol.RacingApprovalsCreateTwo | internal/registry/handlers.go:259-289 | two approvals of one pending proposal can create a version of it each, of which one finalises |
| ReviewProtocol.TokensHold | internal/registry/handlers.go:281-296 | the version a review holds or has announced stays that version of that category as long as its row exists |
| ReviewProtocol.AnnouncedVersionIsReached | internal/registry/handlers.go:293-296 | an announced version whose row exists is at most the category's current version |
| RegistryClient.Client.GetSchema | internal/normalizer/registry_client.go:52-95 | result and cache are those of one lookup |
| RegistryClient.Client.Invalidate | internal/normalizer/registry_client.go:98-102 | the entry is gone, all others stay |
| RegistryClient.EntryIsLastAnswer | internal/normalizer/registry_client.go:52-102 | in every run a category's entry is the last 200 answer since its last invalidation |
| RegistryClient.AnswersAgree | internal/normalizer/registry_client.go:52-95 | what is fetched is current; what is cached was active, less than the TTL ago unless the request failed; 404 means there is no schema now; an error has one of the listed causes |
| RegistryClient.LookupSays | internal/normalizer/registry_client.go:52-95 | a lookup less than 30 seconds after the registry's last answer, with no invalidation since, says what the registry said then, whatever is wrong with the registry now; every other lookup says what the registry says now, or, if it cannot be reached, the last answer known, however old; no entry, another status or an unreadable body is an error, a missing schema is reported as missing |
| RegistryClient.GetAboveFloor | internal/normalizer/registry_client.go:52-95 | with the registry at version v or later and nothing older cached, a lookup yields v or later, or an error |
| RegistryClient.NeverBackAfterInvalidation | internal/normalizer/registry_client.go:52-102 | after an invalidation at version v no lookup goes back behind v or misses as long as the registry has the category; deletes that are refused may occur |
| RegistryClient.RoutedNeverBack | migrations/0001_init.sql:97-108 | a category that has events at the invalidation needs no such condition, since every delete of it is refused |
| NormalizerWorker.Store.InsertEvent | internal/normalizer/store.go:61-79 | the category and active schema are resolved first, then one row is inserted under them; an error says which |
| NormalizerWorker.Store.Quarantine | internal/normalizer/store.go:85-101 | one upsert: a known id keeps its status and payload and gains an attempt |
| NormalizerWorker.Store.QuarantinedByCategory | internal/normalizer/store.go:141-160 | the pending rows of the category, oldest first |
| NormalizerWorker.Store.MarkReplayed | internal/normalizer/store.go:162-166 | the row with this id becomes replayed, the others stay |
| NormalizerWorker.Store.BumpAttempts | internal/normalizer/store.go:168-172 | the row with this id gains an attempt and a reason, the others stay |
| NormalizerWorker.Worker.Process | internal/normalizer/worker.go:167-205 | state and result are those of the call's steps run without interruption |
| NormalizerWorker.Worker.RouteAll | internal/normalizer/worker.go:191-204 | the destinations are served in order up to the first error |
| NormalizerWorker.Worker.Route | internal/normalizer/worker.go:227-275 | what each destination does to the stores, and whether it failed after taking effect |
| NormalizerWorker.Worker.QuarantineEnvelope | internal/normalizer/worker.go:277-287 | upsert, then publish, then count, stopping at the first error |
| NormalizerWorker.Worker.ReplayOne | internal/normalizer/worker.go:310-326 | the stored envelope is processed again, and its row marked or left |
| NormalizerWorker.Worker.ReplayCategory | internal/normalizer/worker.go:291-305 | the loop over pending rows does what the replay's steps do, up to the first error |
| NormalizerWorker.Worker.HandleApproval | internal/normalizer/worker.go:144-162 | invalidate, replay, and acknowledge only if the replay met no error |
| NormalizerWorker.Worker.HandleIngest | internal/normalizer/worker.go:125-142 | an unparseable message is counted and acknowledged; another is processed and acknowledged only without an error |
| Verdicts.ProcessDecides | internal/normalizer/worker.go:167-205 | from any state, when nothing goes wrong: an event is quarantined as unknown if neither a cached schema less than 30 seconds old nor the registry has one; otherwise it is routed if it conforms to the schema, quarantined under its version if it does not, and left with an error if the validator cannot load it; rows, pushes, copies and counters are those that follow |
| Verdicts.ServesAll | internal/normalizer/worker.go:191-242 | the places a routing names are served in order: a row for each that is postgres or unknown, a push for each that is loki if its URL is set, nothing for tempo and mimir |
| Origins.EveryRunSound | internal/normalizer/worker.go:310-326 | in every run an event id has at most one row, and the row decodes to the published envelope with that id |
| ServedSchemas.EveryRunServed | internal/normalizer/worker.go:167-204 | in every run each schema in the cache, and each that a call routes or has routed by, was the registry's active version of its category earlier in the run |
| ServedSchemas.EveryCallJudged | internal/normalizer/worker.go:170-190 | in every run a routed event conforms to such a schema; one quarantined under version v does not conform to such a schema of version v; one quarantined as unknown had no category in the registry at some point |
| NoLoss.NoLoss | internal/normalizer/worker.go:125-205 | an acknowledged parseable message has had a call that returned routed, under a schema to which its payload conforms and that the registry served for its category in this run, and each place that the schema's routing names, or else postgres, has it; or it has a row under its id that holds it and a copy on the quarantine stream |
| NoLoss.StatusOnlyMoves | internal/normalizer/store.go:162-166 | in every run rows are never lost or rewritten, and move from pending to replayed only after their envelope was routed |
| NoLoss.EveryRunBacked | internal/normalizer/worker.go:167-287 | every call, returned or in progress, has the deliveries and rows its position claims, and nothing takes them away |
| NormalizerCounts.CountersAddUp | internal/normalizer/worker.go:167-205 | processed = routed + quarantined - unparseable + failed calls + calls in progress, and replayed is at most routed |
| NormalizerCounts.ProcessInserts | internal/normalizer/worker.go:191-204 | a routed call inserts one row per postgres or unknown destination, a failed one only for a prefix of the list, a quarantining one none |
| NormalizerCounts.EveryRowAccounted | internal/normalizer/worker.go:191-242 | in every run the event rows of an envelope are exactly those its calls inserted |
| EventLinks.EveryEventLinked | internal/normalizer/store.go:61-79 | in every run each event row is linked to the category its envelope names and to a version of that category, whatever is deleted and created between the resolution of the ids and the insert |
| RowBounds.RowsBounded | internal/normalizer/worker.go:191-242 | when every version that is created stores an event at most n times, an event has at most n rows per attempt |
| RowBounds.EveryAttemptStarted | internal/normalizer/worker.go:125-162 | every attempt on an event was started by a delivery of its message or a replay that covers it, at most one attempt for each |
| RowBounds.StoredAtMost | internal/normalizer/worker.go:125-242 | an event has at most n rows for each delivery of its message and each replay started on its category or its row, where n bounds the rows that a created version stores per event |
| RowBounds.StoredAtMostOnce | internal/normalizer/worker.go:125-242 | with one postgres destination, an event that is delivered or replayed once is stored at most once |
| NormalizerCounts.EveryRunAttempts | internal/normalizer/store.go:85-101 | attempts = successful quarantine upserts - 1 + bumps, row by row, and no bump ever happens |
| ReplayForward.ReplayNeverGoesBack | internal/normalizer/worker.go:144-162 | every event replayed for an announced version v is of its category and is judged by version v or later, or the replay reports an error, as long as the registry has the category; deletes that are refused may occur |
| ReplayForward.RoutedNeverGoesBack | migrations/0001_init.sql:97-108 | a category that has events at the announcement needs no such condition |
| ClosedLoop.LoopIsBoth | internal/registry/handlers.go:281-296 | a run of reviews and normalizer together is a run of the reviews and a run of the normalizer on the same tables, so that what holds in the runs of either holds in it |
| ClosedLoop.AnnouncedIsReached | internal/registry/handlers.go:293-296 | when a review announces a version whose row exists, the normalizer's registry has reached it |
| ClosedLoop.ApprovedNeverGoesBack | internal/normalizer/worker.go:144-162 | once a review has announced version v of a category that stays in the registry, every call its handler makes is on an event of the category and is judged by version v or later, or the replay reports an error and does not acknowledge |
| ClosedLoop.ApprovedRoutedNeverGoesBack | internal/registry/store.go:227-236 | the same of a category that has events at the announcement, whatever deletes are tried |
| ClosedLoop.ApprovedReplayed | internal/normalizer/worker.go:144-162 | once the normalizer acknowledges an announcement that a review made, a replay begun after it has dealt with every row that was pending and whose envelope was of the category when it fetched them: routed and marked, or quarantined again, under version v or later |
| ReplayForward.AckedMeansCompleted | internal/normalizer/worker.go:155-161 | an acknowledged approval has had a replay that got through to its end |
| ReplayForward.ErrorNeverAcks | internal/normalizer/worker.go:155-161 | a replay that met an error stays so, and none of its steps acknowledges |
| ReplayProgress.EveryReplayProgresses | internal/normalizer/worker.go:291-326 | in every run, whatever other tasks do, a replay has been through a prefix of the rows it fetched, with one returned call for each, in order, those routed being marked; its count is the number of those routed; it reports success only when it has been through all, and an error when the call on the next row failed, or routed it and the mark failed |
| ReplayProgress.ApprovalProgresses | internal/normalizer/worker.go:144-162 | the same of a replay for an announced version v, with every call judged by version v or later |
| ReplayProgress.AckedReplayed | internal/normalizer/worker.go:155-161 | behind an acknowledged announcement of version v there is a replay, begun after it, that has dealt with every row that was pending and whose envelope was of the category when it fetched them, each under version v or later |
| ReplayContract.ReplayCategoryContract | internal/normalizer/worker.go:291-326 | an error-free replay processes the very envelopes of the rows that were pending under the category, in order; marks those routed, gives the others one attempt more, changes no other row, and returns and counts the number of rows it moved to replayed |
| ReplayContract.ReachableReplay | internal/normalizer/worker.go:291-326 | the same from every state that a run of the normalizer can reach |
| ReplayContract.HandOneContract | internal/normalizer/server.go:105-134 | a replay of one event by hand changes nothing and errs if there is no pending row under the id; otherwise it processes the stored envelope, marks the row if that was routed and changes no other row; when nothing goes wrong it errs only if that call fails |
| ReplayContract.HandCategoryContract | internal/normalizer/server.go:136-152 | a replay of a category by hand errs and replays nothing if no schema is found for it; otherwise it is the same replay as for an approval, without the invalidation |
| ReplayContract.ApprovalAckedIff | internal/normalizer/worker.go:144-162 | an approval is acknowledged if and only if its replay met no error and the acknowledgement takes effect; one without a category is acknowledged and has no other effect |
| ClusterEngine.EveryRunSound | classifier/app/engine.py:67-122 | in every interleaving clusters have no duplicate event ids, keep the first five payloads, all of one shape; proposals carry the cluster's category; heuristic ones accept every payload of its shape |
| ClusterEngine.SameClusterIff | classifier/app/engine.py:69-75 | two events go to one cluster if and only if they have the same category and payloads with the same fields of the same JSON types |
| ClusterEngine.EventStartsJob | classifier/app/engine.py:77-86 | an event starts a job if and only if as many different events as the threshold have reached its cluster and no submission is recorded |
| ClusterEngine.NoJobAfterSubmission | classifier/app/engine.py:82-85 | once a submission is recorded no event starts a job for the cluster |
| ClusterEngine.SubmissionStays | classifier/app/engine.py:114 | a recorded submission is never forgotten |
| ClusterEngine.SubmittedIffCompleted | classifier/app/engine.py:106-122 | a submission is recorded if and only if a job of the cluster completed |
| ClusterEngine.FailedJobIsRetried | classifier/app/engine.py:77-122 | after a failed job the next event of an unsubmitted cluster starts another, even one seen before |
| ClusterEngine.HeuristicJobProposes | classifier/app/backends.py:68-78 | a job with the heuristic backend proposes the schema of the cluster's samples under its category and marks the cluster |
| ClassifierJobs.GatheredJobEnds | classifier/app/engine.py:96-169 | a job of a gathered cluster asks the backend about its samples under its category; without an answer it fails; otherwise it posts the answer under the cluster's own category with the first five event ids, once more without ids if that is declined, and completes, marking the cluster, or fails accordingly |
| ClassifierJobs.ManualJobEnds | classifier/app/engine.py:124-146 | a job for given event ids fails if no rows can be loaded; otherwise the same with the first row's category and the first five payloads, marking no cluster |
| EngineObjects.Cluster.Add | classifier/app/engine.py:77-81 | a new non-empty event id is appended; a payload is kept while there are fewer than five |
| EngineObjects.Engine.Gather | classifier/app/engine.py:69-82 | the event's cluster, made if there is none, takes it in; no other cluster or job changes |
| EngineObjects.Engine.AddEvent | classifier/app/engine.py:67-86 | clusters and jobs are those of one event step |
| EngineObjects.Engine.StartJob | classifier/app/engine.py:88-94 | one pending job is added |
| EngineObjects.Engine.Classify | classifier/app/backends.py:68-78 | the heuristic answer is the inferred schema, routed to postgres |
| EngineObjects.Engine.Submit | classifier/app/engine.py:147-169 | one post: the proposal arrives, or is declined and may be repeated, or the job fails |
| EngineObjects.Engine.RunJob | classifier/app/engine.py:102-122 | job, cluster and proposals are those of the job's steps run without interruption |
| EndToEnd.ApproveAlone | internal/registry/handlers.go:281-300 | an undisturbed approval creates the proposed schema as the next version, settles the proposal under it, writes the audit entry and announces it |
| EndToEnd.RejectAlone | internal/registry/handlers.go:270-278 | an undisturbed rejection settles the proposal and writes the audit entry, and creates and announces nothing |
| EndToEnd.ApprovedSchemaDrains | internal/normalizer/worker.go:144-162 | when a heuristic proposal for a cluster is approved it becomes the category's next version; if that is still active when the approval is handled, all that waits for the category has the cluster's shape and no call fails, the handling returns the number of waiting rows, leaves every row that stores an envelope of the category replayed, and adds to the events table exactly the waiting envelopes, in order, under that version |
| EndToEnd.ProcessedTwiceStoredTwice | internal/normalizer/worker.go:167-205 | the same envelope processed twice is stored twice, under the active version |
| Redelivery.RedeliveredStoredTwice | internal/normalizer/worker.go:125-142 | from every state that a run reaches with the category ready, a message delivered, handled without an error but for the lost acknowledgement, and delivered again adds two equal event rows |
| Redelivery.StoredTwice | internal/normalizer/worker.go:125-142 | a run of publishing, creating one version with one postgres destination, and delivering the message twice that ends with exactly two equal event rows |
| Redelivery.AckedIffHandled | internal/normalizer/worker.go:125-142 | in every run a message handled undisturbed is acknowledged if and only if its call did not fail and the acknowledgement takes effect |
| Redelivery.GarbageIsAcked | internal/normalizer/worker.go:125-135 | an unparseable message is counted, acknowledged if that takes effect, and stored nowhere |
| Redelivery.CallInRun | internal/normalizer/worker.go:167-205 | in every run a call that no other task disturbs does what Process does on its own |

## Left out

- The standard library's JSON decoding of requests, HTTP routing and status codes other than those of the collect and review handlers, middleware, metrics, tracing and configuration: no state worth proving.
- Token auth, agent and key records, webhook signatures and deliveries; the webhook adapter matters here only because it, too, mints a UUID per envelope.
- NATS, Postgres, Loki, git and the language model providers: abstract stores and calls that may fail. The git mirror of schemas is best effort and is not modelled.
- A restart of a process: a crashed task is one that takes no further step, but counters, cache and clusters are not reset.
- Review.RegistryServer.HandleReview: bodies and proposal ids that do not decode are not modelled.
- RegistryClient.Client.GetSchema: one atomic step; a fetch in flight across an invalidation, which can put an old schema back, is not modelled.
- SchemaInference.InferSound: values are told apart by type name only, and the validator is the fragment the inferrer emits, so a float with an integral value counts as a number, not as an integer as well. Schemas written by a language model that use other keywords are not modelled.
- SchemaInference.ShapeKeyIsShape: the fingerprint is the sorted list itself, before hashing and truncation.
- LlmResponse.ExtractFromProse: newline is the only line separator, only the ASCII range of white space is stripped, and the JSON parser that gets the text is not modelled.
- RateLimiting.RateLimiter.Allow: floating-point rounding is not modelled; times come from the caller, which reads them under the lock, so runs have non-decreasing times.
- Idempotency.Gateway.HandleCollect: the idempotency store is always configured; marshalling an envelope cannot fail.
- Envelopes.DecodeEncode: timestamps stay in their textual form, and event ids are taken to be UUIDs, as both producers mint them, so an id is never replaced when it is stored.
- NormalizerWorker.Worker.HandleIngest: the message has been decoded already; the error text of a failed validation is reduced to the schema version that failed it.
- NormalizerWorker.Worker.Process: routing YAML is parsed already, an unparseable document being the empty one.
- The HTTP handlers that replay one event or one category by hand take part in runs as steps, but have no method of their own; their reply codes are reduced to success or failure.
- Throughput and rate statistics, list endpoints, the agent and source columns of rows, and update times: thin.
- ClusterEngine.EveryRunSound: `set_backend` is reduced to which backend a job finds active; records of classifier runs, whose errors are swallowed, are not modelled; an event's payload is an object or absent.
