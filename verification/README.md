# Agentshark control plane: verified models

This project models four groups of the Agentshark control plane and proves what they promise. All proofs are
for every input, every run or every reachable state of the model.

* **Demo Lab run control** (`DemoRuns`, `DemoHistory`, `DemoContract`, `DemoUnlocked`, `DemoCancel`). Create,
  MonitorOnce and Cancel as atomic steps over a versioned store, a Runner and an approval service. `DemoHistory` assumes nothing of
  the Runner; `DemoContract` assumes its own history is legal and monotone, as the demo Runner's registry keeps it;
  `DemoUnlocked` takes the mutex away; `DemoCancel` is the Cancel method with its retry loops among other writers.
* **Resumable event delivery** (`EventOutbox`, `EventStream`, `EventHandlers`). The outbox with prefix pruning, the
  reset decision, the coalescing wake-up channel and the drain, as a machine and as the handlers' loops.
* **Optimistically locked configuration editing** (`Revisions`, `LostUpdate`, `Paths`, `Llm*`, `Traffic*`,
  `Policy*`). Tree documents with position IDs, merges that keep foreign keys, cascades, a read-back verifier, and
  the one-use revision token with its mutation flag.
* **Bounded stores and statistics** (`Percentile`, `TrendBuckets`, `DenyRate`, `TraceSpans`, `JobStore`,
  `HealthLog`).

Each operation is a function on values, with its laws as lemmas, and next to it the imperative form the program
has: a class whose methods and loops are proved to compute that function. `Text`, `JsonTrees`,
`Decimal`, `Collections` and `GatewayReplies` hold what the groups share.

## What the proofs found

* **A run stream can stall.** After a full first batch the run handler does not drain, so a message beyond the
  first 1000 can wait for the next notification or the replay tick
  (`apps/server/internal/api/server.go:1448-1476`); the global handler drains (`:1631-1636`). The first read stalls
  exactly when no token is pending, more than one batch of retained messages lies above the cursor, and the first
  message past the batch has already been notified (`EventStream.RunStreamStallsExactlyPastOneBatch`). Over whole
  runs these are the only stranded messages (`EventStream.StrandedExactlyFromBacklog`).
* **A reset can be needless and cost messages.** A cursor below the oldest retained sequence is reset even when
  nothing was pruned, and delivery then resumes at Latest: with only message 5 committed, cursor 0 on the global
  stream, or 3 on a run's stream, never gets message 5 (`EventOutbox.NeedlessResetSkipsRetained`). When this happens
  is stated exactly in `EventOutbox.GlobalResetIsSound` and `EventOutbox.RunResetIsSoundExceptFromZero`.
* **A run reset can be missed.** A run's Latest is the largest retained row, not a persistent counter, so cursor 0
  against a fully pruned run gets no reset although messages were lost. This is the only such case.
* **A third change the verifier cannot confirm.** Creating a model with an embedded provider and a non-empty
  provider reference is accepted, the reference is not stored, and the read-back comparison then fails. With the
  dollar literal and the look-alike of the strip expression these are exactly the ambiguous creates and updates;
  a delete is ambiguous exactly when another entry has the same name.
* **Cancel is safe because of `controlMu` too.** `persistRunnerCancellation` reloads the run after the Runner
  answered, so the version does not stop a snapshot that has become stale. Without the mutex an honest Runner can be
  blamed for a contract mismatch (`DemoUnlocked.UnlockedCancelBlamesAnHonestRunner`); with it, never.
* **Preparing a span is not idempotent at the zero time.** A start within the first microsecond after Go's zero
  time rounds down to it and is rejected the second time.

## Assumptions

* The store commits a run only at the expected version and then raises the version by one; replay returns the
  retained messages above a sequence in order, with the oldest and latest, as in the storage packages.
* SHA-256 digests are compared by what they digest; random tokens and job IDs are fresh.
* JSON is trees and maps with exact keys; URL parsing and Go's quoting are parameters of the LLM model.
* Times are integers passed in; text lengths are counted in characters.

## Model

| member | source | states |
|---|---|---|
| DemoHistory.ProjectedIsLegal | apps/server/internal/demo/monitor.go:149-230 | A snapshot the validator accepts always projects to a legal next version of the run: the transition check can never be what refuses it. |
| DemoHistory.StepKeeps | apps/server/internal/demo/service.go:201-493 | Any single step of Create, MonitorOnce or Cancel (read, Runner call, approval call, compare-and-swap), whatever the Runner and the approval service answer, keeps the run-history invariant. |
| DemoHistory.EveryRunIsSafe | apps/server/internal/demo/service.go:201-493 | Over every interleaving, with an untrusted Runner, the committed versions satisfy every promise of the history. |
| DemoHistory.EvolvesAcross | apps/server/internal/demo/service.go:627-723 | Between any two committed versions of a run: identity and scenario fixed, steps never fall, heartbeat never goes back, start time and trace pair written once. |
| DemoHistory.CommittedVersionsOnlyAdvance | apps/server/internal/demo/monitor.go:149-270 | The same as one statement over whole runs, with outcomes allowed for the scenario, completion times on terminal runs, and step bounds. |
| DemoHistory.TerminalStops | apps/server/internal/demo/service.go:701-723 | From any reachable state whose newest row is terminal, no step commits another row. |
| DemoHistory.TerminalRowIsFrozen | apps/server/internal/demo/service.go:627-644 | Once a terminal row is committed, no continuation of the run adds or changes a row. |
| DemoHistory.ValidatedWriteIsRefusedOnlyByVersion | apps/server/internal/demo/service.go:627-644 | For a run read from a good history and a snapshot the validator accepts, the write is refused if and only if the stored version moved on or the store failed, never by the transition check. |
| DemoContract.LaterSnapshotStaysValid | apps/server/internal/demo/monitor.go:202-230 | With a legal, monotone Runner history, a snapshot accepted for a run is followed only by acceptable ones. |
| DemoContract.HonestStepKeeps | apps/server/internal/demo/service.go:201-454 | Every step of the interleaving keeps the contract invariant when the Runner is honest. |
| DemoContract.HonestRunKeeps | apps/server/internal/demo/monitor.go:32-92 | So does every interleaved run. |
| DemoContract.HonestRunnerIsNeverBlamed | apps/server/internal/demo/service.go:646-655 | With an honest Runner, no interleaving of Create, MonitorOnce and Cancel ever commits a run as runner_contract_mismatch. |
| DemoContract.StaleInterruptIsDecidedThenRefused | apps/server/internal/demo/monitor.go:65-92 | A reachable honest run in which Monitor, on a stale read, does decide to interrupt for a mismatch, and only the version check stops it. |
| DemoUnlocked.ExcludingRunIsLocked | apps/server/internal/demo/service.go:314-329 | Two control calls that take no step while the other is in progress, with Create beside them, are exactly the runs of the locked machine. |
| DemoUnlocked.LockedRunIsNeverBlamed | apps/server/internal/demo/service.go:314-329 | So with that exclusion an honest Runner is never blamed. |
| DemoUnlocked.UnlockedCancelBlamesAnHonestRunner | apps/server/internal/demo/service.go:376-398 | Without it there is an honest run that ends as runner_contract_mismatch: MonitorOnce commits a later heartbeat between the Runner answer and the reload in Cancel. |
| DemoCancel.MarkIsSettled | apps/server/internal/demo/service.go:400-469 | Each of the four marking writes is a legal transition that shows the ticket denied and the mark it stands for. |
| DemoCancel.AppliedKeepsDenial | apps/server/internal/demo/monitor.go:149-200 | Applying a Runner snapshot to a cancelled run keeps the denial unless the Runner reports the run approved. |
| DemoCancel.Service.Persist | apps/server/internal/demo/service.go:627-644 | A write succeeds exactly when the transition is legal, the store answers and the version is unchanged, and then raises the version by one. |
| DemoCancel.Service.PersistMarked | apps/server/internal/demo/service.go:400-469 | The four marking loops: at most three attempts, only store writes, and success leaves the denial and the mark in the store, whatever other writers commit in between. |
| DemoCancel.Service.PersistRunnerCancellation | apps/server/internal/demo/service.go:376-398 | The loop that applies the Runner answer: at most six writes including the follow-up mark, and success leaves the ticket denied and the run cancelled, interrupted or cancel_requested. |
| DemoCancel.Service.Cancel | apps/server/internal/demo/service.go:314-374 | The Runner is asked to cancel a waiting run only after exactly its own pending ticket was denied; success means the stored row shows that denial and the cancellation; a terminal run is returned as it is. |
| EventOutbox.BatchMeaning | apps/server/internal/storage/postgres/store.go:496-548 | A batch is ascending, above the cursor and retained; what it leaves out is later than all of it, and a short batch leaves nothing out. |
| EventOutbox.GlobalResetIsSound | apps/server/internal/api/server.go:1573-1607 | Global stream: without a reset nothing above the cursor has been pruned. A reset with nothing pruned above the cursor happens if and only if the cursor is ahead of Latest, or below Oldest but not below any pruned sequence. |
| EventOutbox.RunResetIsSoundExceptFromZero | apps/server/internal/api/server.go:1436-1476 | Run stream: without a reset something above the cursor has been pruned if and only if the cursor is 0 and every row of the run has been pruned; the needless resets are characterised exactly here too. |
| EventOutbox.NeedlessResetSkipsRetained | apps/server/internal/api/server.go:1448-1476 | The needless reset made concrete, on both streams: nothing pruned, one retained message above the cursor, and a reset to a resume point that skips it. |
| EventOutbox.RunResetMissesFullyPrunedRun | apps/server/internal/storage/postgres/demo.go:242-300 | The failing family made concrete: a fully pruned run and cursor 0 get no reset although messages were lost. |
| EventStream.OpeningIsRight | apps/server/internal/api/server.go:1573-1607 | Whatever the opening decides (reset, replay, snapshot), the position it starts from is the resume point it announced and everything delivered lies above it. |
| EventStream.EveryRunDelivers | apps/server/internal/api/server.go:1610-1662 | Over every interleaving of commits, prunes, notifications and reader steps the delivery invariant holds. |
| EventStream.DeliveryIsExactlyOnceInOrder | apps/server/internal/api/server.go:1610-1629 | In every run, whether the client is still connected or gone, the sequences sent to it strictly increase, were all committed and lie above the resume point, and nothing still retained was skipped. |
| EventStream.DrainLeavesNothingBehind | apps/server/internal/api/server.go:1610-1629 | After a drain ends, everything retained at its last read and above the resume point has been sent. |
| EventStream.NoLostWakeup | apps/server/internal/stream/hub.go:36-47 | Global stream, and run stream opened with a snapshot: a message that is committed, notified, retained and not yet sent implies a pending token or a drain still to read it. |
| EventStream.StrandedExactlyFromBacklog | apps/server/internal/api/server.go:1448-1538 | Either stream, every interleaving: a notified, retained, unsent message has neither token nor drain if and only if the reader waits without a token and the message is in the backlog of the first read, which only a run stream opened with a cursor has. |
| EventStream.BacklogIsLeftByTheFirstRead | apps/server/internal/api/server.go:1448-1538 | In any run, such a backlog is exactly what one first read without a reset left above its first 1000 messages, and no drain has ended since. |
| EventStream.RunStreamStallsExactlyPastOneBatch | apps/server/internal/api/server.go:1448-1476 | Run stream, first read without a reset from any reachable state: it leaves some notified message with neither token nor drain if and only if no token is pending, more than 1000 retained messages lie above the cursor, and the first of them beyond the batch has been notified. |
| EventStream.RunStreamLosesAWakeup | apps/server/internal/api/server.go:1448-1476 | That case made concrete as a run: 1001 messages above the cursor, all notified before the client subscribes; after the first read one is undelivered, with no token and no drain. |
| EventHandlers.ParseLastEventID | apps/server/internal/api/server.go:1664-1675 | Accepts exactly canonical decimal numbers that fit 63 bits, and returns the number written. |
| EventHandlers.Hub.Subscribe | apps/server/internal/stream/hub.go:19-34 | A new subscriber gets its own empty channel; the others keep their tokens. |
| EventHandlers.Hub.Notify | apps/server/internal/stream/hub.go:36-47 | Every subscriber ends with exactly one pending token, however many were pending. |
| EventHandlers.RunHub | apps/server/internal/stream/hub.go:19-47 | Under any mix of one reader with other subscribers coming, going and receiving, the hub holds a channel for the reader exactly while its machine is subscribed, and a token in it exactly when the machine has its token; the lost-wake-up results are therefore about this hub. |
| EventHandlers.Client.Write | apps/server/internal/api/server.go:1610-1629 | Writing a batch sends its messages in order, each once, and moves the position to the last of them. |
| EventHandlers.Client.Drain | apps/server/internal/api/server.go:1610-1629 | The drain loop, with any commits and prunes between its reads, sends everything retained at its last read and above the resume point. |
| EventHandlers.Client.Connect | apps/server/internal/api/server.go:1541-1640 | The handler up to its first wait refines the opening of the stream machine; the global one has by then sent everything retained above the resume point. |
| Revisions.IssueIsBounded | apps/server/internal/connect/service.go:470-492 | Issuing a token keeps at most 100, the new one is redeemable, and only a full table loses one live token, an oldest one. |
| Revisions.RedeemedOnce | apps/server/internal/connect/service.go:494-505 | A redeemed token can never be redeemed again; no other live token is affected. |
| Revisions.Service.ApplyChange | apps/server/internal/connect/service.go:334-361 | One change: a valid token is spent whether or not the write may start, the write is refused for a mutation in flight if and only if the flag was up for a valid token, at most one attempt is made with the token, and the mutation flag is restored. |
| Revisions.Service.Prune | apps/server/internal/connect/service.go:507-513 | The in-place prune leaves exactly the unexpired tokens. |
| Revisions.Service.FindOldest | apps/server/internal/connect/service.go:478-489 | The scan finds a token no other was created before. |
| Revisions.Service.Issue | apps/server/internal/connect/service.go:470-492 | issueRevision refines the specification of an issue, evicting an oldest token when full. |
| Revisions.Service.Consume | apps/server/internal/connect/service.go:494-505 | consumeRevision returns the revision of a live token and removes it. |
| Revisions.Service.BeginMutation | apps/server/internal/connect/service.go:515-523 | The flag is granted exactly when it was down. |
| LostUpdate.StepKeeps | apps/server/internal/connect/service.go:292-529 | Each atomic step of any client keeps: one applying at a time, tokens single-use, the checked document still current. |
| LostUpdate.EveryRunKeeps | apps/server/internal/connect/service.go:292-529 | So does every interleaving of clients and the four change kinds. |
| LostUpdate.NoUpdateIsLost | apps/server/internal/gateway/llm_config.go:93-129 | Each token pays for at most one POST, arrived or not; at most one client applies at a time; every write is one of those POSTs and replaces the very document it was computed from, whose canonical form is the one its token was issued for; nothing changed between two writes. |
| Paths.JoinIsInjective | apps/server/internal/gateway/resources.go:556-564 | Printed paths of slash-free segments are equal only when the segments are. |
| Paths.EscapeIsInjective | apps/server/internal/gateway/policy_config.go:572-574 | JSON pointer escaping (section 3 of RFC 6901) never maps two keys to one token. |
| Paths.Utf8IsInjective | apps/server/internal/gateway/resources.go:556-564 | UTF-8 encoding is injective. |
| Paths.SextetsAreInjective | apps/server/internal/gateway/resources.go:556-564 | The unpadded base64url digits (section 5 of RFC 4648) determine the bytes. |
| Paths.PathIdIsInjective | apps/server/internal/gateway/resources.go:556-564 | Two resources have the same ID only when their paths are the same. |
| Paths.PathIdIsNotBlank | apps/server/internal/gateway/resources.go:556-564 | No resource ID is blank or has blanks around it. |
| LlmCatalog.ShippedIsSane | apps/server/internal/gateway/llm_config.go:36-44 | The shipped catalogue lists no provider type that would be printed back under another name. |
| LlmConfig.EncodeThenDecode | apps/server/internal/gateway/llm_config.go:179-236 | Writing a document and decoding it gives the same entries, and its canonical form is a fixed point. |
| LlmReadBack.ParamsAreStored | apps/server/internal/gateway/llm_config.go:883-936 | All ten managed parameters written by a merge decode back to the draft. |
| LlmReadBack.CredentialReadsBack | apps/server/internal/gateway/llm_config.go:423-482 | A written credential shows as its mode exactly unless it is a literal secret that starts with a dollar sign. |
| LlmReadBack.MergedParamsReadBack | apps/server/internal/gateway/llm_config.go:369-382 | The merged parameter object reads back as the draft, with the written key or, under preserve, the one that was there. |
| LlmReadBack.FormatsAreStored | apps/server/internal/gateway/llm_config.go:384-406 | Custom provider formats survive encoding and decoding, in order. |
| LlmReadBack.ProviderEntryReadsBack | apps/server/internal/gateway/llm_config.go:285-317 | An accepted provider draft is read back field for field from the entry built for it. |
| LlmReadBack.TransformationReadsBack | apps/server/internal/gateway/llm_config.go:484-507 | The upstream mode and expression read back as drafted exactly but for a look-alike of the strip expression. |
| LlmReadBack.ModelEntryReadsBack | apps/server/internal/gateway/llm_config.go:319-367 | An accepted model draft is read back field for field from the entry built for it, with that one exception. |
| LlmVerifier.ProviderIsLocated | apps/server/internal/gateway/llm_config.go:1210-1218 | The ID listed for a provider position finds that position. |
| LlmVerifier.ModelIsLocated | apps/server/internal/gateway/llm_config.go:1220-1228 | The same for models. |
| LlmVerifier.CreateProviderVerifies | apps/server/internal/gateway/llm_config.go:537-550 | A created provider verifies if and only if its secret is not a dollar literal. |
| LlmVerifier.UpdateProviderVerifies | apps/server/internal/gateway/llm_config.go:552-583 | The same for an updated one. |
| LlmVerifier.CreateModelVerifies | apps/server/internal/gateway/llm_config.go:629-642 | A created model verifies if and only if it has no dollar literal, no look-alike expression and no stray provider reference. |
| LlmVerifier.UpdateModelVerifies | apps/server/internal/gateway/llm_config.go:644-671 | The same for an updated one. |
| LlmVerifier.UpdatesHaveNoStrayReference | apps/server/internal/gateway/llm_config.go:644-671 | An accepted model update never carries a stray reference, so only two exceptions are left for updates. |
| LlmVerifier.DeleteProviderVerifies | apps/server/internal/gateway/llm_config.go:585-627 | A deleted provider verifies if and only if no other provider has its name; a cascade leaves no model that refers to it. |
| LlmVerifier.DeleteModelVerifies | apps/server/internal/gateway/llm_config.go:673-687 | A deleted model verifies if and only if no other model has its name. |
| LlmVerifier.ChangeVerifiesUnlessAmbiguous | apps/server/internal/gateway/llm_config.go:1316-1387 | For every readable document and every accepted change: the result is readable, and the verifier confirms it if and only if the change is not one of the ambiguous ones, which the change and the document decide before the write. |
| LlmVerifier.ReadBackIsComplete | apps/server/internal/gateway/llm_config.go:93-129 | The same through the wire: written, decoded again, sanitized and compared. |
| LlmVerifier.StrayReferenceIsAccepted | apps/server/internal/gateway/llm_config.go:962-1001 | Any accepted embedded-provider model is accepted just as well with a stray reference, which the verifier then refuses. |
| LlmVerifier.DollarLiteralIsAccepted | apps/server/internal/gateway/llm_config.go:1030-1070 | Any accepted literal credential may as well be a dollar literal, which the verifier then refuses. |
| LlmVerifier.LookalikeIsAccepted | apps/server/internal/gateway/llm_config.go:1098-1121 | Whatever may use strip mode may as well give the same expression as custom, which then reads back as strip. Of quoting it uses only that %q gives at most ten characters for one, two quotes and no NUL. |
| LlmVerifier.SampleProviders | apps/server/internal/gateway/llm_config.go:537-550 | Concrete: an ordinary provider is accepted and confirmed; with the secret $key it is accepted and cannot be confirmed. |
| LlmVerifier.SampleModels | apps/server/internal/gateway/llm_config.go:629-642 | Concrete: an ordinary model is accepted and confirmed; with a stray reference it is accepted and cannot be confirmed. |
| LlmIntegrity.UpdateProviderKeeps | apps/server/internal/gateway/llm_config.go:552-583 | A provider update, with its refused renames, keeps names unique and references resolved. |
| LlmIntegrity.CascadeKeepsTargets | apps/server/internal/gateway/llm_config.go:585-627 | The cascading delete never removes a model that is still a virtual model target. |
| LlmIntegrity.DeleteProviderKeeps | apps/server/internal/gateway/llm_config.go:585-627 | A provider delete, cascading or not, leaves no dangling reference or target. |
| LlmIntegrity.UpdateModelKeeps | apps/server/internal/gateway/llm_config.go:644-671 | A model update keeps its reference resolved and every virtual-model target resolved. |
| LlmIntegrity.ChangeKeepsIntegrity | apps/server/internal/gateway/llm_config.go:518-535 | Every accepted change keeps: provider and model names unique, every model reference and every virtual-model target resolved. |
| LlmIntegrity.IntegrityOverAnyRun | apps/server/internal/gateway/llm_config.go:518-687 | So does every sequence of requests, accepted or refused. |
| LlmIntegrity.ReadableOverAnyRun | apps/server/internal/gateway/llm_config.go:238-283 | And the console can still list the configuration after any sequence of requests. |
| LlmUnowned.UnownedParamsSurvive | apps/server/internal/gateway/llm_config.go:883-930 | Every parameter outside the managed list, and the API key under preserve, is equal before and after a merge. |
| LlmUnowned.TransformationKeysSurvive | apps/server/internal/gateway/llm_config.go:842-861 | Every transformation member but model survives. |
| LlmUnowned.CustomKeysSurvive | apps/server/internal/gateway/llm_config.go:863-876 | Every member of a custom provider definition but its formats survives. |
| LlmUnowned.UpdateProviderKeepsUnowned | apps/server/internal/gateway/llm_config.go:689-713 | An accepted provider update rewrites one entry and of it only what the console manages; preserve keeps key and authentication. |
| LlmUnowned.UpdateModelKeepsUnowned | apps/server/internal/gateway/llm_config.go:715-758 | The same for a model update. |
| LlmUnowned.OtherSectionsSurvive | apps/server/internal/gateway/llm_config.go:214-236 | No change touches another section of the file, another member of the LLM section, or a virtual model. |
| LlmDocument.Merge | apps/server/internal/gateway/llm_config.go:883-936 | The key-by-key merge refines the specification of merged parameters. |
| LlmDocument.ConfigDocument.ProviderNameExists | apps/server/internal/gateway/llm_config.go:1230-1241 | The scan finds a name exactly when another readable entry has it. |
| LlmDocument.ConfigDocument.ModelInUse | apps/server/internal/gateway/llm_config.go:1270-1287 | The scan finds a model name exactly when a virtual model targets it. |
| LlmDocument.ConfigDocument.UpdateProvider | apps/server/internal/gateway/llm_config.go:552-583 | The update in place refines its specification: the same result, or the same error and an unchanged document. |
| LlmDocument.ConfigDocument.ReferencingModels | apps/server/internal/gateway/llm_config.go:585-627 | The reference scan returns the first error in order, or exactly the models that refer to the provider. |
| LlmDocument.ConfigDocument.DeleteProvider | apps/server/internal/gateway/llm_config.go:585-627 | The cascading delete in place refines its specification. |
| LlmDocument.ConfigDocument.UpdateModel | apps/server/internal/gateway/llm_config.go:644-671 | The model update in place refines its specification. |
| LlmDocument.ConfigDocument.ApplyChange | apps/server/internal/gateway/llm_config.go:518-535 | All six operations refine their specification. |
| LlmDocument.ChangeVerified | apps/server/internal/gateway/llm_config.go:1316-1349 | The verifier loops compute the specified comparison. |
| LlmDocument.Client.ApplyLLMChange | apps/server/internal/gateway/llm_config.go:93-129 | The whole write: nothing is sent on a stale revision or a refused change; success means the gateway holds the accepted document; on a readable document a confirmed write succeeds if and only if the change is not ambiguous. |
| TrafficModel.EncodeThenDecode | apps/server/internal/gateway/traffic_config.go:123-142 | What a write posts re-encodes to itself when read back. |
| TrafficIds.RouteIdsDiffer | apps/server/internal/gateway/traffic_config.go:144-204 | Route IDs are equal only for the same bind, listener, group and index. |
| TrafficIds.BindIsLocated | apps/server/internal/gateway/traffic_config.go:411-423 | A bind is found by its own ID. |
| TrafficIds.ListenerIsLocated | apps/server/internal/gateway/traffic_config.go:425-445 | A listener is found by its own ID. |
| TrafficIds.RouteIsLocated | apps/server/internal/gateway/traffic_config.go:447-480 | A route is found by its own ID. |
| TrafficIds.EveryNodeIsLocated | apps/server/internal/gateway/traffic_config.go:411-480 | In a document that decodes, every bind, listener and route is found by its own ID. |
| TrafficListing.ListedBind | apps/server/internal/gateway/traffic_config.go:144-204 | The b-th listed bind is found by its ID as bind b, and its counts equal a recount of the listeners listed under it. |
| TrafficListing.ListedListener | apps/server/internal/gateway/traffic_config.go:144-204 | The listeners listed under a bind are its listeners in order, each found by its ID, shown with its own fields, and counted as the routes listed under it are. |
| TrafficListing.ListedRoute | apps/server/internal/gateway/traffic_config.go:144-269 | The routes listed under a listener are its routes in order, each found by its ID and shown with its own fields and kind. |
| TrafficListing.ListedListenerBelongs | apps/server/internal/gateway/traffic_config.go:144-204 | Nothing is listed under a bind that does not exist. |
| TrafficListing.ListedRouteBelongs | apps/server/internal/gateway/traffic_config.go:144-204 | Nothing is listed under a listener that does not exist. |
| TrafficSafety.StoreRoutesFrame | apps/server/internal/gateway/traffic_config.go:553-619 | Storing routes of one kind changes that member of that listener and nothing else in the document. |
| TrafficSafety.EncodedListenerIs | apps/server/internal/gateway/traffic_config.go:621-654 | An encoded listener draft carries no routes, a valid protocol, everything else of the draft, and the old namespace unless the draft gives one. |
| TrafficSafety.EncodedRouteDecodes | apps/server/internal/gateway/traffic_config.go:656-714 | An accepted route draft decodes. |
| TrafficSafety.ChangeKeepsGood | apps/server/internal/gateway/traffic_config.go:339-394 | Every accepted change maps a decodable document with distinct ports and well-kinded listeners to another such document. |
| TrafficSafety.GoodOverAnyRun | apps/server/internal/gateway/traffic_config.go:339-394 | So does every sequence of requests. |
| TrafficSafety.FirstBind | apps/server/internal/gateway/traffic_config.go:339-352 | The empty document is well-formed and accepts a first bind, so the laws above are not empty. |
| TrafficRoutes.RoutesAreConserved | apps/server/internal/gateway/traffic_config.go:482-605 | For every accepted change, the routes afterwards with those it dropped are the routes before with those it added, as multisets. |
| TrafficRoutes.NoRouteDisappearsUnasked | apps/server/internal/gateway/traffic_config.go:505-605 | No route disappears except through a change to that route or an explicit deleteChildren or deleteIncompatibleRoutes flag. |
| TrafficRoutes.UpdateRouteTouchesOne | apps/server/internal/gateway/traffic_config.go:578-594 | Updating a route replaces it in place; siblings, the listener and every other node are unchanged. |
| TrafficRoutes.DeleteRouteTouchesOne | apps/server/internal/gateway/traffic_config.go:596-605 | Deleting a route keeps the order of the rest and every other node. |
| TrafficRoutes.CreateRouteTouchesOne | apps/server/internal/gateway/traffic_config.go:553-576 | Creating a route appends it to its listener and touches nothing else. |
| TrafficRoutes.UpdateListenerTouchesOne | apps/server/internal/gateway/traffic_config.go:505-534 | Updating a listener rewrites it alone and keeps its routes while it stays of one kind. |
| TrafficRoutes.DeleteListenerTouchesOne | apps/server/internal/gateway/traffic_config.go:536-551 | Deleting a listener keeps the order of the rest, and routes go only with the flag. |
| TrafficRoutes.UpdateBindTouchesOne | apps/server/internal/gateway/traffic_config.go:339-368 | Updating a bind changes its port and nothing else. |
| TrafficDocument.ConfigDocument.List | apps/server/internal/gateway/traffic_config.go:144-204 | The nested loops, counting as they go, compute the specified listing or fail exactly when some node does not decode. |
| TrafficDocument.ConfigDocument.ListenerById | apps/server/internal/gateway/traffic_config.go:425-445 | The nested search computes the specified lookup, errors included. |
| TrafficDocument.ConfigDocument.RouteById | apps/server/internal/gateway/traffic_config.go:447-480 | The same for routes. |
| TrafficDocument.ConfigDocument.ChangeListener | apps/server/internal/gateway/traffic_config.go:505-534 | The listener update in place refines its specification. |
| TrafficDocument.ConfigDocument.ChangeRoute | apps/server/internal/gateway/traffic_config.go:578-594 | The route update in place refines its specification. |
| TrafficDocument.ConfigDocument.ApplyChange | apps/server/internal/gateway/traffic_config.go:339-394 | All nine operations refine their specification. |
| TrafficDocument.Client.ApplyTrafficChange | apps/server/internal/gateway/traffic_config.go:67-104 | The whole write: an accepted and confirmed change always passes the comparison with what is read back. |
| PolicyModel.PlaceIdIsInjective | apps/server/internal/gateway/policy_config.go:283-300 | All policy IDs of all families, models and keys are pairwise distinct. |
| PolicyModel.ListedIsFound | apps/server/internal/gateway/policy_config.go:302-316 | Looking a listed policy up by its ID finds that policy. |
| PolicyLaws.SetThenGet | apps/server/internal/gateway/policy_config.go:339-410 | Writing a policy and reading it gives the value; every other place reads and is listed as before. |
| PolicyLaws.RemoveThenGet | apps/server/internal/gateway/policy_config.go:352-424 | Removing a policy leaves it absent or, for most LLM policies, null; every other place is unchanged. |
| PolicyLaws.UpsertLaw | apps/server/internal/gateway/policy_config.go:302-337 | After an upsert the same ID reads back the value, enabled unless it is an empty list. Every other policy, every other section, every other member of the section and every other model is unchanged, except that the array a section must have is created empty when missing. The configuration stays readable. |
| PolicyLaws.DeleteLaw | apps/server/internal/gateway/policy_config.go:302-380 | After a delete the same ID reads back disabled and cannot be deleted again; every other policy, section, member of the section and model is unchanged. |
| PolicyLaws.SetTwice | apps/server/internal/gateway/policy_config.go:382-469 | The last upsert wins: an earlier one leaves no trace. |
| PolicyLaws.ChangeAddsNoSecondTls | apps/server/internal/gateway/policy_config.go:440-469 | No change gives a model both tls and backendTLS. |
| PolicyLaws.NoRunAddsSecondTls | apps/server/internal/gateway/policy_config.go:440-469 | Nor does any sequence of changes, if the model did not start with both. |
| PolicyLaws.UnknownPoliciesAreReadOnly | apps/server/internal/gateway/policy_config.go:318-322 | A policy outside the catalogues is listed but every change to it is refused. |
| PolicyDocument.ConfigDocument.Places | apps/server/internal/gateway/policy_config.go:197-281 | The listing contains every policy place exactly once in the listed order (LLM gateway, models, MCP gateway; catalogue order, then the others sorted), and fails exactly when the configuration is not readable. |
| PolicyDocument.ConfigDocument.PolicyById | apps/server/internal/gateway/policy_config.go:302-316 | The scan by ID computes the specified lookup. |
| PolicyDocument.ConfigDocument.SetGlobalPolicy | apps/server/internal/gateway/policy_config.go:382-410 | Writing a gateway policy in place refines its specification, creating the required array. |
| PolicyDocument.ConfigDocument.ChangeModelPolicy | apps/server/internal/gateway/policy_config.go:440-490 | Writing or deleting a model policy in place refines its specification. |
| PolicyDocument.ConfigDocument.ApplyChange | apps/server/internal/gateway/policy_config.go:302-363 | Lookup and change in place refine the specification, errors included. |
| Percentile.RankIsLeastCovering | apps/server/internal/audit/service.go:877-886 | The element at the nearest rank is the least value that at least 95 percent of the samples do not exceed. |
| Percentile.NearestRankP95 | apps/server/internal/audit/service.go:877-886 | Nothing for no samples, otherwise an element of the input with that property. |
| Percentile.P95IgnoresOrder | apps/server/internal/audit/service.go:877-886 | The percentile does not depend on the order of the samples. |
| TrendBuckets.BucketIndex | apps/server/internal/audit/service.go:888-895 | The scan returns the last bucket that contains the time, or -1. |
| TrendBuckets.ScanAndDivisionAgree | apps/server/internal/audit/service.go:702-713 | In a window its buckets fill, the scan and the division choose the same bucket for every timestamp, and none exactly outside the window. |
| TrendBuckets.BucketTotalsAreWindowTotal | apps/server/internal/audit/service.go:867-875 | The bucket totals add up to the number of records in the window. |
| TrendBuckets.TrendCountsEachRecordOnce | apps/server/internal/audit/service.go:808-865 | The latency samples of the trend are the gateway records of its window, each counted once. |
| TrendBuckets.CurrentWindowIsFilled | apps/server/internal/model/model.go:121-133 | The current window is exactly its twelve buckets. |
| TrendBuckets.RecordsInWindow | apps/server/internal/audit/service.go:867-875 | The filter keeps exactly the records of the window, in order. |
| TrendBuckets.BuildTrend | apps/server/internal/audit/service.go:808-865 | Each point of the trend holds the requests, percentile, samples, errors and denials of exactly its bucket. |
| TrendBuckets.ApplyResolutions | apps/server/internal/audit/service.go:690-713 | Denied approvals are added by division to the very buckets the scan would have chosen. |
| DenyRate.RateIsBounded | apps/server/internal/audit/service.go:632-688 | The deny rate lies between 0 and 100. |
| DenyRate.RateIgnoresOrder | apps/server/internal/audit/service.go:632-688 | It does not depend on the order or repetition of resolutions. |
| DenyRate.Outcomes | apps/server/internal/audit/service.go:652-666 | The map built from the resolutions records exactly the events resolved and those denied. |
| DenyRate.ResolvedRate | apps/server/internal/audit/service.go:632-688 | The loops compute the specified rate. |
| TraceSpans.PreparedIsPrepared | apps/server/internal/telemetry/model.go:179-253 | A prepared span is identified, in whole microseconds, ends no earlier than it starts, has the duration its times give, and has no nil member. |
| TraceSpans.PreparingKeepsWhatIsGiven | apps/server/internal/telemetry/model.go:179-253 | Every member given is kept; times move back less than a microsecond; events keep their number, order, names and times. |
| TraceSpans.PrepareTwice | apps/server/internal/telemetry/model.go:179-253 | Preparing a prepared span again is accepted if and only if its start did not round down to the zero time, and then changes only the update time (and a received time that rounded to zero). |
| TraceSpans.PrepareSpan | apps/server/internal/telemetry/model.go:179-253 | The field-by-field correction computes the specified preparation, rejections included. |
| TraceSpans.StoredIs | apps/server/internal/telemetry/model.go:333-342 | After any deliveries the record is the last one with the latest end, received when the first was, and expired exactly when some accepted delivery was. |
| TraceSpans.StoredEndIsLatest | apps/server/internal/telemetry/model.go:333-342 | The stored end is the maximum delivered end. |
| TraceSpans.EndIgnoresOrder | apps/server/internal/telemetry/model.go:333-342 | It does not depend on the order of deliveries. |
| TraceSpans.ExpiryNeverReverts | apps/server/internal/telemetry/model.go:333-342 | Once expired, a record stays expired under any further deliveries. |
| TraceSpans.RepeatingTheLastChangesNothing | apps/server/internal/telemetry/model.go:333-342 | Delivering the last span again changes nothing. |
| TraceSpans.StoredIsPrepared | apps/server/internal/telemetry/model.go:333-342 | Merging prepared spans stores a prepared span. |
| JobStore.PruneIsGentle | apps/server/internal/trust/service.go:282-296 | A prune keeps order and validity, drops at most the oldest finished job and only from a full store, and leaves no room exactly when all hundred jobs are unfinished. |
| JobStore.CreateIs | apps/server/internal/trust/service.go:217-233 | Creating a job fails if and only if a hundred unfinished ones exist; otherwise it is added last and no unfinished job is lost. |
| JobStore.StepKeeps | apps/server/internal/trust/service.go:217-296 | Submissions, starts and completions keep the unfinished jobs exactly those a worker is on. |
| JobStore.EveryRunKeeps | apps/server/internal/trust/service.go:217-296 | In every run the order lists each job once, there are at most a hundred, and a worker update always finds its job. |
| JobStore.RefusedOnlyWhenAllBusy | apps/server/internal/trust/service.go:217-233 | A submission is refused if and only if a hundred workers are busy. |
| JobStore.Service.Prune | apps/server/internal/trust/service.go:282-296 | The filter in place over the order refines the specification of a prune. |
| JobStore.Service.NewJob | apps/server/internal/trust/service.go:217-233 | newJob refines the specification of a creation. |
| JobStore.Service.UpdateJob | apps/server/internal/trust/service.go:271-280 | An update changes that job alone and is ignored for an unknown one. |
| HealthLog.NewState | apps/server/cmd/agentshark/main.go:267-276 | The initial state holds the last report of each source. |
| HealthLog.ReportKeeps | apps/server/cmd/agentshark/main.go:278-307 | Processing one report, whatever the recorder refuses, repeats no state in the log and leaves every pending report different from the persisted one. |
| HealthLog.NoChangeIsDropped | apps/server/cmd/agentshark/main.go:278-307 | The first unrecorded change stays pending until recorded; a report without failure leaves its source persisted in that state. |
| HealthLog.Monitor.PersistOne | apps/server/cmd/agentshark/main.go:278-307 | The loop body refines the specification of one report. |
| HealthLog.Monitor.PersistChanges | apps/server/cmd/agentshark/main.go:278-307 | A poll keeps all of that, and without failures leaves every reported source persisted in its last reported state. |
| HealthLog.MonitorHealth | apps/server/cmd/agentshark/main.go:313-330 | Over any polls and any refusals, the entries after the initial ones never repeat a source state twice in a row. |

## Left out

- LostUpdate.NoUpdateIsLost: covers writers inside one process only, because an external editor of the gateway configuration between the read and the POST is not excluded by the code.
- DenyRate.ResolvedRate: is over real numbers; the rounding of the final division is not modelled.
- EventStream.NoLostWakeup: does not cover a run stream opened with a cursor, where it is false; EventStream.StrandedExactlyFromBacklog and EventStream.RunStreamStallsExactlyPastOneBatch say exactly when.
- ApplyPolicyChange: the write around the policy document, which is the traffic write with another document.
- Display names, descriptions, timestamps of resources, modelCount and the change target texts of the configuration editors.
- HTTP routing, authentication, error mapping, SSE formatting and heartbeats around the stream loops.
- The SQL and memory stores themselves; their contracts are assumed as stated above.
- MCP settings, whose change function shares the token and mutation flag modelled in Revisions.
- Real JSON bytes, case-insensitive field matching, regular expressions beyond the environment-name pattern, CEL text.
- Rounding of floating-point latencies and rates, NaN included: they are real numbers here.
- Liveness of Runner work when Cancel lands before Start, which the code does not promise.
- Gateway log enrichment, metrics expectations, offset pagination, upstream adapters and the React UI.
