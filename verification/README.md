# Clawster: a verified model of its core

Clawster is a control plane for bot instances. Most of it moves data between a database,
gateways and browsers; this project models the parts that compute or keep state, and proves
what they are for. `dafny verify dfyconfig.toml` checks everything.

Each group below has a specification in pure functions, the code in the source's own form
(methods with loops, classes whose methods change fields) proved against that specification,
and lemmas about the specification over all inputs or all runs.

* **Layered configuration** (`ConfigLayers`, `ConfigLayerLaws`, `ConfigLayerOrder`,
  `ConfigAnyPath`, `ConfigPlainMerge`, `ConfigStrategies`): deep merge with array strategies per
  path, and resolution of layers by priority.
* **Merge patches** (`MergePatch`, `PatchPaths`): the JSON merge patch of the security audit,
  compared with RFC 7396, and the patch built for a dotted field by walking a pointer through
  fresh heap objects.
* **Config generator** (`ConfigGenerator`, `ConfigGuarantees`, `ConfigValues`, `SortedDocs`,
  `JsonText`, `JsonReader`, `ConfigHash`): ten passes over a manifest's config, one of them in place
  on the manifest itself; the key-sorted document, its JSON text with a reader that gives it back,
  and its hash.
* **Reconcile loop** (`ReconcilePlans`, `ReconcileSteps`, `ReconcileAnswers`, `ReconcileOutcomes`,
  `ReconcileRows`, `ReconcileSafety`, `Reconciler`, `ReconcileWithoutToken`): what the loop may count
  on from the generator, and `reconcile` with `update` and `provision` as a machine that takes one
  step per await, each of which may throw; which runs succeed and what row each leaves; all
  interleavings of runs, stops and restarts; and the sequential code with
  its try, catch and finally, proved to take exactly those steps.
* **Gateway client** (`GatewayClient`, `GatewayClientLaws`, `GatewayClientRuns`,
  `GatewayClientCode`): the table of pending calls with timers, interceptors and the two-phase
  agent call, shown to simulate one small automaton per call; its methods move from one
  reachable state to the next.
* **Device pairing** (`Pairing`, `PairingLaws`): database rows against the `allowFrom` lists of
  the gateway.
* **Cost sync** (`CostSync`, `CostSyncLaws`, `CostAmounts`): watermark, ledger and budgets over many
  days with crashes.
* **Log streaming** (`LogStreaming`, `LogStreamingLaws`, `LogGateway`): stream table, reverse index
  and gateway connections.
* **Provisioning** (`Provisioning`, `ProvisioningRuns`, `Provisioner`): the step tracker with its
  log buffer, and the code that drives it, which follows a script from step to step.
* **A2A streams** (`A2aStream`, `A2aScript`, `A2aStreaming`): status and artifact events with
  cancellation.
* **Escaper, ports, budgets** (`JsEscape`, `GatewayPorts`, `BudgetAlerts`).

`Basics`, `Options` and `JsonValues` hold what modules share: facts about sets and sequences,
optional values and JSON values. Objects are maps from keys to values; only `SortedDocs` keeps
the order of keys.

Where something is promised that the code does not keep, the code is modelled as it is, and the
exact condition under which the promise holds is proved: the special merge branch
(`PlainExactly`, `ResolvePlainlyExactly`), RFC 7396 (`RfcExact`), random tokens
(`TokenMatters`, `AppliesExactly`, `NextRunApplies`), promises whose send threw (`SettlesOnce`,
`OrphansExactly`), completions that come before their call has resumed (`CompletionTaken`,
`CompletionLost`), rejections and syncs that only ever approve (`RejectedComesBack`,
`RevokedComesBack`, `SyncAgrees`), more than thirty days to catch up on (`WindowSettles`,
`OldestSettled`, `FirstCatchUp`), more than twenty running instances to collect from
(`AllReached`, `NewestReached`), upserts cut off half-way (`BudgetsAfterCutOff`), trace writes
that throw after a final event (`OneFinalEvent`), subscribes that cannot connect
(`IndexStaysExact`), and budgets with thresholds of their own (`WorstBudget`,
`CriticalUnreported`).

Two channel types under one config key would entangle their approvals (`RevokeInStep`,
`BatchExact`). The pairing service itself would take such a type, but the request types of
apps/api/src/pairing/pairing.dto.ts name the eleven known ones only and nothing else in the
application creates rows, so `KnownRevokeInStep` and `KnownBatchIsEach` say what holds of the
rows there can be.

## Model

| member | source | states |
|---|---|---|
| ConfigLayers.DeepMerge | packages/core/src/template.ts:201-257 | The recursive key loop, whatever order it takes the keys in, returns the merge of the specification `Merge` |
| ConfigLayers.ResolveConfig | packages/core/src/template.ts:184-199 | Folding the layers in stable priority order |
| ConfigLayerLaws.ResolvedPath | packages/core/src/template.ts:184-257 | The value at any path of a resolved config is the simple per-path spec: the last value no later layer wipes out, or for append, merge and prepend the arrays of the run it ends, forwards or backwards. Layers may mix nulls, kinds and strategies, and the path itself may turn from array to object; only a path that runs through an array that stands where a later layer has an object is excluded |
| ConfigAnyPath.ResolvedAnyPath | packages/core/src/template.ts:184-257 | For any layers and any path, arrays under later objects and nulls in them included: the value is, layer by layer, what the layers below come to there, opened where the next layer has an object over an array, and what that layer contributes |
| ConfigAnyPath.MergeAtAny | packages/core/src/template.ts:201-257 | The same for one merge of any two documents |
| ConfigAnyPath.ClosedForm | packages/core/src/template.ts:184-257 | Where no array is opened on the way, it is the closed form above |
| ConfigStrategies.AgreeingValues | packages/core/src/template.ts:184-257 | With every strategy written out, for layers that agree in shape, in whatever order they are listed: an array is the last layer's, by priority, unless the table has an entry for the keys joined by dots; then it is all layers' arrays, forwards or backwards, as the entry says |
| ConfigStrategies.NoTable | packages/core/src/template.ts:213-234 | For such layers and an empty table every value, arrays included, is that of the last layer that gives one |
| ConfigStrategies.AnyValues | packages/core/src/template.ts:184-257 | For any layers and any path the value under the strategy that the table has for the joined keys, and override where it has none |
| ConfigStrategies.PathIsJoin | packages/core/src/template.ts:212-235 | The path that strategies are looked up under is the keys joined by dots, without the empty keys it begins with |
| ConfigStrategies.ObjectOver | packages/core/src/template.ts:228-256 | What an object leaves at a key it does not have: of an array its element of that number, of an object its member, of a scalar nothing |
| ConfigLayerLaws.AgreeingLayers | packages/core/src/template.ts:184-257 | For layers that agree in shape: the paths are the union, scalars and overriding arrays come from the last layer, appended arrays are the concatenation in order, prepended ones in reverse |
| ConfigLayerOrder.AgreeingConfig | packages/core/src/template.ts:184-199 | The same for `resolveConfig` itself, in whatever order layers that agree in shape are listed: the order that counts is that of their priorities |
| ConfigLayerLaws.MergeAt | packages/core/src/template.ts:201-257 | One merge, seen at one path |
| ConfigLayerLaws.ResolvedSmooth | packages/core/src/template.ts:191-196 | Along such a path a resolved config holds no null, and no array where the next layer has an object, so every further merge is regular there |
| ConfigLayerLaws.SpecialBranch | packages/core/src/template.ts:246-253 | The special "merge" branch and the plain branch give different results if and only if null is merged over null |
| ConfigLayerLaws.MergeAssociative | packages/core/src/template.ts:201-257 | `deepMerge` is associative on null-free configs that agree in shape, append and prepend arrays included |
| ConfigLayerLaws.ShapesMatter | packages/core/src/template.ts:201-257 | Without agreement in shape it is not: object, number, object at one key |
| ConfigLayerLaws.MergeIntoNothing | packages/core/src/template.ts:228-256 | Merging a null-free document into nothing copies it |
| ConfigLayerOrder.PriorityOrder | packages/core/src/template.ts:188-189 | Sorting keeps every layer, orders by priority, and keeps the order of layers with equal priority |
| ConfigLayerOrder.OrderDetermined | packages/core/src/template.ts:188-189 | An ordered list of layers is determined by its layers of each priority |
| ConfigLayerOrder.SortedAlike | packages/core/src/template.ts:188-189 | Two lists sort alike if and only if they have the same layers of each priority in the same order |
| ConfigLayerOrder.PermutedLayers | packages/core/src/template.ts:184-199 | With distinct priorities, permuting the layers does not change the resolved config |
| ConfigLayerOrder.ResolveInGroups | packages/core/src/template.ts:191-198 | Lower and upper layers may be resolved separately and merged |
| ConfigPlainMerge.PlainExactly | packages/core/src/template.ts:232-254 | For any two documents: the special "merge" branch changes the merged document if and only if somewhere in them, at a path with strategy "merge", a null of the source comes over a null of the target |
| ConfigPlainMerge.ResolvePlainlyExactly | packages/core/src/template.ts:191-198 | For any layers: the branch changes nothing up to any of them if and only if no layer has such a null where the layers below it resolve to null |
| ConfigPlainMerge.ResolvePlainly | packages/core/src/template.ts:191-198 | In particular it does not change the resolved config of layers of which none puts an object over an array that stands |
| ConfigPlainMerge.PlainNeedsNoArray | packages/core/src/template.ts:228-253 | An input on which it does: over `[null]`, an object with a null under "0" and strategy "merge" there |
| ConfigPlainMerge.PlainBranch | packages/core/src/template.ts:232-254 | A merge into a document such as a resolved one never puts null over null |
| MergePatch.ApplyMergePatch | apps/api/src/security/security-audit.service.ts:378-398 | The loop over the entries, deleting, recursing and setting, computes the specification `Apply` |
| MergePatch.ApplyIdempotent | apps/api/src/security/security-audit.service.ts:378-398 | Applying a patch twice is applying it once |
| MergePatch.RfcExact | apps/api/src/security/security-audit.service.ts:378-398 | The result is that of MergePatch, section 2 of RFC 7396, if and only if wherever an object patches a non-object it covers the characters or elements that value spreads into |
| MergePatch.RfcOnObjects | apps/api/src/security/security-audit.service.ts:378-398 | In particular whenever no object of the patch meets a non-empty string or array |
| MergePatch.CoverExact | apps/api/src/security/security-audit.service.ts:387-391 | The same exactness for a patch applied to what spreading left behind |
| MergePatch.PartsKept | apps/api/src/security/security-audit.service.ts:387-391 | Under a numeral that an object patch does not name, a list has kept its element, a string its character, and any other scalar nothing |
| MergePatch.TextSurvives | apps/api/src/security/security-audit.service.ts:387-391 | A string under an object patch keeps its characters: an input on which RFC 7396 is not met |
| PatchPaths.BuildMergePatch | apps/api/src/security/security-audit.service.ts:363-376 | The walk of `current` through freshly linked objects builds the nested patch of the dotted path, and nothing else is touched |
| PatchPaths.SplitJoin | apps/api/src/security/security-audit.service.ts:365 | Joining what `split` gives back yields the field, and no part has a dot |
| PatchPaths.JoinSplit | apps/api/src/security/security-audit.service.ts:365 | Splitting the joined parts of a path gives the parts back, if none of them has a dot |
| PatchPaths.PathSet | apps/api/src/security/security-audit.service.ts:363-398 | Applying a path's patch delivers the value at exactly that path and makes objects of all above it |
| PatchPaths.OffPathUnchanged | apps/api/src/security/security-audit.service.ts:363-398 | Every path that parts from it keeps what it had |
| PatchPaths.ScalarFix | apps/api/src/security/security-audit.service.ts:363-398 | For a scalar non-null value both: the field is set, every other path unchanged |
| SortedDocs.Sort | apps/api/src/reconciler/config-generator.service.ts:261-273 | `sortKeys`, filling `sorted` key by key with JavaScript's own placing of integer keys |
| SortedDocs.SortKeepsMeaning | apps/api/src/reconciler/config-generator.service.ts:261-273 | The result is sorted at every depth and says what the document says |
| SortedDocs.SortedFormUnique | apps/api/src/reconciler/config-generator.service.ts:261-273 | Two deep-sorted documents that say the same are the same |
| SortedDocs.SortCanonical | apps/api/src/reconciler/config-generator.service.ts:261-273 | Two documents sort to the same form if and only if they are equal up to key order at every depth |
| SortedDocs.SortFixpoint | apps/api/src/reconciler/config-generator.service.ts:261-273 | Sorting leaves exactly the sorted documents alone, so sorting twice is sorting once |
| SortedDocs.SortedOrder | apps/api/src/reconciler/config-generator.service.ts:261-273 | The order of the keys that comes out: numerals of numbers up to 2^32 - 2 first, by value, then all other keys by their first differing UTF-16 code unit |
| SortedDocs.IndexKeys | apps/api/src/reconciler/config-generator.service.ts:266-270 | The keys that come first are exactly those numerals, without a zero in front |
| SortedDocs.LexIsUnitOrder | apps/api/src/reconciler/config-generator.service.ts:261-273 | Keys are compared as JavaScript compares strings, by their UTF-16 code units: outside the basic plane this is not the order of characters |
| JsonText.CleanMeaning | apps/api/src/reconciler/config-generator.service.ts:160-163 | What `JSON.stringify` leaves out of a document is what it leaves out of its meaning: members that hold undefined, while elements become null; sorted documents stay sorted |
| JsonText.LeftOut | apps/api/src/reconciler/config-generator.service.ts:160-163 | What is left out are the members that hold undefined and nothing else; an undefined element counts as null |
| JsonReader.ReadsBack | apps/api/src/reconciler/config-generator.service.ts:160-163 | Reading the printed text by the grammar of RFC 8259 gives the document back and leaves what follows it, if the numbers in it read back |
| JsonReader.StringReads | apps/api/src/reconciler/config-generator.service.ts:160-163 | Every quoted string reads back, escapes and control characters included |
| JsonReader.ShortestQuote | apps/api/src/reconciler/config-generator.service.ts:160-163 | Of all ways to write a character in a JSON string the printer takes the shortest, with lower-case hexadecimal digits |
| JsonReader.TextsApart | apps/api/src/reconciler/config-generator.service.ts:160-163 | The printed text determines the document, whatever follows it, if the texts of numbers tell the numbers in it apart |
| ConfigHash.PrintedReadsBack | apps/api/src/reconciler/config-generator.service.ts:156-163 | What is hashed of a config reads back as that config, sorted, up to what stringify leaves out |
| ConfigHash.HashAgrees | apps/api/src/reconciler/config-generator.service.ts:156-163 | The hashes of two configs are equal if and only if the configs are equal up to key order and what stringify leaves out; the digest need only tell their two texts apart, and the number printer the numbers that occur in them |
| ConfigGenerator.GenerateOpenClawConfig | apps/api/src/reconciler/config-generator.service.ts:24-153 | Pass by pass over the config, with the channel table stripped in place: the result is the specification `Configured`, the caller's manifest loses `enabled` in its channels and nothing else, and shares its channel table with the result |
| ConfigGenerator.StripEnabled | apps/api/src/reconciler/config-generator.service.ts:135-142 | The in-place loop over the channels |
| ConfigGenerator.PrepareGateway | apps/api/src/reconciler/config-generator.service.ts:41-45 | The gateway section up to `host` and `bind` |
| ConfigGenerator.PrepareAgents | apps/api/src/reconciler/config-generator.service.ts:53-131 | Sandbox relocation, default workspace and `unavailableReason` |
| ConfigGenerator.EnforceSecureDefaults | apps/api/src/reconciler/config-generator.service.ts:169-245 | Token, forced sandbox, elevated tools and redaction on a copy |
| ConfigGuarantees.TypedResult | apps/api/src/reconciler/config-generator.service.ts:24-245 | A generated config is again one the manifest schema accepts |
| ConfigGuarantees.Idempotent | apps/api/src/reconciler/config-generator.service.ts:24-245 | Feeding the output back as the spec gives the same config, whatever token is drawn |
| ConfigGuarantees.SecondRunAgrees | apps/api/src/reconciler/config-generator.service.ts:133-142 | After the manifest's channels were stripped, a second call gives the same config |
| ConfigGuarantees.TokenMatters | apps/api/src/reconciler/config-generator.service.ts:176-191 | The config is deterministic if and only if a gateway credential is set or `allowOpenGateway` holds |
| ConfigGuarantees.SecureResult | apps/api/src/reconciler/config-generator.service.ts:169-245 | Credential or override; sandbox on in prod and staging or override; no elevated tools without an allow list; redaction on |
| ConfigGuarantees.StrictResult | apps/api/src/reconciler/config-generator.service.ts:93-142 | No key is left that the gateway's strict schema refuses, and those it needs are there |
| ConfigGuarantees.SettingsSurvive | apps/api/src/reconciler/config-generator.service.ts:41-245 | No setting of the manifest is lost or changed, whatever its section and value, falsy ones included, and those of every channel: only the keys the strict schema refuses go, only `mode`, `port`, `bind`, `token`, `workspace`, `level` and `redactSensitive` get a default where none was given, and the sandbox and open elevated tools have rules of their own |
| ConfigGuarantees.SandboxMerged | apps/api/src/reconciler/config-generator.service.ts:53-65 | A top-level sandbox ends up under the agent defaults, behind settings made there |
| ConfigValues.SandboxMode | apps/api/src/reconciler/config-generator.service.ts:193-216 | The sandbox mode that comes out is `all` if the environment is prod or staging, there is no override and no mode or `off` was given; in every other case it is the one under the agent defaults, else the one of a sandbox at the top level |
| ConfigValues.GatewayValues | apps/api/src/reconciler/config-generator.service.ts:41-191 | The gateway that comes out: no host; mode, bind and port as given, else local, lan and 18789; the given credential untouched, or the drawn token where there is none and no override |
| ConfigValues.LoggingValues | apps/api/src/reconciler/config-generator.service.ts:46-242 | The log level is the one given, else warn in prod, info in staging and debug elsewhere; what is redacted is what was given, else tools |
| ConfigValues.OtherValues | apps/api/src/reconciler/config-generator.service.ts:81-233 | The workspace is the one given, else the default directory of the name; elevated tools are off exactly if they were on with nobody allowed, else as given |
| ReconcilePlans.SectionsHeld | apps/api/src/reconciler/config-generator.service.ts:24-153 | The config that is hashed is one object with every section under its name and nothing but the manifest's other members beside them |
| ReconcilePlans.PlanGenerates | apps/api/src/reconciler/config-generator.service.ts:156-191 | Whatever token is drawn and in whatever order keys come, the hash of the config generated from a manifest is the one the reconcile loop's plan for that manifest gives |
| ReconcilePlans.DrawnHashesDiffer | apps/api/src/reconciler/config-generator.service.ts:156-191 | Two tokens give configs of one hash if and only if the manifest has a gateway credential or allows an open gateway |
| Reconciler.ReconcilerService.Reconcile | apps/api/src/reconciler/reconciler.service.ts:96-312 | The guard, the body with its catch and finally: a skipped call changes nothing, any other is one run of the step machine from load to end that reports success exactly under the answers of `SucceedsExactly`, and the guard set is then as it was |
| ReconcileAnswers.SuccessMeansYes | apps/api/src/reconciler/reconciler.service.ts:96-312 | A run that reports success was answered yes by every audit, install and configuration it waited for, and by every config.apply unless a later provision went through |
| ReconcileOutcomes.SucceedsExactly | apps/api/src/reconciler/reconciler.service.ts:96-312 | For any instance and any answers: exactly which calls a run makes, by name and in order, and which of them must be answered yes, for it to report success: every audit, config.apply, install and configure, but for a failed config.apply before a provision that succeeds |
| ReconcileOutcomes.NewSucceedsExactly | apps/api/src/reconciler/reconciler.service.ts:96-312 | A new instance's run succeeds if and only if its nineteen calls answer, all but that of the skills, and the audit, install and configure say yes |
| ReconcileRows.SuccessLeaves | apps/api/src/reconciler/reconciler.service.ts:257-286 | The row and counters after a success, for each way to it: running, no errors, the wanted hash, one config.apply or install where the way has one |
| ReconcileRows.FailureLeaves | apps/api/src/reconciler/reconciler.service.ts:287-312 | The row after a run that fails at whichever later call, once the failure is written down: in error, with one error more, or two inside provision, on the row as it stood by then |
| ReconcileRows.OpeningFails | apps/api/src/reconciler/reconciler.service.ts:287-312 | The same for a run that fails in its opening calls: in error with one error more, nothing else changed |
| Reconciler.ReconcilerService.Prepare | apps/api/src/reconciler/reconciler.service.ts:113-164 | Load, mark, preprocess and audit, in the machine's steps |
| Reconciler.ReconcilerService.Deploy | apps/api/src/reconciler/reconciler.service.ts:167-204 | New instances are provisioned, others updated, and provisioned if the update fails |
| Reconciler.ReconcilerService.Conclude | apps/api/src/reconciler/reconciler.service.ts:206-285 | Skills, refetch, status and the final row |
| Reconciler.LifecycleManagerService.Update | apps/api/src/reconciler/lifecycle-manager.service.ts:251-347 | The hash fast path with its probe, else config.get and config.apply |
| Reconciler.LifecycleManagerService.ApplyIfStale | apps/api/src/reconciler/lifecycle-manager.service.ts:275-336 | Record only if the gateway has the config already, else apply, store and record |
| Reconciler.LifecycleManagerService.Provision | apps/api/src/reconciler/lifecycle-manager.service.ts:82-241 | Install to upsert, and the catch block |
| ReconcileSteps.StepsRunOut | apps/api/src/reconciler/reconciler.service.ts:96-312 | Every answer brings a run closer to its end |
| ReconcileSteps.RunsEnd | apps/api/src/reconciler/reconciler.service.ts:96-312 | Whichever awaits throw, a run is over after at most 31 answers |
| ReconcileSafety.GuardAlways | apps/api/src/reconciler/reconciler.service.ts:96-109 | Under every interleaving `reconcileInProgress` is exactly the set of instances with a live run, one run each |
| ReconcileSafety.SteadyAlways | apps/api/src/reconciler/reconciler.service.ts:96-312 | In every reachable state an instance that some reconcile succeeded for has the desired hash on record, if its config is deterministic |
| ReconcileSafety.SettledEvent | apps/api/src/reconciler/lifecycle-manager.service.ts:261-273 | On a settled instance no single event applies a config, or installs unless a probe went unanswered |
| ReconcileSafety.Converged | apps/api/src/reconciler/reconciler.service.ts:96-312 | Over any events after a success, as long as the gateway answers probes: no config.apply, no install, the same `configHash` |
| ReconcileSafety.ConvergesFromStart | apps/api/src/reconciler/reconciler.service.ts:96-312 | The same in every state reachable from a fresh start |
| ReconcileWithoutToken.AppliesExactly | apps/api/src/reconciler/lifecycle-manager.service.ts:251-347 | Whatever its calls answer and whichever throw, a reconcile calls config.apply once or not at all, and once if and only if the instance exists, the opening calls go well, the hash generated for the update is not on record, and the gateway reports another one |
| ReconcileWithoutToken.NextRunApplies | apps/api/src/reconciler/reconciler.service.ts:96-312 | A successful run leaves the hash it generated first on record, not that of the config it applied, so the next one applies again exactly if its opening calls go well, the two generated hashes differ, and the gateway reports another one: with a random token every time, with a deterministic config never |
| GatewayClientCode.Client.OnRequest | packages/gateway-client/src/client.ts:321-329 | A request is refused when not connected, else it enters the outbound interceptors |
| GatewayClientCode.Client.OnSent | packages/gateway-client/src/client.ts:327-352 | Short-circuit, or arm, add and send; a send that throws leaves the entry |
| GatewayClientCode.Client.OnAgent | packages/gateway-client/src/client.ts:234-258 | First phase of an agent call |
| GatewayClientCode.Client.OnResume | packages/gateway-client/src/client.ts:260-301 | Second phase, under the same id |
| GatewayClientCode.Client.OnTimeout | packages/gateway-client/src/client.ts:340-343 | A timer removes its entry and rejects |
| GatewayClientCode.Client.OnFrame | packages/gateway-client/src/routing/message-router.ts:33-62 | Frames without a pending id are dropped, others lose their entry and enter the inbound interceptors |
| GatewayClientCode.Client.OnProcessed | packages/gateway-client/src/client.ts:355-385 | Resolve or reject with what the interceptors made of the frame |
| GatewayClientCode.Client.RejectAllEntries | packages/gateway-client/src/connection/pending-request-tracker.ts:88-94 | `rejectAll`, entry by entry in any order |
| GatewayClientCode.Client.OnClose | packages/gateway-client/src/client.ts:86-94 | `onDisconnected` and `disconnect`: reject all, then not connected |
| GatewayClientLaws.Simulates | packages/gateway-client/src/client.ts:86-385 | Over every order of events, table, timers and interceptor queues show for each id exactly the state of one small per-call automaton |
| GatewayClientRuns.TimersMatchTable | packages/gateway-client/src/connection/pending-request-tracker.ts:26-56 | A promise has an armed timer exactly while it is in the table |
| GatewayClientRuns.EntriesHome | packages/gateway-client/src/connection/pending-request-tracker.ts:26-56 | Every entry of the table stands under its own id |
| GatewayClientRuns.SettlesOnce | packages/gateway-client/src/client.ts:234-385 | No promise is resolved or rejected three times, and one is a second time if and only if its send threw and its call is over; it keeps the send's error |
| GatewayClientRuns.OrphansExactly | packages/gateway-client/src/client.ts:238-352 | The promises whose send threw, told from the events: a send that is made to throw, or a request whose connection is gone when it comes out of its interceptors |
| GatewayClientRuns.RejectedTwice | packages/gateway-client/src/client.ts:321-352 | An input on which it happens: the connection closes while the request is in the interceptors, and later the timer fires |
| GatewayClientRuns.OwnFrame | packages/gateway-client/src/client.ts:355-385 | A resolved or refused promise has what the interceptors made of a frame with its own id |
| GatewayClientRuns.CompletionAfterAck | packages/gateway-client/src/client.ts:243-301 | An agent completion comes from a strictly later frame than the ack |
| GatewayClientRuns.NoCallLost | packages/gateway-client/src/client.ts:234-385 | Every call is underway or answered, and one that is underway is answered if and only if its send threw |
| GatewayClientRuns.CompletionTaken | packages/gateway-client/src/client.ts:260-301 | A frame is taken for the completion of an agent call if and only if the call has resumed after its ack and still waits |
| GatewayClientRuns.CompletionLost | packages/gateway-client/src/client.ts:243-301 | A frame that comes between the ack's frame and that is lost: it leaves no trace, and unless another one comes the completion ends by its timer or a close only |
| GatewayClientRuns.LateFramesChangeNothing | packages/gateway-client/src/client.ts:355-357 | Once a call is answered and over, no later event changes its promises, and frames with its id are dropped |
| GatewayClientRuns.CloseRejectsAll | packages/gateway-client/src/connection/pending-request-tracker.ts:88-94 | A close leaves no entry and no timer, and every promise of the table settled |
| GatewayClientRuns.SettledForGood | packages/gateway-client/src/client.ts:234-385 | What a promise was settled with never changes |
| Pairing.PairingService.ApprovePairing | apps/api/src/pairing/pairing.service.ts:230-264 | Upsert the row, then union the sender into `allowFrom`; a failed patch is only logged |
| Pairing.PairingService.RejectPairing | apps/api/src/pairing/pairing.service.ts:270-301 | Rejects an existing row, else reports that there is none |
| Pairing.PairingService.RevokePairing | apps/api/src/pairing/pairing.service.ts:352-390 | Only an approved row; then the sender leaves `allowFrom` |
| Pairing.PairingService.CreatePendingPairing | apps/api/src/pairing/pairing.service.ts:400-454 | Refused at three pending rows of the channel, else upserted as pending with its code and expiry |
| Pairing.PairingService.FindByCode | apps/api/src/pairing/pairing.service.ts:459-475 | A pending row with the code that has no expiry or one still to come, if and only if there is one |
| Pairing.PairingService.ApproveByCode | apps/api/src/pairing/pairing.service.ts:480-499 | Approves that row, or fails without a change |
| Pairing.PairingService.BatchApproveAll | apps/api/src/pairing/pairing.service.ts:307-346 | One update of all pending rows, the `byChannel` loop, one patch per channel; the patches of some channels may fail, and those are only logged |
| Pairing.PairingService.SyncPairingsFromGateway | apps/api/src/pairing/pairing.service.ts:509-561 | The two loops over config keys and senders approve exactly the listed devices of known channels; a call that throws part-way leaves some of them approved and nothing else changed |
| Pairing.PairingService.ExpireStalePairings | apps/api/src/pairing/pairing.service.ts:592-610 | Expires exactly the pending rows whose date is past, and counts them |
| Pairing.SourceNaming | apps/api/src/pairing/pairing.service.ts:93-108 | The two key tables are inverse to each other exactly on the known channel types |
| Pairing.KeySpelled | apps/api/src/pairing/pairing.service.ts:93-108 | A config key is the channel type in lower case, with dashes for underscores if the type is a known one |
| PairingLaws.PendingLimit | apps/api/src/pairing/pairing.service.ts:400-423 | In every reachable state at most three rows per channel are pending, whether or not patches succeed |
| PairingLaws.CodeWorks | apps/api/src/pairing/pairing.service.ts:400-475 | A request that gets through has a code that works at exactly the times before its expiry, over any operations that do not concern its device, and no other code finds it |
| PairingLaws.ApproveGrants | apps/api/src/pairing/pairing.service.ts:120-153 | Exactly who is on the lists after an approval, each sender once, a new one at the end |
| PairingLaws.ImportApproves | apps/api/src/pairing/pairing.service.ts:525-548 | What a sync does to a row: approved with its code and expiry kept, or made without them |
| PairingLaws.ApprovedStayAllowed | apps/api/src/pairing/pairing.service.ts:230-561 | In every state reachable by operations whose patches succeed, every approved sender is in its channel's `allowFrom` |
| PairingLaws.RevokeShutsOut | apps/api/src/pairing/pairing.service.ts:352-390 | A revoke removes its sender from that list, and nobody else from any list |
| PairingLaws.RevokeInStep | apps/api/src/pairing/pairing.service.ts:159-185 | For any key table: a revoke breaks the agreement if and only if the same sender is approved on another channel type under the same key |
| PairingLaws.KnownRevokeInStep | apps/api/src/pairing/pairing.dto.ts:7-31 | With rows on the channel types that requests may name, that never happens: every revoke that goes through keeps every approved sender allowed |
| PairingLaws.SyncAgrees | apps/api/src/pairing/pairing.service.ts:509-561 | After a sync the approved senders of a known channel are exactly its `allowFrom`, if and only if every approved one was allowed before |
| PairingLaws.RejectedComesBack | apps/api/src/pairing/pairing.service.ts:270-301 | A rejected device is approved again by the next sync if and only if its sender was allowed when it was rejected |
| PairingLaws.RevokedComesBack | apps/api/src/pairing/pairing.service.ts:352-390 | A revoked device is if and only if the patch of its revoke failed and its sender was allowed |
| PairingLaws.SyncedFromEmpty | apps/api/src/pairing/pairing.service.ts:230-561 | From empty stores, after any operations whose patches go through, a complete sync leaves exactly the allowed senders of every known channel approved |
| PairingLaws.BatchIsEach | apps/api/src/pairing/pairing.service.ts:307-346 | Whichever channels' patches go through, the batch ends in the same rows and the same `allowFrom` sequences, order included, as approving each pending row singly in list order with the same patches going through, if those channels have keys of their own |
| PairingLaws.BatchExact | apps/api/src/pairing/pairing.service.ts:307-346 | With the patches of a set of channel types going through, a batch is always its single approvals if and only if no two of them share a config key |
| PairingLaws.BatchReorders | apps/api/src/pairing/pairing.service.ts:332-338 | Two that do: for any two channel types under one key and any three senders the order comes out changed |
| PairingLaws.KnownBatchIsEach | apps/api/src/pairing/pairing.dto.ts:7-31 | Requests name known channel types only; with such rows every batch is its approvals one by one, whichever patches go through |
| PairingLaws.SharedKey | apps/api/src/pairing/pairing.service.ts:93-108 | The fallback of the key table puts an unknown lower-case channel type, which no request may name, under the key of a known one |
| CostSync.CostCollectionService.RecordEvent | packages/database/src/repositories/cost.repository.ts:144-193 | The first write of an upsert: the day's total |
| CostSync.CostCollectionService.UpsertDailyCostEvent | packages/database/src/repositories/cost.repository.ts:114-215 | Both writes: the day's total, and the budgets charged the full amount or a positive delta |
| CostSync.CostCollectionService.SyncEntries | apps/api/src/costs/cost-collection.service.ts:133-166 | The loop over the entries, up to an upsert that throws, before or after its first write, with the latest completed date |
| CostSync.CostCollectionService.SyncInstance | apps/api/src/costs/cost-collection.service.ts:94-179 | Filter, window, loop, and the watermark only after all upserts |
| CostSync.CostCollectionService.CollectCosts | apps/api/src/costs/cost-collection.service.ts:39-92 | Skipped while running; otherwise the instances on the one page that is read, the first twenty as listed, are synced whichever of them fail, and no other account changes |
| CostAmounts.UpsertRecords | packages/database/src/repositories/cost.repository.ts:114-215 | What an upsert puts into the ledger, in the report's own figures: the day's tokens, and its dollars in cents to the nearest, half a cent rounded up; budgets grow by the difference to what was there, but never shrink |
| CostAmounts.RecordsOne | apps/api/src/costs/cost-collection.service.ts:137-147 | These figures leave one ledger entry only |
| CostAmounts.AmountsSettled | apps/api/src/costs/cost-collection.service.ts:94-179 | Over any runs on non-decreasing days every past day up to the watermark with usage has exactly these amounts in the ledger |
| CostAmounts.TodayRecorded | apps/api/src/costs/cost-collection.service.ts:116-166 | A complete run records today's entry in the same way though the watermark does not move to it |
| CostAmounts.ProcessesLatest | apps/api/src/costs/cost-collection.service.ts:112-127 | Which entries of an ascending report a run processes: those with usage that are today's or after the watermark, and have fewer than thirty such days after them |
| CostAmounts.WatermarkMoves | apps/api/src/costs/cost-collection.service.ts:152-172 | Where the watermark ends up: at the latest past day processed by a complete run, else where it was |
| CostSyncLaws.AllReached | apps/api/src/costs/cost-collection.service.ts:53-57 | A collection reaches every running instance if and only if at most twenty run |
| CostSyncLaws.NewestReached | packages/database/src/repositories/bot-instance.repository.ts:134-153 | Otherwise the oldest are missed: an instance is reached if and only if fewer than twenty running ones are newer |
| CostSyncLaws.CollectedByPage | apps/api/src/costs/cost-collection.service.ts:53-85 | Over any collections an instance's account is that of the runs on whose page it was; one that never is stays unsynced |
| CostSyncLaws.OneRun | apps/api/src/costs/cost-collection.service.ts:94-179 | One run, complete or cut off, keeps the watermark sound and does not move it back |
| CostSyncLaws.AlwaysSettled | apps/api/src/costs/cost-collection.service.ts:94-179 | Over any runs on non-decreasing days, some of which throw: the watermark is before today and every non-empty day up to it has its final total |
| CostSyncLaws.WatermarkMonotone | apps/api/src/costs/cost-collection.service.ts:155-172 | The watermark never decreases, whatever the reports say |
| CostSyncLaws.WindowSettles | apps/api/src/costs/cost-collection.service.ts:116-127 | A run settles all days up to the new watermark if and only if it is cut off or each entry it drops from its window of 30 is today's, later than every past day processed, or in the ledger with its total already |
| CostSyncLaws.OldestSettled | apps/api/src/costs/cost-collection.service.ts:116-127 | For a report in the order of its days: a complete run does if and only if every day that falls out of the window is in the ledger with its total already |
| CostSyncLaws.FirstCatchUp | apps/api/src/costs/cost-collection.service.ts:116-127 | After n days with usage and no sync, the first one settles all of them if and only if n is at most 30 |
| CostSyncLaws.BudgetsFollowLedger | packages/database/src/repositories/cost.repository.ts:142-215 | Budgets are charged exactly what the ledger grows by, plus what later reports take back, which is not refunded |
| CostSyncLaws.BudgetsAfterCutOff | packages/database/src/repositories/cost.repository.ts:142-215 | A run cut off between the two writes of an upsert leaves the budgets behind by exactly that day's change |
| CostSyncLaws.BudgetsOverRuns | packages/database/src/repositories/cost.repository.ts:142-215 | Over any runs on any reports, cut off anywhere, the budgets are charged what the ledger grows by, plus every decrease, less what runs that threw left uncharged |
| LogGateway.LogStreamingGateway.HandleSubscribeLogs | apps/api/src/health/log-streaming.gateway.ts:103-143 | Reverse index first, then the stream, made if there is none, with the level asked for or `info`; fails exactly when it cannot be made or no instance is named |
| LogGateway.LogStreamingGateway.HandleUnsubscribeLogs | apps/api/src/health/log-streaming.gateway.ts:146-158 | Leaves stream and reverse index |
| LogGateway.LogStreamingGateway.HandleUpdateLevel | apps/api/src/health/log-streaming.gateway.ts:161-171 | Changes the level of a subscriber only, to the one asked for or `info` |
| LogGateway.LogStreamingGateway.Remove | apps/api/src/health/log-streaming.gateway.ts:299-312 | The last subscriber closes the gateway client and removes the stream |
| LogGateway.LogStreamingGateway.HandleDisconnectOf | apps/api/src/health/log-streaming.gateway.ts:89-98 | The loop over the socket's subscriptions, in any order |
| LogGateway.LogStreamingGateway.BroadcastLog | apps/api/src/health/log-streaming.gateway.ts:274-294 | Reaches exactly the subscribers whose level admits the entry, level by level, each once |
| LogStreamingLaws.TablesHoldRelation | apps/api/src/health/log-streaming.gateway.ts:89-171 | In every reachable state the two tables hold one simple relation of sockets and instances; no stream is without subscribers, every subscriber is online and has the stream in its reverse index, and a gateway client is open exactly while its stream is in the table |
| LogStreamingLaws.GoneFromStreams | apps/api/src/health/log-streaming.gateway.ts:89-98 | A disconnected socket is in no stream |
| LogStreamingLaws.ClientsApart | apps/api/src/health/log-streaming.gateway.ts:173-272 | No two streams share a gateway client |
| LogStreamingLaws.IndexStaysExact | apps/api/src/health/log-streaming.gateway.ts:118-135 | The reverse index stays exact if and only if the event is not a subscribe that finds no stream and cannot make one |
| Provisioning.ProvisioningEventsService.StartProvisioning | apps/api/src/provisioning/provisioning-events.service.ts:56-92 | Underway at the first step, all steps pending |
| Provisioning.ProvisioningEventsService.Update | apps/api/src/provisioning/provisioning-events.service.ts:137-173 | Find, mark, and move the current step; an unknown step is ignored |
| Provisioning.UpdateIs | apps/api/src/provisioning/provisioning-events.service.ts:137-173 | The first step with the id gets the status and no other step changes; the current step becomes that one when it starts, and the first pending one when it completes |
| Provisioning.ProvisioningEventsService.CompleteProvisioning | apps/api/src/provisioning/provisioning-events.service.ts:175-196 | Finished; pending steps become skipped, no other changes |
| Provisioning.ProvisioningEventsService.FailProvisioning | apps/api/src/provisioning/provisioning-events.service.ts:198-222 | Broken; steps in progress become errors, no other changes |
| Provisioning.ProvisioningEventsService.EmitLog | apps/api/src/provisioning/provisioning-events.service.ts:224-249 | The buffer is always the last 500 lines emitted since it was created |
| Provisioning.ProvisioningEventsService.TimeoutProvisioning | apps/api/src/provisioning/provisioning-events.service.ts:261-276 | The timer marks a run as timed out only while it is underway |
| Provisioner.LifecycleManagerService.Provision | apps/api/src/reconciler/lifecycle-manager.service.ts:82-241 | A success completes exactly the listed steps on the path of the deployment type and skips the rest; a failure leaves the step it came at as failed, those before as completed and the others pending, whatever the timers do meanwhile |
| Provisioner.LifecycleManagerService.Await | apps/api/src/reconciler/lifecycle-manager.service.ts:94-216 | At every await, before and after, at most one step is in progress and the current step is one of the list |
| Provisioner.LifecycleManagerService.During | apps/api/src/reconciler/lifecycle-manager.service.ts:95-195 | One step around its call: it follows the script by one step, or is cut off in it, marked as failed if the call reports failure |
| Provisioner.LifecycleManagerService.Install | apps/api/src/reconciler/lifecycle-manager.service.ts:94-159 | Up to an installed target, in the order of the path |
| Provisioner.CallsWalkPath | apps/api/src/reconciler/lifecycle-manager.service.ts:94-216 | The path by the names of its steps; the reconcile machine's calls for `provision` wait in exactly the steps of this path, in order, but for the two that have no call of their own |
| Provisioning.StepCompletes | apps/api/src/provisioning/provisioning-events.service.ts:143-172 | Completing the step in progress leaves none |
| ProvisioningRuns.AlwaysDisciplined | apps/api/src/reconciler/lifecycle-manager.service.ts:82-241 | The same step discipline at every moment of every run, with timeout and clean-up at any point |
| ProvisioningRuns.SuccessSettlesAll | apps/api/src/provisioning/provisioning-events.service.ts:175-196 | A run that gets through leaves every step completed or skipped |
| ProvisioningRuns.SuccessCompletesPath | apps/api/src/reconciler/lifecycle-manager.service.ts:94-216 | Then the completed steps are exactly those of the run's path, and the rest of the list is skipped |
| ProvisioningRuns.FailureKeepsRecord | apps/api/src/reconciler/lifecycle-manager.service.ts:217-241 | A run cut off anywhere leaves the step it was at as failed, those before it completed, those it had not come to pending |
| ProvisioningRuns.StandingSoFar | apps/api/src/provisioning/provisioning-events.service.ts:137-173 | Each step of the list is pending until the run comes to it, then in progress until it goes on, then completed |
| A2aStreaming.A2aStreamingService.StreamMessage | apps/api/src/a2a/a2a-streaming.service.ts:40-56 | A whole stream with its awaits and catch blocks, chunks and cancels at any of them: it emits the script of `EmitsScript`, ends with a final event, and has exactly one if no trace write throws |
| A2aStreaming.A2aStreamingService.OnAgentOutput | apps/api/src/a2a/a2a-streaming.service.ts:152-175 | A chunk of this request, appended to all but the first |
| A2aStreaming.A2aStreamingService.CancelTask | apps/api/src/a2a/a2a-streaming.service.ts:61-90 | Final canceled event, then nothing more |
| A2aStreaming.A2aStreamingService.RunAgent | apps/api/src/a2a/a2a-streaming.service.ts:195-250 | The agent call, its answer and its two ways to fail |
| A2aScript.EmitsScript | apps/api/src/a2a/a2a-streaming.service.ts:40-250 | For any inputs the events of the machine are those of a script read off the inputs from the front: working, the chunks, and then the output and completed, or failed, or canceled, event by event |
| A2aScript.CompletedExactly | apps/api/src/a2a/a2a-streaming.service.ts:195-250 | A stream that is over, was not canceled and had no throwing trace write ends with completed if and only if the answer was an output with text, and the event before it is then the whole text as last chunk; otherwise it ends with failed |
| A2aStream.OneFinalEvent | apps/api/src/a2a/a2a-streaming.service.ts:40-250 | Every stream that is over, canceled or not, ends with a final status event, and has no other if and only if none of its inputs is a trace write that throws between the final event and the completion of the stream |
| A2aStream.OneFinalIfTracesWritten | apps/api/src/a2a/a2a-streaming.service.ts:40-250 | If no trace write throws, exactly one final status event, the last |
| A2aStream.NoFinalEarly | apps/api/src/a2a/a2a-streaming.service.ts:92-250 | Before the agent has answered there is none, unless it was canceled |
| A2aStream.ConsumerHolds | apps/api/src/a2a/a2a-streaming.service.ts:147-228 | A consumer folding artifact events by `append` always holds the chunks so far, and the full output once completed |
| A2aStream.CancelIsFinal | apps/api/src/a2a/a2a-streaming.service.ts:73-77 | A canceled stream's last and only final event says so, whatever comes later |
| JsEscape.FivePassesAreOne | apps/api/src/bot-teams/delegation-skill-generator.service.ts:118-125 | The five replacement passes equal one map of each code unit |
| JsEscape.LiteralRoundTrip | apps/api/src/bot-teams/delegation-skill-generator.service.ts:113-125 | For every string, the double-quoted literal built from it has it as its value, by section 12.9.4 of ECMA-262 |
| JsEscape.ReadsBack | apps/api/src/bot-teams/delegation-skill-generator.service.ts:113-125 | Whatever source text follows, the literal is read up to its own closing quote |
| JsEscape.BodyUnbroken | apps/api/src/bot-teams/delegation-skill-generator.service.ts:118-125 | No unescaped quote, line feed or carriage return, and no line continuation |
| JsEscape.BackslashesFirst | apps/api/src/bot-teams/delegation-skill-generator.service.ts:120 | With the backslash pass last, the literal denotes the string if and only if the string holds no quote, line feed, carriage return or tab |
| GatewayPorts.AllocateGatewayPort | apps/api/src/onboarding/onboarding.service.ts:564-590 | Terminates with the least port from 18789 to 65500 in steps of 20 that is not in use on the page of 10000, and fails exactly when all are |
| GatewayPorts.SlotCount | apps/api/src/onboarding/onboarding.service.ts:565-567 | There are 2336 candidates, so a failure means at least as many used ports |
| GatewayPorts.OnboardingService.Deploy | apps/api/src/onboarding/onboarding.service.ts:346-349 | Allocates for every kind of host and adds one instance on that port, or on 18789 for cloud machines; without a free port nothing changes |
| GatewayPorts.LivePortsApart | apps/api/src/onboarding/onboarding.service.ts:346-349 | Over any deploys and deletes, as long as the instances fit on one page, ports on shared hosts are at least 20 apart |
| GatewayPorts.DeletedGone | apps/api/src/onboarding/onboarding.service.ts:564-590 | A delete takes that bot out of the listing that allocations read, and no other |
| GatewayPorts.PortsSpaced | packages/core/src/openclaw-profile.ts:67-84 | The sorted-neighbours check accepts a list if and only if all enabled ports are pairwise at least 20 apart |
| GatewayPorts.NeighboursSuffice | packages/core/src/openclaw-profile.ts:72-77 | On a sorted list neighbours decide for all pairs |
| BudgetAlerts.WorstBudget | apps/api/src/health/alerting.service.ts:468-495 | At most one alert, and one if and only if some budget is at or above the lower of its thresholds; critical if and only if a critical budget leads all earlier warned ones; the reported budget crosses its threshold with the largest ratio of those that do |
| BudgetAlerts.EvaluateBudgets | apps/api/src/health/alerting.service.ts:571-605 | The same for the monthly and the daily scan, with the daily defaults |
| BudgetAlerts.AlertMeans | apps/api/src/health/alerting.service.ts:468-605 | Both scans in terms of spend, limits and thresholds, 75 and 90 percent for a day without its own: when each alert is raised, and which budget it names |
| BudgetAlerts.SharedThresholds | apps/api/src/health/alerting.service.ts:474-495 | With shared thresholds critical is raised if and only if some budget is critical, and the largest ratio is reported |
| BudgetAlerts.CriticalUnreported | apps/api/src/health/alerting.service.ts:479-493 | With thresholds of their own a critical budget may go unreported |
| BudgetAlerts.RatiosCompare | apps/api/src/health/alerting.service.ts:477 | Percentages compare as exact ratios of spend and limit |

## Left out

- ResolvedPath: the closed form is for paths that run through no array that stands where a later layer has an object; `ResolvedAnyPath` is for every path.
- ResolvePlainly: a sufficient condition that can be read off the layers; `ResolvePlainlyExactly` is the exact one.
- MergeAssociative: needs null-free configs that agree in shape; `ShapesMatter` shows why.
- Converged: of a plan that `PlanGenerates` ties to the manifest; other writers of the row's status and hash (fleet service, middleware assignment, raw status endpoint) are not events of the model, apart from stops; manifests do not change.
- OneFinalEvent: events are those the subject passes on, not what a late subscriber sees of them.
- ReadsBack: the reader skips no white space, refuses escapes of surrogates, which are not characters here, and leaves the value of a numeral to a parameter.
- FailureLeaves: of runs whose failure is written down; when such a write throws itself, the row keeps what the writes before it left.
- CodeWorks: codes are not drawn in the model, so two devices may have the same one; `FindByCode` then gives one of them.
- TodayRecorded: of reports in the order of their days that name none after today.
- HashAgrees: the text of a number is a parameter that is only asked to tell apart the numbers that occur, and SHA-256 a digest that is only asked to tell apart the two texts; lone surrogates, which are not characters here, are absent.
- Simulates: ids are drawn fresh, inbound interceptors keep ids, and an interceptor that throws counts as an error reply.
- BatchIsEach: which of the parallel patches the gateway refuses, because another changed the base hash, is a parameter of the batch.
- LivePortsApart: allocation and insert are one step; two concurrent deploys may get one port.
- AlwaysSettled: assumes reports with final totals for past days and all days after the watermark; `WindowSettles` gives the exact condition on what falls out of the window.
- AllocateGatewayPort: the listing is the first page of 10000 instances.
- JsonValues: numbers are reals, so NaN, infinities and negative zero are absent; a key that holds undefined is an absent key in the section records; `__proto__` is an ordinary key; strings are sequences of characters, so a string spreads into characters, not code units.
- Generated documents: the order in which keys come out of the merge and the generator is not modelled, only that of `sortKeys`.
- AI gateway: `injectGatewayIntoConfig` is not part of this model; its settings are taken as absent.
- Policy packs, manifest parser and preprocessors: not part of this model; a reconcile step stands for them and may throw.
- Config contents in the reconcile machine: a config is its hash, and the gateway's own config is whatever config.get answers.
- Change lists, messages, health values, timestamps and durations of reconcile results.
- Gateway client: handshake, reconnection, event frames and their interceptors; what an agent completion's payload says.
- Pairing: names, dates of approval and revocation, code generation; other instances; lower-casing covers ASCII letters; names inherited from `Object.prototype` in the key tables.
- Cost sync: the order of instances created at the same instant; provider and model of an event; token counts; rounding is that of exact reals.
- Log streaming: socket rooms and message contents; two subscribes interleaved during one connection attempt; streams are values in the table, not shared objects.
- Provisioning: step times and messages, the tracker's timers as wall-clock values, and resource updates.
- A2A: message and context ids, agent lookup and text extraction, which count as one answer; several streams at once share nothing.
- String literals: code point escapes in braces and legacy octal escapes of ECMA-262, which the escaper never writes.
- Alerts: what is written, resolved and notified after a scan.
- Spacing check: uniqueness of profile names and the other field checks of the registry.
- Controllers, DTO validation, database queries, sockets, HTTP, docker and cloud calls, cryptography and randomness: parameters of the model where they matter.
