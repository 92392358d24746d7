# Trajectory IR: a verified model of the runtime core

Trajectory IR records every step of an agent as nodes in an append-only, content-addressed log, so
that a step interrupted by a crash can be resumed without repeating what must not be repeated. This
project models that core in Dafny and proves what it promises.

* **Crash and resume** (`Protocol`, `AtMostOnce`, `Agreement`, `ExactlyOnce`, `Backing`, `Solo`,
  `Recovery`, `Resumption`, `Refetch`, `SharedMemos`, `Hypotheses`, `StoredValue`, `StepOutcomes`, `Sandbox`, `PlanReading`, `RunStep`).
  `Protocol` is a transition system: any number of workers, two durable stores, one store access per
  atomic step, crashes between any two of them, and histories that count model calls and tool-body
  runs. `RunStep.RunStep` is the same script as an imperative method, proved to have exactly the
  effect of the worker script run to its end. `StepOutcomes` says case by case what such a run leaves.
* **The log** (`Nodes`, `LogTable`, `SqlLog`, `LogRefinement`, `TableRun`, `MemoKeys`). Node identity, the table with its
  two unique indexes, the four SQL strategies over a connection with transactions and savepoints,
  and the refinement from that table to the slot map that the protocol uses.
* **Packages** (`Archive`, `ZipNames`, `Signature`, `Signing`, `VerifySoundness`, `PackageFile`, `Package`, `PackageLaws`,
  `RoundTrip`, `LoadSoundness`, `ExportSoundness`, `Importing`, `ImportSoundness`, `RedactedExport`, `PyPackage`,
  `PySoundness`, `PythonLines`). The signed payload stream, sign and verify, export, load, import. The soundness
  modules say what a success means in terms of the bytes and records alone.
* **Projector, redaction, storage** (`Projector`, `ProjectorLaws`, `ProjectorInputs`, `Redact`, `ProjectedRedaction`, `Cas`,
  `CasProtocol`), over small shared modules (`Base`, `SlotMap`, `Text`, `Sorting`, `Lists`, and `Formats`, which reads the text
  formats back).
* **Instances** (`Examples`, `ExampleRun`). Small inputs and a run that meet the hypotheses of the main theorems.

`dafny verify dfyconfig.toml` checks the whole project.

## Conventions and hypotheses

* A Go byte string is a Dafny `string` with one character per byte.
* SHA-256 and RFC 8785 canonicalisation (section 3.2 of RFC 8785) are parameters. Where collisions
  matter the result says "or these two inputs collide". Ed25519 (section 5.1 of RFC 8032) and base64
  are parameters that satisfy `Signing.Works`; JSON text satisfies `Package.Faithful` on the values
  that `plain` accepts, which stand for valid UTF-8 strings and numbers that a float64 holds exactly.
* `OneStepPerWorkflow`: a workflow id belongs to one (tenant, trajectory, step). The code does not
  enforce this, and `SharedMemos` says exactly what happens without it.
* `FixedEffects`, `Gates`: the effect class of a tool is the same in every attempt.
* In `CasProtocol` a temporary name that a live writer still holds is not drawn again after a sweep
  (`Fresh`), unless both writers store the empty object. `SafeExactlyWhenFresh` shows that no weaker
  hypothesis would do.

Results about the code that differ from what its documentation or a first reading suggests:

* With the default workflow id two steps of one trajectory share tool memos, because the memo key is
  `name@seq` without the step. A step can then commit without its TOOL_CALL
  (`SharedMemos.DefaultWorkflowSkipsTool`), or with its own TOOL_CALL, no TOOL_RESULT and another
  step's result (`SharedMemos.CrashThenShare`). `SharedMemos.CommittedCallIff` and
  `SharedMemos.CommittedStepAgreesIff` are the exact conditions.
* With two workers the memoised plan can differ from the sealed plan, and the committed step can then
  never be repeated (`Hypotheses.RaceLeavesOtherPlanMemoised`, `Resumption.RepeatCommitted`). The Python
  memo returns the stored value instead, and there they never differ (`StoredValue.SealedPlanIsMemoised`).
* README.md:216 says that a re-fetched value becomes a new TOOL_RESULT node. In the code the slot is
  taken, and the append is a slot conflict exactly when the log holds another result
  (`Refetch.RefetchConflictsIff`; `Refetch.RefetchedValueIsRefused` is such a resume).
* Signing a package that is at a reading limit yields a package that cannot be verified
  (`Signing.FullPackageSignsButDoesNotVerify`); `Signing.SignThenVerify` is the exact condition.
* The Go redactor returns the Go projector's items unredacted, because their slice type misses the
  redactor's type switch. `ProjectedRedaction.GoMatchesPythonIff` says for every context of Go values
  when the two languages agree; a thought survives in `ProjectedRedaction.ThoughtSurvivesInGo`.
* The in-memory backend joins workflow id and step key with a NUL and may confuse two workflows;
  `MemoKeys.SharedIffClash` says exactly when.

## Model

| member | source | states |
|---|---|---|
| RunStep.RunStep | go/trajir/resume/step.go:46-172 | The imperative step leaves log, memo, result and sequence of outside calls of the worker script iterated from PROJECT_CONTEXT to its end, for every initial log and memo |
| RunStep.RunTools | go/trajir/resume/step.go:108-171 | The tool loop and COMMIT_STEP, from any partial list of results, equal the script from that point |
| RunStep.InferPlan | go/trajir/durable/backend.go:28-70 | Memoised inference: load, else call the model and save; the caller keeps its own value |
| RunStep.CallTool | go/trajir/resume/step.go:124-156 | Lookup, mode check, memo, then the gated or the plain wrapper, equal to the script's steps for one call |
| RunStep.GatedCall | go/trajir/resume/gate.go:48-92 | Claim, body, TOOL_RESULT when the claim is won; ABORT and a blocked error when it is lost |
| RunStep.PlainCall | go/trajir/resume/gate.go:96-137 | TOOL_CALL, body, TOOL_RESULT; a slot conflict on either append stops it |
| RunStep.ToolCallsFromPlan | go/trajir/resume/step.go:180-210 | The calls of a plan in order, or nothing at the first malformed item |
| PlanReading.ToolCallsReadThePlan | go/trajir/resume/step.go:180-210 | On the plan's JSON alone: the calls are those of the list, one for each item, with its non-empty name and its args object, empty when absent or null; there are none exactly when there is no list or some item is malformed |
| StepOutcomes.SandboxRefuses | go/trajir/resume/step.go:119-121 | A sandbox run that reaches a NON_IDEMPOTENT_WRITE call, memoised or not, ends there with that name: both stores as they were before the call, no body run |
| Sandbox.SandboxLeavesGatedToolsAlone | go/trajir/resume/step.go:119-121 | Runs made of sandbox attempts only, in any number, interleaving and with crashes, add no TOOL_CALL of a gated tool and run no gated body |
| StepOutcomes.UnknownToolStops | go/trajir/resume/step.go:109-113 | A tool that is not configured stops the run with both stores left alone |
| StepOutcomes.MemoAnswers | go/trajir/resume/step.go:124-140 | A memoised call is answered from the memo, with both stores left alone and no body run |
| StepOutcomes.LostClaimBlocks | go/trajir/resume/gate.go:48-72 | A gated call whose TOOL_CALL is taken, and has no memo, ends blocked with an ABORT beside it, or in a conflict with another ABORT; its body does not run |
| StepOutcomes.OtherCallConflicts | go/trajir/resume/gate.go:96-120 | A plain call whose TOOL_CALL differs from the logged one is a slot conflict before its body |
| StepOutcomes.BodyFails | go/trajir/resume/gate.go:74-92 | A body that fails leaves its TOOL_CALL, and neither result nor memo |
| StepOutcomes.BodyAnswers | go/trajir/resume/gate.go:74-92 | A body that answers has its value logged beside TOOL_CALL and then memoised, or conflicts with a logged one and is not memoised |
| StepOutcomes.LastCallCommits | go/trajir/resume/step.go:161-172 | After the last call the step commits at the next even seq and returns the results, or conflicts with what is logged there |
| StepOutcomes.CallCases | go/trajir/resume/step.go:108-159 | At every call exactly these cases are possible |
| StepOutcomes.IllegalStepStops | go/trajir/resume/step.go:67-76 | Ids that break the rules, or a wall clock in the context, stop the step before it writes anything |
| StepOutcomes.OtherContextConflicts | go/trajir/resume/step.go:67-76 | Another context in the log is a slot conflict before the model is asked |
| StepOutcomes.ModelFails | go/trajir/resume/step.go:78-83 | A model that fails leaves PROJECT_CONTEXT and nothing memoised |
| StepOutcomes.NoObjectIsNoPlan | go/trajir/resume/step.go:84-87 | A plan that is no object is refused before the seal, and stays memoised |
| StepOutcomes.PlanIsSealed | go/trajir/resume/step.go:89-106 | A plan is sealed before its calls are looked at, so a malformed list fails after the seal; another sealed plan is a slot conflict |
| AtMostOnce.GatedBodyRunsAtMostOnce | go/trajir/resume/gate.go:48-72 | In every interleaving of workers, crashes, memo losses and foreign appends, at most one gated body runs per (tenant, trajectory, step, seq) |
| AtMostOnce.FixedGatedToolRunsAtMostOnce | go/trajir/resume/gate.go:48-72 | A tool whose class is NON_IDEMPOTENT_WRITE in every attempt runs at most once per (tenant, trajectory, step, seq), by any path |
| AtMostOnce.ConservedRun | go/trajir/log/log.go:150-216 | Conservation behind the claim gate: bodies run plus workers about to run never exceed the claimed slot |
| Agreement.SuccessfulRunMatchesLog | go/trajir/resume/step.go:78-171 | A successful run used exactly the plan in DECISION, returns exactly the values in the TOOL_RESULT nodes, one for each call, and is committed |
| Agreement.SuccessfulRunsAgree | go/trajir/resume/step.go:78-158 | Two successful runs of one step, at different times and by different workers, agree on plan and results though model and tools are nondeterministic |
| Agreement.CommitIsComplete | go/trajir/resume/step.go:124-171 | A logged COMMIT_STEP sits right after the last call of the sealed plan, and every call has TOOL_CALL and TOOL_RESULT |
| Agreement.LogOnlyGrows | go/trajir/log/log.go:96-129 | No slot is ever changed or removed in any run, so at most one plan is sealed per step and never replaced |
| Agreement.RunKeeps | go/trajir/resume/step.go:78-171 | Every transition keeps: each node is in its place, each worker's volatile state agrees with the log, each tool memo holds a logged result |
| ExactlyOnce.CommittedGatedBodiesRanExactlyOnce | go/trajir/resume/gate.go:48-87 | COMMIT_STEP implies that the body of every gated call of the sealed plan ran exactly once |
| Backing.SealImpliesMemo | go/trajir/durable/backend.go:36-58 | A logged DECISION implies the inference memo, and COMMIT_STEP implies the memo of every call, while the backend loses nothing |
| Backing.SealedStepSkipsModel | go/trajir/durable/backend.go:40-46 | An inference whose lookup follows the seal does not call the model, whatever the other workers do |
| Solo.LogIsScriptPrefix | go/trajir/resume/step.go:43-45 | At every crash point, with one worker at a time, a step's nodes are a prefix of the script for the sealed plan plus at most one ABORT after the last call |
| Solo.LoneWorkerSkipsModel | go/trajir/resume/step.go:78-98 | After the seal a lone worker never calls the model again for that step, through any crashes and restarts |
| Recovery.ToolLoopRecovers | go/trajir/resume/step.go:108-171 | From any reachable point of the tool loop a crash-free run commits, or blocks at the least stuck call |
| Recovery.RunOnIsARun | go/trajir/resume/step.go:46-172 | Iterating one worker is itself a run of the transition system, so results on runs apply to it |
| Resumption.RecoveryDichotomy | go/trajir/resume/gate.go:58-70 | A live crash-free resume commits exactly when no gated call has its TOOL_CALL logged without a memo; otherwise it blocks at the least such call, without COMMIT_STEP |
| Resumption.BlockedForever | go/trajir/resume/gate.go:58-70 | Once a step is blocked, no later run of restarts and crashes logs COMMIT_STEP or unblocks the call |
| Resumption.EveryResumeBlocks | go/trajir/resume/gate.go:58-70 | Once a step is blocked, after any later run every healthy resume blocks at the same call |
| Resumption.RepeatCommitted | go/trajir/resume/step.go:67-172 | Repeating a committed step changes neither store, calls no model and no tool, and succeeds exactly when the memoised inference is the sealed plan |
| Resumption.RerunOfCommittedStep | go/trajir/resume/step.go:67-172 | The same for a step committed under any interleaving |
| Resumption.SoloRerunSucceeds | go/trajir/durable/backend.go:40-46 | With one worker at a time repeating a committed step always succeeds, with the logged plan and results |
| SharedMemos.CommittedCallIff | go/trajir/resume/step.go:124-156 | Without the workflow hypothesis, in terms of the stores before a committing run: TOOL_CALL and TOOL_RESULT of a call are logged exactly when they were before or the memo had no entry; the result is the logged one exactly when there was no entry or the log held its value already; its body runs exactly when there was no entry |
| SharedMemos.CommittedStepAgreesIff | go/trajir/resume/step.go:124-171 | A committed step is complete and agrees with its log exactly when every call that the memo answered was logged before with the memo's value |
| SharedMemos.CrashThenShare | go/trajir/resume/step.go:124-124 | A step claims its tool and crashes, another step under the same workflow id runs it, and the first commits with its TOOL_CALL, no TOOL_RESULT and the other's result |
| SharedMemos.DefaultWorkflowSkipsTool | go/trajir/resume/step.go:124-124 | Two steps under the default workflow id: the second commits with the first one's result, without running the tool or logging TOOL_CALL |
| Refetch.RefetchConflictsIff | go/trajir/resume/gate.go:110-135 | A plain call that runs again stops with a slot conflict, both stores as they were after its TOOL_CALL, exactly when the log holds another result; otherwise its value is logged, memoised and used |
| Refetch.RefetchedValueIsRefused | go/trajir/resume/gate.go:122-135 | From the empty state: a step fetches a value, crashes before memoising it, is resumed, re-fetches another value, and fails with a slot conflict that changes nothing |
| Hypotheses.RaceLeavesOtherPlanMemoised | go/trajir/durable/backend.go:48-64 | A run of two workers that seals and commits one plan and memoises the other |
| StoredValue.SealedPlanIsMemoised | drivers/durable_backend/restate/local_memo.py:86-104 | Under the Python rule for a lost race, the sealed plan is the memoised one in every interleaving of any number of workers and crashes |
| Nodes.PreimageInjective | go/trajir/nodes/nodes.go:84-98 | Distinct (tenant, trajectory, step, seq, kind, payload hash) tuples never share an id preimage, whatever the kind string is |
| Nodes.NodeIdCommits | go/trajir/nodes/nodes.go:62-98 | Equal ids mean equal identity and equal canonical payload, or exhibit a SHA-256 collision |
| Formats.PreimageSpelled | go/trajir/nodes/nodes.go:91-97 | The id preimage in full for a positive step, a negative step and no step |
| Formats.ValidIdMeans | go/trajir/nodes/nodes.go:44-58 | An id component is accepted exactly when it is non-empty, at most 512 bytes, UTF-8, and free of delimiter, line ends and NUL |
| Formats.Utf8Means | go/trajir/nodes/nodes.go:48-50 | Bytes are accepted as UTF-8 exactly when they encode some sequence of Unicode scalar values |
| Formats.ValidNodeMeans | go/trajir/nodes/nodes.go:114-134 | A node is refused exactly for its kind, one of its two ids, or a wall clock in its payload |
| Formats.HexReads | go/trajir/nodes/nodes.go:78-79 | Hexadecimal text reads back as the bytes |
| Formats.NoLeadingZero | go/trajir/nodes/nodes.go:91-95 | Decimal text of a number has no leading zero |
| Formats.TruncateMeans | go/trajir/tir/tir.go:160-174 | A JSON number becomes an integer by dropping its fraction towards zero |
| LogTable.StoreRefinesPut | go/trajir/log/log.go:96-129 | An append is accepted exactly when the slot map accepts the id, and the table is then the map's put, with the one exception stated exactly |
| LogTable.LostNeedsCollision | go/trajir/log/log.go:117-129 | The exception, an insertion absorbed without its slot being filled, exhibits a collision with a stored node |
| LogTable.AdmitsMeaning | go/trajir/log/log.go:121-128 | Without collisions an append is refused exactly when a node of other identity or other canonical payload holds the slot |
| Formats.SlotsMean | go/trajir/log/log.go:46-57 | Two nodes share a slot exactly when they agree on tenant, trajectory, seq, kind and step, where no step and step -1 are one |
| LogTable.RunsOnlyAppend | go/trajir/log/log.go:96-116 | Over any sequence of appends and claims rows are never removed, changed or reordered, and both indexes stay unique |
| LogTable.IdsAndSlotsBijection | go/trajir/log/log.go:46-57 | Ids and slots are in bijection after any run of appends and claims |
| SqlLog.SqliteLog.Append | go/trajir/log/log.go:71-130 | Insert-or-ignore and owner lookup: the table is the specified insertion, the verdict is the specified one |
| SqlLog.SqliteLog.ClaimToolCall | go/trajir/log/log.go:150-216 | Claimed exactly when id and slot are free; nothing stored otherwise; no transaction left open |
| SqlLog.PostgresLog.Append | go/trajir/postgres/log.go:105-174 | Savepoint, insert, rollback to the savepoint, owner lookup: the specified table and verdict, though an error aborts the transaction, also when another session commits any row between the insert and the lookup |
| SqlLog.RivalKeepsVerdict | go/trajir/postgres/log.go:134-170 | A rival row between the insert and the lookup never changes an append's verdict, unless the insertion was lost to a collision |
| SqlLog.PostgresLog.ClaimToolCall | go/trajir/postgres/log.go:196-253 | Same as SQLite, also when another session commits any row between the query and the insert |
| SqlLog.PySqliteLog.Append | pkg/trajectory_ir/runtime/log.py:65-113 | Same table and verdict, with the lookup inside the insert's transaction and a rollback on conflict |
| SqlLog.PySqliteLog.ClaimToolCall | pkg/trajectory_ir/runtime/log.py:115-170 | Same claim |
| SqlLog.PyPostgresLog.Append | drivers/postgres/log.py:117-198 | Same table and verdict, with a full rollback before the lookup, which leaves a read transaction open, and with a rival session |
| SqlLog.PyPostgresLog.ClaimToolCall | drivers/postgres/log.py:200-261 | Same claim, with a rival session |
| LogRefinement.TableImplementsLog | go/trajir/log/log.go:71-145 | The nodes table implements the protocol's log: same verdict for each append and claim of a step, and the representation is kept |
| Formats.NodesSpelled | go/trajir/resume/gate.go:48-92 | The nodes that a step writes, with kind, step, seq and every payload member |
| TableRun.TableRunsTheProtocol | go/trajir/log/log.go:71-216 | Over whole runs from empty stores: workers that act on the table's verdicts run as the protocol does, and the table represents its log, as long as no written node collides |
| MemoKeys.KeyTextInjective | go/trajir/resume/step.go:124-124 | Distinct memo calls have distinct key texts, whatever characters tool names have |
| Formats.KeysSpelled | go/trajir/resume/step.go:78-124 | The memo keys of an inference and of a tool call, and the joined and scoped keys, in full |
| MemoKeys.SharedIffClash | go/trajir/durable/memory.go:20-22 | Two workflows share an entry of the in-memory backend exactly when one id extends the other by a NUL and the start of a tool key |
| MemoKeys.SaveMirrors | go/trajir/durable/memory.go:38-49 | First-writer-wins on the joined keys is first-writer-wins on the memo for workflows that do not clash |
| MemoKeys.StepScopeInjective | drivers/durable_backend/restate/local_memo.py:121-138 | The Python memo's step namespaces never coincide, even for workflow ids that look like step namespaces |
| Signature.PayloadHashFromMembers | go/trajir/tir/signature.go:103-140 | The hash is that of the sorted stream of covered members, whatever order the map yields names in; refused exactly when a name is unsafe |
| Signature.StreamInjective | go/trajir/tir/signature.go:121-136 | Equal payload streams list the same names with the same content hashes |
| Signature.SamePayloadSameMembers | go/trajir/tir/signature.go:103-140 | Two member maps with one payload stream are equal, unless two contents of one name collide |
| VerifySoundness.HashMeans | go/trajir/tir/signature.go:103-140 | The hashed stream can be read back: every member but SIGNATURE, once, in byte order of names, with its content hash; there is no hash exactly when a name is unsafe |
| VerifySoundness.StreamReads | go/trajir/tir/signature.go:121-136 | A reader of 8-byte lengths, names and 32-byte hashes reads the stream back |
| Formats.ByteOrderMeans | go/trajir/tir/signature.go:119-119 | The order of names is that of their bytes, a prefix first |
| VerifySoundness.MessageSeparates | go/trajir/tir/signature.go:88-101 | Two payload hashes have one signed message only if the two scheme-prefixed texts collide |
| Archive.CollectZipMembers | go/trajir/tir/signature.go:327-380 | The reading loop with its shrinking budget equals the specification |
| Archive.CollectIff | go/trajir/tir/signature.go:327-380 | Members are read exactly within the entry, size and total limits, with safe and distinct names, and come back by name |
| ZipNames.NameErrorMeans | go/trajir/tir/tir.go:117-135 | A name is accepted exactly when it is not empty or absolute, no component between slashes or backslashes is a parent, and it is under artifacts/cas/ if it is under artifacts/ |
| ZipNames.SplitParts | go/trajir/tir/tir.go:122-130 | The pieces of a split are exactly the texts between delimiters |
| Signing.SignZip | go/trajir/tir/signature.go:144-184 | Reading, hashing, and rewriting the archive with its members in name order and SIGNATURE last equals the specification |
| Signing.VerifyZip | go/trajir/tir/signature.go:202-301 | Verification of an open archive, SIGNATURE apart, equals the specification |
| VerifySoundness.VerifyMeans | go/trajir/tir/signature.go:202-301 | A signer is reported exactly when the archive can be read, has a SIGNATURE, and its document has the three constants, the members' payload hash, a 32-byte key, a 64-byte Ed25519 signature of the message under that key, the key's id if it has one, and a key on the caller's lists; none is reported exactly when there is no SIGNATURE and none was required |
| VerifySoundness.SignMeans | go/trajir/tir/signature.go:144-184 | Signing succeeds exactly on a 64-byte key and an archive that can be read |
| Signing.SignThenVerify | go/trajir/tir/signature.go:144-198 | For every package that Sign accepts, Verify succeeds exactly when the signed package is within the reading limits, and reports the signer's key, name and time |
| Signing.SigningKeepsMembers | go/trajir/tir/signature.go:382-445 | Signing keeps every member; signing again keeps them and leaves only the new SIGNATURE |
| Signing.SignatureCoversMembers | go/trajir/tir/signature.go:220-301 | A SIGNATURE that verifies for two member maps verifies for one, or exhibits a collision: any change of members is found |
| Signing.FullPackageSignsButDoesNotVerify | go/trajir/tir/signature.go:308-330 | A package of 10000 members signs, and the result is refused by Verify |
| PackageFile.Disk.ReplaceFile | go/trajir/tir/signature.go:454-478 | Whatever rename fails and wherever the process stops, the old package or the new one is whole at its place or at the backup name |
| Package.SealsFromNodes | go/trajir/tir/tir.go:241-270 | One seal for each DECISION, in order, with its payload hash |
| Package.ExportPackage | go/trajir/tir/tir.go:273-480 | The export loops succeed exactly on verified records of one tenant with the bytes of a fat package, and write the specified members, embedded bytes in map order |
| Package.ReadNodes | go/trajir/tir/tir.go:632-650 | The ndjson loop equals the specification of framing, blank lines and the node limit |
| Package.LoadImpl | go/trajir/tir/tir.go:493-745 | The load with its shared budget, verification and signature check equals the specification |
| LoadSoundness.VerifiedLoadMeans | go/trajir/tir/tir.go:677-723 | A verified load succeeds exactly when an unverified one does, with the same package, and there is a record, every record is a legal node under its own id and payload hash, every DECISION is sealed by the last seal of its id with its payload's hash, and embedded bytes are those that the mode asks for |
| LoadSoundness.OneIdOneNode | go/trajir/tir/tir.go:198-239 | If one id stands at two records of verified packages, the nodes have one identity and one canonical payload, or they collide |
| LoadSoundness.LoadPromises | go/trajir/tir/tir.go:505-745 | Any load, verified or not, is of at most 10000 members with safe distinct names and at most 100000 records, has bytes under their own hashes only, and a SIGNATURE that is there verifies |
| LoadSoundness.PartsAreRead | go/trajir/tir/tir.go:598-650 | Manifest, seals, artifact list and records are what the members of these names say, null standing for an empty object or list |
| LoadSoundness.NodesAreTheLines | go/trajir/tir/tir.go:636-650 | The records are the lines that have text, each parsed, in order, at most 100000; reading fails exactly otherwise |
| LoadSoundness.ArtifactsAreMembers | go/trajir/tir/tir.go:652-675 | The artifacts are exactly the members under artifacts/cas/, each under the hash that its path ends in |
| PackageLaws.LinesRoundTrip | go/trajir/tir/tir.go:632-650 | Reading back the written lines yields the records, up to the limit on their number |
| PackageLaws.SealsRebuilt | go/trajir/tir/tir.go:686-707 | The exported seals are the ones a load rebuilds and looks for, when ids are distinct |
| PackageLaws.ArtifactsRead | go/trajir/tir/tir.go:655-675 | The artifact loop succeeds exactly within the remaining budget and yields the embedded bytes |
| RoundTrip.LoadAcceptsExport | go/trajir/tir/tir.go:273-480 | A verified load accepts an unsigned export, thin or fat, exactly when it is within the limits, and returns the exported records and bytes |
| RoundTrip.LoadAcceptsSignedExport | go/trajir/tir/tir.go:473-480 | A signed export is accepted exactly when SIGNATURE still fits, with the same records and bytes and the signer's key |
| ExportSoundness.ExportableMeans | go/trajir/tir/tir.go:298-337 | An export takes exactly honest records of one tenant and, if fat, bytes under their own hash for at most 10000 artifacts |
| ExportSoundness.SealsListDecisions | go/trajir/tir/tir.go:241-270 | Each seal stands for the DECISION at a known place, places increase and leave none out, and its members are the record's |
| ExportSoundness.LoadedExportSays | go/trajir/tir/tir.go:348-382 | A loaded export says of itself what was exported: counts of nodes and seals, tenant, trajectory, mode, each artifact's path, hash, uri and size, and bytes exactly for the listed hashes of a fat package |
| Importing.Import | go/trajir/tir/tir.go:758-798 | The import loop over a log's Append equals the specification, and the table stays well formed |
| Importing.ImportTakesPrefix | go/trajir/tir/tir.go:766-797 | An import leaves the old log plus the nodes before the first slot conflict or unknown kind, and succeeds exactly when there is none |
| ImportSoundness.ImportedHaveTheirIds | go/trajir/tir/tir.go:766-797 | Whatever the records are, an import only adds rows, each a record's legal node under the record's own id, and succeeds only when every record states such a node |
| Importing.ImportAgainChangesNothing | go/trajir/tir/tir.go:766-797 | After a successful import a second one succeeds and changes nothing, unless nodes collide |
| Importing.ExportLoadImport | go/trajir/tir/tir.go:758-798 | Export, load and import into an empty log reproduce the nodes and ids, and the listing when (step, seq) pairs are distinct |
| ImportSoundness.ListingMeans | go/trajir/log/log.go:280-298 | A listing shows every kept row as often as it is stored and no other, by step with no step as -1, and then by seq |
| RedactedExport.RedactedRecordVerifies | pkg/trajectory_ir/package/tir.py:189-214 | A rebuilt redacted record verifies, its payload is clean, and it is the redaction mark alone for a thought |
| RedactedExport.RedactedExportLoads | go/trajir/tir/tir.go:493-745 | A redacted Python export, read by the Go reader: it loads as verified exactly within the limits, with a clean node in the place of each exported one |
| PyPackage.PyLoadAcceptsExport | pkg/trajectory_ir/package/tir.py:376-457 | The Python reader accepts an export, thin or fat, exactly within the limits, and returns the exported records and bytes, when each record's text is UTF-8 that Python reads as one line |
| PyPackage.PrintableIsPyText | pkg/trajectory_ir/package/tir.py:400-408 | Trimmed printable ASCII, which Python itself writes, is such text |
| PySoundness.PyLoadMeans | pkg/trajectory_ir/package/tir.py:143-458 | Python loads a package exactly when it parses, there is a record, every record is a legal node under its own id with the right payload hash if any, every DECISION is sealed, and embedded bytes are those that the mode asks for |
| PySoundness.PyLoadPromises | pkg/trajectory_ir/package/tir.py:381-428 | What Python loads has safe names only, and embedded bytes under their own hashes |
| PythonLines.LinesOfText | pkg/trajectory_ir/package/tir.py:404-404 | Splitting the bytes of a text is splitting the text at Python's ten line-ending characters |
| PythonLines.PyNodesAreTheLines | pkg/trajectory_ir/package/tir.py:403-410 | Python's records are the lines that have text, each parsed, in order, at most 100000; reading fails exactly otherwise |
| PythonLines.StripMeans | pkg/trajectory_ir/package/tir.py:405-405 | Stripping cuts white space off both ends, and all of it |
| PyPackage.RedactedExportReloads | pkg/trajectory_ir/package/tir.py:189-457 | The same read back by the Python reader, with its own line splitting, member reading and record checks |
| Projector.ProjectContext | go/trajir/projector/projector.go:108-218 | The imperative projector equals the greedy specification, for all inputs |
| Projector.FillLoop | go/trajir/projector/projector.go:160-176 | The greedy loop equals first fit over the sorted list, and its running size and ids are those of what it included |
| ProjectorLaws.FailsExactlyWhenMustExceeds | go/trajir/projector/projector.go:117-143 | It fails exactly when the records of kind CONSTRAINT and the pinned ones exceed the budget, and reports their exact size |
| ProjectorLaws.KeepsMustAndPartitions | go/trajir/projector/projector.go:145-190 | Every constraint and pin is kept, ids split into included and dropped without repetition, and the size is the exact sum within the budget |
| ProjectorLaws.IncludedExactlyWhenItFits | go/trajir/projector/projector.go:160-176 | A node is included exactly when it fits beside all must nodes and the included optional nodes before it, by truncated step_n, then seq, then id, with a large number for a missing one; a dropped node does not fit in what is left |
| ProjectorLaws.ContextListsIncluded | go/trajir/projector/projector.go:192-217 | The context has one item for each included id with the record's five members, of two items the earlier has the smaller truncated step_n, then seq, then id, and it reports size, budget and metric |
| ProjectorLaws.InputOrderIrrelevant | go/trajir/projector/projector.go:86-105 | The whole result is the same for any order of the input nodes |
| ProjectorInputs.FailsExactlyWhenFirstsExceed | go/trajir/projector/projector.go:112-143 | For any records, also with repeated, empty or missing ids: it fails exactly when the first required record of each non-empty id, taken together, exceed the budget, and reports their size |
| ProjectorInputs.IdsPartitioned | go/trajir/projector/projector.go:117-190 | For any records: every non-empty id of a required record is included, and each non-empty id is either included or dropped |
| Redact.RedactValueLoop | go/trajir/redact/redact.go:24-49 | The Go loops over members and items equal the Python recursion, whatever order maps are walked in |
| Redact.RedactProjectionContext | go/trajir/redact/redact.go:67-102 | The Go context loop equals its specification |
| Redact.LanguagesAgreeIff | pkg/trajectory_ir/runtime/redact.py:63-90 | Python and Go agree on a context exactly when its items are a list or it is already marked redacted |
| Redact.UnchangedIffClean | pkg/trajectory_ir/runtime/redact.py:35-45 | Redaction leaves a value unchanged exactly when no secret is in it |
| Redact.RedactedIsClean | pkg/trajectory_ir/runtime/redact.py:35-45 | No value under a secret key and no secret-shaped string is left |
| Redact.ContextIdempotent | pkg/trajectory_ir/runtime/redact.py:63-90 | Redacting a context twice is redacting it once, in both languages |
| Redact.SameOutputIffAlike | pkg/trajectory_ir/runtime/redact.py:35-45 | Two values redact alike exactly when they differ only under secret keys or in masked strings |
| Redact.ContextsAlike | pkg/trajectory_ir/runtime/redact.py:72-90 | Two contexts redact alike exactly when they differ only in thoughts, values under secret keys and secret-shaped strings |
| Redact.ItemsKept | pkg/trajectory_ir/runtime/redact.py:75-84 | Every item that is an object is kept in its order |
| ProjectedRedaction.ProjectionIsScrubbed | pkg/trajectory_ir/runtime/projector.py:155-171 | In a redacted Python projection every node keeps place and identity, and no thought or secret is left |
| ProjectedRedaction.RedactTypedLoop | go/trajir/redact/redact.go:67-81 | The Go redactor on a context of Go values equals its specification |
| ProjectedRedaction.TypedMatchesJsonIff | go/trajir/redact/redact.go:67-102 | For every context of Go values, redacting it is redacting the same context decoded from JSON exactly when its typed slices do not matter |
| ProjectedRedaction.GoMatchesPythonIff | go/trajir/redact/redact.go:67-102 | For every context of Go values, the Go redaction is the Python redaction of the plain context exactly under a condition that reads the input alone |
| ProjectedRedaction.ProjectionMatchesIff | go/trajir/projector/projector.go:193-217 | The Go redactor only marks what the Go projector produced, and that is what Python does exactly when no item needed redaction |
| ProjectedRedaction.ThoughtSurvivesInGo | go/trajir/projector/projector.go:193-217 | A projected thought comes out of the Go redaction with its body, where Python hides it |
| Cas.NormalFormIsStable | go/trajir/cas/cas.go:57-63 | Every accepted spelling of a hash has one normal form, which is its own |
| Formats.NormalizeMeans | go/trajir/cas/cas.go:57-63 | A spelling is accepted exactly when it is white space, 64 hexadecimal digits in either case, white space, and means the digits in lower case |
| Cas.FileSystem.Put | go/trajir/cas/cas.go:143-209 | One writer alone, over any store: success means an object that hashes to its name, a corrupt object that is there is reported and left, failure leaves every object as it was and at most one temp over |
| Cas.FileSystem.Get | go/trajir/cas/cas.go:212-233 | Unless reading fails, found exactly when the bytes hash to the name; missing, corrupt and invalid told apart |
| Cas.FileSystem.SweepStaleTempFiles | go/trajir/cas/cas.go:99-122 | Removes stale temp names only, and keeps the store sound |
| Cas.Rehydrate | go/trajir/cas/cas.go:259-279 | Returns exactly the requested hashes that the store has, and fails exactly when an entry is invalid, unreadable, or missing while all are required |
| CasProtocol.ObjectsHashToTheirNames | go/trajir/cas/cas.go:143-209 | With concurrent writers, failures, crashes and sweeps at any time, every object at a final name hashes to it |
| CasProtocol.ObjectsStay | go/trajir/cas/cas.go:99-122 | No object at a final name is ever removed, whatever names are drawn |
| CasProtocol.StoredCanBeRead | go/trajir/cas/cas.go:212-233 | After a successful Put every later Get is served the bytes that were put, or they collide |
| CasProtocol.SafeExactlyWhenFresh | go/trajir/cas/cas.go:156-182 | From any state of a run, an action keeps every object sound in every continuation exactly when it draws no name that another live writer holds, the empty object aside |
| CasProtocol.ReusedNameCorrupts | go/trajir/cas/cas.go:156-182 | A run from an empty store in which a temp name comes back after a sweep, and a successful Put leaves other bytes |
| ExampleRun.WorkflowsCanBeDistinct | go/trajir/resume/step.go:56-58 | There is a workflow id for every step, as the theorems on runs suppose |
| ExampleRun.PayRanOnce | go/trajir/resume/gate.go:48-92 | A run of one step with one gated tool that meets every hypothesis: it commits, and the body ran exactly once |
| Examples.OneNodeRoundTrip | go/trajir/tir/tir.go:758-798 | A log of one node goes through export, load and import unchanged |
| Examples.SigningHypothesesMeet | go/trajir/tir/signature.go:144-184 | The hypotheses on a key pair and on the SIGNATURE document can be met together |

## Left out

- SQL engines, zip compression, JSON text syntax, RFC 8785, SHA-256, Ed25519 and base64 are library calls; they are parameters with stated hypotheses.
- Temporal, DBOS, S3 and MinIO clients, environment and DSN handling, the MCP server, the CLI and the YAML policy reader.
- Wall-clock `ts` (it is outside every hash), error message text, file permission bits, sleeps between rename retries.
- Power loss and directory fsync: a crash ends a process, and what was written stays.
- Database errors other than a violated unique index, and connection loss inside a transaction.
- The MCP annotation table and the sandbox check appear only as the effect class and mode of an attempt.
- The Python twin of `RunStep` follows the same script and is not modelled apart; of the Python local memo only the step namespace is.
- The Python reader splits lines on more than newline; the round trip asks that no line end of Python's is inside a record, which a Go export does not ensure.
- The Python projector's policy file: constraints are the always-included kind, as in Go.
- PyPackage.PyLoadAcceptsExport: numbers are JSON numbers; a `seq` written as text, which `int()` accepts, is not modelled.
- Files live flat in `Cas` and `CasProtocol`; the shard directory is a function of the hash.
- White space trimmed around a hash or a line is ASCII white space.
- Archive.CollectZipMembers: a member whose size header differs from its data is a read error of the zip library and is not modelled.
- RunStep.RunStep: works on the abstract slot map, which `TableRun.TableRunsTheProtocol` relates to the nodes table for whole runs of its atomic steps.
- Redact.ContextsAlike: is about contexts with a list of items; a free-form context is a plain member map, for which `Redact.MembersAlike` states the same.
- Signing.SignThenVerify: the signer id must survive JSON text; that the document reads back is a hypothesis.
- Projector.ProjectContext: node sizes are a total function of the record, as canonicalisation of decoded JSON cannot fail.
