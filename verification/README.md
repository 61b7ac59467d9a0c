# Millrace, verified

A Dafny model of the workspace compiler of `millrace-ai` and of four algorithms beside it, with proofs of
what they promise. `dafny verify dfyconfig.toml` checks everything.

**The compiler** resolves a mode id to graph loops, stage kinds and primitive files, validates and normalises
what it loads, freezes it into a run plan, and persists the plan so that a later attempt may reuse it.

- `Normalizers`, `CompilerContracts`, `PlanContracts`: the in-place `validate` methods of the contracts, and
  that a second call changes nothing.
- `AssetPaths`, `Assets`: path normalisation, locating ids, the assets a compile depends on, fingerprints.
- `AssetReuse`, `RecompiledAssets`, `ReuseWitness`: when a recorded fingerprint may stand for resolving again.
- `Capabilities`, `CapabilityGrants`: request dedupe, the precedence policy, sealed grants and their summaries.
- `GraphCompilation`, `TerminalActions`, `Materialization`, `RunPlans`, `NodeInvariants`, `AssetCoverage`:
  transitions, terminal actions, node and graph plans, the run plan, what holds of all its nodes, and which of
  its documents are recorded as assets.
- `PlanDecoding`, `SealedGrants`: what decoding a persisted plan does to its grants, and that they stay valid.
- `Persistence`, `CompileRuns`, `PlanCurrentness`: one compile attempt over the plan and diagnostics files, runs
  of attempts with inputs edited in between, and the report about the persisted plan.

A workspace is a map from paths to contents together with the listing of a directory walk. Decoders, digests
and the validation of parts with contracts of their own are function parameters; what is assumed of them is
written out in `ValidDigests`, `NamedDigests`, `NormalPrimitives`, `LoadsGraphs`, `DecodesRequests`, `Reads`,
`Builds` and `StableEnv`. Timestamps are given as text.

**Beside it** stand the stored-ZIP writer and its CRC-32 (`Crc32`, `ZipArchive`; APPNOTE sections 4.3.7, 4.3.12
and 4.3.16, and section 8 of RFC 1952), the headed-markdown parser and printer for work documents and Recon
packets (`HeadedMarkdown`, `DocumentSchema`, `WorkFields`, `WorkDocuments`, `ReconPackets`), canonical JSON
(`CanonicalJson`, `StringOrder`), and the option parser (`OptionParser`). `Text`, `Sequences` and `Wrappers` are
shared.

## Findings

Three properties one would expect do not hold, the first for two reasons. Each is shown by an input, and the
exact condition is proved.

- **Reusing a plan is not always compiling again: a second file.** When an id was discovered by the id a file
  declares, a second file that declares it leaves the fingerprint, and so the cached plan, in force, though
  compiling fails (`AssetReuse.DiscoveredReuseDiverges`, and a small workspace in
  `ReuseWitness.SecondFileDiverges`; src/compiler/assets.rs:997-1033, src/compiler/persistence.rs:253-267).
- **Reusing a plan is not always compiling again: a padded grant.** Decoding a grant trims its request id,
  scope value and reason, while compiling keeps the reason of an override and the name of a runner as they are.
  With the reason ` x` or the runner ` codex_cli` the reused plan has the trimmed text and a compiled one has
  not (`SealedGrants.PaddedReasonIsTrimmed`, `SealedGrants.PaddedRunnerIsTrimmed`;
  src/contracts/capabilities.rs:162-170, src/contracts/capabilities.rs:454-486).
  Reuse agrees with compiling if and only if every id still resolves to its recorded path, as it does when all
  were found at their named paths, and no grant of the persisted plan has anything to trim
  (`CompileRuns.ReuseIsCompiling`).
- **Normalising a path twice is not normalising it once.** `./ a` becomes ` a`, which becomes `a`
  (`AssetPaths.NormalPathIsNotStable`; src/compiler/assets.rs:1199-1228). It is stable if and only if the
  first kept part does not begin and the last does not end with white space
  (`AssetPaths.NormalPathStaysExactly`). All paths recorded as assets are stable.
- **A report about the persisted plan can fail where compiling does not.** When the configuration does not load
  and a blank mode is requested, compiling takes the default mode but the fallback fingerprint takes the blank
  one and is refused (`PlanCurrentness.BlankModeIsRefused`; src/compiler/persistence.rs:470-501). The report
  fails if and only if that is so (`PlanCurrentness.InspectionFailsExactly`).

## Model

| member | source | states |
|---|---|---|
| CompileRuns.ReuseIsCompiling | src/compiler/persistence.rs:253-267 | in any run that starts without a plan, what a reusing attempt returns is what a full compile of its inputs gives, but for the time, exactly when every id still resolves to the path of the last successful compile and no grant of its plan has anything to trim; the first holds when all were at their named paths |
| PlanDecoding.PlanDecodes | src/contracts/capabilities.rs:454-486 | decoding a plan changes it exactly when some grant has a request id, scope value or given reason to trim, and leaves none |
| PlanDecoding.DecodedPlanIsValid | src/compiler/persistence.rs:424-442 | a valid plan whose grants decode to valid ones is valid when decoded |
| SealedGrants.CompiledPlanReloads | src/contracts/capabilities.rs:419-486 | every grant of a compiled plan passes its contract when decoded, requests having been decoded when loaded |
| SealedGrants.PaddedReasonIsTrimmed | src/compiler/materialization.rs:893-908 | a valid grant under an override with a padded reason, which decoding changes |
| SealedGrants.PaddedRunnerIsTrimmed | src/compiler/materialization.rs:660-674 | a valid grant for a runner with a padded name, which decoding changes |
| ReuseWitness.SecondFileDiverges | src/compiler/assets.rs:997-1033 | a workspace with one discovered mode, whose fingerprint survives a second declaring file while resolving fails |
| NodeInvariants.PlanNodes | src/compiler/materialization.rs:188-296 | what holds of every node plan when made, and survives validation and authority, holds of every node of a compiled plan |
| CompileRuns.PersistedIsLastSuccess | src/compiler/persistence.rs:233-318 | after any run over any inputs the persisted plan is that of the last full successful compile, or the initial one |
| CompileRuns.FailuresKeepPlan | src/compiler/persistence.rs:292-318 | attempts that all fail to compile leave the plan file alone |
| CompileRuns.AttemptKeeps | src/compiler/persistence.rs:280-299 | the plan file changes only with a full successful compile; diagnostics change with every attempt but a reuse and a failure that is not to be kept |
| CompileRuns.AttemptsSucceed | src/compiler/persistence.rs:280-299 | no attempt fails to save its documents |
| CompileRuns.ReturnedPlanIsCurrent | src/compiler/persistence.rs:300-317 | with stale plans refused, any returned plan has the fingerprint of the inputs found, whether reused, compiled or fallen back to |
| CompileRuns.FallbackIsLastKnownGood | src/compiler/persistence.rs:292-317 | a failed attempt returns the last known good plan exactly when it is not refused as stale, and says so |
| CompileRuns.CompilerIsSound | src/compiler/persistence.rs:424-442 | materialized plans pass validation unchanged on save, and decoded on load; they record their assets and fingerprint, and depend on the time only in `compiled_at` |
| Persistence.PlanStore.CompileAndPersist | src/compiler/persistence.rs:233-318 | both files and the outcome after one attempt are those the step function gives |
| PlanCurrentness.CurrentnessIsExact | src/compiler/persistence.rs:330-379 | after any run from no plan: `Missing` exactly when nothing compiled; else `Current` exactly when mode, configuration and every listed asset are those of the last compile, and `Unknown` exactly when the configuration does not load |
| PlanCurrentness.StateIsExact | src/compiler/persistence.rs:337-361 | the same for the plan of one earlier compile |
| PlanCurrentness.InspectionFailsExactly | src/compiler/persistence.rs:470-501 | the report is refused exactly for a blank requested mode without a configuration |
| PlanCurrentness.BlankModeIsRefused | src/compiler/persistence.rs:470-501 | an input where the compile takes the default mode and the report is refused |
| AssetReuse.FingerprintIsExact | src/compiler/assets.rs:703-757 | with injective digests, fingerprints of the same listed assets are equal exactly when mode, configuration and every content are |
| AssetReuse.FingerprintForgetsOrder | src/compiler/assets.rs:729-741 | listing the assets in another order gives the same fingerprint |
| AssetReuse.ReuseIsExact | src/compiler/assets.rs:570-692 | under an unchanged fingerprint, resolving again gives the recorded resolution exactly when every id is still located |
| AssetReuse.NamedReuseIsSound | src/compiler/assets.rs:941-995 | ids found at their named paths stay located under an unchanged fingerprint |
| AssetReuse.DiscoveredReuseDiverges | src/compiler/assets.rs:997-1033 | a second declaring file keeps the fingerprint and makes resolving fail |
| RecompiledAssets.SameReferencesExactly | src/compiler/assets.rs:759-881 | under an unchanged fingerprint, resolving again lists the same references exactly when every id is still located |
| AssetPaths.NormalizeRuntimePath | src/compiler/assets.rs:1199-1228 | the loop over segments decides and computes the normal path |
| AssetPaths.NormalPathStaysExactly | src/compiler/assets.rs:1199-1228 | normalising is idempotent at a path exactly when its kept parts have plain ends |
| AssetPaths.NormalPathIsNotStable | src/compiler/assets.rs:1199-1228 | an input where it is not |
| AssetPaths.FramingIsInjective | src/compiler/assets.rs:743-755 | the NUL framing of NUL-free fields is injective |
| AssetPaths.SortingForgetsOrder | src/compiler/assets.rs:729-741 | rearranged references sort to the same listing |
| Assets.DiscoverByDeclaredId | src/compiler/assets.rs:997-1033 | finds exactly the listed files of a directory that declare the id, in order |
| AssetCoverage.FrozenPathsAreCovered | src/compiler/assets.rs:797-881 | every entrypoint, required and attached skill frozen into any node of a compiled plan is a recorded asset |
| AssetCoverage.SelectedCovered | src/compiler/assets.rs:797-881 | whatever a node asks for is recorded under its normalised path |
| RunPlans.PlanKeepsMeaning | src/compiler/materialization.rs:188-296 | in a compiled plan the export of each plane shows exactly the labelled steps of one loaded graph of that plane, and every walk takes known nodes and legal outcomes, ends in known states and keeps the handoff rule |
| RunPlans.OnlyTheTimeDiffers | src/compiler/materialization.rs:188-296 | compiling at another time changes `compiled_at` only |
| Materialization.GraphPlanKeepsFlow | src/compiler/materialization.rs:299-370 | freezing and validating a graph keeps its edges, entries, states and compiled transitions |
| Materialization.FlowKeepsMeaning | src/compiler/graph_exports.rs:99-190 | a plan with those shows the same steps, and only good walks |
| Materialization.MaterializeNode | src/compiler/materialization.rs:373-496 | the overwriting layers and the grants give the node plan |
| Materialization.LayerSettings | src/compiler/materialization.rs:385-440 | mode settings win over configured ones, and those over the node's own |
| GraphCompilation.CompileGraphTransitions | src/compiler/materialization.rs:498-517 | one transition for every edge and outcome, in order |
| GraphCompilation.CompilingKeepsSteps | src/compiler/materialization.rs:498-517 | compiled transitions allow exactly the steps of the edges |
| GraphCompilation.ExportKeepsSteps | src/compiler/graph_exports.rs:99-190 | the export shows exactly the steps of the transitions |
| GraphCompilation.ExportedWalksAreGood | src/compiler/contracts.rs:1058-1089 | every step of every walk through the export is declared, between known places, legal and keeps the handoff rule |
| CompilerContracts.GraphStable | src/compiler/contracts.rs:884-1056 | validating a validated graph succeeds and changes nothing |
| CompilerContracts.StageKindStable | src/compiler/contracts.rs:1181-1306 | the same for stage kinds |
| PlanContracts.FrozenStable | src/compiler/contracts.rs:1679-1789 | the same for frozen graph plans |
| PlanContracts.PlanStable | src/compiler/contracts.rs:1938-2101 | the same for run plans, given it of the parts with contracts of their own |
| PlanContracts.GraphDefinition.Validate | src/compiler/contracts.rs:884-1056 | rewrites the fields to the normal graph, which a second call leaves as it is, or reports its first error |
| PlanContracts.StageKindDefinition.Validate | src/compiler/contracts.rs:1181-1306 | rewrites the fields to the normal stage kind, which a second call leaves as it is, or reports its first error; only result classes with both a bad and a colliding key leave the error to the order of a hash map |
| Normalizers.ScanToken | src/compiler/contracts.rs:2268-2287 | the two-flag scan accepts exactly words joined by single separators |
| Normalizers.NormalizeEach | src/compiler/contracts.rs:2257-2266 | overwriting one after another normalises the list or stops at the first error |
| Normalizers.DedupeValues | src/compiler/contracts.rs:2708-2714 | keeps the values that do not occur earlier |
| Normalizers.NormalizeMap | src/compiler/contracts.rs:2448-2474 | rekeys the map, in whatever order its entries come, and fails on colliding keys; the order matters to the error only when keys fail both ways |
| Normalizers.RekeyedStable | src/compiler/contracts.rs:2448-2474 | rekeying a rekeyed map changes nothing |
| Normalizers.NonEmptyTextStable | src/compiler/contracts.rs:2333-2346 | joining the words of joined words changes nothing |
| Normalizers.MarkdownPathStable | src/compiler/contracts.rs:2358-2374 | a checked asset path is checked unchanged |
| Capabilities.DedupeCapabilityRequests | src/compiler/materialization.rs:751-771 | the in-place merge is the fold over the requests |
| Capabilities.DedupeIsGrouping | src/compiler/materialization.rs:751-771 | distinct keys in first-occurrence order, each with the OR of its group's flags, its first non-blank reason and first policy source |
| Capabilities.DedupeAbsorbs | src/compiler/materialization.rs:751-771 | deduping what is deduped with more is deduping all |
| CapabilityGrants.DecisionFollowsPrecedence | src/compiler/materialization.rs:872-929 | configuration default, then last applicable override of graph node, mode and stage kind, then framework and unknown defaults |
| CapabilityGrants.ResolutionIsTotal | src/compiler/materialization.rs:782-870 | resolving fails exactly for a required advisory grant with enforcement demanded; all else passes the grant contract with evidence pending exactly when granted |
| CapabilityGrants.ResolveGrant | src/compiler/materialization.rs:782-870 | the branches give that resolution |
| CapabilityGrants.CompiledGrantsPerKey | src/compiler/materialization.rs:584-658 | one grant for every distinct key in order, or an error exactly when one does not resolve |
| CapabilityGrants.Summarize | src/compiler/materialization.rs:1118-1136 | the loop counts exactly the grants by state and enforcement |
| CapabilityGrants.SummariesConserve | src/compiler/materialization.rs:1090-1136 | summaries of parts add up to that of the whole, and pass their contract |
| TerminalActions.BindRules | src/compiler/workflow_primitives.rs:366-438 | fails exactly when a node and outcome are bound twice |
| TerminalActions.MappingOfValidBundle | src/compiler/workflow_primitives.rs:813-883 | at most one rule for an outcome; its action wins over that of the class; every outcome that ends in a known state is mapped |
| TerminalActions.EveryEndIsMapped | src/compiler/workflow_primitives.rs:813-883 | in the plan of a validated graph every outcome that ends is mapped |
| TerminalActions.TerminalActionMappings | src/compiler/workflow_primitives.rs:813-861 | for a valid bundle fails exactly when a class that is ended in has no action |
| Crc32.ComputeChecksum | src/cli/skills.rs:1086-1096 | the masked bit loops compute the checksum and its table-driven form |
| Crc32.ChecksumIsTableDriven | src/cli/skills.rs:1086-1096 | the checksum is that of section 8 of RFC 1952 for all bytes |
| Crc32.BurstsAreDetected | src/cli/skills.rs:1086-1096 | texts differing inside four bytes differ in checksum, and only then |
| ZipArchive.ReadImage | src/cli/skills.rs:932-972 | a reader by the APPNOTE sections recovers names, contents and checksums in order from every archive that fits |
| ZipArchive.FitsByLengths | src/cli/skills.rs:1078-1084 | what fits, by the lengths of names and contents alone |
| ZipArchive.ArchiveFile.WriteArchive | src/cli/skills.rs:932-972 | succeeds exactly when every ZIP32 field fits, and what is written reads back |
| SkillExport.Export | src/cli/skills.rs:932-972 | the exported archive reads back as the packaged files with their true checksums |
| CanonicalJson.CanonicalTextIsUnique | src/contracts/capabilities.rs:774-801 | equal texts exactly for values equal up to the order of members at every depth |
| CanonicalJson.CanonicalTextIsPrefixFree | src/contracts/capabilities.rs:774-801 | the text of a value ends where it ends, whatever may follow |
| OptionParser.ArgTable.ParseArgs | src/cli/parser.rs:73-114 | the loop leaves the table of the parse, or its error |
| OptionParser.SpellingDoesNotMatter | src/cli/parser.rs:73-114 | writing an inline value apart changes neither table nor error, at any place in any argument list |
| OptionParser.DashedValueIsMissing | src/cli/parser.rs:90-104 | an inline value beginning with a dash is stored, but reported missing when written apart |
| OptionParser.ParseStoresWell | src/cli/parser.rs:129-159 | only known options with admissible values are stored, and none twice that is not repeatable |
| OptionParser.PositionalsKeepOrder | src/cli/parser.rs:106-111 | positionals are the leftover arguments in order |
| HeadedMarkdown.ParseMarkdownFields | src/work_documents.rs:517-619 | the index loop with its skip rules is the parse |
| HeadedMarkdown.RenderedParses | src/work_documents.rs:260-515 | for every table, dialect and order, what is written is read back whole |
| HeadedMarkdown.ParseClean | src/work_documents.rs:517-619 | every accepted value is trimmed and on one line |
| HeadedMarkdown.RenderDocument | src/work_documents.rs:1103-1136 | pushing lines gives the rendering |
| DocumentSchema.BuildWellFormed | src/work_documents.rs:740-898 | whatever fields are accepted make a well-formed document |
| DocumentSchema.BuildKeeps | src/work_documents.rs:740-898 | a well-formed document is rebuilt from its fields |
| WorkFields.LabelsAreKnown | src/work_documents.rs:1017-1085 | each of the 62 labels is well formed and names its own field |
| WorkDocuments.RoundTrip | src/work_documents.rs:260-515 | parsing undoes rendering exactly for well-formed documents, for all five kinds |
| WorkDocuments.RenderingAcceptedTextIsStable | src/work_documents.rs:50-66 | whatever is accepted renders to a text that parses to the same document |
| WorkDocuments.KindIsKept | src/work_documents.rs:698-719 | the kind of a well-formed document is inferred from its fields |
| WorkDocuments.OnlyItsOwnKind | src/work_documents.rs:721-738 | a rendered document is read by its own kind's parser and refused by the other four |
| ReconPackets.FindingRoundTrip | src/recon_packets.rs:356-370 | a finding is undone exactly when trimmed, not empty and without a bar in its path |
| ReconPackets.RoundTrip | src/recon_packets.rs:30-130 | parsing undoes rendering exactly for well-formed packets |
| ReconPackets.RenderingAcceptedTextIsStable | src/recon_packets.rs:96-130 | whatever is accepted renders to a text that parses to the same packet |

## Left out

- Files, clocks and randomness: writes succeed, timestamps are parameters, and the configuration is given as loaded or not; the field-by-field TOML loading of src/compiler/assets.rs:420-551 is not modelled.
- Digests are functions that are injective where a result says so, although the source truncates them to 12 hex digits; JSON encoding and decoding of persisted documents is taken to give back what was written, except for grants, whose decoding is modelled.
- Error wording is left out; errors are tags, and where a contract has several failures it is one of three tags.
- Assets.Select: does not fix which of several failures of a mode is reported first, because the checks on stage maps and references share one tag.
- The directory walk is a given listing; a listed path is a path that opens.
- PlanContracts.PlanStable: takes the contracts of workflow primitives, trigger rules, lane policy and concurrency policy as one stable function, because each is a contract of its own outside the core; whether there are trigger rules at all is modelled.
- Materialization.MaterializeNode: does not give the warnings and the policy fingerprint of a node plan, because both are text derived from what is modelled.
- CapabilityGrants.ResolveGrant: does not give the fingerprint text of a grant, because it is a digest of the fields that are modelled.
- Persistence.PlanStore.CompileAndPersist: does not model failing writes.
- Frozen graph plans and run plans are validated as values and not in objects, so updating them in place is not modelled; graph loops and stage kinds are objects.
- `build_lane_policy`, `select_workflow_primitives` and the adapters of src/compiler/workflow_primitives.rs:153-365: the primitives a plan uses are given.
- The check of a graph export against its own contract (src/compiler/graph_exports.rs:188) and the export time are not modelled; `ExportGraph` gives the export before that check.
- The wording of composed decision reasons.
- `Timestamp::parse`, JSON metadata and the `validate` bodies of documents are functions that a document must pass.
- The two parser maps of scalars and lists are one map from fields to values.
- JSON numbers are kept as their text, so two spellings of one number differ.
- The archive file left behind by a failed export, and finding and sorting the packaged files.
- Command dispatch, remote skills, import of JSON documents, and the runtime, queue and runner modules.
