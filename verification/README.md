# A verified model of aha's Archive, Workspace and capture

aha captures coding-agent sessions on many machines, publishes each machine's state to a shared object store (the
Archive) and pulls every machine's latest state into a local, searchable Workspace. This project models the parts
whose correctness spans several functions and proves what they are for.

**Publication.** Clients push to one store that offers read, put-if-absent and compare-and-set, and nothing else.
`Publication` gives a push as a program over single store calls and interleaves any number of pushes; one that is
never scheduled again has crashed. `Publisher.Push` is the same push as sequential code among clients that may do
anything the protocol allows between its calls; each of its calls is proved to be its phase's next call, so the
invariants over runs are about this code. `Readers` plans downloads and materialisations and audits the Archive
while writers go on. `LocalStore` shows that the local directory's multi-call writes take effect at one point in
time, as the two conditional primitives, given that others honour its lock. Facts about a machine are stated per
namespace, since the namespace sanitiser is not injective (`Namespaces`). `Manifests` treats the snapshot encoding as
a normal form.

**The Workspace.** `Workspace` says what taking in one session file means for the tables, `Projection` what every
ingest keeps, and `Ingestion` is the writer itself with its hash maps, its loops and its rollback, proved to compute
exactly that meaning. `Projected` says column by column what a session file leaves in the tables, and `Quarantine` that
what is refused is written down. `Pairing` joins tool calls to results, `Episodes` proves the one-pass failure-episode scan
equal to a declarative reading, `Trajectory` and `StoredEpisodes` connect stored episodes with what the trajectory
reader answers, `Growth` shows that a session taken in while it grows ends as if taken in once, `Redaction` that no
projected text bypasses the redactor, `ReadWalks` covers the two parent-chain walks, and `Pulling` binds, ingests and
records the materialised vector, with the process dying after any number of transactions.

**Capture.** `CaptureCache` is the racy-mtime scan cache among writers, over any sequence of runs and writes. `Refs`
covers canonical refs: base64url without padding (sections 5 and 3.2 of RFC 4648), the split on ':' and the
length-prefixed session key.

Conventions. A content address is carried as the content it addresses, so no hash axiom is needed and equality of
addresses is equality of content; a session key is carried as its three parts (`Refs.SessionKeysDistinct` says why
that loses nothing). Other processes are a function from call number and state to state, constrained only where a
contract says so. Backoff does nothing. Blobs, parsers, redactors, normalisers and clocks are parameters. Where a
result needs something of the adapters it says `Regular`: one raw entry of a source yields calls whose ids agree
ordinal by ordinal, as counting them entry by entry does (`internal/adapters/parser.go:182-183`,
`internal/adapters/opencode.go:275-279`; the calls of `internal/adapters/codex.go:271-283` stand alone).

## Where the source does less than its text says

- The comment at `internal/corpus/ingest.go:484-493`, like the design's parse-once rule, promises that identical bytes
  under another session id are always parsed. The lookup at `internal/corpus/ingest.go:494-505` compares machine,
  source, paths and bytes only. Nor does it look at the manifest's tool-output policy
  (`internal/archive/capture_state.go:209`): after that is turned on, an unchanged file is skipped where parsing would
  store messages for its tool results (`internal/corpus/ingest.go:783`, `internal/corpus/ingest.go:874-885`).
  `Projection.ShortcutSafeIff` gives the exact condition over two manifests, `Projection.ToldApart` and
  `Projection.NewlyIndexed` the two ways it fails, and `Projection.NewlyIndexedIsMissed` the second over whole ingests.
- `internal/archive/capture_cache.go:16-19` says a modification in the instant of the cache's writing can never be
  masked. A run that saves without revisiting an entry it keeps (a filtered capture, or an image skipped at
  `internal/archive/capture_state.go:162` and still kept at 178-180) can mask one:
  `CaptureCache.UnvisitedEntryMisleads`. `CaptureCache.PromotionSafeIffSettled` says which kept entries are safe.
- A plan can read back wholly and still not replay, when machine ids sanitise to one namespace. Over any set of ids
  every readable plan replays exactly when no two of them do: `Pulling.ReplaysIffDistinctNamespaces`. From an empty
  Archive two such machines do push and register, and the plan then frozen cannot replay:
  `Pulling.BothRegisterThenNoReplay`.
- On Windows the local store's lock excludes nobody (`internal/depot/local_lock_windows.go:5`). A conditional write is
  one compare-and-set among processes that honour the lock exactly where it locks: `LocalStore.SwapIffLocked`.
- Ref parsing accepts texts that formatting never gives, for instance with a line break (`Refs.OtherTextsParse`). A
  text that parses is the canonical one exactly when no base64 part of it has a line break or stray low bits:
  `Refs.RefCanonicalIff`.

## Model

| member | source | states |
|---|---|---|
| Publication.StepKeeps | internal/depot/depot_v2.go:723-925 | One store call of one push, from any consistent store, leaves it consistent, loses nothing, and leaves true everything the push relies on later, carried receipts included. |
| Publication.RunSound | internal/depot/push_v2.go:134-254 | In every state of every interleaving of pushes that may stop anywhere: pointers name manifests of their own namespace, every blob a stored manifest lists is stored, the registry names only machines with a pointer, and no push has ended unreadable, damaged or short of a receipt. |
| Publication.FreshArchiveSafe | internal/depot/push_v2.go:134-254 | The same from an empty store, with no hypothesis on the interleaving. |
| Publication.RunGrows | internal/depot/depot_v2.go:742-925 | Between any two moments no object disappears, blobs and manifests keep their content, and the registry only gains machines. |
| Publication.RegistrationsAreKept | internal/depot/depot_v2.go:883-925 | After a push reported success its machine stays registered and its snapshot readable for the rest of the run. |
| Publication.PointerMovesFromParent | internal/depot/depot_v2.go:831-881 | A pointer changes only by a push's swap, from exactly the parent (or absence) that push captured to the snapshot it published. |
| Publication.CapturedIsBehind | internal/depot/depot_v2.go:723-737 | Reading the pointer captures exactly what it then names as the push's parent, or ends the push. |
| Publication.OneWinnerPerParent | internal/depot/depot_v2.go:831-881 | Of pushes that captured one parent, the one that moves the pointer does it by its swap; every other one, however run, never publishes and given its calls ends stale (or with its source failed, or contended if it was at its last attempt), unless the pointer returns to the parent or comes to that push's own snapshot. |
| Publication.LoserIsStale | internal/depot/depot_v2.go:840-881 | Over any run in which the pointer is away from a push's captured parent and own snapshot, that push never publishes and, given its bounded number of calls, ends stale, with its source failed, or contended if it was at its last attempt. |
| Publication.EveryPushEnds | internal/depot/depot_v2.go:831-925 | The retry loops are bounded: however pushes are interleaved, each ends within 53 of its own store calls beyond one per file. |
| Publication.GivesUpAfterTwelve | internal/depot/depot_v2.go:68-69 | Over any run a push gives up on the pointer, or on the registry, exactly when it has lost its twelfth swap of it; after fewer it is at its next round. |
| Publication.LostPointerIsRefused | internal/depot/push_v2.go:134-150 | A push that must have a parent and finds no pointer is refused as damaged; any other begins afresh. |
| Publication.BarePublishes | internal/depot/push_v2.go:134-254 | For every machine, a push of an empty snapshot to an empty Archive publishes and registers in seven calls: the invariants describe reachable states. |
| Publication.BothRegister | internal/depot/push_v2.go:134-254 | Two machines of one namespace, one after the other, both publish and register, and share one pointer. |
| Publisher.Push.Send | internal/depot/objectstore_v2.go:22-48 | Others act, then this push's call takes effect atomically; the reply and the push's phase follow the protocol. |
| Publisher.Push.FetchParent | internal/depot/depot_v2.go:723-737 | The parent read is found whatever others do; alone it is the pointer's snapshot and nothing is written. |
| Publisher.Push.UploadOne | internal/depot/depot_v2.go:742-785 | A repeat gets no receipt, a file of the parent a carried one without touching the store, any other one from a put-if-absent saying whether it was there. |
| Publisher.Push.Upload | internal/depot/push_v2.go:202-240 | One receipt per distinct content, covering exactly the manifest's blobs, each of its proper kind. |
| Publisher.Push.PublishSnapshot | internal/depot/depot_v2.go:790-821 | With receipts covering the manifest it is published under its own identity with the captured parent. |
| Publisher.Push.EnsureInIndex | internal/depot/depot_v2.go:883-925 | Ends registered unless others registered at least twelve machines meanwhile; it gives up only after exactly twelve reads and twelve swaps; alone it succeeds, and writes nothing if already registered. |
| Publisher.LostRaceIsGrowth | internal/depot/depot_v2.go:883-925 | A registry that differs from the one read names strictly more machines. |
| Publisher.Push.SetLatest | internal/depot/depot_v2.go:831-881 | Stale only if the pointer is elsewhere, and certainly if it is elsewhere and stays so; contended on the pointer only if it returned to the expected parent, and only after exactly twelve rounds; alone and not overtaken it completes pointer and registry. |
| Publisher.Push.Execute | internal/depot/push_v2.go:134-254 | The whole push: exact refusal of invalid manifests, never unreadable, damaged or uncovered; stale only if the pointer is elsewhere, contended on the registry only after twelve registrations by others, on the pointer only if it returned to the parent; counts add up to the distinct blobs; alone, from whatever a crashed push left, it completes pointer and registry; with unchanged state in a complete namespace it writes nothing and reports the parent. |
| LocalStore.Directory.AtomicWriteCreated | internal/fileutil/hashcopy.go:27-80 | Stat, temporary file, stat, link is one put-if-absent at a state the process saw, whatever others do between the calls. |
| LocalStore.Directory.PutConditional | internal/depot/objectstore_v2.go:105-122 | Lock, read and compare, rename: where the lock locks and others honour it, the three calls are one compare-and-set on content at a state the process saw; in any case the outcome is the specified one. |
| LocalStore.SwapIffLocked | internal/depot/local_lock_unix.go:11-24 | Whatever others that honour the lock do, a conditional write is one compare-and-set exactly where locking excludes them. |
| LocalStore.PerformNeverLoses | internal/depot/objectstore_v2.go:22-48 | No call deletes, and only a swap that found the content it expected replaces an object. |
| ObjectStore.KeyTextsCollideOnlyInPlace | internal/depot/keys_v2.go:34-54 | Two objects share a key text exactly when they are the same object in a namespace of the same spelling: no machine id reaches the registry, a blob or another namespace. |
| ObjectStore.Layout | internal/depot/keys_v2.go:34-54 | The path of each kind of object. |
| Namespaces.SafeCatalogComponent | internal/depot/depot.go:116-141 | The sanitising loop, with its builder and last-dash flag, computes the namespace. |
| Namespaces.ComponentSafe | internal/depot/depot.go:116-141 | A namespace is non-empty lower-case alphanumerics, '-', '.' and '_' with an alphanumeric at both ends, or a digest. |
| Namespaces.ComponentIsClean | internal/depot/depot.go:116-141 | An id gets a clean name exactly when something of it survives; otherwise the namespace is the digest of the id. |
| Namespaces.ComponentIdempotent | internal/depot/depot.go:116-141 | Sanitising a clean name gives it back. |
| Namespaces.ComponentNotInjective | internal/depot/depot.go:116-141 | Distinct machine ids can share a namespace. |
| Namespaces.ComponentMeans | internal/depot/depot.go:116-141 | A namespace is the id without the white space around it, or "machine" if that is all there is, rewritten and stripped of dashes, dots and underscores at both ends; or the digest of the id if that leaves nothing. |
| Namespaces.RewriteSnoc | internal/depot/depot.go:116-141 | Character by character: what can stand is kept in lower case, and each run of anything else becomes one dash. |
| Namespaces.LowerMeans | internal/depot/depot.go:116-141 | In ASCII only capitals are folded, each to its letter; outside it just two characters fold into what survives. |
| Namespaces.SpacesMean | internal/model/identity.go:18-44 | White space is the twenty-five characters of the Unicode property. |
| Namespaces.NormaliseMachines | internal/depot/keys_v2.go:97-139 | Encoding the registry refuses exactly blank ids and otherwise gives the one ascending listing of the set. |
| Namespaces.ListingCanonical | internal/depot/keys_v2.go:97-115 | Registry bytes agree exactly when the sets of machines do. |
| Namespaces.BlankIsTrimmedAway | internal/model/identity.go:18-44 | The emptiness test of every identifier, on trimmed text, holds exactly of white space alone. |
| Manifests.ValidateSnapshot | internal/model/snapshot_manifest.go:207-316 | The validation loops accept exactly the valid sorted manifests. |
| Manifests.ManifestMeans | internal/model/snapshot_manifest.go:207-316 | What is valid, rule by rule, for both schemas. |
| Manifests.FileMeans | internal/model/snapshot_manifest.go:207-316 | What a file entry must be: path under its source and kind, declared source, hash in lower-case hex, size, copy state. |
| Manifests.SafePathMeans | internal/model/snapshot_manifest.go:207-316 | The test on positions accepts exactly paths whose every segment is non-empty and no dot name, without backslash and outside the reserved names. |
| Manifests.DecodeEncode | internal/model/snapshot_manifest.go:161-205 | Decoding undoes encoding up to the canonical order. |
| Manifests.DecodeAcceptsExactlyEncodings | internal/model/snapshot_manifest.go:188-205 | A text decodes to a manifest exactly when that manifest is canonical and the text is its encoding. |
| Manifests.SameEncodingIffRearranged | internal/model/snapshot_manifest.go:161-182 | Valid manifests share bytes exactly when they differ only in the order of files and features. |
| Manifests.StateIgnoresOnlyCapture | internal/model/snapshot_manifest.go:146-155 | State digests agree exactly when only captured_at and created_by (and order) differ. |
| Readers.FrozenPlanStaysReadable | internal/depot/depot_v2.go:372-448 | A plan readable at one moment of a run is readable with the same content at every later one. |
| Readers.Reader.PlanDownload | internal/depot/depot_v2.go:372-388 | Planning for registered machines among any writers never meets the missing-pointer error, covers exactly the machines, and selects only what can be read; alone the vector is the pointers, and each refusal names a machine whose pointer is missing, or is there and is none. |
| Readers.Reader.PreparedManifest | internal/depot/depot_v2.go:601-620 | Accepts exactly a stored, canonical, valid manifest of the asked identity and namespace. |
| Readers.Reader.PrepareMaterialisation | internal/depot/materialisation_plan.go:33-138 | Spools exactly the machines whose snapshot differs from the materialised one, ascending; counts each unknown blob once; refuses only an adapter that one of them needs and that is not run here at that version; never fails to read a readable plan; alone, names an unreadable manifest only where there is one. |
| Readers.RequireAdapters | internal/depot/materialisation_plan.go:148-159 | Accepts exactly when every required adapter is run at its version, and otherwise names one that is not. |
| Readers.NothingChanged | internal/depot/materialisation_plan.go:80-100 | Nothing is spooled exactly when the vector is already materialised. |
| Readers.Reader.Verify | internal/depot/depot_v2.go:1084-1260 | Among protocol writers it reports nothing; on a store at rest, whoever wrote it, it reports nothing exactly when every registered machine is sound at the depth asked, although blobs and manifests are checked once, and everything it does report of a machine is so. |
| Readers.SoundMeans | internal/depot/depot_v2.go:1084-1260 | A sound machine points at a stored, valid, canonical manifest of its own namespace whose blobs are all there; deep, they hold what their addresses say, and so do those of every other manifest of the namespace. |
| Pairing.BuildToolInvocations | internal/corpus/clusters.go:119-207 | The two gathering passes and the stepped index give each call with an id its first result and the n-th call without one the n-th result without one. |
| Pairing.InvocationsTold | internal/corpus/clusters.go:119-207 | Said of the invocations alone: the columns of its call; of a call with an id the first result naming it, of the n-th call without one the n-th result without one, error text and signature only of an error, and nothing at all of a call without a result. |
| Pairing.CallsMade | internal/corpus/clusters.go:140-165 | Which calls there are: those listed that name something, and the tool an entry names that lists neither calls nor results and is no result. |
| Pairing.InvocationsInOrder | internal/corpus/clusters.go:140-165 | Invocations come in the order of entries, and of calls in an entry. |
| Pairing.OrdinalKeyMeans | internal/corpus/clusters.go:166-169 | The key of a call without an id is '#' and its ordinal in decimal, filled with zeros to three characters. |
| Pairing.PairingIsPrefixStable | internal/corpus/clusters.go:119-207 | Extending a transcript keeps earlier invocations in place and never alters one whose outcome was observed. |
| Pairing.ObservedInOrder | internal/corpus/clusters.go:149-203 | Of two calls with the same id, or both without, the later is never observed before the earlier. |
| Pairing.InsertedRows | internal/corpus/ingest.go:641-674 | Insert-or-ignore leaves what was there and, per new row key, the first observed candidate. |
| Pairing.CountedIsNumbered | internal/adapters/parser.go:182-183 | Counting each entry's calls makes entry and ordinal name one call. |
| Pairing.NumberedTells | internal/corpus/clusters.go:166-169 | When entry and ordinal name one call, invocations sharing a row key share a call id, however ids are spelled. |
| Pairing.GrowingEqualsOnce | internal/corpus/ingest.go:641-674 | Storing a transcript as it grows leaves the rows that storing it once, grown, would. |
| Growth.GrowingSessionsStoreTheSame | internal/corpus/ingest.go:641-689 | The same of the tool_invocations rows as stored, over two manifests of one machine under one redactor and tool-output policy. |
| Growth.GrownEqualsOnce | internal/corpus/ingest.go:528-625 | From any state reached by ingesting, taking in a session's file and later the file it grew to leaves the entries, messages, tool invocations and episodes that the grown file alone would. |
| Episodes.AssembleSession | internal/corpus/episodes.go:105-205 | The one pass with its open map and in-place records gives exactly the episodes of the declarative reading. |
| Episodes.CallOrder | internal/corpus/episodes.go:207-228 | Calls are scanned unparsed times first, then by time, line, entry id and ascending ordinal. |
| Episodes.DefaultEpisodesMean | internal/corpus/episodes.go:42-47 | Without the scan's own notions: an episode for each failure not preceded by an unanswered one of its family; fixed by that family's first success if within forty calls and half an hour, with the families in between; every column from the call it is of. |
| Episodes.OpensIffAnswered | internal/corpus/episodes.go:120-127 | A failure opens an episode, its previous same-family call being no failure, exactly when every earlier failure of the family has been answered by a success. |
| Episodes.ResolvedIffSomeCandidate | internal/corpus/episodes.go:150-188 | An episode is resolved exactly when some later same-family success is inside both budgets, and then by the first success of its family, with the stored path. |
| Episodes.FirstSuccessDecides | internal/corpus/episodes.go:155-166 | Dropping an episode at its first out-of-budget success loses nothing. |
| Episodes.OpenersAreDistinct | internal/corpus/episodes.go:105-170 | No two episodes open at one call or are resolved by one call. |
| Episodes.ReadOrderIgnored | internal/corpus/episodes.go:209-228 | With unique (entry, ordinal), neither the sorted calls nor the episodes depend on the order rows are read in. |
| Trajectory.IncidentTrajectory | internal/corpus/incidents.go:369-489 | Ambiguous exactly when several episodes were resolved by the call asked for, or in the entry if no call is given; empty when none was; otherwise the arc of the one that was. |
| Trajectory.TrajectoryAgrees | internal/corpus/incidents.go:419-488 | For every resolved episode, asked for by its resolving call and whatever the read order: one match, and the opener followed by exactly the families of the stored path. |
| StoredEpisodes.StoredEpisodesAreScanned | internal/corpus/failure_episodes_migration.go:156-233 | Deleting and reinserting with insert-or-ignore drops no episode of the scan. |
| StoredEpisodes.CountedIsRegular | internal/adapters/opencode.go:275-279 | Adapters that count an entry's calls and read a raw entry one way are regular. |
| StoredEpisodes.CallsAreKeyed | internal/corpus/tool_invocations_migration.go:11 | In every state reached by ingesting with regular adapters, entry and ordinal name one stored call of a session. |
| StoredEpisodes.CallsTold | internal/corpus/failure_episodes_migration.go:156-233 | The calls the episodes are built of are the session's tool rows, each on its entry's line. |
| StoredEpisodes.HeldEpisodesTold | internal/corpus/failure_episodes_migration.go:156-233 | In every such state the episodes held for a session are those its stored calls tell, each once, by opening time, entry id and ordinal. |
| StoredEpisodes.StoredTrajectoryAgrees | internal/corpus/incidents.go:369-489 | In every such state, trajectories agree with the episodes the table holds. |
| Projection.EntriesAgreeAndNeverChange | internal/corpus/ingest.go:717-782 | After any sequence of ingests a stored entry keeps its row for ever and every machine's copy of that source entry has the same hash. |
| Projection.DoneStays | internal/corpus/ingest.go:751-764 | A refused entry is refused in every later state and an accepted one stays accepted. |
| Projection.AbsorbedStays | internal/corpus/ingest.go:528-625 | A file once taken in stays taken in, whatever is ingested afterwards under whatever policy. |
| Projection.ReprocessingIsQuiet | internal/corpus/ingest.go:528-625 | Parsing it again under the same tool-output policy, however much later, writes no session, entry, message, tool invocation or episode. |
| Projection.SessionKeeps | internal/corpus/ingest.go:594-625 | Taking in a new session file keeps cross-machine agreement, the foreign keys, current episodes, truthful version rows and tool rows of distinct keys, each of a parsed call of a stored entry; it loses nothing, and absorbs the file. |
| Projected.FileTold | internal/corpus/ingest.go:528-842 | Every column a session file adds: session, entry, message and tool rows, which entries get a message, which texts are redacted, which signature a failure gets. |
| Projected.SessionIdTold | internal/corpus/ingest.go:528-560 | A session is named by the parser, else by the manifest, else by its file's name without directories and last extension. |
| Projected.ReadableMeans | internal/corpus/ingest.go:507-560 | A session file can be taken in exactly when its adapter, given all the manifest says of the file, parses it, and source, machine, session id and every entry id can be recorded. |
| Projected.TakenIffKnownOrRead | internal/corpus/ingest.go:420-466 | A file is taken in exactly when it is a known session, or its bytes open, are as long as listed and, for a session, parse. |
| Projected.AcceptedMeans | internal/corpus/ingest.go:641-650 | Calls are paired over exactly the entries stored with their own content. |
| Projected.SnapshotNoted | internal/corpus/ingest.go:44-60 | A successful ingest leaves one attempt, a duplicate exactly if the snapshot was there before, and then nothing else. |
| Quarantine.ConflictsAreRefusals | internal/corpus/ingest.go:751-764 | The conflict rows a file adds are exactly one for each of its entries that is not stored as it has it, in order, with its content, this manifest and another content that is stored for that source entry. |
| Quarantine.RunRowsTrue | internal/corpus/ingest.go:751-764 | After any sequence of ingests every conflict row names a recorded snapshot, a session file it lists and an entry of it refused for a stored content. |
| Quarantine.NothingVanishes | internal/corpus/ingest.go:751-764 | No entry of a recorded snapshot vanishes: each listed session file was parsed as some successful ingest listed it, and each entry is stored with its content or quarantined with it. |
| Projection.RunSound | internal/corpus/ingest_snapshot.go:56-141 | After any sequence of snapshots, failures rolled back, all of that holds and every recorded snapshot is wholly taken in. |
| Projection.ShortcutEqualsReparse | internal/corpus/ingest_snapshot.go:96-112 | After any history whose successful ingests, where they list this machine's version of the file, describe it as now and index tool output if now it is indexed, skipping it equals parsing it again apart from conflict rows. |
| Projection.ShortcutSafeIff | internal/corpus/ingest.go:484-505 | Over a manifest and a later one of its machine: whatever the parser, skipping a listed version is parsing it exactly when session id, working directory, start time and subagent flag agree too and tool output is not newly indexed. |
| Projection.NewlyIndexedIsMissed | internal/corpus/ingest_snapshot.go:96-112 | After a snapshot, one with tool output newly indexed that lists the same file leaves its result without a message, which ingested alone it would have stored. |
| Redaction.EverythingRedacted | internal/corpus/ingest.go:691-842 | After any sequence of ingests every projected text has been through a redactor: raw entries, metadata, messages, commands, file lists, families, signatures, tool commands and outcomes, and episodes with their paths. |
| Ingestion.Ingestor.IngestEntry | internal/corpus/ingest.go:751-842 | On hash maps read when the file began, the new tables are those of looking in the tables themselves: conflict row, or entry and message insert-or-ignore. |
| Ingestion.Ingestor.CrossMachineEntryHashes | internal/corpus/ingest.go:734-749 | Exactly the hashes other machines hold for the source session, by entry. |
| Ingestion.Ingestor.InsertToolInvocations | internal/corpus/ingest.go:641-708 | The new rows are those of pairing the accepted entries and inserting each observed call not yet there. |
| Ingestion.Ingestor.RebuildFailureEpisodes | internal/corpus/failure_episodes_migration.go:156-233 | The session's episodes become those of its stored calls; nothing else changes. |
| Ingestion.Ingestor.KnownSessionVersionKey | internal/corpus/ingest.go:494-505 | Finds a recorded version exactly when one exists, and the one session it can belong to. |
| Ingestion.Ingestor.IngestSessionFile | internal/corpus/ingest.go:528-625 | Succeeds exactly when the version is known or the file parses with acceptable keys, with exactly the specified tables. |
| Ingestion.Ingestor.IngestPreparedSnapshot | internal/corpus/ingest_snapshot.go:35-141 | All of a snapshot or none of it; nothing stored is lost; a snapshot already recorded is only a new attempt row; no blob is asked for that the manifest does not list, and none at all for a recorded snapshot or a missing adapter. |
| Pulling.BoundWorkspace.Pull | internal/cli/depot_v2_helpers.go:103-179 | What it leaves is exactly the ingests of the first manifests spooled, under the redactor and level given, so whatever that redactor cleans stays clean; dying after any number of transactions leaves a vector naming only wholly ingested snapshots; completed, binding and vector are the plan's; every other outcome has its stated cause, at that manifest, and keeps the old vector; the blobs asked for are among those of spooled manifests not taken in yet. |
| Pulling.BoundWorkspace.Bind | internal/corpus/workspace_state.go:14-36 | The first binding is kept and any other Archive refused. |
| Pulling.BoundWorkspace.RecordMaterialisedVector | internal/corpus/workspace_state.go:51-77 | Replaces the vector by exactly the one given, or refuses all of one with an empty machine id. |
| Pulling.BoundWorkspace.WorkspaceState | internal/corpus/workspace_state.go:96-127 | Current exactly when bound to this Archive with this vector. |
| Pulling.EqualVector | internal/corpus/workspace_state.go:117-127 | The one-sided comparison with a size check decides equality of vectors. |
| Pulling.ReplanSpoolsNothing | internal/depot/materialisation_plan.go:80-100 | After a completed pull, planning for the same vector spools nothing. |
| Pulling.PlannedSupplies | internal/depot/materialisation_plan.go:80-100 | What planning against a Workspace's own vector spools suffices to pull from, also after further ingests. |
| Pulling.OpensOnlyListed | internal/depot/materialisation_plan.go:188-223 | What replaying a manifest leaves is the same under two fetchers that agree on the blobs it lists. |
| Pulling.ReplaysIffDistinctNamespaces | internal/depot/materialisation_plan.go:188-223 | Over a set of machine ids, every readable plan passes the replay's identity check exactly when no two of them share a namespace. |
| Pulling.SharedNamespaceNeverReplays | internal/depot/materialisation_plan.go:188-223 | With two registered machines of one namespace, the plan of everything registered reads back and cannot pass it. |
| Pulling.BothRegisterThenNoReplay | internal/depot/materialisation_plan.go:188-223 | Such a state is reached from an empty Archive by two complete pushes. |
| ReadWalks.ReadBranch | internal/corpus/read.go:191-238 | Answers the path from root to leaf exactly when there is one, and otherwise a cycle or dangling parent really above the leaf. |
| ReadWalks.RootedExcludes | internal/corpus/read.go:212-233 | A way to the root leaves no cycle and no dangling parent to report. |
| ReadWalks.LiveContext | internal/corpus/read.go:98-178 | Answers a climb meeting no entry twice that stops at the anchor of its nearest compaction or at the root; a cycle, dangling parent or missing anchor is answered when it is met before the stop. |
| ReadWalks.LiveContextShows | internal/corpus/read.go:142-178 | What it answers is exactly the participating entries walked over: compactions as met, then the others from last met to first. |
| ReadWalks.LiveAnswersOnce | internal/corpus/read.go:98-178 | That leaves nothing open: for each session and leaf there is one such answer, so an answered branch excludes a cycle met before its stop. |
| ReadWalks.ReadAnswersOnce | internal/corpus/read.go:191-238 | For each session and leaf ReadBranch has one answer, and a cycle is reported at the first entry met again. |
| ReadWalks.FaultsAgree | internal/corpus/read.go:98-238 | Both walks report the same cycle or dangling parent, unless LiveContext stopped below it. |
| ReadWalks.LiveContextReadsTheBranch | internal/corpus/read.go:84-178 | When ReadBranch succeeds, LiveContext does exactly if the nearest compaction's anchor is on the branch at or above it, and then gives the compactions followed by the branch's other participating entries from the anchor or root on, in order. |
| ReadWalks.PlainSessionsReadAlike | internal/corpus/read.go:96-97 | Without compactions or hidden entries the two walks answer alike. |
| ReadWalks.Reverse | internal/corpus/read.go:234-236 | The two-ended swap loop reverses the path in place. |
| CaptureCache.Cache.Lookup | internal/archive/capture_cache.go:71-89 | Hits exactly on matching size, mtime and inode with an mtime older than the cache's writing. |
| CaptureCache.Capture.StableCopy | internal/archive/archive.go:206-284 | Look by look when a copy is stable, when it is taken unstable after two tries, and when it fails; a stable copy of a file not written since the run began is its bytes, an unstable one means it was written, and a failure that it was written or is no regular file. |
| CaptureCache.Capture.AddFile | internal/archive/capture_state.go:112-152 | A hit exactly when the cache vouches for the file as it looks, and then its bytes at that moment; otherwise it succeeds exactly when the copy does and says whether that was stable; any branch leaves an entry that can be believed below every write to come, and a file not written meanwhile in the cache. |
| CaptureCache.Capture.CaptureState | internal/archive/capture_state.go:57-182 | Captures exactly the discovered paths, images skipped as configured, and fails only where one was written during the run or is no regular file; each file not written during the run gets its real hash and is in the cache; unvisited entries are kept or, unscoped, dropped if undiscovered. |
| CaptureCache.UnskippedMeans | internal/archive/capture_state.go:158-166 | Only images are skipped, and only when they are not to be included. |
| CaptureCache.Capture.BlobPath | internal/archive/capture_state.go:226-244 | Gives exactly the bytes named or nothing, even when the cache vouched for them; nothing only if they were never captured or their file is no longer that. |
| CaptureCache.HitsAreCurrent | internal/archive/capture_cache.go:54-116 | Over any sequence of writes and runs, hits on the saved cache are current bytes, if writes are no older than the openings before them and runs keep unvisited only settled entries. |
| CaptureCache.RunOnce | internal/cli/depot_v2_helpers.go:70-98 | Loading, capturing and saving is such a run; the next one hits on every file captured that still looks the same and was older than this run. |
| CaptureCache.PromotionSafeIffSettled | internal/archive/capture_cache.go:107-116 | Stamping an unvisited entry with a new opening time is safe on every disk exactly when its mtime lies outside the stretch between the two stamps, or the file is empty. |
| CaptureCache.UnvisitedEntryMisleads | internal/archive/capture_state.go:158-182 | Two runs and one write after which a lookup hits with the old bytes. |
| Refs.Unb64B64 | internal/model/ref.go:143-151 | Decoding undoes unpadded base64url encoding of arbitrary bytes. |
| Refs.Vectors | internal/model/ref.go:143-151 | Encoding gives the test vectors of section 10 of RFC 4648. |
| Refs.Alphabet | internal/model/ref.go:143-151 | Its digits are the alphabet of section 5 of RFC 4648. |
| Refs.ParseUndoesFormat | internal/model/ref.go:82-141 | Every message, session and artefact ref the constructors build is read back from its text. |
| Refs.RefTexts | internal/model/ref.go:82-96 | The text of each kind of ref. |
| Refs.SessionKeyMeans | internal/model/identity.go:46-54 | A session key is its mark and a digest in lower-case hex. |
| Refs.EntryIdMeans | internal/model/identity.go:39-44 | An entry id has something to see in it and neither NUL nor a line break. |
| Refs.ParsedIsConstructed | internal/model/ref.go:98-141 | Whatever parses is a ref the constructors could have built. |
| Refs.CanonicalIff | internal/model/ref.go:145-151 | A decodable text is the encoding of what it decodes to exactly when it has no line break and no stray low bits. |
| Refs.RefCanonicalIff | internal/model/ref.go:98-151 | A text that parses is what formatting gives exactly when each of its base64 parts has no line break and no stray low bits. |
| Refs.OtherTextsParse | internal/model/ref.go:122-131 | A session ref with a trailing line break parses to the same ref. |
| Refs.SessionKeysDistinct | internal/model/identity.go:56-119 | Key preimages agree exactly when source, machine and session id all do. |
| Refs.PreimageMeans | internal/model/identity.go:56-119 | The preimage is source, machine and session id in this order, each after its length in eight bytes. |
| Refs.BigEndianMeans | internal/model/identity.go:56-119 | Lengths are written most significant byte first. |

## Left out

- Publisher.Push.Execute: a failing source stands for every error of reading a file; cancellation, progress and the upload plan's summary are not modelled.
- Readers.Reader.PrepareMaterialisation: counts unknown blobs but not their bytes, and keeps spooled manifests as values rather than files.
- Readers.Reader.Verify: problems carry the machine and kind, not the report's texts and counters; the marker check, the unsupported-layout check and listed manifest objects with malformed names are not modelled.
- Manifests.DecodeEncode: the JSON library is a printer and a parser that undoes it on valid manifests, so invalid UTF-8 and the difference between absent and empty lists are outside.
- LocalStore.Directory.PutConditional: waiting for the lock is one step that succeeds; errors of taking it, of reading or of writing are not modelled.
- Ingestion.Ingestor.IngestEntry: assets, images and redaction-event rows are not tables here, and a conflict row keeps the two hashes without its details text.
- Ingestion.Ingestor.IngestSessionFile: path tokens, the files table and the local blob copies are not modelled; a blob opens or it does not, and one that opens has the bytes its address names. Diagnostics and redaction-event rows are left out too.
- Ingestion.Ingestor.InsertToolInvocations: redaction-event rows are not modelled.
- Redaction.EverythingRedacted: covers the texts of the tables modelled here; redaction-event, asset, path-token and conflict-detail texts are not among them.
- Ingestion.Ingestor.RebuildFailureEpisodes: a session's rows are read in insertion order; Episodes.ReadOrderIgnored says that the order does not matter when (entry, ordinal) is unique.
- Episodes.AssembleSession: one session at a time, as its only caller passes; the grouping of several sessions at internal/corpus/episodes.go:67-101 would add only the order across sessions.
- Trajectory.IncidentTrajectory: steps carry the entry id where the source formats a ref from it.
- ReadWalks.LiveContext: entries are their ids; an entry id is never empty, as the schema demands (internal/corpus/schema.go:25).
- CaptureCache.Capture.StableCopy: a copy that raced a write is any bytes; symbolic links and permission errors are the one error outcome.
- CaptureCache.Cache.constructor: a cache file with a malformed hash is not distinguished, since hashes are carried as bytes.
- Refs.ParseUndoesFormat: which texts trim to nothing is a parameter, the same for building and for parsing.
- Namespaces.ComponentIsClean: the digest namespace is carried as the machine id, while internal/depot/depot.go:137-138 gives the text "machine-" and eight bytes of a hash in hex. Two such ids are told apart here where a collision of those bytes would join them, and so is an id spelled like that text from the id it is the digest of, which share a namespace without any collision.
- Pulling.ReplaysIffDistinctNamespaces: the same; the condition is on namespaces as carried here.
- Growth.GrownEqualsOnce: session rows keep what the first file said and version and conflict rows record both files, so those tables are not compared.
- Archive initialisation, markers, format upgrades and the legacy layout: settled by one branch each.
- The R2/S3 client, credentials, addresses, retry sleeps: only the conditional-put contract is kept.
- Corrupt pointers and tampered blobs during a push: only this protocol writes, so the branch replacing a corrupt pointer is there and never taken; Readers.Reader.Verify on a store at rest does cover them.
- SQLite, FTS5, zstd, tar and SHA-256: tables are maps and sequences, hashing is an injective address.
- Adapters' field extraction, command families, error-signature normalisation and redaction: fixed functions.
- Bundle import, artefacts and attachments: no claim beyond what one function says.
- Scores, sparklines and incident ranking: floating-point, away from the state.
- CLI, dashboard, MCP and progress: presentation.
