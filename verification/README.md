# Verification of the instance allocator and its companions

A Dafny 4.11 model of five parts of the repository, with proofs about them.
`dafny verify dfyconfig.toml` checks everything.

- **The instance allocator.** A lease registry shared by many short-lived processes. A process
  enters critical sections under one lock; stopping servers and dropping databases happens
  between a section that marks rows and one that settles them. `Leases`, `Liveness`, `Ports`,
  `RowOps` and `Sections` say what each critical section does to the registry; `LeaseRegistry` and
  `AcquireLoop` are the verbs that rewrite it in place, proved against those sections;
  `ReclaimSystem` is the whole as a state machine in which processes die between any two steps and
  pids are handed out again; `ReclaimRows`, `ReclaimSafety` and `ReclaimRuns` prove its invariants
  for every run, `ReclaimTheorems` and `Shedding` what they mean, and `LapsedRuns` where a promise
  ends. `Throwaway` has the names and the
  drop of throwaway databases and the sweep of unleased ones.
- **The docs-site registry.** `SubsetToml` says what each production of the TOML subset reads (TOML
  v1.0.0, sections "String", "Array", "Inline Table" and "Array of Tables"); `SubsetParser` is the
  cursor parser. `SiteRender`, `SiteLines` and `SiteRows` are the printer and its round trip;
  `SiteUpsert`, `SiteKinds`, `SiteFile`, `SiteRecord` and `SiteCommand` the text edit and the
  command that publishes it.
- **The catalog edit.** `TomlLines` has lines, value spans and comments; the `Catalog...` modules
  the edit of one instance block, that its steps make one simultaneous edit, and running it twice.
- **Permission rules** (`RuleCoverage`), **the audit of a run** (`AuditRun`) and **the check of
  conditional chains** (`ChainCheck`).

How to read the model of concurrency: every critical section is one atomic step. A `View` is what
one process observes in it - clock, boot id, live pids - with the probes as sets of answers, any of
which may fail to come. A fingerprint stands for the identity ("birth") of the process it was
measured on. In `AcquireLoop` the methods `Interfere`, `Observe` and `Sleep` stand for the rest of
the world: a caller knows only their contracts.

## Model

| member | source | states |
|---|---|---|
| ReclaimRuns.StepKeeps | plugins/odoo-ai-agents/scripts/lib/allocator.py:3342-5338 | every step of every process and of the environment (a critical section, an unlocked stop or drop, death, reboot, a recycled pid) keeps all the invariants of the registry, the work lists, the histories and the databases |
| ReclaimRuns.RunKeeps | plugins/odoo-ai-agents/scripts/lib/allocator.py:3342-5338 | every state of every run of any number of processes on any number of hosts satisfies those invariants |
| ReclaimTheorems.OneReclaimerPerRow | plugins/odoo-ai-agents/scripts/lib/allocator.py:2490-2506 | no two live processes ever have the same row on their work lists, across crashes and pid reuse, unless a section took the row past an off-host marker that had timed out while the process that placed it was still at work on it |
| ReclaimTheorems.LapseMeansTwo | plugins/odoo-ai-agents/scripts/lib/allocator.py:2490-2506 | the exception is exact for gc and release: the step of theirs that makes a token lapse is the one after which two live processes work on its row |
| LapsedRuns.TwoReclaimersReached | plugins/odoo-ai-agents/scripts/lib/allocator.py:2490-2506 | a run from the empty registry after which a gc on one host and a release on the other work on one row |
| LapsedRuns.ParkedDatabaseDropped | plugins/odoo-ai-agents/scripts/lib/allocator.py:4177-4232 | a run in which gc, its marker timed out, drops the database of a lease its owner has parked meanwhile |
| LapsedRuns.ParkStampedTwice | plugins/odoo-ai-agents/scripts/lib/allocator.py:2810-2838 | a run in which gc, its marker timed out, parks again a lease its owner has parked meanwhile, with the older budget |
| ReclaimTheorems.OneHostNeverLapses | plugins/odoo-ai-agents/scripts/lib/allocator.py:2490-2506 | when every process runs on one host no marker ever times out |
| ReclaimTheorems.NoTwoReclaimers | plugins/odoo-ai-agents/scripts/lib/allocator.py:2490-2506 | on one host, without any side condition, two live processes never work on the same row |
| ReclaimTheorems.OnlyTheMarkerDeletes | plugins/odoo-ai-agents/scripts/lib/allocator.py:2810-2838 | a row leaves the registry only when the process that holds its marker settles it as deleted |
| ReclaimTheorems.DeletedOnce | plugins/odoo-ai-agents/scripts/lib/allocator.py:2810-2838 | a token that has left the registry never comes back, so at most one process ever settles it as deleted |
| ReclaimTheorems.SettleLeavesOthers | plugins/odoo-ai-agents/scripts/lib/allocator.py:2818-2824 | a settle leaves every row that does not carry the settler's own marker exactly as it was |
| ReclaimRows.HeldRowUndisturbed | plugins/odoo-ai-agents/scripts/lib/allocator.py:2490-2506 | a row another live process is reclaiming keeps its marker and its park through every section of everybody else |
| ReclaimTheorems.IdentityForever | plugins/odoo-ai-agents/scripts/lib/allocator.py:2186-2215 | owner run, host, mode, database name, drop_on_release and ttl of a lease never change in any run |
| ReclaimTheorems.NoTheft | plugins/odoo-ai-agents/scripts/lib/allocator.py:2384-2473 | no acquire, gc, release or park of another run, where --force does not change it, marks or parks a lease that is parked within its budget or whose session is alive, but for the two cases that follow |
| ReclaimTheorems.TheftExactly | plugins/odoo-ai-agents/scripts/lib/allocator.py:4481-4500 | for such a lease it happens if and only if the section is a gc aimed at an anchor given by its pid alone that is the pid of the session, on a row neither parked nor being reclaimed, or a gc that finds the lease parked past its budget |
| ReclaimTheorems.StopsAreWarranted | plugins/odoo-ai-agents/scripts/lib/allocator.py:2753-2764 | a work list only ever stops a server it was entitled to when it marked the row: by force, by ownership, or because the lease was unprotected (or its anchor given blindly) |
| ReclaimTheorems.BlindAnchorTakesLiveSession | plugins/odoo-ai-agents/scripts/lib/allocator.py:4564-4570 | the guard of a gc aimed at an anchor does not see that a session is alive when the anchor has no fingerprint |
| ReclaimTheorems.SpentParkIgnoresLiveSession | plugins/odoo-ai-agents/scripts/lib/allocator.py:2384-2473 | of a parked lease whose session is alive: gc takes it, in both readings, if and only if its park budget is spent |
| ReclaimTheorems.ParkedStaysPreserved | plugins/odoo-ai-agents/scripts/lib/allocator.py:2767-2807 | a lease that was ever parked is, while its row exists, parked or flagged to return to the park, with the budget of its latest park |
| ReclaimTheorems.GcSparesParked | plugins/odoo-ai-agents/scripts/lib/allocator.py:4503-4511 | on a token that never lapsed, gc drops the database of an ever-parked lease only for a spent park budget or the TTL arm |
| ReclaimTheorems.ReparkRestores | plugins/odoo-ai-agents/scripts/lib/allocator.py:2798-2807 | on a token that never lapsed, a re-park restores the budget of the latest park (the default when that budget was 0), clears the server and keeps name, mode, drop_on_release and ports |
| ReclaimTheorems.DeletionIsAccounted | plugins/odoo-ai-agents/scripts/lib/allocator.py:3896-3985 | a throwaway row is deleted only by gc or release, and only when no database created under it is left or a release of this very lease, forced to forget it, has given it up by name |
| ReclaimTheorems.AcquireDeletesNoThrowaway | plugins/odoo-ai-agents/scripts/lib/allocator.py:2854-2880 | an acquire deletes only exclusive holds, never a row that drops its database |
| ReclaimTheorems.NoOrphanedDatabase | plugins/odoo-ai-agents/scripts/lib/allocator.py:3896-3985 | in every reachable state each database created under a throwaway lease still has its row, or a forced release of that very lease has given it up by name |
| ReclaimTheorems.OnlyThrowawaysDie | plugins/odoo-ai-agents/scripts/lib/allocator.py:2762-2763 | only gc and release drop databases, and only of ephemeral leases with drop_on_release, whose name acquire has minted |
| ReclaimTheorems.FailedDropKeepsRow | plugins/odoo-ai-agents/scripts/lib/allocator.py:4610-4621 | a failed drop keeps the row, unmarked and otherwise unchanged |
| ReclaimTheorems.ResourcesNeverShared | plugins/odoo-ai-agents/scripts/lib/allocator.py:3541-3559 | in every reachable state pooled leases hold pairwise disjoint, duplicate-free ports that avoid the declared ones, and no database has two exclusive holds |
| ReclaimRows.PortsKept | plugins/odoo-ai-agents/scripts/lib/allocator.py:1361-1373 | every section keeps the ports disjoint, whether rows are marked, orphaned, parked or re-parked |
| ReclaimRows.ExclusiveKept | plugins/odoo-ai-agents/scripts/lib/allocator.py:3666-3682 | every section keeps exclusive holds unique per database |
| ReclaimTheorems.SignalSafety | plugins/odoo-ai-agents/scripts/lib/allocator.py:1278-1336 | a signal sent on a fingerprint reaches a process vouched for by the lease, one sent otherwise reaches a process corroborated at that moment, and a mismatch is never signalled |
| ReclaimTheorems.SignalsReachOwn | plugins/odoo-ai-agents/scripts/lib/allocator.py:1278-1336 | in every run each signal reaches the very process that was given to the lease or corroborated for it at an earlier step, or one corroborated now, however often its pid was reused |
| ReclaimTheorems.VouchingIsEarned | plugins/odoo-ai-agents/scripts/lib/allocator.py:1171-1232 | one critical section vouches for a process only by handing its pid to the lease or by corroborating it in a heartbeat |
| ReclaimTheorems.NoBystanderRecorded | plugins/odoo-ai-agents/scripts/lib/allocator.py:694-714 | in every run a process that the history of a lease vouches for was given to it, or corroborated for it, at an earlier step |
| ReclaimTheorems.FingerprintsAreEarned | plugins/odoo-ai-agents/scripts/lib/allocator.py:694-737 | in every reachable state whichever fingerprint a row records is that of a process given to the lease, or corroborated for it, at an earlier step; a bystander that inherits the pid is never recorded |
| ReclaimTheorems.ParkSignalsOwnOnly | plugins/odoo-ai-agents/scripts/lib/allocator.py:3799-3851 | an un-forced park signals no server of another run |
| ReclaimTheorems.ResumeIsCompareAndSet | plugins/odoo-ai-agents/scripts/lib/allocator.py:4336-4421 | a resume either wins, leaving none of the three park keys and the given pid, or changes nothing in the registry |
| ReclaimTheorems.ResumesAlternate | plugins/odoo-ai-agents/scripts/lib/allocator.py:2767-2783 | in every run each successful resume takes the lease out of the park stamped just before it, so that resumes never exceed stamps; on a token that never lapsed they alternate strictly and the row is parked exactly while one stamp is ahead |
| ReclaimTheorems.PairedCounts | plugins/odoo-ai-agents/scripts/lib/allocator.py:4336-4421 | of events in which each resume follows a stamp, the resumes never exceed the stamps |
| ReclaimTheorems.AlternationCounts | plugins/odoo-ai-agents/scripts/lib/allocator.py:2798-2807 | of alternating stamps and resumes the resumes never exceed the stamps and lag by at most one |
| Liveness.OwnerGoneIsProof | plugins/odoo-ai-agents/scripts/lib/allocator.py:2384-2473 | a verdict that the owner is gone is always true of the recorded process on this host, whatever a probe that failed to answer left open |
| Liveness.AutomaticReading | plugins/odoo-ai-agents/scripts/lib/allocator.py:2384-2473 | the automatic verdict is the deliberate one without the TTL arm and with the grace window after a session ends |
| Liveness.VerdictIsHonest | plugins/odoo-ai-agents/scripts/lib/session_anchor.py:201-240 | a match means the same process and a mismatch another one; an unmeasured fingerprint says neither |
| RowOps.BackfillVouched | plugins/odoo-ai-agents/scripts/lib/allocator.py:1171-1232 | the back-fill records only a process already vouched for or one corroborated at that moment |
| RowOps.OpKeepsRow | plugins/odoo-ai-agents/scripts/lib/allocator.py:2736-2838 | every guarded change of a row keeps its identity, its park history, its vouched server and its ports |
| Liveness.ShedKeepsVerdict | plugins/odoo-ai-agents/scripts/lib/allocator.py:2552-2608 | shedding a row changes no verdict on it, touches only a row its live session protects, and is idempotent |
| Liveness.ShedProtectsAcrossVersions | plugins/odoo-ai-agents/scripts/lib/allocator.py:2552-2608 | a shed row names no server that is provably gone, and the older reader spares it while its heartbeat is within ttl_s |
| Shedding.WritesShed | plugins/odoo-ai-agents/scripts/lib/allocator.py:2611-2614 | after every heartbeat, bind, adopt, shared or granted acquire, or gc write, no row of a live session names a dead or provably recycled server, and shedding again changes nothing |
| Shedding.OldReaderAfterWrite | plugins/odoo-ai-agents/scripts/lib/allocator.py:20-44 | the older reader condemns such a row exactly when its heartbeat is older than ttl_s with no start time to go by, or when it takes the live server for another process that could not be proven to be one |
| Shedding.ClearedStaysProtected | plugins/odoo-ai-agents/scripts/lib/allocator.py:20-44 | a row whose server such a write cleared stays protected by its session here, and from the older reader for ttl_s after the write |
| Shedding.VerdictsUnmoved | plugins/odoo-ai-agents/scripts/lib/allocator.py:2552-2608 | the shed at the end of a write moves no verdict on any row |
| LeaseRegistry.Registry.ShedGoneServers | plugins/odoo-ai-agents/scripts/lib/allocator.py:2611-2614 | sheds every row in place and reports a change exactly when one changed |
| LeaseRegistry.Registry.BeatHeart | plugins/odoo-ai-agents/scripts/lib/allocator.py:3988-4031 | the registry is the heartbeat section's, and the tokens touched are exactly those of the rows that fit |
| LeaseRegistry.Registry.BindServer | plugins/odoo-ai-agents/scripts/lib/allocator.py:4034-4068 | the registry is the bind section's; it is found exactly when the token has a row |
| LeaseRegistry.Registry.Park | plugins/odoo-ai-agents/scripts/lib/allocator.py:4177-4232 | the registry is the park section's, with the answer and the signal read off the old row |
| LeaseRegistry.Registry.Resume | plugins/odoo-ai-agents/scripts/lib/allocator.py:4336-4421 | the registry is the resume section's, with the answer read off the old row |
| LeaseRegistry.Registry.AdoptLeaseOf | plugins/odoo-ai-agents/scripts/lib/allocator.py:5290-5338 | the registry is the adopt section's, with the answer read off the old row |
| LeaseRegistry.Registry.MarkForRelease | plugins/odoo-ai-agents/scripts/lib/allocator.py:3872-3894 | the registry is the marking section's; work is returned exactly when the row is there, free and not refused |
| LeaseRegistry.Registry.GcTargets | plugins/odoo-ai-agents/scripts/lib/allocator.py:4481-4500 | the verdict on every row, with the rows of a resumed session re-anchored |
| LeaseRegistry.Registry.MarkForGc | plugins/odoo-ai-agents/scripts/lib/allocator.py:4573-4591 | the registry is the gc section's, and the work list holds the marked snapshots in registry order |
| LeaseRegistry.Registry.SettleMarked | plugins/odoo-ai-agents/scripts/lib/allocator.py:2810-2838 | the registry is the settle section's, and the tokens settled are exactly the marked ones with an outcome |
| LeaseRegistry.Registry.SettleOne | plugins/odoo-ai-agents/scripts/lib/allocator.py:2818-2836 | what is left of one row under its outcome |
| LeaseRegistry.Registry.AttachRenderServer | plugins/odoo-ai-agents/scripts/lib/allocator.py:3460-3521 | attaches to the first shared row of the target, else registers one; the registry is the section's |
| LeaseRegistry.Registry.CapacityMark | plugins/odoo-ai-agents/scripts/lib/allocator.py:2841-2851 | marks exactly the contending rows whose owner is provably gone, and there is work exactly when one may be taken |
| LeaseRegistry.Registry.ClaimPass | plugins/odoo-ai-agents/scripts/lib/allocator.py:3666-3779 | one pass of the acquire decides as specified and writes the marks, the lease, or nothing at all |
| AcquireLoop.AcquireLease | plugins/odoo-ai-agents/scripts/lib/allocator.py:3650-3787 | against arbitrary changes by others the loop terminates; success appends exactly one row with the n pool ports asked for, a refusal appends none, and no marker it placed is left on any return |
| AcquireLoop.SettleAndClaim | plugins/odoo-ai-agents/scripts/lib/allocator.py:3658-3779 | one critical section of the loop: which markers are left, and what each decision says about the registry |
| AcquireLoop.CapacityReclaim | plugins/odoo-ai-agents/scripts/lib/allocator.py:2854-2880 | settles every taken row as deleted or orphaned, and counts a stopped server exactly when one was proven to be the owner's |
| AcquireLoop.SettleClearsMine | plugins/odoo-ai-agents/scripts/lib/allocator.py:2810-2838 | a settle removes this process's marker from every row it has an outcome for and adds none |
| AcquireLoop.ClaimMarksWork | plugins/odoo-ai-agents/scripts/lib/allocator.py:2841-2851 | a pass marks no row that is not on its work list |
| Ports.PickPortsFirstFit | plugins/odoo-ai-agents/scripts/lib/allocator.py:1383-1403 | the pick is first fit - ascending, in the pool, held by nobody, bindable, no usable port passed over - and fails exactly when fewer than n ports are usable |
| Ports.FindPorts | plugins/odoo-ai-agents/scripts/lib/allocator.py:1383-1403 | the loop over the pool computes that pick |
| Ports.PortsInUse | plugins/odoo-ai-agents/scripts/lib/allocator.py:1361-1373 | every port any row lists, whatever state the row is in |
| Throwaway.MintedNameHasShape | plugins/odoo-ai-agents/scripts/lib/allocator.py:3634-3637 | a minted name has the throwaway shape of its prefix exactly when the prefix is not empty |
| Throwaway.MintedNameIsRecognised | plugins/odoo-ai-agents/scripts/lib/allocator.py:4676-4689 | a minted name is recognised, and may be dropped through a client, exactly under a catalog that declares its non-empty prefix |
| Throwaway.DropsByOdooOrDeclared | plugins/odoo-ai-agents/scripts/lib/allocator.py:1934-2137 | a minted database is dropped by Odoo, or through a client only when that route never reached it, its non-empty prefix is declared and it is not observed to be still there |
| Throwaway.ReapCandidates | plugins/odoo-ai-agents/scripts/lib/allocator.py:4692-4717 | the sweep's two lists are the reapable and the declined databases, in order |
| Throwaway.ReapExactly | plugins/odoo-ai-agents/scripts/lib/allocator.py:4692-4717 | a shaped database is proposed exactly when no row read names it and its age is proven and old enough, and is reported as skipped exactly when unleased and not proposed |
| SubsetParser.LoadsSubset | plugins/odoo-ai-agents/scripts/lib/docs_site_config.py:125-308 | the cursor parser returns the specified result on every text, a document or an error, and always terminates |
| SubsetParser.Parser.SkipBlanks | plugins/odoo-ai-agents/scripts/lib/docs_site_config.py:137-147 | skips blanks, comments and, where allowed, newlines |
| SubsetParser.Parser.ToEndOfLine | plugins/odoo-ai-agents/scripts/lib/docs_site_config.py:149-152 | accepts nothing but blanks and a comment before the line ends |
| SubsetParser.Parser.ReadKey | plugins/odoo-ai-agents/scripts/lib/docs_site_config.py:154-162 | reads a bare or a quoted key off the front |
| SubsetParser.Parser.ReadString | plugins/odoo-ai-agents/scripts/lib/docs_site_config.py:164-197 | reads a basic or literal string off the front, escapes included |
| SubsetParser.Parser.ReadEscape | plugins/odoo-ai-agents/scripts/lib/docs_site_config.py:178-193 | reads one escape, named or by code point |
| SubsetParser.Parser.ReadInt | plugins/odoo-ai-agents/scripts/lib/docs_site_config.py:248-251 | reads a decimal integer off the front |
| SubsetParser.Parser.ReadValue | plugins/odoo-ai-agents/scripts/lib/docs_site_config.py:199-252 | reads a value off the front |
| SubsetParser.Parser.ReadItems | plugins/odoo-ai-agents/scripts/lib/docs_site_config.py:204-217 | reads the items of an array |
| SubsetParser.Parser.ReadEntries | plugins/odoo-ai-agents/scripts/lib/docs_site_config.py:218-243 | reads the entries of an inline table, each key once |
| SubsetParser.Parser.ReadHeader | plugins/odoo-ai-agents/scripts/lib/docs_site_config.py:261-298 | enters or opens the table of a header, or appends one to its array |
| SubsetParser.Parser.ReadAssignment | plugins/odoo-ai-agents/scripts/lib/docs_site_config.py:299-308 | puts one key into the current table, each key once |
| SubsetParser.Parser.ReadDocument | plugins/odoo-ai-agents/scripts/lib/docs_site_config.py:254-308 | reads headers and assignments to the end of the text |
| SubsetToml.OpenedIsThere | plugins/odoo-ai-agents/scripts/lib/docs_site_config.py:277-297 | the table a header opens can be reached by the header's path |
| SubsetToml.PutKeepsPath | plugins/odoo-ai-agents/scripts/lib/docs_site_config.py:299-307 | putting a key into the current table leaves that table where it is |
| SiteRender.StringReadsBack | plugins/odoo-ai-agents/scripts/lib/docs_site_config.py:521-522 | a written string reads back as itself, before any text, exactly when it has no control character |
| SiteRender.KeyReadsBack | plugins/odoo-ai-agents/scripts/lib/docs_site_config.py:529-530 | a written key reads back as itself |
| SiteRender.ListReadsBack | plugins/odoo-ai-agents/scripts/lib/docs_site_config.py:525-526 | a written list reads back as its strings |
| SiteRender.NamesReadBack | plugins/odoo-ai-agents/scripts/lib/docs_site_config.py:556-567 | a written inline table reads back as its entries |
| SiteRender.ValueReadsBack | plugins/odoo-ai-agents/scripts/lib/docs_site_config.py:533-567 | every value the printer writes reads back as what it means, and is refused when a string of it is not clean |
| SiteLines.LinesLoad | plugins/odoo-ai-agents/scripts/lib/docs_site_config.py:533-567 | written lines load one after the other, each with its own effect |
| SiteRows.RowLoads | plugins/odoo-ai-agents/scripts/lib/docs_site_config.py:533-567 | reading on from a written row appends it to the list of rows, or the text is refused |
| SiteRows.RowRoundTrip | plugins/odoo-ai-agents/scripts/lib/docs_site_config.py:533-567 | the text of a valid row parses back to exactly that row if and only if its strings have no control characters; otherwise it is refused |
| SiteUpsert.ScanBlocks | plugins/odoo-ai-agents/scripts/lib/docs_site_config.py:579-599 | the spans from header to header, one scan over the lines that skips the values of assignments |
| SiteUpsert.TrimBlock | plugins/odoo-ai-agents/scripts/lib/docs_site_config.py:600-605 | a span without its trailing blank and comment lines |
| SiteUpsert.Splice | plugins/odoo-ai-agents/scripts/lib/docs_site_config.py:615-621 | the first block whose own text reads as that key is replaced, else the lines are appended |
| SiteUpsert.FindRowBlocks | plugins/odoo-ai-agents/scripts/lib/docs_site_config.py:575-606 | the line spans of the rows, sub-tables included, trailing blank and comment lines left out |
| SiteUpsert.UpsertText | plugins/odoo-ai-agents/scripts/lib/docs_site_config.py:609-621 | the splice over the first block of that key, or the append, on the file's lines |
| SiteFile.FileBlocks | plugins/odoo-ai-agents/scripts/lib/docs_site_config.py:575-606 | in a tidy file the spans found are exactly those of its rows |
| SiteFile.FileReads | plugins/odoo-ai-agents/scripts/lib/docs_site_config.py:125-308 | a tidy file parses to its rows, in order |
| SiteRecord.UpsertRefines | plugins/odoo-ai-agents/scripts/lib/docs_site_config.py:609-621 | on a tidy file the text edit is the replacement or the addition of the row in the list it was written from |
| SiteRecord.RecordingUpdates | plugins/odoo-ai-agents/scripts/lib/docs_site_config.py:609-621 | on a tidy file the new text parses to the updated list, says whether a row was replaced, and a second recording changes nothing |
| SiteRecord.OtherLinesStay | plugins/odoo-ai-agents/scripts/lib/docs_site_config.py:617-619 | every line outside the row's own span stays as it was |
| SiteCommand.RecordSite | plugins/odoo-ai-agents/scripts/lib/docs_site_config.py:873-921 | the command answers as specified: refuse, leave unchanged, or publish |
| SiteCommand.RecordsOnAnyFile | plugins/odoo-ai-agents/scripts/lib/docs_site_config.py:891-904 | on every file, hand-written ones included: what stands after a command that is not declined holds the row exactly once and all other rows as before, and only the lines of one block changed; a declined command changes nothing |
| SiteCommand.TidyIsRecorded | plugins/odoo-ai-agents/scripts/lib/docs_site_config.py:891-904 | a tidy file is never declined: it then reads as the updated list, and the same command again answers that nothing changed |
| TomlLines.FindValueSpan | plugins/odoo-ai-agents/scripts/lib/config_merge.py:577-606 | the last line of the assignment, over strings, comments and brackets of several lines |
| TomlLines.FindInlineComment | plugins/odoo-ai-agents/scripts/lib/config_merge.py:609-630 | the comment a line ends in, with the blanks before it |
| TomlLines.SplitJoin | plugins/odoo-ai-agents/scripts/lib/config_merge.py:783-789 | joining lines that each end in a newline and splitting them again gives the lines |
| CatalogUpsert.ScanInstanceBlocks | plugins/odoo-ai-agents/scripts/lib/config_merge.py:671-706 | the instance blocks: series, profile, last assignment, and the span of each key's first one |
| CatalogUpsert.CollectEdits | plugins/odoo-ai-agents/scripts/lib/config_merge.py:819-829 | the spans to replace and the lines to insert, key by key |
| CatalogUpsert.EditBlock | plugins/odoo-ai-agents/scripts/lib/config_merge.py:814-836 | the edit as it is carried out: insert first, then replace spans from the bottom up |
| CatalogEdits.SortedInOrder | plugins/odoo-ai-agents/scripts/lib/config_merge.py:835-836 | sorted from the bottom up, the replacements are those of the block's keys in reverse |
| CatalogEdits.SequentialIsEdited | plugins/odoo-ai-agents/scripts/lib/config_merge.py:814-836 | inserting first and then replacing in reverse order equals the simultaneous edit: each first span of a given key becomes one line, absent keys follow the last assignment, all other lines stay |
| CatalogBlocks.SplitIsChosen | plugins/odoo-ai-agents/scripts/lib/config_merge.py:791-814 | the block at the split is the one the series and the profile select |
| CatalogBlocks.ChosenSplits | plugins/odoo-ai-agents/scripts/lib/config_merge.py:791-814 | a selected block splits the file into what is before it, its header, its body and what is after |
| CatalogBlocks.UpsertedAt | plugins/odoo-ai-agents/scripts/lib/config_merge.py:791-836 | the whole edit, on a file split at its selected block: that body is edited at once and nothing else changes |
| CatalogLines.RecordKeys | plugins/odoo-ai-agents/scripts/lib/config_merge.py:791-836 | the command: nothing when no block matches, else the edit of the first that does |
| CatalogLines.RecordingIsOneEdit | plugins/odoo-ai-agents/scripts/lib/config_merge.py:791-836 | every line outside the selected body stays, and the body becomes its simultaneous edit |
| CatalogLines.CommentReadsBack | plugins/odoo-ai-agents/scripts/lib/config_merge.py:609-641 | the comment kept on a written line is read back from it, whatever the value holds |
| CatalogLines.LineAssigns | plugins/odoo-ai-agents/scripts/lib/config_merge.py:820-828 | a written line reads as an assignment of its key, with its indentation |
| CatalogLines.WritesSteadily | plugins/odoo-ai-agents/scripts/lib/config_merge.py:820-828 | every line written, as an element of the list of lines, is one closed assignment that the same edit writes again as it is |
| CatalogText.WrittenIsOne | plugins/odoo-ai-agents/scripts/lib/config_merge.py:820-828 | a line written is one line of the text if and only if no string of its value has a line break, given an indentation and a comment without one |
| CatalogText.LinesAreOne | plugins/odoo-ai-agents/scripts/lib/config_merge.py:783-789 | a text without another line separator than the newline falls into lines that each end in their only one |
| CatalogText.RecordText | plugins/odoo-ai-agents/scripts/lib/config_merge.py:783-836 | the command on the text of the file |
| CatalogRerun.RerunChangesNothing | plugins/odoo-ai-agents/scripts/lib/config_merge.py:814-836 | on lists of lines, re-running an edit gives the same list, provided nothing is put after a value left open |
| CatalogRerun.PutStays | plugins/odoo-ai-agents/scripts/lib/config_merge.py:814-836 | a file whose block has been edited, with any lines after it that provide the absent keys, is left as it is by the same edit |
| CatalogGrowth.LeftOpenGrowsAgain | plugins/odoo-ai-agents/scripts/lib/config_merge.py:814-836 | when a value left open takes in a line with an absent key, the next run is longer: it does not see that line |
| CatalogGrowth.RecordingTwiceExactly | plugins/odoo-ai-agents/scripts/lib/config_merge.py:814-836 | the same equivalence as the next, on lists of lines |
| CatalogWoven.RecordingTextTwice | plugins/odoo-ai-agents/scripts/lib/config_merge.py:783-836 | for distinct keys other than series and profile, on a text without another line separator than the newline and values without a line break: the second run on the text leaves it as it is if and only if the last value of the block closes, or is replaced, or has lines after it in the file, or nothing is inserted |
| CatalogBreaks.BrokenValueGrows | plugins/odoo-ai-agents/scripts/lib/config_merge.py:564-574 | for every bare key and every value with one line break before harmless text: the second run puts the rest of the value into the file once more |
| CatalogBreaks.GivenTwiceLoses | plugins/odoo-ai-agents/scripts/lib/config_merge.py:835-836 | a catalog from which a key given twice removes the line after its value |
| CatalogLines.LeftOpenGrows | plugins/odoo-ai-agents/scripts/lib/config_merge.py:814-836 | a file on which every run appends the same line again |
| CatalogLines.GivenTwice | plugins/odoo-ai-agents/scripts/lib/config_merge.py:835-836 | of a key given twice that stands on two lines, the second replacement takes the next line along |
| RuleCoverage.RuleIsCovered | plugins/odoo-ai-agents/scripts/lib/config_merge.py:1113-1166 | the entry found is the specified one, or none |
| RuleCoverage.CoverageIsSound | plugins/odoo-ai-agents/scripts/lib/config_merge.py:1113-1166 | for every list and every rule the entry named is in the list, and that entry matches every use the rule matches if and only if the input is not one of three kinds, each of which does get an answer |
| RuleCoverage.CoveredIsGranted | plugins/odoo-ai-agents/scripts/lib/config_merge.py:1113-1166 | but for those kinds, whatever is called covered is granted by some entry of the list |
| RuleCoverage.GrantedElsewhere | plugins/odoo-ai-agents/scripts/lib/config_merge.py:1150-1164 | in one of those kinds another entry of the list may grant the rule all the same |
| RuleCoverage.ClosedListsAreSafe | plugins/odoo-ai-agents/scripts/lib/config_merge.py:1113-1166 | in a list of closed entries a closed rule is judged soundly, everything-below-root against everything-below-//-apart |
| RuleCoverage.BelowDirectory | plugins/odoo-ai-agents/scripts/lib/config_merge.py:84-91 | whatever a pattern below a directory matches lies below that directory, whatever wildcards the directory has |
| RuleCoverage.LiteralPrefix | plugins/odoo-ai-agents/scripts/lib/config_merge.py:92-96 | a pattern that opens with literal text matches only texts that open with it |
| RuleCoverage.RootIsMisjudged | plugins/odoo-ai-agents/scripts/lib/config_merge.py:1134-1148 | for every tool, Tool(//**) is called covered by Tool(///**), which does not grant it |
| RuleCoverage.CommandIsMisjudged | plugins/odoo-ai-agents/scripts/lib/config_merge.py:1150-1164 | a command is called covered by an entry with another character where its closing parenthesis should be |
| RuleCoverage.UnclosedIsMisjudged | plugins/odoo-ai-agents/scripts/lib/config_merge.py:1104-1131 | a rule that is never closed is called covered by a wildcard put after it |
| AuditRun.CheckEvidence | scripts/audit-run.py:464-490 | the findings about what nodes did against what they declared |
| AuditRun.CheckAttribution | scripts/audit-run.py:538-554 | the findings about nodes that name no repository, or an undeclared one |
| AuditRun.CheckRepos | scripts/audit-run.py:556-583 | the findings about repositories landed more than once, or never |
| AuditRun.CheckLandedRepos | scripts/audit-run.py:633-646 | the findings about open work in landed repositories, and whether one has landed |
| AuditRun.CheckTiers | scripts/audit-run.py:687-707 | one finding for each tier token of a node |
| AuditRun.CheckOnePr | scripts/audit-run.py:493-592 | the findings about one pull request per repository |
| AuditRun.CheckPrLast | scripts/audit-run.py:595-670 | the findings about work left after a pull request |
| AuditRun.AuditTheRun | scripts/audit-run.py:741-756 | the verdict: could not check, violations in order, or clean |
| AuditRun.CleanIffAdequate | scripts/audit-run.py:741-756 | the verdict is clean exactly for readable runs with proper landings, attributed nodes, one landing per repository and settled work |
| AuditRun.CleanRunsPair | scripts/audit-run.py:536-583 | in a clean run that opens any pull request the landed nodes and repos[] match one to one, each an integrate node with exactly one opened URL |
| AuditRun.CleanRunsPairUrls | scripts/audit-run.py:536-583 | and the repositories and the URLs match one to one if and only if no URL was opened by two nodes |
| AuditRun.CleanRunsSettle | scripts/audit-run.py:633-661 | in a clean run every repo-bound node names a declared repository, and what names one and is outside the land tail is DONE or SKIPPED |
| AuditRun.OneUrlForTwoRepos | scripts/audit-run.py:536-583 | a clean run in which two repositories land with one and the same URL |
| ChainCheck.CheckInsertions | plugins/odoo-ai-agents/scripts/lib/frontend_static_checks.py:321-375 | the insertions blocked are exactly the breaking ones, in order |
| ChainCheck.BlocksOrAdopts | plugins/odoo-ai-agents/scripts/lib/frontend_static_checks.py:355-375 | on every list of siblings some node comes to answer to another condition if and only if the insertion is blocked, or it ends in a t-if or t-elif just before a stray t-elif or t-else |
| ChainCheck.BlocksExactly | plugins/odoo-ai-agents/scripts/lib/frontend_static_checks.py:355-375 | so the check is exact if and only if no stray node is adopted, which a well-formed list never has |
| ChainCheck.StrayElifIsMissed | plugins/odoo-ai-agents/scripts/lib/frontend_static_checks.py:355-375 | a stray t-elif joins the chain of a t-if put before it, and the check is silent |

## Findings

Where the code does not do what one would read into it; each has a lemma that shows it.

- A gc aimed at an anchor given by its pid alone takes the leases of a live session of that pid:
  `ReclaimTheorems.BlindAnchorTakesLiveSession`, and exactly when in `TheftExactly`. Without a
  fingerprint the guard of `cmd_gc` cannot see that the anchor is alive.
- A live session does not protect a parked lease; only its budget does:
  `ReclaimTheorems.SpentParkIgnoresLiveSession`, and `TheftExactly`.
- `_repark` says it restores the original budget; a budget of 0 comes back as the default:
  `ReclaimTheorems.ReparkRestores`.
- An off-host marker times out although the process that placed it is still at work. Then two live
  processes may reclaim one row, gc may drop the database of a lease parked meanwhile, and gc may
  park a lease that is parked already, with an older budget. `LapsedRuns` has a run that reaches
  each. The tokens concerned are `lapsed`: those whose row a section took past such a marker.
  `OneReclaimerPerRow`, `GcSparesParked`, `ReparkRestores` and the strict half of
  `ResumesAlternate` are stated for the others; on one host there are none, see
  `NoTwoReclaimers`.
- After a shed the older reader still condemns a live server whose start time it measures
  differently: `Shedding.OldReaderAfterWrite`.
- The entry named as covering `Tool(//**)` may be `Tool(///**)`, the one named for a command may be
  an entry that is not closed, and the one named for a rule that is not closed a wildcard after it;
  that entry does not grant the rule: `RuleCoverage.RootIsMisjudged`, `CommandIsMisjudged`,
  `UnclosedIsMisjudged`, and exactly when in `CoverageIsSound`. Another entry may:
  `GrantedElsewhere`.
- A clean run may land two repositories with one URL: `AuditRun.OneUrlForTwoRepos`, and exactly
  when in `CleanRunsPairUrls`.
- A value left open at the end of the catalog takes in the lines put after it, so that every run
  appends them again: `CatalogLines.LeftOpenGrows`, exactly when in
  `CatalogWoven.RecordingTextTwice`.
- A value with a line break inside is written with it, reads back as other lines, and grows with
  every run: `CatalogBreaks.BrokenValueGrows`. A key given twice removes the line after its value:
  `CatalogBreaks.GivenTwiceLoses`.
- When the catalog ends in a value left open down to a blank line, that line is taken for the
  indentation of what is inserted: `CatalogWoven.PutText`.
- An insertion before a stray t-elif changes its chain unseen: `ChainCheck.StrayElifIsMissed`, and
  exactly when in `BlocksOrAdopts`.

## Left out

- SiteRecord.RecordingUpdates: it is stated for files of written rows of different keys between
  blank and comment lines, for rows whose text has no line separator but the newline and whose series
  names are digits and dots, as validate_row demands of them; for every
  other file SiteCommand.RecordsOnAnyFile says what a published text holds, but not that it is
  published.
- SiteRows.RowRoundTrip: it takes the series of a row in the sorted order in which they are written,
  and of validate_row only the shape of a row.
- SubsetParser.LoadsSubset: surrogate escapes such as \uD800, which chr() accepts, are rejected as
  bad escapes, because a Dafny char is no surrogate; digits other than 0 to 9 and the text and line
  of an error message are not modelled; tables are values, so no table is reachable by two names.
- SiteCommand.RecordSite: the file is read by the subset reader, as on a Python without tomllib;
  where tomllib is used its reading is not modelled. Validation, backup and the atomic replacement
  of the file are left out.
- CatalogText.RecordText: reading the KEY=VALUE arguments, the two refusal messages and the atomic
  replacement are left out.
- CatalogWoven.RecordingTextTwice: a text with another line separator than the newline, and a value
  with a line break, are outside the equivalence; of the second kind CatalogBreaks.BrokenValueGrows
  shows a family that grows, and a list of strings with a line break may well stay. A key must be a
  bare key; the source's pattern also admits one with a newline at its end.
- RuleCoverage.CoverageIsSound: globs have `*` and `**` only, and what a pattern relative to the
  session's directory matches is a parameter.
- AuditRun.CleanIffAdequate: trimming and case folding of strings, recognising pull-request URLs,
  walking JSON and the report of the gates are done before the model begins.
- ChainCheck.CheckInsertions: XPath, XML, the lookup of templates, and nodes that carry several
  directives at once.
- ReclaimSystem: one moment per critical section, though the source reads the clock several times;
  a signal and the proof before it are one step; a signal to a group reaches the process at the pid;
  the check that an anchor is no longer alive sees the same moment as the lock that follows it.
- ReclaimSystem: a database is created only under a row nobody is tearing down; databases that go
  away otherwise, by hand or by the sweep, may do so at any time; tokens are never minted twice.
- Liveness.VerdictIsHonest: two processes that start in the same tick at one pid count as different,
  though a recorded start time could not tell them apart.
- Quarantine of a corrupt registry, the readonly mode, list, query, record-build, evidence log and
  output; profile and server-wide modules of a row, and rows with malformed or missing values.
- CREATEDB and authentication probes, catalog resolution, the match of worktrees and add-on paths
  (an oracle in adopt), and matching a command line to a lease (an oracle in the back-fill).
- validate_row, configuration merging other than the catalog edit and the rule test, and the other
  checks of the front-end script: single-branch rules and lookups.
