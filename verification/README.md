# A verified model of yt-insights

yt-insights is a local research pipeline over YouTube transcripts. This project models its protocols and its
selection algorithms in Dafny and proves what they promise. Every module verifies on its own terms; nothing here runs
the original program.

| module | models |
|---|---|
| `Disks`, `Traces`, `UndoLog`, `Assets` | installing and upgrading managed files with an ownership manifest: staging, backup, no-replace renames, quarantine, undo log, with a planned fault or with other processes interfering |
| `Catalog` | importing a corpus into the tables of the catalog, and the search rows derived from them |
| `PairPublication` | publishing a catalog and a search index as one pair, with compensation |
| `AcquisitionLoop` | choosing the videos of a plan, and the download loop with its circuit breaker |
| `Workflow` | acquiring, crashing, retrying and replaying an acquisition attempt over a durable store |
| `Dossier` | publishing a two-file dossier directory by staging, backing up and swapping |
| `Jobs` | the bounded job executor: semaphore, registry, eviction queue, one worker |
| `Chunker` | cutting a transcript into passages |
| `Corpus`, `Discovery`, `Assessment` | representative selection, channels in turn, best evidence per identity |
| `Vtt` | timestamps and first-occurrence captions |
| `RoundRobin`, `Grouping`, `Ordering`, `Basics` | what those share: taking turns, filing under keys, stable sorting |

How the source's things appear here:

- Objects whose methods update fields are classes (`Assets.Home`, `Catalog.Database`, `PairPublication.Directories`,
  `Dossier.ParentDirectory`, `Workflow.ResearchWorkflow`, `Jobs.JobExecutor`); loops that update variables are methods
  with loops. Each is proved against a specification function or relation, and the promises are proved of that. The main
  operations also ensure a second statement, told from their inputs and results alone, without those functions.
- A Python dictionary is a map together with the sequence of its keys in insertion order wherever the order matters.
- Locks and transactions make atomic steps: a run is a sequence of them, in any interleaving, and a process may die
  between any two.
- A step that raises has changed nothing, and where the source compensates, the compensation succeeds (`fault`,
  `fuse`). In `Assets` other processes may also interfere: `others` is a script, a parameter of every run, of what they
  make of all names and contents at each moment between two operations; the world is calm when it is empty. A trace
  records every operation of the installer and every moment of the others, one leading to the next.
- Contents stand for their digests, so hashing is injective. Ranks and times are reals.

## Where the code does less than one might expect

Each exact condition below is proved in both directions, and a lemma gives a concrete input for the failing side
wherever one is named.

- **Circuit breaker.** A blocked download does not open the circuit when the cache cannot be read right after it: the
  `continue` at `src/yt_insights/acquisition.py:948` comes before the latch at line 965. The breaker keeps its
  promise exactly when discovery already reported the block, or the cache is readable after the first block, or no
  later video needs a download (`AcquisitionLoop.BreakerWorksWhenNoticed`, `AcquisitionLoop.BreakerCanFail`).
- **Moving files aside.** An upgrade checks that the target is still the recorded file and then renames whatever has
  the target's name (`src/yt_insights/assistant_setup.py:1184-1187`). The file moved aside is the checked one exactly when the
  other processes left the target alone at the moment in between (`Traces.MovedAsSeenExactly`, `Assets.Home.MoveAside`); a
  file that nobody recorded is moved when they did not (`Assets.ForeignFileMovesAside`), and it ends in the recovery
  directory if its name has been taken again (lines 1149-1157). In a calm world only recorded files are moved aside,
  whether the run then installs or rolls back (`Assets.Home.RunAssetsOnly`, `Assets.RunsMoveShippedFiles`).
- **Derived search rows.** An insight whose text holds a lone surrogate fails at its own INSERT, after its video and
  source rows were written; the error is caught and the video is not marked for re-rendering. The rows agree with the
  tables after an import exactly when every video that such a file makes new, retitles or gives a new source is
  re-rendered on account of another file, which can be told from the tables and the files before the import
  (`Catalog.AgreementExactly`, `Catalog.TouchedExactly`, `Catalog.UnstorableBreaksAgreement`); they always do when every
  text can be stored (`Catalog.StorableKeepsAgreement`).
- **Refreshing on retry.** A retry that resumes reindexing always refreshes the indexes, also when the process died
  right after completing an attempt in which no source was ready (`Workflow.WarrantedExactly`,
  `Workflow.RefreshForNothingHappens`).
- **Rolling back the pair.** A failure while publishing the search index removes the catalog, even a valid old one,
  unless the old index was certified by its receipt (`PairPublication.OldCatalogSurvives`,
  `PairPublication.FirstIndexFailureRemovesCatalog`). A failing directory check between the two publications leaves the
  new catalog beside an index of another build (`PairPublication.MatchedExactly`, `PairPublication.DirectoryCheckUnmatches`).

The dossier exporter keeps its promise: an export publishes or leaves the directory as it was
(`Dossier.ExportIsAllOrNothing`). A remark on its private `_publish`: taking a published dossier down checks the shape of its
manifest, which staging does not, so a badly shaped one would stay, with the prior dossier left at its backup name
(`Dossier.PriorRestoredExactly`, `Dossier.BadShapeIsStranded`). That input does not arise: `export_dossier` is the only
caller, and its manifest always has the required shape (`src/yt_insights/research/dossier.py:317-338`).

## Model

| member | source | states |
|---|---|---|
| Assets.Home.Rename | src/yt_insights/assistant_setup.py:541-590 | succeeds exactly when no fault strikes, the old name leads somewhere and the new one is free; then the trace ends with that rename and the entries are what it makes of what it found, otherwise nothing of its own is added |
| Traces.OwnStepKeeps | src/yt_insights/assistant_setup.py:541-590 | no rename, link or creation takes the last name of a file object or changes the content of one |
| Traces.OnlyOthersTakeNames | src/yt_insights/assistant_setup.py:541-590 | over any trace, under any interference, a file object that had a name and has none now lost it at a step of another process |
| Assets.Home.CreateFile | src/yt_insights/assistant_setup.py:750-760 | creates exactly when no fault strikes and the name is free, also under interference; a failed write leaves a partial file under the private name |
| Assets.Home.StageBytes | src/yt_insights/assistant_setup.py:744-830 | a staged file holds exactly the content under a private name, or every name is as before and no managed name has appeared |
| Assets.Home.Quarantine | src/yt_insights/assistant_setup.py:851-899 | on success the expected file, and no other, has the private name, under interference too; in a calm world nothing else moves, and every file object keeps a name |
| Assets.Home.Retain | src/yt_insights/assistant_setup.py:972-1012 | on success the file has a name in the recovery directory, under interference too; in a calm world nothing else moves, and every file object keeps a name |
| Assets.Home.RemoveExpected | src/yt_insights/assistant_setup.py:1015-1035 | on success the file has a name in the recovery directory, under interference too, and in a calm world its own name is free |
| Assets.Home.Publish | src/yt_insights/assistant_setup.py:1046-1080 | the target is the staged file, or the target's name is as free as before |
| Assets.Home.WriteExclusive | src/yt_insights/assistant_setup.py:1087-1135 | creates the target with the content, or leaves every managed name alone |
| Assets.Home.RetireOrRestore | src/yt_insights/assistant_setup.py:1138-1157 | the backup takes the target's name back when that is free |
| Assets.Home.MoveAside | src/yt_insights/assistant_setup.py:1183-1192 | what moves to the backup name is what has the target's name at the moment of the move, after the target was seen to be the expected file; without a fault it moves exactly when the target was as expected one moment before, it is still there and the backup name is free; in a calm world the expected file moves |
| Traces.MovedAsSeenExactly | src/yt_insights/assistant_setup.py:1184-1187 | the file moved aside is the one that was checked exactly when other processes left the target's name and its content alone in between |
| Assets.ForeignFileMovesAside | src/yt_insights/assistant_setup.py:1184-1187 | an input on which a file that nobody recorded is moved aside |
| Assets.Home.UndoReplace | src/yt_insights/assistant_setup.py:1210-1250 | after a failed replacement every managed name is on the file it was on |
| Assets.Home.Replace | src/yt_insights/assistant_setup.py:1160-1250 | replaces the expected file, which is kept as the backup, or leaves every managed name on the file it was on |
| Assets.Home.RollbackReplaced | src/yt_insights/assistant_setup.py:1253-1289 | undoes the replacements latest first: what remains logged is exactly the creations |
| Assets.Home.RemoveCreated | src/yt_insights/assistant_setup.py:1292-1312 | undoes the creations latest first: nothing remains logged |
| Assets.Home.Rollback | src/yt_insights/assistant_setup.py:1327-1343 | every managed name is on the file it was on before the transaction, whatever was logged |
| Assets.Home.Finish | src/yt_insights/assistant_setup.py:1346-1375 | only backup names are affected by the clean-up |
| Assets.Home.PlaceAssets | src/yt_insights/assistant_setup.py:1549-1565 | the loop over the assets: each target ends on its source, the log undoes exactly what was done, and every file moved aside, also by a replacement that then failed, was seen to be recorded in the manifest under its own target |
| Assets.Home.CheckPreimages | src/yt_insights/assistant_setup.py:1408-1428 | with nothing changed since planning, only the planned fault makes the recheck fail |
| Assets.Home.Forward | src/yt_insights/assistant_setup.py:1536-1590 | at every exit the log undoes exactly what was done; success means every target leads to its source and the manifest records it there, and at every other place exactly what it recorded before |
| Assets.Home.Apply | src/yt_insights/assistant_setup.py:1536-1604 | all or nothing: on failure every managed name, the manifest's too, is on the file it was on |
| Assets.Home.Plan | src/yt_insights/assistant_setup.py:249-334 | for every target what its name leads to: nothing, the source, a file that the valid manifest records under that very target (an upgrade), or something else (a conflict); told in names and contents |
| Assets.Home.RunAssetsOnly | src/yt_insights/assistant_setup.py:1635-1717 | verify and dry runs change nothing; an apply in a calm world is blocked exactly when the manifest is taken by something that is no valid record or a target by something that is neither its source nor recorded under it, and never by a free name; after an installation every target is its source and the manifest records them over what it recorded before; otherwise it rolls back to every managed name, without a fault never; whatever the outcome, every file it moved aside was seen to be the manifest or recorded in it, and in a calm world was that file; no file object loses its last name except to another process |
| Assets.ConflictBlocks | src/yt_insights/assistant_setup.py:249-334 | an apply meets a conflict exactly when something stands in the way of a name; a free name never does |
| Assets.ReportsTell | src/yt_insights/assistant_setup.py:1635-1717 | the reports of all modes, told from names and contents alone: what blocks, what verifies, and what an installation leaves at the targets and in the manifest |
| Assets.InstalledVerifies | src/yt_insights/assistant_setup.py:1668-1687 | after an installation verify mode reports verified |
| Assets.SecondApplyDoesNothing | src/yt_insights/assistant_setup.py:1536-1590 | a second apply creates, replaces and moves nothing |
| Assets.EveryHistoryTrusted | src/yt_insights/assistant_setup.py:1566-1587 | over any sequence of applies that began without a manifest, and any edits of the managed files in between, a valid manifest records only files that an apply of the sequence installed |
| Assets.UpgradesMoveShippedFiles | src/yt_insights/assistant_setup.py:308-334 | over the same sequences a file is marked for upgrade only if an earlier apply installed its content |
| Assets.RunsMoveShippedFiles | src/yt_insights/assistant_setup.py:1160-1250 | over the same sequences every file that a run moves aside, the manifest apart, had its target's name when the run began and has exactly the content of a file that an earlier apply installed, whether the run installs or rolls back |
| UndoLog.UndoneReplaced | src/yt_insights/assistant_setup.py:1253-1289 | putting the last backup back leaves a disk on which the shorter log is exact |
| UndoLog.LogReplaced | src/yt_insights/assistant_setup.py:1553-1565 | a replacement of a target the log does not mention extends the log exactly |
| Catalog.ImportItem | src/yt_insights/catalog.py:1120-1223 | one item of the import: what it writes, counts, touches and sees, with every error path |
| Catalog.ImportItems | src/yt_insights/catalog.py:1100-1238 | the import loop and the dropping of stale sources equal the fold |
| Catalog.ImportConserves | src/yt_insights/catalog.py:1100-1238 | no artifact is lost or re-keyed, every artifact's source is in the sources table, and the items written are the growth of the artifact table |
| Catalog.RenderShows | src/yt_insights/catalog.py:1401-1436 | a rendered row has the title and the sources of the tables; its body is the texts of exactly the video's artifacts, insights first, then by language, then in table order, and its subject the insight texts among them in that order |
| Catalog.FoldUntouched | src/yt_insights/catalog.py:1168-1224 | a video that is not touched keeps its artifacts, and its title and sources but for what its failing items wrote |
| Catalog.RowAfterImport | src/yt_insights/catalog.py:1057-1058 | the row of a video agrees after the import exactly when some file has the video rendered again or no failing file of it shows; all of it told from the tables and the files before the import |
| Catalog.AgreementExactly | src/yt_insights/catalog.py:1015-1098 | an import keeps rows and tables in agreement exactly when every video that a failing file makes new, retitles or gives a new source is rendered again on account of another file; both told from the tables and the files before the import |
| Catalog.AgreementDisplays | src/yt_insights/catalog.py:1401-1436 | where rows and tables agree every video of the tables has one row, and it shows them |
| Catalog.StorableKeepsAgreement | src/yt_insights/catalog.py:1015-1098 | with texts that can be stored, every video again has exactly one row, equal to a fresh rendering, though only touched videos are rendered |
| Catalog.UnstorableBreaksAgreement | src/yt_insights/catalog.py:1168-1224 | an input on which a video ends without a row |
| Catalog.FoldOverlays | src/yt_insights/catalog.py:1120-1214 | the import loop writes over the tables exactly what the files alone say: last titles, dates and places, new keys in order |
| Catalog.TouchedExactly | src/yt_insights/catalog.py:1168-1223 | a video is touched exactly when some file brings it a new artifact that can be stored, or a known one with another title, date, source or place than the last word before it |
| Catalog.FailsExactly | src/yt_insights/catalog.py:1168-1224 | an item fails after writing its video exactly when it can be read, its text cannot be stored and the tables before the import do not have it |
| Catalog.ImportAgain | src/yt_insights/catalog.py:1100-1238 | importing the same files again writes no item and leaves titles, dates, sources, artifacts and their locations equal |
| Catalog.ImportAgainRows | src/yt_insights/catalog.py:1015-1098 | and leaves the search rows equal when the first import left them in agreement |
| Catalog.DiscoverKeeps | src/yt_insights/catalog.py:1240-1308 | ingesting a discovery keeps rows and tables in agreement |
| Catalog.DiscoveryMeaning | src/yt_insights/catalog.py:1240-1308 | the title, date and sources of every video after a discovery, told from the tables before and the listing |
| Catalog.DiscoveryLeaves | src/yt_insights/catalog.py:1240-1308 | the whole of a discovery: artifacts untouched, listed videos displayed, all other rows as they were |
| Catalog.EveryRunAgrees | src/yt_insights/catalog.py:1015-1308 | over any sequence of imports, failed imports and discoveries in which every readable file has a text that can be stored, rows and tables agree |
| Catalog.Database.ImportCorpus | src/yt_insights/catalog.py:1015-1098 | an import that raises leaves the tables and rows as they were; otherwise every artifact, title, date and source is what the tables and the files before it make it, every video to be rendered has one row that shows the new tables, every other row is as it was, and the summary counts the items and errors |
| Catalog.ImportMeaning | src/yt_insights/catalog.py:1100-1238 | each artifact, its place, each title, date and source after an import, whatever the tables held: the last file that brings it, or as before; a source goes exactly when no file names it, no artifact of its video lies in it and an artifact moved away from it |
| Catalog.ImportDisplays | src/yt_insights/catalog.py:1015-1098 | after an import the rendered videos show the tables and every other row is as it was |
| Catalog.FoldErrors | src/yt_insights/catalog.py:1120-1223 | the errors counted are the faults of the files |
| Catalog.Database.ReindexTouched | src/yt_insights/catalog.py:1057-1058 | every touched video, in whatever order, has one row that shows the tables, and no other row changes |
| Catalog.Database.IngestDiscovery | src/yt_insights/catalog.py:1240-1308 | the loop over the listing equals the fold; a listed video has the last title given, keeps its date where the listing has none, and the source keeps its URL unless another is given; its row shows the tables, and no other row changes |
| PairPublication.Directories.PublishCatalog | src/yt_insights/acquisition.py:756-789 | the new catalog is live, or the directories are as they were |
| PairPublication.Directories.PublishSearch | src/yt_insights/acquisition.py:796-818 | receipt before database: at every step the live index is covered by its receipt; success exactly without a fault and with a fresh generation |
| PairPublication.Directories.RollBack | src/yt_insights/acquisition.py:819-858 | database before receipt: both old databases when both were good, otherwise neither new one; the final validation never fails |
| PairPublication.Directories.RebuildAndPublish | src/yt_insights/acquisition.py:682-866 | published exactly without a fault, with an old catalog that is absent or valid, and a generation that has no receipt; an explicit condition for every other outcome and what each leaves; every state in between is covered by a receipt |
| PairPublication.ResultFits | src/yt_insights/acquisition.py:682-866 | when each outcome comes, told from the fault, the old databases and the receipts, and what it leaves |
| PairPublication.AlwaysCertified | src/yt_insights/acquisition.py:796-858 | at every step the live index has its receipt if it had one to begin with |
| PairPublication.PublishedIsNew | src/yt_insights/acquisition.py:866 | a normal return means both databases are new, valid and certified |
| PairPublication.FailureInsideTries | src/yt_insights/acquisition.py:769-858 | a failure inside either `try` leaves neither new database live, and both old ones when both were valid |
| PairPublication.OldCatalogSurvives | src/yt_insights/acquisition.py:819-853 | the old catalog survives a failure of the second `try` exactly when there was none or the old index was certified |
| PairPublication.FirstIndexFailureRemovesCatalog | src/yt_insights/acquisition.py:848-853 | an input on which a valid catalog is lost |
| PairPublication.MatchedExactly | src/yt_insights/acquisition.py:791-793 | a matched pair stays matched exactly unless a refresh that starts meets a failing directory check and the index is of another build |
| PairPublication.DirectoryCheckUnmatches | src/yt_insights/acquisition.py:791-793 | an input on which the new catalog stays beside the old index |
| PairPublication.EveryRunMatched | src/yt_insights/acquisition.py:682-866 | over any sequence of refreshes without a failing directory check the pair stays matched |
| PairPublication.EveryRunCertified | src/yt_insights/acquisition.py:682-866 | over any sequence of refreshes whatever, the live index is certified |
| AcquisitionLoop.SelectVideos | src/yt_insights/acquisition.py:366-385 | a video is selected exactly when its id is valid, it is the first of its id, and its year is asked for; every other one is excluded with its reason; both lists keep the order of the plan |
| AcquisitionLoop.ReasonMeaning | src/yt_insights/acquisition.py:366-385 | which videos belong to a plan, and what each other one is left out for |
| AcquisitionLoop.ChosenDistinct | src/yt_insights/acquisition.py:366-385 | a plan never names a video twice |
| AcquisitionLoop.Turn | src/yt_insights/acquisition.py:890-979 | one video's turn: its report told from the cache and the answers, whether `download` was called, the circuit afterwards, and whether a failure was noted |
| AcquisitionLoop.ListingTells | src/yt_insights/acquisition.py:890-979 | status, error code and digest of a report, told from what the cache held and the download said |
| AcquisitionLoop.CircuitMeaning | src/yt_insights/acquisition.py:887-967 | the circuit is open exactly once discovery, or a download after which the cache could be read, has told of a block |
| AcquisitionLoop.Execute | src/yt_insights/acquisition.py:869-1072 | one report per video in plan order, each told from the cache and the answers; `download` is called exactly in the turns that need it with the circuit closed; exit code 0 exactly when nothing at all went wrong, and then every video is ready, 4 exactly when something is ready all the same, 1 otherwise |
| AcquisitionLoop.SuccessMeans | src/yt_insights/acquisition.py:124-130 | exit code 0 leaves every video acquired or already present with a transcript |
| AcquisitionLoop.AfterOpening | src/yt_insights/acquisition.py:907-921 | once the circuit is open uncached videos are put off and readable cached ones are still handled |
| AcquisitionLoop.BreakerWorksWhenNoticed | src/yt_insights/acquisition.py:887-967 | no download follows a block exactly when the block is known from discovery or noticed |
| AcquisitionLoop.BreakerCanFail | src/yt_insights/acquisition.py:935-948 | an input on which a download follows a block |
| Workflow.ResearchWorkflow.AcquireVideos | src/yt_insights/research/workflow.py:662-712 | the loop over the videos, dying at any step, equals its specification; it calls once, in order, for videos without a final outcome, records exactly what the service answers, and at its end has an answer for each of them |
| Workflow.ResearchWorkflow.ContinueAcquisition | src/yt_insights/research/workflow.py:634-743 | a pass keeps final outcomes; it calls once, in order, for the videos without one, and every outcome it adds or changes is what the service answered; with every video still approved it dies or ends with the answer for each, reindexing exactly when a source is ready or nothing failed retryably and refreshing exactly when a source is ready |
| Workflow.ResearchWorkflow.RefreshAndAssess | src/yt_insights/research/workflow.py:761-791 | refreshes once if told to, changes no outcome, and is never refused by the store |
| Workflow.ResearchWorkflow.AssessSession | src/yt_insights/research/workflow.py:793-839 | ends with the session waiting for its user or the assessment failed, or as it was when the process dies; no outcome changes and the store never refuses |
| Workflow.ResearchWorkflow.RetryAcquisition | src/yt_insights/research/workflow.py:476-573 | a retry at any stage keeps final outcomes, calls only for videos without one and records exactly what the service answers; where it ends follows from what it takes up; it refreshes without a ready source exactly when it takes up reindexing with none |
| Workflow.LoopKeeps | src/yt_insights/research/workflow.py:647-712 | every call is for a video without a final outcome, and a loop that ends leaves an outcome for every video |
| Workflow.ContinueAnswers | src/yt_insights/research/workflow.py:647-712 | a pass records what the service answers and nothing else, calling in order and once each; one that ends has every answer |
| Workflow.ContinueEnds | src/yt_insights/research/workflow.py:714-839 | a pass that ends leaves the session where the outcomes, the refresh and the assessment say, as many revisions on as it made moves; one that is given two steps for each video and four more never dies |
| Workflow.ClaimKeeps | src/yt_insights/research/workflow.py:488-517 | claiming a retry under the lock changes no outcome and resumes acquiring or a completed attempt |
| Workflow.RetryTakesUp | src/yt_insights/research/workflow.py:488-546 | with a fresh key a retry takes up everything that is begun and not with the user, with a stored one what is under way or a failure that is not final: reindexing and its failure as reindexing, assessing and its failure as assessing, all else as acquiring, and with the revision it moves to |
| Workflow.RetryEnds | src/yt_insights/research/workflow.py:518-573 | where a retry that ends leaves the session, by what it took up |
| Workflow.EveryRun | src/yt_insights/research/workflow.py:380-791 | over any run of acquire, crash and retry the service is never called for a video with a recorded outcome that is not retryable, and such an outcome never changes |
| Workflow.EveryOutcomeAnswered | src/yt_insights/research/workflow.py:380-712 | over any run every recorded outcome was there at first or is what the service answered for that video in some pass |
| Workflow.ApprovedIsGood | src/yt_insights/research/workflow.py:429-440 | a session that waits for its acquisition meets the invariant and can be started |
| Workflow.PassCompletes | src/yt_insights/research/workflow.py:714-743 | a pass that ends has an outcome for every video, goes to reindexing exactly when a source is ready or nothing failed retryably, refreshes exactly when a source is ready, and is never refused by the store |
| Workflow.FlagIsRecomputed | src/yt_insights/research/workflow.py:841-863 | the partial-failure flag recomputed on retry is the original one |
| Workflow.WarrantedExactly | src/yt_insights/research/workflow.py:541-546 | an event refreshes without a ready source exactly when a retry resumes reindexing of an attempt with none |
| Workflow.RefreshForNothingHappens | src/yt_insights/research/workflow.py:541-546 | a run on which that happens |
| Dossier.ParentDirectory.Stage | src/yt_insights/research/dossier.py:541-567 | the stage is complete and consistent, or gone again |
| Dossier.ParentDirectory.RemovePublished | src/yt_insights/research/dossier.py:886-889 | takes down only what it would accept as a prior dossier, one file at a time |
| Dossier.ParentDirectory.PublishFresh | src/yt_insights/research/dossier.py:757-777 | without force: published, or the directory as it was, for every fault |
| Dossier.ParentDirectory.Swap | src/yt_insights/research/dossier.py:779-809 | with force: the outcome and the directory for every fault, the prior dossier kept at every step |
| Dossier.ParentDirectory.Restore | src/yt_insights/research/dossier.py:892-904 | the prior directory object is back at the destination |
| Dossier.ParentDirectory.Retire | src/yt_insights/research/dossier.py:907-919 | a retired backup goes or stays at a private name; failures are swallowed |
| Dossier.ParentDirectory.Publish | src/yt_insights/research/dossier.py:531-578 | the outcome and the directory for every request and fault, each under an explicit condition: a faultless export publishes exactly to a free destination without force and over a dossier with it; at every step the prior dossier is intact at the destination or backup name or the complete new one is in place, and nothing else is touched |
| Dossier.ResultFits | src/yt_insights/research/dossier.py:531-578 | when each outcome comes, told from the destination, the request and the fault, and what it leaves |
| Dossier.VisibleIsConsistent | src/yt_insights/research/dossier.py:731-739 | any dossier visible at the destination at any step has a manifest that records its document |
| Dossier.PublishedIsNew | src/yt_insights/research/dossier.py:742-810 | on return the destination is the complete new dossier |
| Dossier.PriorRestoredExactly | src/yt_insights/research/dossier.py:803-809 | a failed forced replacement leaves the prior dossier in place exactly unless it fails after the swap with a badly shaped manifest |
| Dossier.BadShapeIsStranded | src/yt_insights/research/dossier.py:803-808 | a remark on the private function, whose only caller never passes such a manifest: with a badly shaped one the prior dossier would be left at its backup name |
| Dossier.ExportIsAllOrNothing | src/yt_insights/research/dossier.py:131-172 | an export publishes the complete new dossier or leaves the directory exactly as it was, for every fault, with or without force |
| Dossier.EveryRunKeepsADossier | src/yt_insights/research/dossier.py:131-172 | over any sequence of exports, whatever fails, a valid dossier at the destination stays a valid dossier |
| Dossier.EveryRunKeepsTheLast | src/yt_insights/research/dossier.py:131-172 | over any sequence of exports the destination holds the dossier of the last one that returned normally |
| Dossier.EveryRunKeepsTheFirst | src/yt_insights/research/dossier.py:131-172 | and while none has, the directory is as it was at first |
| Jobs.JobExecutor.Submit | src/yt_insights/web/jobs.py:81-107 | when each answer comes, and what it changes: the oldest finished jobs go as far as needed, an accepted job is recorded as queued and waits last; the accounting is kept |
| Jobs.SubmissionMeaning | src/yt_insights/web/jobs.py:81-115 | every answer to a submission under an explicit condition on bounds, kind, id and pool, with everything that it changes |
| Jobs.JobExecutor.EvictTerminalRecords | src/yt_insights/web/jobs.py:159-165 | the oldest finished records go, as many as needed and no more |
| Jobs.JobExecutor.BeginRun | src/yt_insights/web/jobs.py:133-136 | the worker takes the oldest queued job, whose record is now running and no other changed |
| Jobs.JobExecutor.Lookup | src/yt_insights/web/jobs.py:109-115 | a job is found exactly while it is recorded, with its record |
| Jobs.JobExecutor.FinishRun | src/yt_insights/web/jobs.py:133-157 | a job whose operation returns is recorded as succeeded with the value, or a marker above 24 KiB, and any other as failed with its code and no result; the kind is kept, the permit freed and the job appended to the finished list |
| Jobs.JobExecutor.Shutdown | src/yt_insights/web/jobs.py:117-123 | closing stops submissions and leaves everything accepted |
| Jobs.PublishedConcludes | src/yt_insights/web/jobs.py:137-156 | status, error code and result of a finished job, field by field |
| Jobs.Accounting | src/yt_insights/web/jobs.py:71-79 | permits in use equal the unfinished records and are at most `max_queued + 1`; records are at most `max_records`; the finished list names exactly the finished records once each |
| Jobs.AcceptedExactly | src/yt_insights/web/jobs.py:81-107 | a well-formed submission is accepted exactly when the executor is open and neither bound is reached |
| Jobs.RefusedKeepsLive | src/yt_insights/web/jobs.py:95-107 | a refused submission leaves every unfinished job and permit alone |
| Jobs.RecordLife | src/yt_insights/web/jobs.py:133-165 | a record only moves queued, running, concluded as its operation ended; unfinished ones are never evicted and finished ones never change |
| Jobs.EveryRun | src/yt_insights/web/jobs.py:81-165 | accounting and the order of work hold at every lock-free point of every interleaving |
| Jobs.StartIsGood | src/yt_insights/web/jobs.py:58-79 | a new executor meets the invariants |
| Jobs.AcceptedWorkDrains | src/yt_insights/web/jobs.py:117-157 | from any reachable state, open or closed, everything accepted can still finish, each operation exactly once, in acceptance order |
| Chunker.Normalize | src/yt_insights/search/chunker.py:17-34 | rejects exactly the malformed segments; otherwise a timeline sorted by start without empty texts |
| Chunker.NextStart | src/yt_insights/search/chunker.py:90-95 | the search for the next start always finds the least later segment within the overlap |
| Chunker.Extend | src/yt_insights/search/chunker.py:50-73 | the inner loop stops exactly where the bounds and the stop rule say |
| Chunker.BuildPassages | src/yt_insights/search/chunker.py:37-97 | terminates, and cuts the timeline up: every start, end and text, told in segments, words and seconds, with the bounds of 220 words and 90 s, the stop at 100 words and 45 s and the overlap of 12 s |
| Chunker.BuildFromRaw | src/yt_insights/search/chunker.py:17-97 | refuses exactly the lists with a malformed segment; otherwise the passages of the sorted timeline, which keeps every segment |
| Chunker.FinalsMonotone | src/yt_insights/search/chunker.py:50-95 | a chunk that starts later, inside or right behind another, ends no earlier |
| Chunker.WholeTranscript | src/yt_insights/search/chunker.py:49-95 | first indices strictly increase, last indices and ends never decrease, no gap, every segment covered |
| Chunker.PassageBounds | src/yt_insights/search/chunker.py:50-73 | a passage never ends before it starts, and one of several segments is within both bounds |
| Chunker.PassagesUnique | src/yt_insights/search/chunker.py:37-97 | a timeline has exactly one list of passages meeting the rules |
| Chunker.PassagesMeaning | src/yt_insights/search/chunker.py:37-97 | a passage goes from the start of its first segment to that of the segment behind its last, or of the last at the end of the input, and spells the words of its segments one after the other; it stops and the next one starts exactly where the bounds in words and seconds say |
| Corpus.SizeDiverse | src/yt_insights/search/corpus.py:219-233 | smallest, largest, next smallest, next largest |
| Corpus.PlayRound | src/yt_insights/search/corpus.py:252-260 | one round: the next source of every active group leaves its queue, and the groups with any left stay active |
| Corpus.RepresentativeCandidates | src/yt_insights/search/corpus.py:236-262 | the queues popped round by round give the groups in turn, then the rejected sources by path |
| Corpus.RepresentativePermutes | src/yt_insights/search/corpus.py:236-262 | the selection is a permutation of its input |
| Corpus.RepresentativeMeaning | src/yt_insights/search/corpus.py:219-262 | the order told from sizes, paths, channels and languages: turn 2r of a group takes its r-th smallest source, turn 2r + 1 its r-th largest; earlier turns go first, in one turn lower channels and then languages; the rejected sources follow by path |
| Corpus.GroupsAppearDiverse | src/yt_insights/search/corpus.py:219-262 | each group appears in its size-diverse order |
| Corpus.GroupsKeepPace | src/yt_insights/search/corpus.py:251-260 | in every prefix one group is at most one ahead of another that is not exhausted |
| Corpus.TurnsAreOrdered | src/yt_insights/search/corpus.py:221-252 | groups take turns in key order and each queue comes from a true sort |
| Corpus.Scan | src/yt_insights/search/corpus.py:316-409 | every visited source is a document or invalid with its reason, told from what its reading turned up, both in the order visited; a representative scan takes the sources in their turns and indexes exactly min(limit, indexable sources), an ordered one the first sources, a full one all |
| Corpus.ScanAccounts | src/yt_insights/search/corpus.py:340-401 | every source visited is a document, or listed with what the inventory knows or the first step of the reading that fails; both in order |
| Discovery.FileListing | src/yt_insights/research/discovery.py:87-101 | files the valid records among the first ten and reports the others |
| Discovery.Collect | src/yt_insights/research/discovery.py:69-101 | the candidates by id are those of all hits, and the errors are the reported codes without repeats in order |
| Discovery.TakeInTurn | src/yt_insights/research/discovery.py:184-197 | exactly the first members, up to the limit, of the groups taken column by column |
| Discovery.RoundRobinChannels | src/yt_insights/research/discovery.py:167-197 | and the groups are the channels by the rank of their first member |
| Discovery.Discover | src/yt_insights/research/discovery.py:62-126 | refused exactly when unacceptable; otherwise the candidates are the first of the unknown videos in the order of their turns, each with its first record, its rank and every query that lists it; each error code is reported once and exactly if a query or the outcome is to blame; completed exactly with candidates and without errors |
| Discovery.RefusalMeaning | src/yt_insights/research/discovery.py:128-147 | what a request is refused for, bound by bound |
| Discovery.ValidMeaning | src/yt_insights/research/discovery.py:149-159 | which records are used: the characters and the length of the id, the length of the title |
| Discovery.ArrivalsMeaning | src/yt_insights/research/discovery.py:69-111 | who takes turns, told from the listings: the first records of the ids that the catalog does not have, in the order of query and rank |
| Discovery.ReportsMeaning | src/yt_insights/research/discovery.py:76-124 | which query or outcome each error code blames |
| Discovery.TurnsMeaning | src/yt_insights/research/discovery.py:167-197 | a candidate with fewer of its channel ahead goes first, of as many the one whose channel's first arrival has the better rank, then the earlier arrival; channels told from their ids, a candidate without one being a channel of its own |
| Discovery.CandidateMeaning | src/yt_insights/research/discovery.py:91-101 | a candidate lists exactly the queries that found it, without repeats |
| Discovery.FirstHitWins | src/yt_insights/research/discovery.py:93-98 | and carries the record and rank of its first hit |
| Discovery.SelectedMeaning | src/yt_insights/research/discovery.py:103-118 | as many as asked for or as there are, all found, none known to the catalog |
| Discovery.SelectedVideosDiffer | src/yt_insights/research/discovery.py:112-118 | no two selected candidates are the same video |
| Discovery.HitsMeaning | src/yt_insights/research/discovery.py:87-90 | the hits are the valid records among the first ten of each listing, with their query and rank |
| Discovery.ChannelsPartition | src/yt_insights/research/discovery.py:171-183 | each channel has one group, in arrival order, and every candidate is in one |
| Discovery.ChannelsByLeadRank | src/yt_insights/research/discovery.py:180-183 | the channels take their turns by the rank of their first member |
| Assessment.SelectBest | src/yt_insights/research/assessment.py:349-363 | the fold keeps the best entry of every identity |
| Assessment.BestIsLeast | src/yt_insights/research/assessment.py:349-363 | which is the least by its two numbers, and the earliest of equals |
| Assessment.AssessLocal | src/yt_insights/research/assessment.py:242-284 | the ranked passages and videos, the zero-hit list and the totals |
| Assessment.MergeLanguages | src/yt_insights/research/assessment.py:107-152 | the hits of all languages ranked by language and rank, cut at the limit |
| Assessment.RankedStrictly | src/yt_insights/research/assessment.py:366-375 | the output is strictly ordered whatever the batches hold |
| Assessment.RankedUnique | src/yt_insights/research/assessment.py:366-375 | it is the only strictly ordered list of exactly the winning entries |
| Assessment.RankedRanks | src/yt_insights/research/assessment.py:349-375 | each identity is listed once with its best hit, told from the batches, and in the order of those hits' two numbers |
| Assessment.ZeroHitsMeaning | src/yt_insights/research/assessment.py:250-258 | the zero-hit list is exactly the queries that found neither kind of evidence |
| Assessment.ZeroHitsInOrder | src/yt_insights/research/assessment.py:250-258 | and in the order of the queries |
| Vtt.PrintedTimeReadsBack | src/yt_insights/vtt_parser.py:28-38 | reading a printed time gives back its whole seconds, however many hours |
| Vtt.StampConverts | src/yt_insights/vtt_parser.py:28-32 | every matched cue converts, with either separator |
| Vtt.StampIsSeconds | src/yt_insights/vtt_parser.py:28-32 | the seconds of a cue, digit by digit |
| Vtt.StampReadsBack | src/yt_insights/vtt_parser.py:28-32 | every time of hours, minutes, seconds and thousandths written as a stamp, with either separator, is read back exactly |
| Vtt.ParseTimestamped | src/yt_insights/vtt_parser.py:48-83 | the loop and the sort give one segment for each caption, from the first line with it and with the time of the last cue above, in hours, minutes, seconds and thousandths; by time, and of one time by line |
| Vtt.FirstsAreFirst | src/yt_insights/vtt_parser.py:60-80 | the collected segments are exactly the first occurrences, each at its cue time |
| Vtt.ResultMeaning | src/yt_insights/vtt_parser.py:48-83 | distinct texts sorted by start, each stamped with the cue time of its first appearance |
| Vtt.TranscriptMeaning | src/yt_insights/vtt_parser.py:48-83 | the answer told from the lines alone |
| Vtt.OrderedCuesNeedNoSort | src/yt_insights/vtt_parser.py:82 | with cue times that never decrease the sort changes nothing |
| Vtt.RepetitionIsIgnored | src/yt_insights/vtt_parser.py:72-80 | repeating a caption already seen never changes the result |
| RoundRobin.Fair | src/yt_insights/search/corpus.py:251-260 | in every prefix of the rounds two counts differ by at most one unless the smaller is exhausted |
| RoundRobin.SlotsInOrder | src/yt_insights/research/discovery.py:184-197 | turns are taken by place and, of one place, in the order of the groups |
| RoundRobin.InTurnTakesAll | src/yt_insights/research/discovery.py:184-197 | enough rounds take every member exactly once |
| Grouping.Group | src/yt_insights/search/corpus.py:239-246 | filing under keys keeps every member, in order, under its key |
| Ordering.SortIsStable | src/yt_insights/research/discovery.py:180-182 | the sort leaves equal elements in the order in which they arrived |
| Ordering.StringLeMeaning | src/yt_insights/search/corpus.py:219-233 | the order of strings compares them at the first place where they differ |
| Grouping.SelectTurns | src/yt_insights/search/corpus.py:251-260 | the rounds take each group in the order of its queue |

## Left out

- File descriptors, inode race checks inside one operation, fsync, symbolic links, permissions: a file operation is one atomic step on a map from names to file objects. A failing fsync counts as a step that changed nothing.
- Parent directories of managed files, the home directory and the recovery directory are taken to exist; the directories an apply creates and leaves behind after a rollback are not modelled.
- The recovery paths that the installer reports, and registration of the clients' servers.
- Assets.Home.Plan: reading the disk for planning cannot fail, so an unreadable source file is not modelled.
- Assets.SecondApplyDoesNothing: speaks of runs without interference; with interference the claims are the trace's: who took a last name, what was checked before it was moved aside, where a removed file went.
- Assets.ForeignFileMovesAside: shows the move itself; where the whole run then puts the foreign file is not proved.
- Catalog.AgreementExactly: a row keeps its parts, since the joining of slugs and texts into one string each is not modelled; two lists of parts may join to the same string.
- Catalog.Database.ImportCorpus: run rows, error rows and timestamps are not modelled; the staging and exchange of the database file are left out.
- Catalog.Database.IngestDiscovery: the listing's error rows, and an exception in the middle of the loop, are not modelled.
- PairPublication.Directories.RebuildAndPublish: building the staged databases is one step that may fail; a replacement that raises has not replaced, and compensating steps succeed.
- AcquisitionLoop.Execute: analysis and index refresh after the loop are a number of further failures; pauses between downloads are left out.
- Workflow.ResearchWorkflow.RetryAcquisition: finding the attempt and claiming it under its lock are one step; bookkeeping of retry keys and of their stored results is left out, so a stored key either resumes where the attempt is or changes nothing.
- The replay answers of `acquire` and its payload checks, discovery retries, and sessions with several attempts.
- Dossier.ParentDirectory.Publish: identities of directories are compared only through the objects themselves, since nobody interferes; rendering and root constraints are left out.
- Jobs.JobExecutor.Submit: a pool that accepts the work and then raises is not modelled; the pool either takes the work or raises.
- Jobs: exceptions that are not errors (an interrupt inside an operation) and the copying of results are left out.
- Corpus.Scan: what reading, decoding and parsing a file turn up is one answer per source; the inventory itself is a parameter.
- Discovery.Discover: requests of the wrong type, publication dates and watch URLs are left out.
- Assessment.AssessLocal: snapshots, freshness, publication dates and channel counts are left out; ranks are real numbers, so a rank that is not a number cannot occur.
- Vtt.ParseTimestamped: lines come classified and stripped of markup; digits are the ASCII ones; a cue time is a real number.
- Chunker.BuildPassages: times are real numbers; document identities and links are left out.
- Subprocesses, HTTP, language models, servers, command lines and the user interface.
