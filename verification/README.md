# Crash-safe checkpoints and the reflection matcher

A Dafny model of two parts of flon-core, with proofs:

* `scripts/state_checkpoint.py`: physical checkpoints of a node's data files, and the journalled recovery that
  swaps a checkpoint in, file by file, so that a stop at any moment can be continued.
* the field matcher of `tools/validate_reflection.py`: the walk that compares the fields of a class with those of
  its FC_REFLECT macro.

`dafny verify dfyconfig.toml` checks the whole project.

## The recovery in short

`restore` stages a copy of every checkpoint file next to its target, then publishes a journal under two marker
names, then goes on as `resume`. `resume` tells from the names present and the identity of the original which of
three phases each file is in (ready, original saved, installed), puts back a missing marker, renames what is still
to be renamed, and removes the markers one by one. A run may stop between any two file operations, and the power
may fail at any time.

The file system (`Volume.dfy`) gives each directory a durable listing and a queue of operations that are not synced
yet. `sync_dir` empties the queue; a power loss keeps some prefix of it, directory by directory, and may replace the
content of any file that was not synced. `View(k)` is the listing after a loss that keeps `k` operations, and the
invariant of a pending recovery (`Recoveries.Active`) speaks about every `View`: in each of them every file is in
one of its phases, every marker holds the journal, and unless a marker survives in all of them, the files are
surely all ready or surely all installed.

The number of files is arbitrary; `Tool.Standard` is the tool's own environment with its three files.

How the files build on each other:

| file | content |
|---|---|
| `SparseFile.dfy` | `ranges`, `copy_sparse`, `verify_file` |
| `Volume.dfy`, `Recovery.dfy` | the file system; the invariant of one recovery and what each operation does to it |
| `Protocol.dfy`, `Swapping.dfy`, `Staging.dfy` | the operation lists of publishing, swapping, resuming and beginning, safe at every prefix |
| `Phases.dfy` | the same operations on any volume: from phase to phase |
| `Manifest.dfy`, `Journal.dfy` | the JSON documents, written and read back; path names |
| `Tool.dfy` | the decisions of `resume` and `restore` as functions of the volume |
| `Bystanders.dfy` | which files the operation lists neither write nor sync |
| `Safety.dfy` | the decisions are right, so the runs keep the invariant |
| `Session.dfy` | the tool as a program with loops, proved against `Tool` |
| `Frame.dfy`, `Verdicts.dfy` | on any volume: what a run may touch, what it insists on, and what it leaves |
| `Tracking.dfy` | one restore from its first marker on, and to its end |
| `Runs.dfy` | histories of runs and power losses |
| `NodeStarts.dfy`, `Unsynced.dfy` | when the node may be started; originals that were not synced |
| `Example.dfy` | the hypotheses of the results about histories can be met |
| `Generations.dfy` | `create` |
| `Reflection.dfy` | the matcher |

## What the code does not keep, and exactly when it does

* A restore whose journal is longer than 16 MiB when printed, or that records a file dated before 1970, publishes
  both markers and is then refused by every resume: `write_json` has no limit and `fingerprint` no sign check, but
  `read_json` and `recovery_entries` have. `Tracking.RestoreFinishesIff` gives the exact condition,
  `Tracking.UnreadableIsStuck` the consequence, `Journals.OldFileExample` a concrete journal and
  `Examples.UnreadableStrands` whole restores, with the tool's own files, that get stuck either way.
* The node starts if it sees no marker (plugins/chain_plugin/chain_plugin.cpp:588), but a marker that has been
  removed and not synced can come back with a power loss. If the node has replaced a file meanwhile, the recovery is
  stranded: resume, restore (`NodeStarts.StrandedForGood`) and the node all refuse. The invariant survives every run of
  the node exactly if no marker can come back when it starts (`NodeStarts.NodeStartIff`); otherwise a power loss can
  strand the recovery (`NodeStarts.NodeStartStrands`), and a resume that is cut short right before its last sync leads
  there (`NodeStarts.StrandedHistory`, `Examples.NodeRunStrands`). Right after a power loss it is always safe to start
  (`NodeStarts.StartAfterLoss`).
* `restore` records the size and time of the originals but never syncs them. A power loss behind the markers may bring
  an original back with other ones, and resume then refuses it. Resume accepts whatever a power loss leaves exactly if
  the journal is readable and the originals were synced when the restore began (`Unsynced.OriginalsIff`,
  `Examples.UnsyncedFileStrands`). With unsynced originals, too, no file is lost and no
  mixture is left without a marker (`Runs.AllOrNothing`), and without a power loss they make no difference
  (`Runs.InterruptedEndsTheSame`).
* The header comment of the matcher wants only out-of-order fields declared as swapped. A needless swap is refused
  unless the class field just before it is an ignored one: `Reflections.NeedlessSwap` (if and only if) and
  `Reflections.NeedlessSwapExample`.
* Repeating a field in `@swap` is meant to fail an assertion; the message has three placeholders and two arguments,
  so it fails with a TypeError instead (`Declared.Uncaught`).

## Assumptions

* While a marker is there, only this tool touches the files, one run at a time (the operation locks). A run of the
  node may do anything to the files, and end with any of them not synced, but leaves the markers alone
  (`Runs.NodeMay`).
* Rename keeps device, inode, size and mtime. Tokens, temporary names and inodes are new when they are used.
* A name in a directory has a file behind it (asked for at the targets when a restore begins, `Safety.Rooted`). The
  directories of the data files differ from the directory of the markers.
* SEEK_DATA skips only bytes that read as zero, and SEEK_HOLE does not deny a position inside the file.
* The external inspector and the space checks are answers given from outside; they may be anything.
* SHA-256 is any function. Where equal digests have to mean equal data, the result says "or it has collided".

## How the model reads the code

* `ranges` is drained before its caller's loop starts; `verify_file` of a run is the predicate `SparseFile.Matches`,
  which `SparseFile.VerifyFile` decides; the copy of a checkpoint file has the file's content, as
  `SparseFile.CopySparse` proves.
* `restore` reads the identities of the targets before staging instead of in between; `Tracking.IdentitiesStay`
  shows that this makes no difference.
* A file that is being written is `Torn` until its content is complete; stops inside a write are stops before it.
* In `Sessions.Session`, `fuel` is the number of file operations until the run is interrupted. The ghost constants
  `planner`, `doer`, `chooser` and `restorer` stand for `Tool.MakePlan`, `Tool.PlannedOps`, `Tool.Approved` and
  `Tool.RestoreOps` (`Mirrors`, which the constructor establishes).

## Model

| member | source | states |
|---|---|---|
| SparseFile.Ranges | scripts/state_checkpoint.py:121-136 | the generator's loop yields strictly increasing, disjoint, in-range extents and ends, for any answers of lseek; it succeeds for all answers a kernel may give, and on a file whose data is in given regions it yields exactly these |
| SparseFile.ScanSucceeds | scripts/state_checkpoint.py:121-136 | a scan whose answers are no data, not supported, or data inside the file that goes on, never fails, a hole at the end included |
| SparseFile.ScanRegions | scripts/state_checkpoint.py:121-136 | if lseek answers as POSIX says for a list of separate data regions, these are the extents |
| SparseFile.ScanRaises | scripts/state_checkpoint.py:128-134 | any other answer ends the scan with the error it deserves |
| SparseFile.ScanFallback | scripts/state_checkpoint.py:131-133 | where holes are not supported, the rest of the file is one extent |
| SparseFile.ScanIsSound | scripts/state_checkpoint.py:121-136 | what the extents leave out reads as zero under every honest hole layout, even if the fallback begins midway |
| SparseFile.WriteAll | scripts/state_checkpoint.py:157-161 | however short the writes, the data ends up at its place and nothing else changes |
| SparseFile.CopyExtent | scripts/state_checkpoint.py:147-163 | however short the reads, the extent is copied onto zeroes although all-zero chunks are not written, and the digest gets its bytes in order |
| SparseFile.CopyExtents | scripts/state_checkpoint.py:146-164 | the loop over the extents leaves the source inside them and zeroes elsewhere, and records every extent in order |
| SparseFile.CopySparse | scripts/state_checkpoint.py:139-171 | the destination equals the source byte for byte, and the record's extents are increasing, disjoint, in range and cover every nonzero byte; it succeeds whenever the source is left alone, reads and writes make progress and lseek answers as a kernel may |
| SparseFile.RecordMatches | scripts/state_checkpoint.py:164-171 | any extents that leave out only zero bytes make a record that the file matches |
| SparseFile.GapsPartition | scripts/state_checkpoint.py:177-193 | the gaps collected on the way and the extents partition the file |
| SparseFile.CheckExtents | scripts/state_checkpoint.py:177-193 | accepted means well-placed extents, right digests and the complete list of gaps; a refusal names what is wrong |
| SparseFile.CheckZero | scripts/state_checkpoint.py:202-206 | accepted exactly if the stretch is zero |
| SparseFile.CheckGaps | scripts/state_checkpoint.py:196-207 | the two-index scan finds a nonzero byte exactly if some range and some gap share one |
| SparseFile.VerifyFile | scripts/state_checkpoint.py:174-207 | accepts exactly the files of the recorded size whose extents have the recorded digests and whose other bytes are zero, for every hole layout; a refusal names what is wrong |
| SparseFile.RecordDetermines | scripts/state_checkpoint.py:174-207 | two files that match one record are equal, or SHA-256 has collided |
| SparseFile.CopyThenVerify | scripts/state_checkpoint.py:139-207 | a copy is accepted against its own record on a file system with different holes and different short reads |
| Recoveries.SyncActive | scripts/state_checkpoint.py:69-74 | syncing any directory keeps the invariant of a recovery |
| Recoveries.PublishActive | scripts/state_checkpoint.py:99-100 | renaming a finished journal to a marker keeps the invariant |
| Recoveries.UnlinkActive | scripts/state_checkpoint.py:398-400 | removing a marker keeps the invariant once every file is surely installed |
| Recoveries.LossActive | scripts/state_checkpoint.py:69-74 | a power loss keeps the invariant |
| Protocol.NewFileSafe | scripts/state_checkpoint.py:83-90 | creating, writing and syncing a new file is safe at every operation and ends with the file durable |
| Protocol.PublishSafe | scripts/state_checkpoint.py:93-100 | publishing a missing marker is safe at every operation and ends with it durable |
| Swapping.SwapSafe | scripts/state_checkpoint.py:386-396 | from any phase, the renames and syncs of one file are safe at every operation, disturb no other file, and end with it surely installed |
| Swapping.SwapAllSafe | scripts/state_checkpoint.py:386-396 | so are those of all files, whatever phases they are found in |
| Swapping.UnmarkSafe | scripts/state_checkpoint.py:397-400 | removing the markers with a sync after each is safe at every operation and completes the recovery |
| Swapping.RemarkSafe | scripts/state_checkpoint.py:381-385 | whichever marker is missing, both are in place before the first rename, and no power loss can take them both |
| Swapping.ResumeSafe | scripts/state_checkpoint.py:381-400 | resuming is safe at every operation, and uncut it completes the recovery, or keeps both markers if the inspector objects |
| Staging.StageSafe | scripts/state_checkpoint.py:291-303 | staging the copies is safe at every operation |
| Staging.PrepareSafe | scripts/state_checkpoint.py:291-308 | everything before the first marker is safe, and then no marker can come back and the new one is all that is missing |
| Staging.PreparePoised | scripts/state_checkpoint.py:291-308 | the latter holds on any volume that shows no marker, whatever was there before, also a marker whose removal is not synced |
| Staging.MarkSafe | scripts/state_checkpoint.py:306-308 | from there both markers follow safely with nothing but this recovery pending, and both are durable with every file surely ready |
| Staging.BeginSafe | scripts/state_checkpoint.py:290-308 | so is everything up to the second marker, after which both markers are durable and every file is surely ready |
| Bystanders.BeginAvoids | scripts/state_checkpoint.py:290-308 | up to its second marker a restore writes and syncs nothing but its own new files |
| Bystanders.ResumeAvoids | scripts/state_checkpoint.py:381-400 | a resume writes nothing but the markers it puts back |
| Json.HexReads | scripts/state_checkpoint.py:230 | a number written with enough lower-case hexadecimal digits is read back |
| Json.HexWrites | scripts/state_checkpoint.py:230 | and every string of digits is what its value is written as |
| Manifests.IdentityMeans | scripts/state_checkpoint.py:224-230 | an identity is in order exactly if both ids are 64 digits and the block id begins with the block number in eight digits |
| Manifests.ManifestIff | scripts/state_checkpoint.py:210-230 | a document is accepted as a manifest exactly if it says what the manifest is written as, lists the whitelist's files and no others, and the manifest obeys the rules |
| Manifests.ReadAsWritten | scripts/state_checkpoint.py:256 | a manifest that is read back at all is read back as it was written |
| Manifests.ManifestRoundTrip | scripts/state_checkpoint.py:210-230 | every well-formed manifest is read back as it was written |
| Manifests.DecodeManifest | scripts/state_checkpoint.py:210-230 | what is accepted is well formed: the whitelist's files, sizes within 63 bits, placed extents, hex digests, a height that agrees with the block id |
| Journals.JournalRoundTrip | scripts/state_checkpoint.py:290-337 | a journal built by restore is read back as it was, exactly if no recorded number is negative |
| Journals.JournalIff | scripts/state_checkpoint.py:311-337 | a document is accepted as a journal exactly if it says, key by key, what the journal is written as for this directory, whitelist and token, with no negative number and no further keys in an identity |
| Journals.AcceptedNames | scripts/state_checkpoint.py:311-337 | any accepted journal names only paths derived from the whitelist and its token, pairwise distinct, outside the markers' directory |
| Journals.DocumentDetermines | scripts/state_checkpoint.py:299-305 | a journal document belongs to one token and one list of recorded identities |
| Journals.OldFileExample | scripts/state_checkpoint.py:331-335 | a file dated before 1970 makes a journal that its reader refuses |
| Tool.PhaseIff | scripts/state_checkpoint.py:349-372 | on any volume, a phase is found exactly if every name leads to what that phase has there: the copy with the recorded size, digests and zeroes, the original with the recorded device, inode, size and time |
| Tool.StandardIsOk | scripts/state_checkpoint.py:23-25 | the tool's own files and markers have the names the proofs need |
| Safety.TestPhaseExact | scripts/state_checkpoint.py:349-372 | in every listing a recovery can leave, the phase test finds the true phase of a file if the original still has the recorded identity, and refuses it otherwise |
| Safety.PlanExact | scripts/state_checkpoint.py:340-372 | resume's checks come to the true phases of all files, or refuse a journal that is too long, one that records a negative number, or an original that has changed, and nothing else |
| Safety.ResumeOpsSafe | scripts/state_checkpoint.py:340-402 | the operations resume decides on are safe at every prefix, and uncut they finish whenever it accepts |
| Safety.ResumeGood | scripts/state_checkpoint.py:340-402 | a resume cut short anywhere keeps the tool's invariant |
| Safety.BeginsWrote | scripts/state_checkpoint.py:290-308 | the journal restore writes describes the recovery it begins |
| Safety.RestoreOpsSafe | scripts/state_checkpoint.py:265-308 | the operations of a restore are safe at every prefix |
| Safety.RestoreWithGood | scripts/state_checkpoint.py:265-308 | a restore cut short anywhere keeps the tool's invariant |
| Tracking.RestoreCompletes | scripts/state_checkpoint.py:265-308 | on any volume, an uncut restore to which nobody objects completes its recovery if its journal is readable |
| Tracking.UnreadableIsStuck | scripts/state_checkpoint.py:44-45 | otherwise it stops right behind the second marker, and no resume gets past it |
| Tracking.RestoreFinishesIff | scripts/state_checkpoint.py:265-308 | so it completes if and only if its journal is readable |
| Tracking.FileStays | scripts/state_checkpoint.py:290-308 | up to its markers a restore changes no file that was there, and syncs none: an original that is not on disk stays so |
| Tracking.IdentitiesStay | scripts/state_checkpoint.py:293-303 | the targets' identities are the same before staging and when both markers stand |
| Tracking.MarkersTell | scripts/state_checkpoint.py:299-308 | when both markers stand, each holds a document with the token, the checkpoint, its manifest, and for every file its names and the identity of what was at the target |
| Tracking.RestoreKeepsFile | scripts/state_checkpoint.py:265-308 | wherever it is cut, a restore changes no file that was there |
| Sessions.Session.constructor | scripts/state_checkpoint.py:405-447 | a run starts with nothing done |
| Sessions.Session.Do | scripts/state_checkpoint.py:69-100 | one file operation happens, and only if it can, or the run ends; it cannot fail on a plan that is runnable |
| Sessions.Session.NewFileAt | scripts/state_checkpoint.py:83-90 | write_json carries out its four operations in order |
| Sessions.Session.PublishJournal | scripts/state_checkpoint.py:93-100 | publish_journal carries out its six operations, and never onto an existing marker |
| Sessions.Session.Remark | scripts/state_checkpoint.py:381-385 | the loop over the markers publishes exactly those that are missing |
| Sessions.Session.Swap | scripts/state_checkpoint.py:386-396 | one turn of the swap loop does what the file's phase still needs |
| Sessions.Session.SwapAll | scripts/state_checkpoint.py:386-396 | the swap loop does so for every file in order |
| Sessions.Session.Unmark | scripts/state_checkpoint.py:398-400 | the last loop removes and syncs, marker by marker |
| Sessions.Session.Check | scripts/state_checkpoint.py:340-372 | the loops that read markers and files come to `Tool.MakePlan` |
| Sessions.Session.FindPhases | scripts/state_checkpoint.py:348-372 | the phase loop finds the phases of all files, each verified and in its place, or stops at a file that fails |
| Sessions.Session.ResumeRun | scripts/state_checkpoint.py:340-402 | however it ends, the volume is what the operations done so far make of it; it changes nothing when it refuses or previews, has done all when it finishes, and cannot be interrupted on a runnable plan |
| Sessions.Session.VerifyCheckpoint | scripts/state_checkpoint.py:233-242 | verify returns the manifest exactly if it is well formed and every file matches it |
| Sessions.Session.Approve | scripts/state_checkpoint.py:265-289 | restore goes ahead exactly if there is no marker and every check passes; otherwise it ends with the first check that fails, or as a preview |
| Sessions.Session.StageAll | scripts/state_checkpoint.py:293-303 | the staging loop creates every copy in order |
| Sessions.Session.RestoreRun | scripts/state_checkpoint.py:290-308 | however it ends, the volume is what the operations done so far make of it; it has done all when it finishes |
| Sessions.Session.RestoreAll | scripts/state_checkpoint.py:265-308 | restore as a whole: without being told to apply, with an objection, a full disk or a bad checkpoint nothing changes and it says why; else the volume is what the operations done so far make of it, and it ends as the resume it goes on with |
| Sessions.Session.RestoredIs | scripts/state_checkpoint.py:265-308 | that is `Tool.Restore`, of which the histories below consist |
| Runs.HistorySound | scripts/state_checkpoint.py:265-402 | in every history of restores and resumes cut short anywhere, power losses and node runs that start where no marker can come back and end in any state of their files, the invariant holds throughout |
| Runs.ResumeNeverMisreads | scripts/state_checkpoint.py:340-372 | wherever a history has got to, resume finds one recovery and the true phase of each file, and refuses exactly if the journal is unreadable or an original has changed; markers never disagree |
| Runs.NothingLost | scripts/state_checkpoint.py:386-396 | in every listing a power loss can leave, the original is at exactly one of target and backup and the copy at exactly one of staged and target |
| Runs.NoMixtureUnmarked | scripts/state_checkpoint.py:381-400 | a power loss that leaves no marker leaves all files as before or all installed |
| Tracking.MarkerMeansPast | scripts/state_checkpoint.py:291-308 | a restore that has left a marker has got past the rename of its first one |
| Tracking.HeldFromMarks | scripts/state_checkpoint.py:306-308 | from its first marker on, wherever a restore is cut short, its own recovery is the one that is pending, on any volume to begin with |
| Runs.RestoreHolds | scripts/state_checkpoint.py:265-308 | so a marker left by a restore belongs to that restore's recovery |
| Runs.MarkedIsQuiet | scripts/state_checkpoint.py:265-267 | while a marker is there no restore goes ahead and no node starts, so only resumes, power losses and refused restores can follow |
| Runs.AllOrNothing | scripts/state_checkpoint.py:265-402 | from the first marker on, through any number of resumes cut short, power losses and refused restores, and after the markers are gone, a further power loss leaves a marker, or all files as before, or all installed; it loses no original and no copy, and changes no copy and no original that was on disk when the restore began. Nothing is asked of the volume the restore began on |
| Runs.CompletedForGood | scripts/state_checkpoint.py:386-400 | once completed, a recovery stays completed through all of that: targets and backups stay, no marker comes back |
| Runs.OneMoreResume | scripts/state_checkpoint.py:340-402 | from anywhere in a history, one uncut resume completes a recovery that it accepts |
| Runs.UnchangedAlong | scripts/state_checkpoint.py:265-402 | without a power loss, no run changes a file that was there when the restore began |
| Runs.RecognizedAtEnd | scripts/state_checkpoint.py:358-364 | the originals keep the recorded identity unless the power has failed and one of them was not on disk |
| Runs.InterruptedEndsTheSame | scripts/state_checkpoint.py:290-402 | a restore cut short behind its first marker, any number of cut resumes, refused restores and power losses, and one uncut resume if a marker is there end where the uncut restore would have ended, if and only if the journal is readable and the originals have kept the recorded identity; they have unless the power has failed and one was not on disk |
| Runs.RestoredContents | scripts/state_checkpoint.py:290-402 | that end is: every target shows the checkpoint's file, every backup is the original, as it was if it was on disk or the power has not failed, nothing is staged, no marker is left |
| Runs.CompletedAgree | scripts/state_checkpoint.py:386-400 | any two completed runs of a recovery have the same files at every name |
| Runs.CheckpointToTarget | scripts/state_checkpoint.py:245-402 | from creation through restore and resume, the installed contents are those of the data files at creation |
| Runs.CompleteIsApproved | scripts/state_checkpoint.py:233-289 | a complete generation is approved whenever nothing is pending and nobody objects |
| Runs.SoundIsRunnable | scripts/state_checkpoint.py:381-400 | on a sound volume no operation of a resume fails and no rename lands on an existing name |
| Runs.OneBadFileStopsAll | scripts/state_checkpoint.py:349-372 | if one file fails its check, resume leaves the whole volume unchanged |
| Frame.ResumeStaysWithin | scripts/state_checkpoint.py:311-402 | on any volume and wherever it is cut, resume changes only names derived from the whitelist, the token and the markers; when it refuses or previews, nothing |
| Verdicts.PlanIff | scripts/state_checkpoint.py:340-372 | on any volume, resume accepts exactly if there is a marker, all markers hold one document of at most 16 MiB, it is a journal of this tool, and every file fits its phase |
| Verdicts.RefusalIff | scripts/state_checkpoint.py:340-372 | and refuses, for the reason it gives, exactly if there is no marker, one cannot be read, two differ, the document is no journal, or a file fits no phase |
| Verdicts.ResumeFits | scripts/state_checkpoint.py:340-400 | on any volume, wherever an accepted resume is cut short every file still fits a phase, and uncut every target is a file that matches its record, every original the backup, and nothing is staged |
| Phases.TrackedSwaps | scripts/state_checkpoint.py:386-396 | the swaps take every file from its phase to installed, through phases only, whatever else the volume holds |
| Verdicts.ApprovedIff | scripts/state_checkpoint.py:265-289 | restore goes ahead exactly if there is no marker, it was told to apply, nobody objects, there is room, and the checkpoint's manifest and every file are in order |
| Verdicts.RestoreActs | scripts/state_checkpoint.py:265-289 | so a preview, an objection, a full disk, a pending recovery or a bad checkpoint leaves the volume as it was |
| Frame.RestoreStagesFirst | scripts/state_checkpoint.py:291-308 | until both markers stand, restore leaves every target alone |
| NodeStarts.StartAfterLoss | plugins/chain_plugin/chain_plugin.cpp:583-590 | right after a power loss a node that sees no marker starts safely |
| NodeStarts.NodeStartStrands | plugins/chain_plugin/chain_plugin.cpp:583-590 | if a marker can come back, the node can be started, and a power loss after its run can leave a marker that resume refuses |
| NodeStarts.NodeStartIff | plugins/chain_plugin/chain_plugin.cpp:583-590 | the invariant survives every run of the node exactly if no marker can come back when it starts |
| NodeStarts.CutBeforeLastSync | scripts/state_checkpoint.py:398-400 | a resume cut short right before its last sync leaves no marker to be seen and one that can come back |
| NodeStarts.StrandedHistory | scripts/state_checkpoint.py:398-400 | so every recovery that a resume accepts can end stranded through that cut, a node run and a power loss |
| Unsynced.UnsyncedStrands | scripts/state_checkpoint.py:358-364 | if one original was not synced, a power loss behind the markers can strand the recovery |
| Unsynced.OriginalsIff | scripts/state_checkpoint.py:358-364 | resume accepts whatever a power loss leaves behind the markers exactly if the journal is readable and the originals were synced |
| Examples.CanGo | scripts/state_checkpoint.py:289-308 | whenever the made-up names are new, a restore of a fitting checkpoint can go ahead as the results about restores ask |
| Examples.HypothesesMet | scripts/state_checkpoint.py:265-308 | with the tool's own files and `state/shared_memory.bin` in place, on disk or not, there is an approved restore cut short behind its markers, and a resume, to which the results about interrupted runs apply; its journal is readable if and only if the file is dated 1970 or later and documents are short |
| Examples.UnreadableStrands | scripts/state_checkpoint.py:44-45 | with the file dated before 1970, or with a manifest within 16 MiB and a journal above, that restore is stuck as soon as its markers stand |
| Examples.UnsyncedFileStrands | scripts/state_checkpoint.py:358-364 | with the file in place but not on disk, a power loss behind the markers strands it |
| Examples.NodeRunStrands | scripts/state_checkpoint.py:398-400 | and there is a history in which a node run strands the recovery |
| Generations.DirsReach | scripts/state_checkpoint.py:258-259 | the directories synced before the rename are all those on the way to the files |
| Generations.Shelf.constructor | scripts/state_checkpoint.py:245-246 | a shelf of complete generations |
| Generations.Shelf.AddFile | scripts/state_checkpoint.py:139-171 | copying a file into the staging directory leaves exactly the entries of the directories above its own to be synced; stopped in between, the tree is not durable |
| Generations.Shelf.CopyOne | scripts/state_checkpoint.py:139-171 | one data file is copied as it was, with its record, and the rest of the tree stays |
| Generations.Shelf.CopyAll | scripts/state_checkpoint.py:255 | every data file is copied as it was and recorded |
| Generations.Shelf.SyncDirs | scripts/state_checkpoint.py:258-259 | after the sync loop nothing of the tree is left to be synced |
| Generations.Shelf.Fill | scripts/state_checkpoint.py:255-259 | the staging directory is complete, verified, inspected and durable before it is renamed; its manifest, read back, names the inspected state and describes the data files |
| Generations.Shelf.Publish | scripts/state_checkpoint.py:260-261 | the complete tree moves from its staging name to the final one, and nothing else changes |
| Generations.Shelf.Build | scripts/state_checkpoint.py:251-262 | from the staging directory on, the final name appears only with a complete generation |
| Generations.Shelf.Create | scripts/state_checkpoint.py:245-262 | at every stopping point, whatever a power loss leaves, a final name leads to a complete generation; existing generations and their names are never changed; a new name means the state was inspected twice, there was room, no file changed meanwhile, and the manifest names that state and describes those files; with healthy reads and writes, no objection and enough operations left it succeeds, and it ends with the check that failed |
| Generations.LossKeepsGenerations | scripts/state_checkpoint.py:260-261 | a power loss keeps that |
| Reflections.MatchFields | tools/validate_reflection.py:631-694 | with distinct fields, the walk accepts exactly what `Accepts` says: swapped fields in both lists, ignored ones in the class alone, the rest in the same order, and no swap lined up with itself |
| Reflections.Leftovers | tools/validate_reflection.py:679-694 | the reflected fields not reached are accepted exactly if the whole is |
| Reflections.Reflection.constructor | tools/validate_reflection.py:382-388 | a new record is empty |
| Reflections.Reflection.AddField | tools/validate_reflection.py:533-537 | a repeated field is refused and changes nothing; fields stay distinct |
| Reflections.Reflection.AddIgnoreSwaps | tools/validate_reflection.py:510-530 | the names before the first clash are added, the clash decides how it fails, and the lists stay distinct and disjoint |
| Reflections.Reflection.Match | tools/validate_reflection.py:624-694 | the same as `MatchFields` for a record; the flag of a chainbase object adds `id` to the ignored fields if it is mentioned nowhere, and makes no difference otherwise |
| Reflections.ImplicitId | tools/validate_reflection.py:624-628 | leaving `id` to the matcher is accepted exactly if declaring it as ignored is; without swaps, exactly if the reflected fields are the class without `id` and the ignored ones, all of which are there |
| Reflections.AcceptedIsPermutation | tools/validate_reflection.py:640-694 | an accepted reflection is a permutation of the class fields that are not ignored |
| Reflections.AcceptedWithoutSwaps | tools/validate_reflection.py:640-694 | without swaps, accepted means: the class with the ignored fields removed, all of which were in it |
| Reflections.HeaderExample | tools/validate_reflection.py:19-25 | the header's example: either of two exchanged fields may be declared as swapped, not both |
| Reflections.NeedlessSwap | tools/validate_reflection.py:19-25 | a single needless swap is accepted if and only if the class field before it is ignored |
| Reflections.NeedlessSwapExample | tools/validate_reflection.py:650-657 | a needless swap that is accepted |

## Left out

- Locks, argument parsing, `validate_layout`, path resolution and the result dictionaries: they add no protocol state.
- The regular-file and hard-link check of `regular`, and file modes.
- JSON printing and parsing, duplicate keys, floats, and keys nobody reads: documents are values, and how long one is when printed is any function.
- SHA-256, the inspector, disk usage and UUIDs themselves.
- Stops in the middle of writing a file's content are not separate states; the file is unfinished until it is complete.
- The regular-expression parsing of `tools/validate_reflection.py`: the model starts from the extracted field lists.
- `scripts/plan_recovery_snapshots.py`: a finite schedule of snapshot heights computed from a spacing and a count, sent to a node over HTTP.
- The rest of the repository: block finality, cryptography, ABI serialization, plugins and their tests.
- Reflections.MatchFields: says nothing for repeated class fields except that the walk ends, because a C++ class has no two fields of one name.
- SparseFile.CopyThenVerify: asks for reads and writes that make progress and for room on the disk; `CopySparse` and `VerifyFile` state the failures.
- Runs.HistorySound: asks that the node is started only where no marker can come back; `NodeStarts.NodeStartIff` shows that nothing less is enough.
- Runs.AllOrNothing: follows one recovery until another restore goes ahead or the node runs; after that its files are no longer its own.
