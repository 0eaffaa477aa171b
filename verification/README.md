# NetBox Conductor: a verified model of its sync and task protocols

The conductor keeps folders of many servers in step through an agent on each of them. This
project models the parts of it that are protocols or algorithms, and proves what they are for:
no wrong file is ever installed, no chosen version is lost, syncs converge, a task isn't called
lost while it runs, a backup round ends in time.

`dafny verify dfyconfig.toml` checks everything.

## What is modelled

- **Folder sync.** `Listing` (how a folder's listing travels), `Plan`, `TwoWay`,
  `TwoWayPlanner`, `WalFiles` and `BackupPlan` (the two planners, as the loops of the source,
  for every order of maps), `TwoWayTheorems`, `BackupTheorems`, `Paths` and `BackupNames` (what
  every plan guarantees, and for which paths),
  `Batching`, `Sender`, `Relay`, `CopyPhase` (sending through the conductor), `Receiver`,
  `SmoothReceive` and `SyncReceiver` (the receiving agent), `EndToEnd`, `ReceiveRun`, `SyncRun`
  and `SyncTheorems` (whole runs in an arbitrary world), `WholeSync` (the same from the folders
  up, listings included), `NextSync` (the sync after one that failed in part), `SyncStarter`
  (one sync per folder at a time).
- **Tracked tasks.** `TaskProtocol` (agent, messages and watches as a state machine),
  `TaskInvariants` and `TaskTheorems` (what holds in every run), `TaskAgents` (the client, hub
  and wait as objects).
- **Backup rounds.** `BackupRound`: the retry queue, its clock, and the conductor's limit.
- **Smaller cores.** `PartialFiles`, `RepoHelper`, `RepoSafety` and `RepoReceive` (files the
  agent writes itself, the stream to the helper that writes a repository, what any stream can do
  there, and a receive that uses it),
  `SettleTimers`, `Cron` and `CronForms` (schedules, and what they mean as written).
- `Transfer`, `Folders`, `Subsequences`, `Text`, `Parsing` hold shared vocabulary.

Checksums are any function of a file's bytes: nothing assumes it has no collisions. A lossy
channel delivers any subsequence, in order. A node is a number, standing for its 16-byte ID.
Environments (what a file system answers, which chunks are lost, who disconnects) are
parameters that theorems quantify over.

## Assumptions

- A listing has distinct paths and checksums that are never empty and hold no space; planners
  read an absent file as checksum "" (internal/server/filesync/plan.go:124,
  internal/server/filesync/plan.go:296).
- A node's messages are handled in the order sent (internal/server/hub/hub.go:260-262); so a
  batch's chunks, those not lost, reach the conductor before its outcome.
- In every theorem about runs the folders modelled change only by the run. Convergence
  (`WholeSyncs.Quiet`) also assumes that a node's walk lists just its folder and that senders
  read what is there; integrity and no-loss leave free what senders read and what was listed.
- A sync's ID is new: no agent is told to start another sync under it.
- A record's save is one transaction with one time, later than every earlier one, and times are
  positive.

## Results that are not as the documentation has them

- A sync can put an old version back over an edit that won, with no conflict reported, if a
  node fails two syncs in a row: its copy is then on no record and passes for an edit
  (`NextSync.EditUndoneInSilence`). `NextSync.ChoiceHolds` says exactly when the next sync keeps
  what the last one chose, and `NextSync.UndoneInSilence` exactly when it undoes it unreported.
- A task the conductor gives out again on reconnect can be taken as lost while the agent holds
  it (`TaskTheorems.LostWhileHeld`); without that it can't (`TaskTheorems.LostMeansGone`).
  `TaskTheorems.HeldIsLostExactly` says exactly when a task held can be lost.
- A cron part whose start plus step passes the largest 64-bit integer is accepted by the syntax
  and crashes the program (`Cron.CrashesExactly`, `Cron.CrashExists`).
- The repository helper refuses an empty file that was never written to, which the agent itself
  would install (`RepoHelpers.EmptyFileRefused`). That is the only difference
  (`RepoHelpers.SameAsLocal`), and receivers always write first (`RepoReceives.RepoReceive`).
- Planning again after a two-way sync may list the same delete markers again in `deleted`; the
  copies, deletes and conflicts are empty (`TwoWayTheorems.Fixpoint`).

## Model

| member | source | states |
|---|---|---|
| ReceiveRuns.CleanFinish | internal/server/filesync/filesync.go:269-315 | End-to-end integrity: if the conductor closes a node's receive without an error, every file the plan routes to that node holds exactly the bytes its sender streamed, or was reported gone by the sender, and no partial file was added; for every loss of chunks, relay cut-off and failed sender |
| SyncRuns.ReceiveOne | internal/server/filesync/filesync.go:372-395 | One node's receive up to the conductor's check: success means all its files arrived; success or not, after every chunk only files sent to it differ |
| ReceiveRuns.ReceiveAt | cmd/agent/main.go:142-218 | One node's receive on its agent, among other syncs and dropped connections: a result comes back exactly when nothing stopped the sync, and is that of its own chunks, in order; a stopped one leaves the folder of the chunks handled until then, without its open file |
| SyncReceivers.HandleQueue | cmd/agent/main.go:142-153 | The agent's queue handles chunks, starts, finishes and disconnects one at a time, in arrival order |
| SyncReceivers.KnownUnlessStopped | internal/agent/executor/filesync.go:225-388 | A receive is still there exactly when no disconnect, finish of it or new sync of its folder came |
| SyncRuns.CopyOne | internal/server/filesync/filesync.go:267-282 | A node that needs copies but couldn't begin receiving has failed; one that needs none is done |
| SyncRuns.FinishAll | internal/server/filesync/filesync.go:311-315 | Every node's turn in any order: who failed, and each node's folder at every moment |
| SyncRuns.CopyPhaseRun | internal/server/filesync/filesync.go:267-315 | The copying part of a run, from any plan: the nodes without an error hold all their copies |
| SyncRuns.DeleteFiles | internal/server/filesync/filesync.go:321-329 | Deletes go in batches until one fails: the folder after each batch comes of the one before by removing some of that batch; only named files go, and success means all of them are |
| SyncRuns.DeleteAll | internal/server/filesync/filesync.go:317-331 | Deletes run only on nodes whose copies all arrived |
| SyncRuns.CarryOut | internal/server/filesync/filesync.go:261-331 | A plan carried out in an arbitrary world: every node ends as the run's rules say; and when nothing goes wrong just the nodes left out before it fail |
| ReceiveRuns.SmoothFinish | internal/server/filesync/filesync.go:372-395 | With nothing lost and no file that can't be read, a node's finish finds no error and exactly the count planned |
| SmoothReceive.AllGot | internal/agent/executor/filesync.go:246-317 | Whole streams, with a file system that works, count every file that could be read as copied, the others as gone, and none as failed |
| SmoothReceive.BlocksReceived | internal/agent/executor/filesync.go:272-318 | Every block of a file is accepted in turn and the last one installs it |
| SyncTheorems.SteadyDeliverable | internal/server/filesync/filesync.go:267-331 | Listed files under their folder that don't change meanwhile can all be delivered |
| Paths.LocalExactly | internal/agent/executor/filesync.go:31-38 | A relative path is taken exactly if it isn't empty or absolute and no start of it goes up more often than down |
| Paths.OrdinaryIsLocal | internal/agent/executor/filesync.go:31-38 | A path of ordinary names, as walking a folder gives, is taken |
| Paths.UpIsNotLocal | internal/agent/executor/filesync.go:31-38 | One that begins by going up isn't, whatever follows |
| Paths.DownUpUpIsNotLocal | internal/agent/executor/filesync.go:31-38 | Nor is one that goes down once and up twice |
| Paths.JoinedComponents | internal/agent/executor/filesync.go:31-38 | Components are just the slash-free names a path is put together of |
| SyncTheorems.AbleExactly | internal/server/filesync/filesync.go:261-265 | A listed node takes part exactly if all it is sent fits in the room it reported |
| WholeSyncs.AbleAre | internal/server/filesync/filesync.go:206-265 | With nothing lost, just the nodes without a usable listing or without room are left out |
| SyncRuns.KeptThroughout | internal/server/filesync/filesync.go:267-331 | A file a node is neither sent nor told to delete is unchanged there after every chunk and every delete batch, whatever fails |
| SyncRuns.NoPartialLeft | internal/server/filesync/filesync.go:267-331 | Whatever fails, a run leaves no partial file of its own in any node's folder |
| ReceiveRuns.NoPartialAdded | internal/agent/executor/filesync.go:338-388 | Finished, failed or stopped, a receive leaves none |
| SyncRuns.FailedCopyDeletesNothing | internal/server/filesync/filesync.go:317-321 | A node whose copies failed has failed and keeps every file it isn't sent |
| SyncTheorems.WinnerNeverLost | internal/server/filesync/plan.go:266-299 | No loss: whatever fails, after every chunk and every delete batch of the run the version chosen for every kept path is still held, unchanged, by the node it was chosen from |
| SyncTheorems.ProviderNeverLost | internal/server/filesync/plan.go:107-136 | The same of a backup sync: the node a wanted file comes from keeps it throughout |
| SyncTheorems.SuccessCarriesOut | internal/server/filesync/filesync.go:267-331 | With folders that don't otherwise change, a node that succeeded holds exactly what the plan makes of its folder |
| SyncTheorems.RunConverges | internal/server/filesync/filesync.go:317-349 | A node that succeeded in a two-way run holds exactly the merged files: no other path, no partial file |
| SyncTheorems.RecordTells | internal/server/filesync/filesync.go:333-349 | A node that succeeded is recorded with exactly what it holds; one that failed anywhere keeps its old record |
| SyncTheorems.RunGathers | internal/server/filesync/plan.go:68-79 | A backup run leaves the main server with its own files untouched plus the WAL gathered, nothing else |
| SyncTheorems.RunMirrors | internal/server/filesync/plan.go:68-79 | Every other node that succeeded equals the main server, except on conflicted segments it already held, which stay as they were |
| WholeSyncs.TwoWayFromFolders | internal/server/filesync/filesync.go:151-349 | A two-way sync from the folders up: whatever is lost of listings, files and replies, every node not reported as failed holds exactly the merge of the folders listed, and each listing planned from is exactly its node's; when nothing is lost or breaks, just the nodes with an empty folder or no room fail |
| WholeSyncs.BackupFromFolders | internal/server/filesync/filesync.go:151-331 | A backup sync from the folders up: if it succeeds on the main server that one holds its own files and the WAL gathered, and every other node not reported as failed equals it, but for conflicted segments that node held |
| WholeSyncs.ListAll | internal/server/filesync/filesync.go:206-231 | Every node's listing, over a channel that loses pieces: what is accepted is exactly what the node listed; with nothing lost all are accepted, but for empty ones where they are refused |
| WholeSyncs.Collect | internal/server/filesync/filesync.go:516-531 | What a participant has listed so far is its own pieces joined in the order they came, whatever other nodes sent in between |
| SyncTheorems.TwoWaySync | internal/server/filesync/filesync.go:245-349 | A whole two-way sync: the plan is the merge, the run obeys its rules, and just the nodes that succeeded get a new record; if the record can't be loaded nothing is done, and if it can't be saved every node fails; when nothing goes wrong every listed node with room succeeds |
| SyncTheorems.BackupSync | internal/server/filesync/filesync.go:183-331 | A whole backup sync: nodes that fail the path test are left out; without the main server, or without its retention, nothing is done on any node; when nothing goes wrong every listed node with room succeeds |
| NextSync.ChoiceHolds | internal/server/filesync/filesync.go:333-349 | The sync after one that failed on some nodes keeps the version chosen for a path if and only if none of those nodes overrules it: holds an unrecorded other version, or lacks the file its record has |
| NextSync.UndoneInSilence | internal/server/filesync/plan.go:239-300 | The next sync undoes the choice without reporting a conflict if and only if some node overrules it and all that do agree: on one version, or on having no file |
| NextSync.EditUndoneInSilence | internal/server/filesync/plan.go:239-300 | Three syncs in which an edit that won is replaced by an older version without any conflict, because a node failed twice in a row |
| NextSync.NewestRecordWins | internal/server/filesync/plan.go:281-284 | With nothing changed, the winner is a node on which the last sync succeeded |
| NextSync.NextClass | internal/server/filesync/plan.go:248-264 | How the next sync classifies each node's copy, from what the last one stored |
| Receiver.FilesReceived | internal/agent/executor/filesync.go:246-317 | For any in-order lossy stream of distinct files: each is booked at most once, other files are untouched, and if as many succeeded as were sent, all of them arrived |
| Receiver.EachFileCountsOnce | internal/agent/executor/filesync.go:248-352 | Each path adds at most one in total to the copied, skipped and error counts |
| Receiver.FileReceived | internal/agent/executor/filesync.go:246-317 | One file through the channel, from any state: it counts as good only if it arrived complete |
| Receiver.StepKeepsInv | internal/agent/executor/filesync.go:248-352 | After every chunk: no open partial file means no path and nothing expected; an open one holds exactly what the checksum has seen; every count has its file |
| Receiver.StepCounts | internal/agent/executor/filesync.go:248-352 | A chunk counts at most one file copied, and then it completed it, or one gone, and then it says so; no count goes down |
| Receiver.StepAtomic | internal/agent/executor/filesync.go:201-217 | Atomic replacement: a chunk leaves a file as it was or makes it, in one step, a complete file with the checksum its sender gave |
| Receiver.StepLeavesNoPartial | internal/agent/executor/filesync.go:340-352 | No partial file but the open one is ever left behind |
| SyncReceivers.SyncRecv.Abort | internal/agent/executor/filesync.go:338-352 | Discards the file being written and, with a reason, counts a failure |
| SyncReceivers.SyncRecv.OpenPartial | internal/agent/executor/filesync.go:319-336 | A partial file is opened under its own name, expecting chunk 0 |
| SyncReceivers.SyncRecv.Write | internal/agent/executor/filesync.go:303-318 | Data is appended and checked; the last chunk installs the file or fails it |
| SyncReceivers.SyncRecv.Accept | internal/agent/executor/filesync.go:272-318 | A chunk that isn't skipped: gone, failed at the source, out of order, refused, or written |
| SyncReceivers.SyncRecv.Chunk | internal/agent/executor/filesync.go:246-270 | The receiver object's update for a chunk is the transition the theorems are about, in place |
| SyncReceivers.SyncReceiver.Start | internal/agent/executor/filesync.go:223-242 | A new receive stops one of the same folder that was never finished |
| SyncReceivers.SyncReceiver.Stop | internal/agent/executor/filesync.go:381-387 | Stopping discards the receive's open file, in place, and forgets it; no other receive changes |
| SyncReceivers.SyncReceiver.StopSameFolder | internal/agent/executor/filesync.go:229-234 | Just the receives of that folder are stopped |
| SyncReceivers.SyncReceiver.Chunk | internal/agent/executor/filesync.go:248-252 | A chunk reaches only its own receive; an unknown one changes nothing |
| SyncReceivers.SyncReceiver.FinishSync | internal/agent/executor/filesync.go:354-371 | Finishing reports the counts, discards an unfinished file and ends the receive |
| SyncReceivers.SyncReceiver.StopAll | internal/agent/executor/filesync.go:373-388 | A dropped connection stops every receive and discards its unfinished file |
| SyncReceivers.StillReceiving | internal/agent/executor/filesync.go:225-371 | A receive that is still there at its finish got exactly its own chunks, in order, since it was started |
| SyncReceivers.DiscardedLeavesNoPartial | internal/agent/executor/filesync.go:354-388 | After a finish or a stop no partial file of that receive remains |
| Transfer.PartialNameInjective | internal/agent/executor/filesync.go:319-330 | Distinct files are received under distinct partial names |
| Sender.SendSyncFile | internal/agent/executor/filesync.go:130-163 | What is queued is the file's stream, or a prefix of it if sending failed |
| Sender.SendBlocks | internal/agent/executor/filesync.go:145-163 | The read loop's chunks: full blocks, then the last one with the checksum of all data, or the read error |
| Sender.StreamWellFormed | internal/agent/executor/filesync.go:130-163 | Every stream is indexed from 0, ends once, and carries exactly the file's bytes and checksum, or a report that it is gone or unreadable |
| CopyPhase.SendSyncFiles | internal/agent/executor/filesync.go:110-128 | A batch reported as sent was queued whole, in order, and names only paths inside the folder; otherwise a prefix was; with such paths and a queue that takes everything it is sent |
| CopyPhase.SendBatch | internal/server/filesync/filesync.go:299-302 | A batch whose success came back was queued whole, and some of its chunks reached the conductor, in order |
| Relay.RelayRun.HandleChunk | internal/server/filesync/filesync.go:533-568 | A chunk reaches just the receivers that need its file and aren't cut off, in order; one that can't take it is cut off for good; chunks of other nodes are ignored |
| CopyPhase.RelayBatch | internal/server/filesync/filesync.go:291-300 | While a batch runs, each receiver gets some of the chunks routed to it, in order |
| CopyPhase.SendFrom | internal/server/filesync/filesync.go:284-310 | One sender: either every receiver gets, with losses, the whole streams it needs, or only receivers that need something from it are affected |
| CopyPhase.PlanOrder | internal/server/filesync/filesync.go:285-291 | A sender's order holds each file some receiver needs exactly once, sorted, index files last |
| CopyPhase.CopyAll | internal/server/filesync/filesync.go:283-310 | All senders in order: every receiver not marked failed is sent, with losses only, the streams of exactly the files it needs |
| CopyPhase.FileRouted | internal/server/filesync/filesync.go:285-298 | Routing keeps all of a file's chunks or none of them |
| EndToEnd.CleanMeansArrived | internal/server/filesync/filesync.go:384-394 | No error and the right count prove that every file arrived and nothing else changed |
| EndToEnd.ScriptIsPlan | internal/server/filesync/filesync.go:283-315 | What a node is sent is exactly the copies planned for it, each path once, as many as the count its finish is checked against |
| EndToEnd.OneSender | internal/server/filesync/plan.go:294-299 | A node gets a path from one sender only |
| Batching.Batches | internal/server/filesync/plan.go:360-373 | The batches joined are the paths in order; a batch of several paths stays within the limit; a new one begins only when the next path doesn't fit |
| Batching.TextSizeAdds | internal/server/filesync/plan.go:360-373 | A list's text takes up what its paths do, each with four letters more |
| Batching.SendOrderFacts | internal/server/filesync/plan.go:342-358 | Every routed path once, sorted, index files last |
| Listing.ListFiles | internal/agent/executor/filesync.go:40-94 | The pieces joined are the listing; the total is its length; no piece is empty or more than an entry over the limit |
| Listing.PieceBytesAdd | internal/agent/executor/filesync.go:40-94 | A piece takes up what its entries do: each path and 150 bytes more |
| Listing.Run.HandleListing | internal/server/filesync/filesync.go:516-531 | A piece is appended to its node's listing; a node that takes no part is ignored |
| Listing.AcceptedIsWhole | internal/server/filesync/filesync.go:209-231 | A listing is accepted only whole, whatever pieces were lost; an empty one isn't where it could wipe folders |
| Listing.LossShows | internal/server/filesync/filesync.go:352-369 | Losing any piece shows in the count |
| Plans.Plan.Copy | internal/server/filesync/plan.go:46-53 | One more copy: receiver list, count, size and log all grow by it and nothing else changes |
| Plans.Plan.Index | internal/server/filesync/plan.go:55-66 | A listing by path without partial files, which are all to be deleted |
| Plans.CopyConserves | internal/server/filesync/plan.go:46-53 | Copying keeps receiver lists, counts and sizes equal to those of the copies planned |
| Plans.TotalSizeAdds | internal/server/filesync/plan.go:46-53 | The size to be sent is the sum of the files' sizes |
| Plans.IndexedFacts | internal/server/filesync/plan.go:55-66 | Every listed file is indexed under its own path or, if partial, marked for deletion; never both |
| Plans.ReceiversDistinct | internal/server/filesync/plan.go:46-53 | No receiver is listed twice for a path of a sender |
| Plans.Plan.SortDeletes | internal/server/filesync/plan.go:325-329 | Each node's deletes are sorted, nothing else changes |
| Text.ComparesTexts | internal/server/filesync/plan.go:309-313 | Texts compare as in a dictionary: by the first letter in which they differ, a text before its extensions |
| TwoWay.RankTransitive | internal/server/filesync/plan.go:307-313 | The order of versions is transitive |
| TwoWay.RankFlip | internal/server/filesync/plan.go:307-313 | It is antisymmetric and separates nodes, so it has exactly one top |
| TwoWay.TopUnique | internal/server/filesync/plan.go:266-292 | A set of versions has one winner |
| TwoWay.Classify | internal/server/filesync/plan.go:239-264 | Each listed node's copy is an edit, kept, a first copy or removed, for any order of visiting nodes |
| TwoWay.KnownSums | internal/server/filesync/plan.go:240-245 | The versions of a path some record knows |
| TwoWay.MaxVersion | internal/server/filesync/plan.go:266-286 | A version no other outranks |
| TwoWay.Differ | internal/server/filesync/plan.go:315-323 | Whether versions differ in content |
| TwoWayPlanner.PlanPath | internal/server/filesync/plan.go:239-300 | One path: exactly the copies, deletes, record and conflict its fate calls for are added |
| TwoWayPlanner.SendEverywhere | internal/server/filesync/plan.go:294-299 | The winner is sent once to each listed node with other contents, and to no other |
| TwoWayPlanner.DeleteEverywhere | internal/server/filesync/plan.go:273-280 | A deleted path is deleted on just the listed nodes that hold it |
| TwoWayPlanner.IndexAll | internal/server/filesync/plan.go:222-237 | Every listed node's files by path, and all paths to decide on |
| TwoWayPlanner.TwoWayPlan | internal/server/filesync/plan.go:213-305 | For every order of nodes and paths the planner returns the merge: an order-free description of copies, deletes, record and conflicts |
| TwoWayTheorems.NewestWins | internal/server/filesync/plan.go:266-299 | Which version wins a path: of the edits, the one modified last, whatever was deleted; else a delete; else, of the versions on record, the newest on the nodes that synced last; else the newest first copy; ties by checksum, then node; and just the nodes that hold another version are sent it, from the winner |
| TwoWayTheorems.OrderIndependent | internal/server/filesync/plan.go:239-313 | Every map iteration order gives the same winners, copies, receiver sets, deletes, record and conflicts |
| TwoWayTheorems.CopiesAreSound | internal/server/filesync/plan.go:294-299 | Each copy comes from another node holding exactly that version, goes to one that lacks it, and is of a path neither deletes |
| TwoWayTheorems.Converges | internal/server/filesync/plan.go:222-305 | Convergence: carried out, the plan leaves every listed node with exactly the merged files and no partial file |
| TwoWayTheorems.EditsNotLost | internal/server/filesync/plan.go:247-272 | A version no record knows, on a node with a record, keeps its path alive; if another wins, the path is reported as a conflict |
| TwoWayTheorems.ConflictsAreReal | internal/server/filesync/plan.go:266-292 | A path is reported exactly when an edit met another edit or a delete, or first copies differ |
| TwoWayTheorems.FirstSyncHarmless | internal/server/filesync/plan.go:247-292 | Adding a node without a record changes no other node's deletes and no deletion, and its version wins only where no recorded node holds the path and it isn't deleted |
| TwoWayTheorems.DeletesMember | internal/server/filesync/plan.go:273-280 | A node deletes exactly its partial files and the deleted paths it holds |
| TwoWayTheorems.Fixpoint | internal/server/filesync/plan.go:222-305 | Carried out and recorded, with no edits since, planning again gives the same files and no copy, delete or conflict |
| TwoWayTheorems.SyncThenNothing | internal/server/filesync/filesync.go:333-349 | Convergence and fixpoint together, over plan, run and record |
| TwoWayTheorems.SaveSettles | internal/server/db/queries/file_sync.go:77-145 | Saving puts exactly the merged files on record for the synced nodes, and no marker names one of them |
| TwoWayTheorems.MarkerWaits | internal/server/db/queries/file_sync.go:133-142 | A delete marker waits for a node that was away, however many syncs pass without it |
| TwoWayTheorems.LateNodeCatchesDelete | internal/server/filesync/plan.go:246-280 | That node, listed again with its old copy, deletes it if and only if nobody edited the path since |
| TwoWayTheorems.MarkersExactly | internal/server/db/queries/file_sync.go:121-142 | A marked or deleted path keeps a marker, with the time of the first, exactly while it doesn't exist again and some node of the cluster hasn't synced since |
| TwoWayTheorems.NodesExactly | internal/server/db/queries/file_sync.go:98-119 | The nodes that synced are on record with just the merged files, now; the others as before |
| TwoWayTheorems.MarkedFacts | internal/server/db/queries/file_sync.go:121-126 | Deleted paths are marked; a path already marked keeps its time |
| BackupPlanner.BackupPlan | internal/server/filesync/plan.go:68-140 | The planner returns the mirror: gathered WAL, copies, deletes and conflicts as described without any order of nodes or paths |
| BackupPlanner.MirrorPlan | internal/server/filesync/plan.go:79-140 | The same for any way of naming WAL files |
| BackupPlanner.AddWal | internal/server/filesync/plan.go:86-98 | The versions and segments of a node's WAL, in any order of its files |
| BackupPlanner.ReadAll | internal/server/filesync/plan.go:80-98 | All listings read: per segment, every version held anywhere |
| BackupPlanner.ListConflicts | internal/server/filesync/plan.go:99-105 | The conflicts are exactly the segments held in more than one version |
| BackupPlanner.Gather | internal/server/filesync/plan.go:107-120 | What every node should hold: the main server's files, and eligible WAL only others hold, from the first node that has it |
| BackupPlanner.SpreadTo | internal/server/filesync/plan.go:122-127 | A node is sent exactly the wanted files it lacks, except conflicted segments it holds |
| BackupPlanner.Prune | internal/server/filesync/plan.go:128-135 | A node other than the main server deletes exactly what isn't wanted, except conflicted WAL |
| BackupPlanner.VersionKeyInjective | internal/server/filesync/plan.go:94 | Path and checksum joined by a space identify a version |
| BackupTheorems.MainServerResult | internal/server/filesync/plan.go:68-79 | Carried out, the plan leaves the main server with exactly its own files plus the WAL gathered, none of its files overwritten |
| BackupTheorems.MirrorResult | internal/server/filesync/plan.go:68-79 | Every other node equals it, except on conflicted segments that node held, neither changed nor deleted |
| BackupTheorems.PlanningAgain | internal/server/filesync/plan.go:79-140 | Planning again on the result, whatever retention now covers, copies and deletes nothing and reports the same conflicts |
| BackupTheorems.SameConflicts | internal/server/filesync/plan.go:99-105 | A conflict is neither resolved nor created by carrying the plan out |
| BackupTheorems.CopiesAreSound | internal/server/filesync/plan.go:122-136 | Each copy comes from another node that holds it; no node deletes a file it is sent or sends; the main server deletes only partial files |
| BackupTheorems.FrozenStays | internal/server/filesync/plan.go:77-78 | A conflicted segment a node holds stays exactly as it is |
| BackupNames.SoleWalIsGathered | internal/server/filesync/plan.go:107-127 | WAL in the archive that only other nodes hold, in one version, and that is covered or a history file, is sent to the main server and every other node without it, and deleted nowhere |
| BackupNames.ExpiredWalGoes | internal/server/filesync/plan.go:112-135 | WAL not covered any more, and no history file, that the main server lacks is deleted on every node that holds it, and sent nowhere |
| BackupNames.StrayFileGoes | internal/server/filesync/plan.go:112-135 | So is anything else the main server lacks |
| BackupNames.TwoVersionsConflict | internal/server/filesync/plan.go:86-135 | A segment under two names or with two contents is reported, and no node holding one is told to delete it or sent another |
| Paths.WalByNames | internal/server/filesync/plan.go:142-146 | A path of plain names is WAL exactly if it has at least four, begins with "archive" and doesn't end as an index file |
| Paths.WalIsArchived | internal/server/filesync/plan.go:142-146 | The same of any path, by its components |
| Paths.IndexExactly | internal/server/filesync/plan.go:334-340 | Index files are those whose last name is one of four |
| Paths.PartialExactly | internal/server/filesync/plan.go:55-66 | A partial file is one whose path ends in the suffix of partial files |
| Paths.HistoryExactly | internal/server/filesync/plan.go:116 | A history file is one that ends in ".history" |
| WalFiles.WalSegment | internal/server/filesync/plan.go:148-155 | A segment's name is its path cut at the first dash of the file's own name; without one, the whole path |
| TaskTheorems.LostMeansGone | internal/server/hub/hub.go:260-276 | In every run, with drops, losses, restarts and other nodes: a task is taken as lost only after the agent ended it or restarted, so never while held unless given out again after that |
| TaskTheorems.LostMeansAnswered | internal/server/hub/hub.go:260-276 | When a task is taken as lost, its result, if queued and not lost on the way, was handled before |
| TaskTheorems.ResultIsReal | internal/server/hub/hub.go:237-249 | A result a watch holds is one the agent produced for that very task |
| TaskTheorems.HeldIsLostExactly | internal/server/hub/hub.go:260-276 | In every run, a task the agent holds and keeps can still be taken as lost if and only if a heartbeat that omits it is on its way, with news of the task handled or on its way before that; then it ended once and was given out again |
| TaskTheorems.LostWhileHeld | internal/server/api/handlers/agent.go:402-458 | A run in which a task given out a second time on reconnect is taken as lost while the agent holds it |
| TaskInvariants.InvStep | internal/agent/ws/client.go:77-108 | Every step keeps the protocol's invariants: acks, results and heartbeats in one bounded queue shared with the agent's other messages, listing before ack and until after the result |
| TaskInvariants.OmissionsMeanStep | internal/agent/ws/client.go:281-292 | A heartbeat on its way that omits a task the conductor knows of was sent after the task was gone and after its result |
| TaskInvariants.GroundedStep | internal/agent/ws/client.go:77-99 | Whatever mentions a task was sent after the agent got it; a task gone and not given out again isn't held |
| TaskInvariants.AllAccountedStep | internal/agent/ws/client.go:92-99 | The result of a task that ended is on its way, was handled, or is missing |
| TaskInvariants.WatchAfterHandle | internal/server/hub/hub.go:251-276 | Handling the agent's next message keeps what each watch says true |
| TaskAgents.Client.Send | internal/agent/ws/client.go:101-108 | A message is queued, or dropped when the buffer is full |
| TaskAgents.Client.StartTask | internal/agent/ws/client.go:77-90 | Lists the task, then acks it; false if it was listed already |
| TaskAgents.Client.EndTask | internal/agent/ws/client.go:92-99 | Queues the result, then stops listing the task, whether or not there was room |
| TaskAgents.Client.Beat | internal/agent/ws/client.go:281-292 | A heartbeat lists exactly the tasks held when it is queued |
| TaskAgents.StartIsListThenAck | internal/agent/ws/client.go:83-90 | Starting a task is the protocol's two steps in that order |
| TaskAgents.EndIsQueueThenDelist | internal/agent/ws/client.go:93-99 | Ending a task is the protocol's two steps in that order |
| TaskAgents.Hub.Follow | internal/server/hub/hub.go:224-235 | A new watch knows nothing yet |
| TaskAgents.Hub.NotifyTaskAck | internal/server/hub/hub.go:251-258 | An ack marks just its task as known |
| TaskAgents.Hub.NotifyTaskResult | internal/server/hub/hub.go:237-249 | The first result is kept |
| TaskAgents.Hub.NotifyHeartbeat | internal/server/hub/hub.go:260-276 | Just the node's own watches change: listed means known, known but not listed means lost |
| TaskAgents.Wait | internal/server/hub/dispatcher.go:112-150 | A wait goes on over ticks before the deadline, or while the agent is connected and known to have the task; it ends with the agent's result, its output and an error text exactly if it didn't succeed, also if the task is lost but its result is there; else without one |
| TaskAgents.LostBranchAnswers | internal/server/hub/dispatcher.go:128-150 | A wait that finds the task lost returns the output of the result the agent produced, and its error text exactly if that didn't succeed, unless the result was never queued or was lost on the way |
| BackupRounds.BackupRound | internal/agent/executor/pgbackrestops.go:83-137 | The round ends with true books on a trace that is just what its checks and backups answered, turn by turn, in the order first come first tried; with a warning for each failed check that isn't the last, no time between two attempts but until the next one's location is due, no location cut short whose next check was due before the context ended, and an error exactly when some location wasn't backed up, which counts those: none if every answer is good, all if no backup is; within the limit if every attempt keeps its own; and with a context that leaves that much time, every location had all its checks |
| BackupRounds.NothingBackedUp | internal/agent/executor/pgbackrestops.go:127-136 | If no backup works, no location is reported as backed up |
| BackupRounds.EverythingBackedUp | internal/agent/executor/pgbackrestops.go:105-136 | If every check and backup works, every location is |
| BackupRounds.FailuresExactly | internal/agent/executor/pgbackrestops.go:96-104 | The failures counted are exactly the locations whose result isn't a backup, each once |
| BackupRounds.ScheduledRound | internal/server/scheduler/backupscheduler.go:42-45 | A round with the conductor's parameters and time limit keeps true books and that limit ends its waits; if its attempts keep their limits it isn't late and nothing is cut short |
| BackupRounds.OneResultEach | internal/agent/executor/pgbackrestops.go:84-137 | Exactly one result per queued location |
| BackupRounds.RequeueKeeps | internal/agent/executor/pgbackrestops.go:114-127 | A failed check that isn't the last: only warned about, the wait respected, the books still true |
| BackupRounds.UnreadableKeeps | internal/agent/executor/pgbackrestops.go:114-121 | A location is given up only after its last failed check, or when the context ended meanwhile; then reported and counted as failed, never backed up |
| BackupRounds.BackupKeeps | internal/agent/executor/pgbackrestops.go:129 | A location is backed up once, right after a passing check, and its result says how that went |
| BackupRounds.Turn | internal/agent/executor/pgbackrestops.go:114-129 | One location's turn: its check, and its backup exactly if the check passed, as answered and timed; then it is done, or, after a failed check with tries left, last in the queue with a warning and a wait |
| BackupRounds.TurnTimely | internal/agent/executor/pgbackrestops.go:105-129 | Every attempt starts when the one before it ends, or at the very moment its location is due to be tried again |
| BackupRounds.CutPunctual | internal/agent/executor/pgbackrestops.go:105-113 | A location is cut short only if the context ended no later than its next check was due |
| BackupRounds.TriesMean | internal/agent/executor/pgbackrestops.go:114-121 | A location is checked up to the given number of times, once at least, and unreadable only after all of them or once the context ended |
| BackupRounds.TurnAnswered | internal/agent/executor/pgbackrestops.go:114-129 | Each event of the trace carries the answer and the duration of its turn; a check that passed is followed by its backup |
| BackupRounds.MoreInOrder | internal/agent/executor/pgbackrestops.go:88-107 | Locations get their first check in the order given, and before any of them gets a second |
| BackupRounds.TurnWarned | internal/agent/executor/pgbackrestops.go:122-125 | Just the failed checks after which a location is tried again are warned about, by their number |
| BackupRounds.Rest | internal/agent/executor/pgbackrestops.go:105-113 | A wait ends at the moment the first location is ready, unless the context ends first, and that isn't before the limit; which of two at the same moment comes first is open |
| BackupRounds.RoundEnds | internal/agent/executor/pgbackrestops.go:107-111 | A round whose context ended fails every location left, in order |
| BackupRounds.RequeueOnTime | internal/agent/executor/pgbackrestops.go:114-127 | Clock plus what is left never rises when a location is put back |
| BackupRounds.CloseOnTime | internal/agent/executor/pgbackrestops.go:114-129 | Nor when one is done |
| BackupRounds.SleepOnTime | internal/agent/executor/pgbackrestops.go:105-113 | Nor while the round waits |
| BackupRounds.StartCost | internal/server/scheduler/backupscheduler.go:38-45 | At the start what is left is the conductor's limit |
| RepoHelpers.HelperRefines | internal/agent/executor/repohelper.go:93-172 | For all operations, bytes and file system failures, reading the printed stream gives the replies and finished files of writing directly, and leaves no partial file |
| RepoHelpers.SameAsLocal | internal/agent/executor/repohelper.go:263-268 | For all operations and file system failures, the outcomes equal those of files the agent writes itself if and only if no file is committed without a write where its creation and rename would have worked; then the finished files are equal too |
| PartialFiles.LocalLeavesNoPartial | internal/agent/executor/filesync.go:193-218 | Whatever the file system does, operations on the agent's own partial files leave none behind but the open one |
| PartialFiles.LocalPartial.Write | internal/agent/executor/filesync.go:201 | A write appends to the partial file, or fails |
| PartialFiles.LocalPartial.Commit | internal/agent/executor/filesync.go:203-212 | A commit makes the partial file the destination, or removes it and fails |
| PartialFiles.LocalPartial.Abort | internal/agent/executor/filesync.go:214-217 | An abort removes the partial file |
| RepoHelpers.EmptyFileRefused | internal/agent/executor/repohelper.go:139-141 | Where creating and renaming work, a file opened and committed without a write is installed empty locally but refused by the helper |
| RepoReceives.ChunkMirrors | internal/agent/executor/filesync.go:272-318 | What a chunk asks of the helper is in order, writes before it commits, and does to the repository what the receive does to its folder, with the helper's reply for an answer |
| RepoReceives.RepoReceive | internal/agent/executor/filesync.go:289-315 | A receive into a repository is a receive: for any chunks and any failures of the helper's file system, the finished files are those of a run of the receiver in which commits succeed as the helper replies; so no file is ever committed without a write |
| RepoReceives.RepoArrives | internal/agent/executor/filesync.go:246-317 | End to end into a repository: a full count means every file arrived there, whatever was lost and whatever the helper's file system refused; no other file changed |
| RepoReceives.WrittenMeansSame | internal/agent/executor/filesync.go:289-315 | So a receiver never meets the case in which helper and local files differ |
| RepoHelpers.RepoReceive | internal/agent/executor/repohelper.go:93-172 | The helper's loop computes the reading of its whole input, malformed input, crashes and the end of it included |
| RepoSafety.AnyStreamIsSafe | internal/agent/executor/repohelper.go:93-172 | Whatever comes down the stream, every path is as it was, or a partial file that is gone, or lies inside the repository and holds data whose checksum the stream gave for that path |
| RepoSafety.AnsweredExactly | internal/agent/executor/repohelper.go:139-165 | A file is completed exactly if it is the one being written, every write worked, the checksum is that of its data and the rename works; otherwise the answer is no and no finished file changes; nothing stays open |
| RepoSafety.BadInputRefused | internal/agent/executor/repohelper.go:113-136 | An unknown operation, a bad or too large length or too little data ends the helper with no finished file touched and nothing open |
| RepoSafety.CutShortRefused | internal/agent/executor/repohelper.go:106-112 | So does a line that ends in the middle |
| RepoSafety.CrashHarmless | internal/agent/executor/repohelper.go:116-165 | The helper crashes only before it began any file, with the repository as it was and every answer no |
| RepoSafety.CrashedUnbegun | internal/agent/executor/repohelper.go:116-165 | A command crashes the helper exactly if no file was begun, none has failed, and it is for a file without a name |
| RepoHelpers.ReadsLine | internal/agent/executor/repohelper.go:106-115 | The helper reads a line back as the command and argument it was printed from |
| RepoHelpers.ReadsWrite | internal/agent/executor/repohelper.go:116-138 | A write's data comes back exactly, for the right file, whatever bytes it holds |
| RepoHelpers.CommitFollows | internal/agent/executor/repohelper.go:139-164 | A commit installs exactly the data written, or fails for the same reason as locally |
| RepoHelpers.RepoPartial.Write | internal/agent/executor/repohelper.go:297-306 | What a write puts on the pipe, and what the checksum has seen |
| RepoHelpers.RepoPartial.Commit | internal/agent/executor/repohelper.go:308-323 | What a commit puts on the pipe: the checksum of all the data written |
| RepoHelpers.RepoPartial.Abort | internal/agent/executor/repohelper.go:325-327 | What an abort puts on the pipe |
| Parsing.ParseDigits | internal/agent/executor/repohelper.go:117-120 | A length printed in decimal parses back to itself |
| Parsing.ParseSigned | internal/agent/executor/repohelper.go:117-120 | A signed number is parsed as its value if that fits in 64 bits, and refused otherwise |
| SyncStarter.ActiveMeansOneLoop | internal/server/filesync/filesync.go:116-149 | In every interleaving a folder is active exactly when one loop, and only one, owns it |
| SyncStarter.AcceptedIsServed | internal/server/filesync/filesync.go:116-149 | A job accepted is never forgotten: it, or one accepted later, is queued or its sync began; once the folder is idle it began |
| SyncStarter.QueuedRunsNext | internal/server/filesync/filesync.go:135-149 | The newest job queued behind a sync is the next one run |
| SyncStarter.Manager.Start | internal/server/filesync/filesync.go:116-133 | Starts, queues (replacing the one queued) or refuses a job |
| SyncStarter.Manager.Next | internal/server/filesync/filesync.go:135-149 | The loop takes the queued job, or gives the folder up |
| SettleTimers.SettledMeansStayed | internal/server/scheduler/backupscheduler.go:411-448 | A node is settled exactly when it is connected and the timer of its current connection fired; that started one sync |
| SettleTimers.StayingSettles | internal/server/scheduler/backupscheduler.go:411-430 | From any reachable state a node that stays connected settles, and starts one sync, once its timer is due and its callback ran; no other node changes |
| SettleTimers.ArmedIsCurrent | internal/server/scheduler/backupscheduler.go:411-441 | No timer is left running: an armed one is that of its node's current connection |
| SettleTimers.LateCallbackIgnored | internal/server/scheduler/backupscheduler.go:421-430 | A callback that runs after its timer was stopped or replaced changes nothing and syncs nothing |
| SettleTimers.Scheduler.OnNodeConnect | internal/server/scheduler/backupscheduler.go:411-421 | A connection replaces the node's timer and stops the old one |
| SettleTimers.Scheduler.OnNodeDisconnect | internal/server/scheduler/backupscheduler.go:433-441 | A disconnect unsettles the node |
| SettleTimers.Scheduler.TimerFired | internal/server/scheduler/backupscheduler.go:421-430 | Only the current timer settles its node |
| SettleTimers.Scheduler.IsSettled | internal/server/scheduler/backupscheduler.go:443-448 | Reads whether the node is settled |
| Cron.Matches | internal/server/cron/cron.go:100-114 | A time matches exactly when every field's progressions contain it; an invalid schedule never matches; a crash happens just when parsing crashes |
| Cron.ParseCron | internal/server/cron/cron.go:32-51 | A valid schedule's masks hold exactly the values its fields allow, and the first part that isn't fine decides otherwise |
| Cron.FieldBits | internal/server/cron/cron.go:38-46 | A field allows the union of its parts |
| Cron.PartBits | internal/server/cron/cron.go:53-87 | A part's mask holds exactly the values it allows; otherwise it is bad, or crashes the program |
| Cron.RangeBits | internal/server/cron/cron.go:82-86 | The mask holds exactly the progression, unless the first step passes the largest 64-bit integer |
| Cron.CrashesExactly | internal/server/cron/cron.go:32-87 | A schedule crashes the program exactly when it has five fields and the first of its parts that can't be used follows the syntax, with a start and step that together pass the largest 64-bit integer |
| Cron.CrashExists | internal/server/cron/cron.go:53-87 | Such parts follow every rule of the syntax |
| CronForms.ScheduleMeans | internal/server/cron/cron.go:32-108 | A schedule of values, ranges, stars, steps and lists, as written, matches a time exactly if in each field some part means the time's value, 7 meaning Sunday too |
| CronForms.FieldMeans | internal/server/cron/cron.go:38-46 | A field of such parts is fine and allows just what one of them means |
| CronForms.PartMeans | internal/server/cron/cron.go:53-87 | A part as written, of any form, is read back with just its start, end and step within its field |
| CronForms.BlanksSeparate | internal/server/cron/cron.go:33 | White space separates fields; no character of a field is white space |
| CronForms.TimesExactly | internal/server/cron/cron.go:19-30 | The fields' values: minutes to 59, hours to 23, days 1 to 31, months 1 to 12, weekdays |
| Cron.WeekdayModSeven | internal/server/cron/cron.go:47-49 | A weekday is allowed exactly when the progressions contain it modulo 7 |
| Cron.PartWellFormed | internal/server/cron/cron.go:53-87 | A part that parses lies within its field's bounds, doesn't run backwards and has a positive step |

## Left out

- Receiver.StepAtomic: renaming is one step and a crash between steps is not modelled; how the file system answers is one choice per chunk.
- Relay.RelayRun.HandleChunk: the time limit for a slow receiver is an arbitrary set of receivers stuck at each chunk.
- Listing.ListFiles: walking and hashing the folder, and free disk space, are inputs.
- Plans.Plan.Copy: byte sums are unbounded, not 64-bit.
- SyncTheorems.BackupSync: the retention is any predicate on paths, so walKeep's JSON is not modelled.
- SyncRuns.DeleteFiles: which files of a failed delete batch are gone is arbitrary; directories emptied by deletes are not modelled.
- TaskAgents.Client.EndTask: waiting for buffer space is other steps of the protocol; at its end there is room or there isn't.
- TaskAgents.Wait: the periodic check of the deadline is a turn like the others; nothing is claimed about when it ends a wait.
- TaskInvariants.InvStep: one agent's steps; other agents appear as messages that can't name its tasks.
- BackupRounds.BackupRound: only checks, backups and waits take time; texts of errors are reduced to what kind they are.
- RepoHelpers.RepoReceive: replies are yes or no, without the reason's text; access modes, created directories and the refusal of other roots are left out.
- RepoHelpers.HelperRefines: a path that itself ends as a partial file's name is excluded, as the planners never sync one; one with a line break is refused before anything is streamed, as RepoReceives.RepoReceive models.
- RepoReceives.RepoReceive: the stream to the helper doesn't break; a helper that dies is the failed close of ReceiveRuns.World.
- Cron.ParseCron: a mask is the set of its bits; a schedule is a sequence of characters, already decoded.
- SettleTimers.SettledMeansStayed: delays are not measured; a timer may come due at any time.
- SyncStarter.Manager.Start: a job's contents are not modelled, only its identity.
- The texts of errors and events, access repair after a failed open, and file and directory modes.
- The failover manager, the web interface, alerts, certificates and keys, configuration templates and the agent's other commands.
