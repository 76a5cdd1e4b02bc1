# Verified model of the metadata cluster and the project ledger

This project models, in Dafny, the parts of the publishing service whose correctness is hardest to see by
reading: the leader that acknowledges writes before they are replicated, the optimistic transactions on top of
it, the ledger of projects, quotas and stored versions, the arithmetic that prices a stored version, the evidence
that automatic recovery needs, the generation handshake of the Raft transport, and the page-view archive. For
each it states what the design promises over every input, every run or every reachable state, and proves it.

`dafny verify dfyconfig.toml` checks everything.

## How the model is laid out

| files | what they hold |
|---|---|
| `Wrappers.dfy`, `Sums.dfy`, `Decimal.dfy` | optional values; sums over the entries of a map or the elements of a set; decimal lengths |
| `Projects.dfy`, `Kv.dfy` | the records of a published site; keys, versions and transactions |
| `Fsm.dfy`, `FsmLaws.dfy` | the replicated state machine, its snapshots, and replay of a log |
| `Writer.dfy`, `WriterLaws.dfy` | the speculative writer: what each section under its lock does to its fields, and exactly when it succeeds |
| `Cluster.dfy`, `ClusterInv.dfy`, `ClusterProof.dfy`, `ClusterSteps.dfy` | many nodes over one Raft log as a state machine of fifteen actions, its invariant, and the proof that every action keeps it |
| `ClusterTheorems.dfy`, `ClusterHistory.dfy`, `ClusterReads.dfy` | what follows for every state of every run, and for the snapshots read in it |
| `ClusterAck.dfy` | what an acknowledgement took, and that a working leader gives it |
| `ClusterLate.dfy` | a run in which an acknowledged write reaches Raft in a later term and is refused |
| `Tx.dfy`, `Ordering.dfy` | client transactions, read snapshots, retries; string order and sorted lists |
| `Footprint.dfy`, `FootprintBounds.dfy`, `FootprintExact.dfy` | the size of a version in blocks and inodes, growth of the block size, upper and lower bounds, exact prices |
| `LedgerRules.dfy` | the ledger's records and its transactions as functions from a ledger to a ledger or an error |
| `LedgerSums.dfy`, `LedgerInv.dfy` | totals over versions and projects; what the records have to do with each other |
| `LedgerSteps.dfy`, `LedgerPublish.dfy`, `LedgerStorage.dfy`, `LedgerReserve.dfy` | every transaction keeps the ledger consistent |
| `LedgerRuns.dfy`, `LedgerHistory.dfy`, `LedgerProgress.dfy` | what holds over whole runs, and sequences of transactions that must succeed |
| `LedgerAdmission.dfy`, `LedgerEdits.dfy`, `LedgerRecords.dfy`, `LedgerReclaim.dfy` | exactly when a reservation, an edit or a reclamation succeeds, and what it changes |
| `LedgerAuthority.dfy`, `LedgerTransfers.dfy` | who may change a project, and how it changes hands |
| `LedgerDurability.dfy` | which ledger transactions may be acknowledged before replication |
| `LedgerRepository.dfy` | the repository object whose methods perform the transactions step by step |
| `Recovery.dfy`, `LeaderConflict.dfy`, `Generation.dfy` | recovery evidence, the leader-conflict latch, the generation handshake |
| `Analytics.dfy` | the page-view archive and its queries |

Code that the source writes as objects updated under a lock is a class here (`MetadataState`, `AsyncWriter`,
`Transactional`, `TransactionBackend`, `RaftRepository`, `RecoveryManager`, `Tracker`, `Guard`, `Archive`), each
method of which is proved against a function or a property of its old state; the theorems are about those
functions and about runs built from them.

## What is assumed

- Raft: a term has one leader; nothing is committed below the highest committed term; an entry carries the term in
  which its node leads when Raft receives it, which may be later than the term it was made for; a successful future
  means that the entry was applied, in order; a failed one leaves that single entry in doubt until a later barrier.
  Log indexes stay below 2^32.
- Encodings are injective and hashes free of collisions: a digest chain is a list of commands, a version is named
  by the triple that the source hashes, an operation by its 64-character identifier.
- Clocks, the network, discovery, disk writes and the caller's verified identity enter as parameters; a disk write
  that may fail is a Boolean. The ledger's clock does not go back.
- Ledger transactions are atomic. That they are is what `Serializable` proves of the layer below.
- A producer of page views does not give one sequence number to two different snapshots (`Consistent`).

## Model

| member | source | states |
|---|---|---|
| `Kv.ValidateTransaction` | internal/cluster/state.go:41-59 | accepts exactly the transactions whose keys are document keys checked once and whose writes are well formed, checked and made once |
| `Fsm.MetadataState.Measure` | internal/cluster/state.go:102-115 | the count and size computed without performing the writes are those of the resulting records |
| `Fsm.MetadataState.Apply` | internal/cluster/state.go:86-141 | the incremental byte count stays exact; a refused entry changes only the index; an accepted one gives exactly the judged state |
| `Fsm.MetadataState.Save` | internal/cluster/state.go:171-182 | a snapshot is the current records, index, ceiling and digest |
| `Fsm.MetadataState.Restore` | internal/cluster/state.go:197-229 | installs a snapshot exactly when it is restorable, and otherwise changes nothing; too large a snapshot and a malformed or foreign one are told apart |
| `Fsm.JudgeKeepsWellFormed` | internal/cluster/state.go:86-141 | both caps, valid records and versions within the ceiling survive every entry |
| `FsmLaws.AcceptedExactly` | internal/cluster/state.go:86-141 | an entry is accepted exactly if it is a well-formed transaction of at most 1 MiB, of its own term, on current versions, leaving at most 100000 records and 128 MiB; the records then read as written, and ceiling and history follow |
| `FsmLaws.KeyExactly` | internal/cluster/state.go:34-34 | which collections and identifiers are keys, over the spelled-out alphabets |
| `FsmLaws.DigestSpells` | internal/cluster/state.go:122-123 | the history digest of a replica stands for exactly the commands it has accepted, in order |
| `Fsm.CompactionInvisible` | internal/cluster/state.go:171-229 | for every log and cut, the snapshot is accepted and replaying the rest equals replaying everything |
| `FsmLaws.RestorableExactly` | internal/cluster/state.go:197-229 | a snapshot is installed exactly if it is of this cluster, within both caps, and every record is valid and of a version the snapshot knows |
| `FsmLaws.SnapshotSpelled` | internal/cluster/state.go:162-190 | the size that the snapshot cap limits is the length of the file as it is spelled, in whatever order its records stand |
| `Writer.DecideLocal` | internal/cluster/async.go:200-256 | decides exactly which transactions may be acknowledged before replication |
| `WriterLaws.LocalExactly` | internal/cluster/async.go:200-256 | which transactions may be acknowledged before replication, spelled out: asked for, writing a project, deleting only digests, every write content |
| `WriterLaws.ContentExactly` | internal/project/raft.go:51-70 | a change of a project is content exactly if thirteen named fields stay, and status and dates move only by a first publication that neither adds nor drops an expiry |
| `Writer.AsyncWriter.Ensure` | internal/cluster/async.go:126-192 | rebuilds once per term or after a failure, from the committed state, only with nothing outstanding |
| `WriterLaws.EnsureExactly` | internal/cluster/async.go:126-192 | exactly when a leader may go on, and what a rebuilt writer is |
| `ClusterAck.EnsureIsRebuild` | internal/cluster/async.go:126-192 | the section is the rebuild action of the cluster, in both directions |
| `Writer.AsyncWriter.Commit` | internal/cluster/async.go:264-364 | the first locked section of a commit: refuse, acknowledge locally, or wait |
| `WriterLaws.CommitExactly` | internal/cluster/async.go:264-364 | exactly when a commit is taken on, two voters for user data included, and exactly when it is answered at once |
| `Writer.AsyncWriter.Finish` | internal/cluster/async.go:366-379 | the second locked section installs the preview only if term and authority still hold |
| `WriterLaws.FinishExactly` | internal/cluster/async.go:366-379 | a committer succeeds, and its preview is served, if and only if the proposal did under the same leadership; which error and which fence otherwise |
| `Writer.AsyncWriter.Cancel` | internal/cluster/async.go:380-386 | a passed deadline fences the writer |
| `Writer.AsyncWriter.Take` | internal/cluster/async.go:398-401 | the worker takes the head of the queue and decides whether it may still be proposed |
| `Writer.AsyncWriter.Settle` | internal/cluster/async.go:419-429 | the worker unjournals a success and fences on any error of the current term |
| `WriterLaws.SettleExactly` | internal/cluster/async.go:419-429 | success is reported if and only if Raft applied the entry and the journal forgot it; Raft's error is passed on, any failure fences the writer of that term |
| `Writer.AsyncWriter.ReadSnapshot` | internal/cluster/transaction_reads.go:105-131 | a read comes from the served view, under the caller's stamp or not at all |
| `WriterLaws.ReadExactly` | internal/cluster/transaction_reads.go:105-131 | exactly when a read is answered, and with which records and stamp |
| `ClusterSteps.StepInv` | internal/cluster/async.go:126-432 | each of the fifteen actions of the cluster, an append under a later term included, keeps the invariant |
| `ClusterSteps.RunInv` | internal/cluster/async.go:126-432 | the invariant holds in every state of every run |
| `ClusterTheorems.SpeculationRefinesLog` | internal/cluster/async.go:264-432 | while a writer works in the current term, applying its unsettled proposals to the replicated state accepts all of them and ends in the served view plus at most one write being confirmed |
| `ClusterTheorems.WorkingLeaderReachable` | internal/cluster/async.go:126-192 | any node can be elected and rebuilt into a working writer, so the theorems about working writers are not empty |
| `ClusterTheorems.PredictionsHold` | internal/cluster/async.go:398-418 | every speculative entry that is ever committed is accepted if and only if it is committed in the term it was numbered for, and then produces the state its leader predicted; otherwise it is refused as invalid and changes only the index |
| `ClusterSteps.LateRefused` | internal/cluster/state.go:94-96 | in any state, an entry that carries another term than its revision is refused and leaves the records, ceiling and digest alone |
| `ClusterLate.LocalAckRefused` | internal/cluster/async.go:398-418 | a run of eight steps in which a leader acknowledges a reservation locally, steps down, is elected again, still finds the proposal valid, and has it committed under the new term and refused |
| `ClusterTheorems.VersionNamesValue` | internal/cluster/async.go:311-316 | one version of one key names one value, across deletes, failures and terms |
| `ClusterTheorems.ReadsAreCurrent` | internal/cluster/state.go:97-101 | an accepted command was based on reads that equal the state its predecessors left |
| `ClusterTheorems.Serializable` | internal/metadata/transaction.go:130-176 | over any interleaving, the replicated records equal those of running the committed callbacks alone in log order; a callback may read its keys in any order and repeatedly, whatever order its checks and writes are listed in |
| `ClusterHistory.RunSettled` | internal/cluster/async.go:398-429 | settled proposals are a gap-free prefix of the enqueued ones, standing consecutively in the log, each in the term it was made for |
| `ClusterHistory.OnlyNextInDoubt` | internal/cluster/async.go:412-429 | of what Raft received in the current term, only the first proposal that was not applied can be in doubt, and then the writer is fenced |
| `ClusterHistory.OnlySettledSucceeds` | internal/cluster/async.go:366-379 | a commit reports success only if the log holds its command and accepted it, nothing is journalled or outstanding any more, and the writer still serves its term unfenced and with authority |
| `ClusterHistory.ReplicatedAckCoversLocal` | internal/cluster/async.go:350-390 | a replicated acknowledgement implies that the log has accepted every earlier local one since the rebuild before it |
| `ClusterAck.ReplicatedAckHasQuorum` | internal/cluster/async.go:284-309 | in every run, a commit of user data that is reported as replicated was taken on with at least two voters |
| `ClusterAck.WorkingLeaderCommits` | internal/cluster/async.go:264-364 | in every reachable state, a working leader with room takes on every valid, current transaction that fits, given two voters and a holding lease |
| `ClusterAck.ReplicatedAckReachable` | internal/cluster/async.go:264-429 | a run of eight steps that ends in a replicated acknowledgement with three voters |
| `ClusterHistory.LocalKeepsPolicy` | internal/project/raft.go:51-79 | a locally acknowledged transaction keeps owner, name, privacy, password, policy revision and watermark of every existing project |
| `ClusterHistory.PolicyOfView` | internal/cluster/async.go:200-256 | at any moment, in any term and for any writer, the served view and the log up to the writer's last applied entry differ in content only, or by the one replicated write it has not confirmed |
| `ClusterHistory.BaselineIsAhead` | internal/cluster/async.go:126-192 | a leader that no later term has superseded rebuilds from a baseline that contains every applied entry of every writer |
| `ClusterHistory.PolicyNeverRolledBack` | internal/cluster/async.go:126-192 | whoever rebuilds and whichever view is abandoned, in the same term or a later one, the new view is the abandoned one's applied log, whose policy is that of the abandoned view, followed by entries committed after it |
| `ClusterHistory.JournalBounded` | internal/cluster/async.go:334-358 | a working writer journals exactly its outstanding proposals, at most 64, so the queue cannot overflow |
| `ClusterHistory.StampsNameStates` | internal/cluster/transaction_reads.go:126-130 | equal read stamps, at any nodes and times of a run, name the same state |
| `ClusterReads.SnapshotCoherent` | internal/cluster/transaction_reads.go:59-67 | all reads of one stamped transaction, on whatever nodes and at whatever steps of a run, are lookups in the state that served the first, so a snapshot reader needs no final check |
| `Tx.CoordinatorIsStricter` | internal/metadata/transaction.go:238-257 | what the coordinator acknowledges locally contains only writes that the client classifies as content |
| `Tx.Transactional.ReadRecord` | internal/metadata/transaction.go:162-176 | a key is read once, within 128 keys, and keeps its first version; an error of the backend is passed on |
| `Tx.ReadExactly` | internal/metadata/transaction.go:162-176 | exactly when a read succeeds, and what it returns |
| `Tx.Transactional.Get` | internal/metadata/transaction.go:178-199 | a transaction sees its own writes, then what it first read; an error of the backend is passed on |
| `Tx.Transactional.Set` | internal/metadata/transaction.go:201-215 | records the write if the read and the size allow it, and the need for replication for a protected key even if they do not; a read-only transaction changes nothing |
| `Tx.Transactional.Delete` | internal/metadata/transaction.go:226-236 | likewise for a deletion |
| `Tx.Transactional.ClassifyWrite` | internal/metadata/transaction.go:238-257 | replication is required exactly for writes outside the content collections, and never dropped again |
| `Tx.ContentMeans` | internal/metadata/transaction.go:238-257 | the content collections, spelled out |
| `Tx.Transactional.RequireReplication` | internal/metadata/transaction.go:111-113 | promotes the whole transaction for good |
| `Tx.Transactional.Finish` | internal/metadata/transaction.go:258-289 | the command is valid, checks exactly the versions read and contains exactly the pending writes, so it is what any callback that read and wrote this way produces in the sense of `Serializable`; it is local only if every write asked for was content; a coherent snapshot needs no final check |
| `Tx.SortedKeys` | internal/metadata/transaction.go:262-266 | the checks come in strictly ascending key order |
| `Tx.TransactionBackend.Read` | internal/cluster/transaction_reads.go:35-50 | all snapshot reads of a transaction carry one stamp, and the older protocol is used only before the first |
| `Tx.ReadKeepsStamp` | internal/cluster/transaction_reads.go:126-130 | a read under a stamp fails or returns that stamp |
| `Tx.Run` | internal/metadata/transaction.go:130-160 | only a known conflict is retried, at most eight times |
| `Ordering.Search` | internal/project/raft.go:100 | binary search finds the first element not below the identifier |
| `Ordering.SortedUnique` | internal/project/raft.go:94-111 | a sorted duplicate-free list is determined by its elements |
| `Footprint.Measure` | internal/content/footprint.go:16-62 | the result is an allowance defined without any order, whichever order the directory map is visited in |
| `Footprint.AddDirectories` | internal/content/footprint.go:40-45 | every directory entry is counted once in its parent, in any order |
| `Footprint.RoundGrows` | internal/content/footprint.go:20 | rounding to a larger block costs at most the difference, if one block divides the other |
| `Footprint.GrowthCovered` | internal/project/storage_accounting.go:65-78 | the per-inode surcharge covers measuring the same manifest with the larger block |
| `FootprintBounds.DivisibilityNeeded` | internal/project/storage_accounting.go:68-70 | for any two blocks of which the smaller does not divide the larger, a directory with enough files of one awkward size costs more at the larger block than its old charge and the surcharge on its inodes |
| `FootprintBounds.DivisibilityFails` | internal/project/storage_accounting.go:68-70 | a manifest of ten files for which the surcharge from blocks of 3 to blocks of 4 does not suffice |
| `FootprintBounds.UsageBounds` | internal/project/storage_reclamation.go:156-158 | a measured version never exceeds the limits that the refund rules check |
| `FootprintExact.MeasuredExactly` | internal/content/footprint.go:16-32 | a manifest is measured exactly if its form, paths, sizes and total are within the limits, and its content is the sum of the sizes |
| `FootprintExact.EverythingPaid` | internal/content/footprint.go:16-62 | a measured version is charged at least for its content, every file and folder name with 32 bytes each, the text of the manifest and four blocks, and for one inode per file and folder and seven more |
| `FootprintExact.FlatPrice` | internal/content/footprint.go:16-62 | the exact price of a manifest without folders, as a formula in names, sizes and block |
| `LedgerSums.LiveWithinContent` | internal/project/storage_accounting.go:221-224 | live bytes never exceed stored bytes, because different projects serve different versions |
| `LedgerInv.PutIndexed` | internal/project/raft.go:94-111 | storing a project keeps every owner index equal to the sorted set of undeleted projects |
| `LedgerInv.PutQueued` | internal/project/storage_accounting.go:173-200 | storing a project keeps every version that is not served in the maintenance queue |
| `LedgerInv.PutLive` | internal/project/storage_accounting.go:202-228 | storing a project keeps the pool's live bytes exact |
| `LedgerReserve.ReserveInv` | internal/project/raft_rules.go:83-252 | a reservation keeps the ledger consistent |
| `LedgerAdmission.ReserveExactly` | internal/project/raft_rules.go:83-252 | a new reservation is granted if and only if it is well formed, for the caller's current project or a new one that finds a name, its content is not taken, the quota has room, and it is placed |
| `LedgerAdmission.AllocateExactly` | internal/project/storage_accounting.go:41-134 | the first offered pool that is not passed over decides, and it takes the content exactly if its accounting can grow, the manifest matches, and the version is known or fits both limits with twice its size free |
| `LedgerAdmission.RetryExactly` | internal/project/raft_rules.go:110-130 | exactly when a repeated request is answered again, changing nothing |
| `LedgerAdmission.NameExactly` | internal/project/slugs.go:5-32 | a name is found exactly if some suffix length gives a usable one and all shorter ones are well formed but reserved or taken |
| `LedgerReserve.ChosenSlug` | internal/project/slugs.go:5-32 | a chosen name is well formed, not reserved, and free or already the project's own |
| `LedgerReserve.GrownOk` | internal/project/storage_accounting.go:65-78 | growing the accounting block keeps the pool's exact totals |
| `LedgerReserve.ChargedOk` | internal/project/storage_accounting.go:103-117 | a new version is charged to its pool with its footprint, an existing one not at all |
| `LedgerPublish.ActivateInv` | internal/project/raft_rules.go:268-373 | an activation keeps the ledger consistent |
| `LedgerPublish.AbortInv` | internal/project/raft_rules.go:379-451 | an abort keeps the ledger consistent |
| `LedgerPublish.SelectInv` | internal/project/revisions.go:233-310 | selecting an earlier publication keeps the ledger consistent |
| `LedgerPublish.RemoveInv` | internal/project/revisions.go:264-274 | removing a publication keeps the ledger consistent |
| `LedgerSteps.RenameInv` | internal/project/raft_rules.go:601-676 | a rename keeps the ledger consistent |
| `LedgerSteps.TombstoneInv` | internal/project/raft_rules.go:548-599 | a deletion keeps the ledger consistent |
| `LedgerSteps.ExpireInv` | internal/project/raft_maintenance.go:14-55 | an expiry keeps the ledger consistent |
| `LedgerSteps.ClaimInv` | internal/project/raft_rules.go:507-546 | a claim keeps the ledger consistent |
| `LedgerSteps.RedeemInv` | internal/project/transfer.go:114-192 | redeeming a transfer keeps the ledger consistent |
| `LedgerSteps.SetPrivacyInv` | internal/project/raft_rules.go:678-715 | a change of privacy keeps the ledger consistent |
| `LedgerSteps.SetWatermarkInv` | internal/project/watermark.go:49-85 | a change of the watermark keeps the ledger consistent |
| `LedgerEdits.EditsAreExact` | internal/project/raft_rules.go:268-715 | for activation, abort, deletion, expiry, privacy, watermark, claim, redemption, selection and removal: the project changes if and only if a guard over stored records, caller and clock holds, it becomes exactly the stated project, and no other project changes; otherwise the whole ledger stays, and the answer is success for a repeated request and one determined failure for any other |
| `LedgerRecords.EditsRecords` | internal/project/raft_rules.go:268-715 | when the guard of an edit holds, the operation, every digest record, the names, removal marks, fences and transfers after it are determined, too |
| `LedgerRecords.StrangersLearnNothing` | internal/project/raft_rules.go:555-566 | a caller who does not own the project gets the same answer whether it exists, is deleted, expired or busy, or is somebody else's |
| `LedgerEdits.RenameOnly` | internal/project/raft_rules.go:601-676 | a rename needs the owner's current project, changes nothing but names, and gives the name or one derived from it |
| `LedgerEdits.RenameSucceeds` | internal/project/raft_rules.go:601-676 | an owner gets an available name |
| `LedgerStorage.RetireInv` | internal/project/storage_reclamation.go:12-113 | retiring a version keeps the ledger consistent |
| `LedgerStorage.AcknowledgeInv` | internal/project/storage_reclamation.go:118-197 | an acknowledgement from a pinned member is never refused and keeps the ledger consistent |
| `LedgerStorage.RefundSucceeds` | internal/project/storage_reclamation.go:145-195 | none of the guards on pool, project and owner balances can refuse the final refund, whose effect is given exactly |
| `LedgerReclaim.RetireExactly` | internal/project/storage_reclamation.go:12-113 | a measured version starts or goes on retiring exactly if its project is idle, unexpired and does not show it, the version is abandoned or already retiring, and the members are the pinned ones |
| `LedgerReclaim.AcknowledgeExactly` | internal/project/storage_reclamation.go:118-197 | an acknowledgement is taken exactly from a pinned member in the version's epoch; it is noted, and the last one gives space and charge back |
| `LedgerReclaim.ReconcileExactly` | internal/storagepool/accounting_retry.go:67-113 | exactly when an older version is measured, and what the pool gets back |
| `LedgerReserve.ReconcileInv` | internal/storagepool/accounting_retry.go:67-113 | replacing a conservative reserve by an exact footprint keeps the pool's totals exact |
| `LedgerRuns.RunInv` | internal/project/raft_rules.go:83-715 | the ledger is consistent in every state of every run |
| `LedgerAuthority.OnlyOwnersChange` | internal/project/raft_rules.go:563-565 | in every run, a project changes in anything but its charge only by its owner, by an expiry that has passed, by maintenance after the operation's time is up, or through an outstanding transfer |
| `LedgerTransfers.HandsChange` | internal/project/transfer.go:114-192 | in every run, a project changes hands only by its owner's claim, or by a redemption with the digest of a transfer that the owner created less than a day before and that nobody renewed, revoked or ended; the new owner is the caller's account |
| `LedgerTransfers.TransferTraced` | internal/project/transfer.go:48-112 | every outstanding transfer was created by the owner and has been left alone since |
| `LedgerTransfers.CreateExactly` | internal/project/transfer.go:48-82 | exactly when a transfer is created, that it lasts a day, and which failure is given otherwise |
| `LedgerTransfers.RevokeExactly` | internal/project/transfer.go:84-112 | exactly when a transfer is taken back, and which failure is given otherwise |
| `LedgerRuns.StartsEmpty` | internal/project/storage_accounting.go:57-59 | a run may start from the empty ledger at any time |
| `LedgerRuns.PoolConserved` | internal/project/storage_accounting.go:57-130 | exact totals of every pool, live bytes within stored bytes, and a charge that covers measuring everything again |
| `LedgerHistory.ReclaimedPoolIsZero` | internal/project/storage_reclamation.go:152-195 | from the empty ledger, a pool whose versions are all reclaimed is exactly empty |
| `LedgerRuns.RetireGuardsUnreachable` | internal/project/storage_reclamation.go:81-86 | a measured version is never refused retirement for damaged accounting |
| `LedgerRuns.QuotaConserved` | internal/project/raft_rules.go:199-241 | an owner is charged exactly what all of their projects are, a project exactly for its unreclaimed versions, within the limits |
| `LedgerRuns.IndexExact` | internal/project/raft.go:94-151 | the owner index is the one sorted list of the owner's undeleted projects |
| `LedgerRuns.QueueComplete` | internal/project/storage_accounting.go:173-200 | every stored version is served or queued |
| `LedgerRuns.OneProjectPerDigest` | internal/project/raft_rules.go:181-198 | at any moment at most one live project serves a given content |
| `LedgerRuns.NamesResolve` | internal/project/slug_owner.go:9-25 | every name an undeleted project ever took resolves to it and to nobody else |
| `LedgerHistory.NamesFreed` | internal/project/raft_rules.go:591-597 | all names of a project become free together with its deletion |
| `LedgerHistory.StepEvolves` | internal/project/raft_rules.go:83-715 | no transaction forgets a project, an operation, a removal or a name, or undoes a deletion |
| `LedgerHistory.RefundedOnce` | internal/project/storage_reclamation.go:127-144 | a version is refunded at most once, and only after every pinned member has acknowledged |
| `LedgerHistory.ServedIsRetained` | internal/project/storage_accounting.go:136-164 | what is served and what a pending operation installs is retained and was never removed |
| `LedgerHistory.KeptUntilRemoved` | internal/project/storage_reclamation.go:49-69 | from a start without removals, a completed publication of an undeleted project stops being retained only after an earlier, successful removal of that publication by the project's owner |
| `LedgerHistory.RemovedByOwner` | internal/project/revisions.go:233-274 | every removal mark of a run goes back to a successful removal request of that publication by the owner |
| `LedgerHistory.RunPendingQueued` | internal/project/storage_accounting.go:118-123 | while an operation is pending, its version stays in the maintenance queue of its pool |
| `LedgerHistory.RunVersions` | internal/project/storage_reclamation.go:127-135 | a reclaimed version never changes again, and a retiring one keeps its epoch and members |
| `LedgerHistory.ChargedOnce` | internal/project/raft_rules.go:110-130 | a repeated reservation with the same idempotency key changes nothing |
| `LedgerProgress.PublishSucceeds` | internal/project/raft_rules.go:268-373 | a reservation activated in time always becomes live, serving exactly the reserved content under its name |
| `LedgerProgress.FirstReservation` | internal/project/raft_rules.go:134-250 | in the empty ledger a reservation with any name, given or default, and any list of offered pools succeeds if and only if it is valid and for a new project, its name is not malformed, it fits the quota, and one of the pools has room for the announced content |
| `LedgerProgress.AbortUndoes` | internal/project/raft_rules.go:415-449 | aborting a reservation leaves an existing project as it was but for its charge, and restores the count of a new one |
| `LedgerProgress.DeleteSucceeds` | internal/project/raft_rules.go:548-599 | an idle project can always be deleted, which lowers the count by one and frees its name |
| `LedgerProgress.SelectBack` | internal/project/revisions.go:275-307 | selecting another publication and back restores exactly what was served |
| `LedgerProgress.ReclaimCompletes` | internal/project/storage_reclamation.go:136-195 | acknowledgements of all pinned members, in any order and with repetitions, reclaim the version |
| `LedgerDurability.ReservationIsContent` | internal/project/raft.go:120-135 | a reservation changes only the content side of its project |
| `LedgerDurability.ActivationIsContent` | internal/project/raft.go:51-70 | an activation is a content change if and only if it is public, keeps the stored generation and only moves an existing expiry |
| `LedgerDurability.PolicyChangesReplicate` | internal/project/raft.go:51-70 | no transaction that writes the result of a successful rename, change of privacy or watermark, selection, deletion, expiry, claim or redemption over the stored project is acknowledged locally |
| `LedgerDurability.ProtectedNeverLocal` | internal/cluster/async.go:200-256 | a transaction with a write to a pool, charge, removal, retirement, transfer or queue record is never acknowledged locally |
| `LedgerDurability.ReservationReplicates` | internal/project/storage_accounting.go:118-126 | the transaction of every successful new reservation waits for replication |
| `LedgerDurability.ActivationReplicates` | internal/project/storage_accounting.go:195-197 | the transaction of every successful activation of a pending operation waits for replication, because it takes the version off the queue |
| `LedgerDurability.PublicationReplicates` | internal/project/storage_accounting.go:118-126 | at every step of every run, a new reservation and an activation of a pending operation wait for replication |
| `LedgerRepository.PickSlug` | internal/project/slugs.go:5-32 | the loop over candidate lengths computes the chosen name |
| `LedgerRepository.AllocateMeasuredStorage` | internal/project/storage_accounting.go:41-134 | the loop over offers grants, refuses or skips as specified |
| `LedgerRepository.UpdateIndex` | internal/project/raft.go:94-111 | the search and splice insert or remove one identifier |
| `LedgerRepository.Store` | internal/project/raft.go:112-151 | storing a project updates index, queue and live bytes with it |
| `LedgerRepository.RaftRepository.Reserve` | internal/project/raft_rules.go:83-252 | performs a reservation exactly as its rule says, returns the rule's error, and keeps the repository consistent |
| `LedgerRepository.RaftRepository.Activate` | internal/project/raft_rules.go:268-373 | performs an activation exactly as its rule says, returns the rule's error, and keeps the repository consistent |
| `LedgerRepository.RaftRepository.Abort` | internal/project/raft_rules.go:379-451 | performs an abort exactly as its rule says, returns the rule's error, and keeps the repository consistent |
| `LedgerRepository.RaftRepository.Tombstone` | internal/project/raft_rules.go:548-599 | performs a deletion exactly as its rule says, returns the rule's error, and keeps the repository consistent |
| `LedgerRepository.RaftRepository.ExpireProject` | internal/project/raft_maintenance.go:14-55 | performs an expiry exactly as its rule says, returns the rule's error, and keeps the repository consistent |
| `LedgerRepository.RaftRepository.Rename` | internal/project/raft_rules.go:601-676 | performs a rename exactly as its rule says, returns the rule's error, and keeps the repository consistent |
| `LedgerRepository.RaftRepository.RedeemTransfer` | internal/project/transfer.go:114-192 | performs a redemption exactly as its rule says, returns the rule's error, and keeps the repository consistent |
| `LedgerRepository.RaftRepository.ChangeRevision` | internal/project/revisions.go:233-310 | performs a selection or removal exactly as its rule says, returns the rule's error, and keeps the repository consistent |
| `LedgerRepository.RaftRepository.RetireStorageVersion` | internal/project/storage_reclamation.go:12-113 | retires a version exactly as its rule says and returns the rule's error; storage errors are reported only for unmeasured versions |
| `LedgerRepository.RaftRepository.AcknowledgeStorageReclamation` | internal/project/storage_reclamation.go:118-197 | records an acknowledgement, refunds on the last one, returns the rule's error, and never fails for a pinned member |
| `LedgerRepository.RaftRepository.ReconcileUnverified` | internal/storagepool/accounting_retry.go:67-113 | performs a reconciliation exactly as its rule says, returns the rule's error, and keeps the repository consistent |
| `Recovery.RecoveryManager.Tick` | internal/cluster/auto_recovery.go:80-187 | a recovery is triggered exactly by an unbroken run of at least 41 agreeing samples spanning half an hour on both clocks that names this node; the node fences itself exactly after half an hour of unbroken absence |
| `Recovery.RecoveryManager.PerformRecovery` | internal/cluster/auto_recovery.go:398-464 | a request is written exactly for the same plan under the same policy, within 45 seconds of the last sample of such a run, with the log on shutdown and on disk where the plan has it and no request present; otherwise, unless the node has stopped, the window starts again |
| `Recovery.EnoughSamples` | internal/cluster/auto_recovery.go:497-507 | half an hour without a gap above 45 seconds takes at least 41 samples |
| `Recovery.FewestSamples` | internal/cluster/auto_recovery.go:497-507 | 41 samples, one every 45 seconds, are enough |
| `Recovery.ChooseWinner` | internal/cluster/auto_recovery.go:289-305 | the winner is a member with a log, a voter if any candidate is one, with no log of its kind ahead of it, and of equal logs the one of least rank |
| `Recovery.LostQuorum` | internal/cluster/auto_recovery.go:308-362 | a quorum is lost exactly when at most half of the voters are present, some are missing and none of the missing can be reached |
| `Recovery.Evaluate` | internal/cluster/auto_recovery.go:244-382 | a plan exists exactly when the node is ready, every answer agrees with it, the quorum is lost, some node can take over and no leader has appeared meanwhile; its winner is the foremost candidate |
| `Recovery.AgreementMeans` | internal/cluster/auto_recovery.go:291-299 | agreement, spelled out: everybody answered once, over one protocol and view, without a leader, and knows no newer or different history |
| `Recovery.WinnerAgreed` | internal/cluster/auto_recovery.go:383-394 | nodes that see the same answers choose the same winner |
| `LeaderConflict.Tracker.Observe` | internal/cluster/leader_conflicts.go:29-72 | the latch sets exactly on two adjacent multi-leader rounds and clears exactly after two unbroken minutes of single-leader rounds |
| `LeaderConflict.Tracker.BreakContinuity` | internal/cluster/leader_conflicts.go:24-28 | an interruption keeps the latch and ends every run |
| `Generation.HandshakeAgrees` | internal/cluster/raft_generation.go:152-201 | ends that accept each other's hellos record the same generation and lineage, and an end with a history keeps its own |
| `Generation.DifferentHistoriesRefused` | internal/cluster/raft_generation.go:190-201 | ends with different histories never both accept |
| `Generation.AcceptsExactly` | internal/cluster/raft_generation.go:174-201 | which peers an end accepts, spelled out |
| `Generation.HandshakeSucceeds` | internal/cluster/raft_generation.go:152-201 | ends of one cluster with the same history always meet, and a new member always finds its way in |
| `Generation.EffectiveMeans` | internal/cluster/raft_generation.go:123-137 | the newer of binding and replicated state counts, and the binding on a tie |
| `Generation.NeverBack` | internal/cluster/raft_generation.go:123-151 | over any run including restarts a bound generation never decreases |
| `Generation.LineageKept` | internal/cluster/raft_generation.go:123-151 | over any run without a finished reset, a node never changes the lineage of its generation |
| `Generation.AdvanceExactly` | internal/cluster/raft_generation.go:40-246 | exactly when a node takes the generation that a peer, a target, a history or a reset offers |
| `Generation.Guard.Restart` | internal/cluster/raft_generation.go:40-119 | the start-up moves the binding forward to the newest generation in the local log; with a writable disk it fails exactly for an invalid reset or a damaged record |
| `Generation.Guard.ScanLog` | internal/cluster/raft_generation.go:77-112 | the scan finds the newest generation, or reports a damaged record |
| `Generation.Guard.Authorize` | internal/cluster/raft_generation.go:174-201 | accepts exactly as specified, if it can write what it has to, and binds an empty end to its first peer |
| `Generation.Guard.Catchup` | internal/cluster/raft_generation.go:138-151 | catches up with a newer generation in the replicated state, to at least that generation, whenever it can write |
| `Generation.Guard.PrepareEnrollment` | internal/cluster/raft_generation.go:206-246 | binds an empty, unbound end to the target; otherwise proceeds exactly if the target is its own binding or older, and asks for a reset, if it may, when the target is different and not older |
| `Analytics.Archive.Accept` | internal/analytics/archive.go:180-272 | the outcome in every case (where an overtaken snapshot also contradicts a stored one, either answer, as the listing has it); a new one is stored, of its producer's older files exactly the newest stays, nobody else's change, and everything acknowledged stays represented within the limits, at most 512 files in a directory included |
| `Analytics.Archive.Prune` | internal/analytics/archive.go:256-270 | removes only older files of the same producer and keeps exactly the newest of them |
| `Analytics.Converges` | internal/analytics/archive.go:203-271 | archives that accepted the same snapshots, in any order and with repetitions, agree on what counts |
| `Analytics.SameAnswers` | internal/analytics/archive.go:451-535 | and give the same exact answer to every query |
| `Analytics.AddSaturated` | internal/analytics/model.go:101-106 | saturating step by step is saturating the exact sum once |
| `Analytics.BucketExists` | internal/analytics/archive.go:520-531 | every hour in range falls in exactly one bucket, which exists |
| `Analytics.BucketsAddUp` | internal/analytics/archive.go:451-535 | the exact sums of all buckets add up to the exact total |
| `Analytics.SelectLatest` | internal/analytics/archive.go:476-485 | picks the newest file of every producer, in any listing order |
| `Analytics.RunQuery` | internal/analytics/archive.go:451-536 | a valid query answers if and only if no day has more than 128 producers and all days together at most 4096 files; then every bucket and the total are the saturated exact sums over the newest snapshots |

## Where code and documentation differ

- A proposal passes the worker's test while its writer has not failed and the node leads some term; the term that
  Raft then stamps it with is not compared with the proposal's. After a quick re-election an acknowledged write can
  therefore be committed and refused. `LocalAckRefused` is such a run; `PredictionsHold` says exactly when it happens,
  and `PolicyNeverRolledBack` that nothing but content is lost.
- The comment on local acknowledgement speaks of content changes in general. A change of the stored
  generation is not among the fields it lists, and pool records are protected, so with measured storage every
  reservation and every activation waits for replication (`ActivationIsContent`, `PublicationReplicates`).
- `Ordering.Search` and the index methods follow the code, which searches the list and then sorts it again; the
  result is the same list.
- The recovery request itself is not preceded by a sample of the ticker: the evaluation that
  `performRecovery` repeats counts as the last of the 41 samples, so `PerformRecovery` states at least 40 ticks
  and one evaluation, and every gap check separately.

## Left out

- Raft itself, elections and the real-time lease argument: only their contract is used.
- Voter scaling, enrollment and membership changes: their safety rests on Raft's rule for single-server changes and on network probes.
- The Firestore repository: an older copy of the same rules.
- The allocation of content without a manifest and the schema 1 to 2 migration worker: pools may start with a legacy reserve, which the totals carry along.
- Session, key and ticket authorization: an actor is a verified identity.
- Format checks of identifiers beyond their length, and the agent upload tickets.
- Owner listings, revision listings, unlock budgets, sessions and grants in the maintenance scan: they only read or only delete expired records.
- Storage-pool workers, caches and fetch scheduling; file installation, fsync, mounts and sandboxing.
- HTTP handlers, cookies, OAuth, certificates, encryption and encodings.
- The sweep that accounts for files replicated from outside, read budgets in bytes, the result cache and the update time of a page-view query.
- Recovery.RecoveryManager.Tick: the sample carries its plan; how answers become a plan is `Evaluate`, and the network probes that produce the answers are parameters.
