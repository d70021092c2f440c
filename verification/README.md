# Interocitor sync engine: a verified model

Interocitor keeps tables of rows on several devices in step through a passive mailbox: a
folder of change files that every device can list, read and write, and no server code. This
project models that engine and proves what it promises, together with the two state machines
that guard the mesh credentials and the helper that lets several copies of a module share
state.

Functions and methods are named as in the TypeScript sources; the engine's methods (`putNow`,
`doFlush`, ...) are those of `packages/core/src/core/sync-engine.ts`.

| file | what it holds |
|---|---|
| `Hlc`, `HlcText`, `Digits` | the hybrid logical clock, its text form and comparison, change file names |
| `Merge`, `Tables`, `Exactness` | last-writer-wins merging, in place and as a function; when order cannot matter |
| `WritePath`, `Batch`, `Replica`, `Engine` | local writes and what their batches replay to, one device as a value, and the engine's fields and loops tied to it |
| `Retention` | the offline limit |
| `Protocol`, `Invariant`, `InvariantRemote` | any number of devices, the mailbox, compaction and clean-up as one transition system, and its invariant |
| `CompactionRun` | a compaction as a sequence of remote calls, tied to the protocol |
| `Convergence`, `Conservation`, `ClockDominance` | convergence and recovery; where committed ops are kept; clocks over runs |
| `CapturedRows` | when a captured snapshot is made of published changes only |
| `Scenarios`, `Limits` | runs in which a guarantee stops |
| `Ledger`, `Pull`, `Lock`, `QueryCache` | the change ledger, pulling, promise-tail locks, the query cache |
| `Base58` | the text form of mesh keys |
| `Aead`, `Passphrase`, `PassphraseCallers`, `Envelope` | ideal encryption, the passphrase key provider and its callers, the enveloped credential store |
| `Realm` | agreement of module copies on one host object |

The main theorems quantify over whole runs. `Protocol.Enabled` says what the program can do.
`Protocol.Careful` says what the guarantees need beyond that, in four cases:

- a put or delete carries a stamp that supersedes its row and that no op carries yet;
- a local store is replaced only when no batch is open and every queued change is published or
  quarantined;
- everything a compactor has queued or set aside is published, and it has seen what the current
  snapshot covers;
- a check of snapshots deletes neither the current snapshot nor a candidate.

`InvariantRemote.RunKeepsInv` covers every interleaving of every device's careful steps with a
compaction that can stop anywhere; `Convergence` and `Conservation` draw convergence, recovery and
conservation from it. `ClockDominance` shows that the first case holds by itself whenever received
stamps are within the drift window and a clock that replaces the one the next write starts from
covers its device. `Limits` holds, for each case and both halves of the third, a run of the program
that violates it and loses the guarantee.
`Pull.PullIsProtocolPull`, `Engine.FlushIsProtocolRun`, `CompactionRun.RemoteStore.Compact` and the
methods of `Engine.Engine` connect the loops of the program to the steps of that system.

Some promises turned out to be false of the code as it stands. Each has a concrete input and
the exact condition under which it holds:

- Deterministic convergence regardless of arrival order (README.md, lines 138-139) holds as
  agreement, not as equality of rows, once there are deletes: `Merge.StaleColumnsDependOnOrder`,
  `Exactness.OneOutcomeIff`.
- "Only then may snapshot replacement clear local state" (packages/core/docs/compaction.md, lines
  393-395): a flush returns silently while remote access is paused, the restore goes on, and queued
  changes are gone. `Limits.PausedRestoreDropsQueue`, `Engine.Engine.FlushAndRehydrate`,
  `Conservation.ReplacingStoreKeepsOpsIff`.
- "Keep during publication" and "never delete it during cleanup" (packages/core/docs/compaction.md,
  lines 106-107): every connected device of a managed mesh deletes the snapshots that the manifest it
  has loaded does not name. `Limits.CleanUpLosesChange`, `Convergence.SweepIsCarefulIff`,
  `CompactionRun.CurrentSurvivesCleanUpIff`.
- Compaction by a device that has not caught up with the current snapshot loses what only that
  snapshot holds: `Limits.StaleCompactorLosesChange`, `Convergence.CaptureStandsForAllIff`.
- "All queued changes are authoritative before pull/capture can publish a snapshot"
  (packages/core/src/core/sync-engine.ts, lines 3780-3781): a flush that sets expired changes aside
  or returns because remote access is paused publishes nothing, and the compaction captures them.
  `Limits.UnpublishedCaptureInventsRow`, `CapturedRows.CaptureIsPublishedIff`,
  `CapturedRows.CapturedRowsStandIff`.
- "Local-only records that snapshot replacement must not erase"
  (packages/core/src/core/compaction.ts, line 209): a process that dies right after the clearing has
  erased the quarantine, and at no other point of a restore: `Engine.Engine.RestoreSnapshot`.
- A local write is the merge of its own op exactly if its stamp supersedes the row. Snapshots
  captured with the clock from before the compaction's own pull, restores that adopt that clock,
  and interrupted pulls break it, up to two caught-up devices that disagree and a pull that throws:
  `Limits.LaggingRestoreForksRow`, `Limits.ReissuedStampMakesPullThrow`,
  `WritePath.PutRefinesMergeIff`, `ClockDominance.SnapshotClockCoversIff`, `ClockDominance.CoversIff`,
  `Limits.RestoredClockPassesIff`.
- A put without fields over a tombstone, or of a new row, publishes nothing:
  `WritePath.EmptyPutForks`, `WritePath.EmptyPutRefinesIff`.
- Having seen every listed file is not having seen everything, below the current epoch; the
  connect fast path does not look at the epoch: `Limits.StaleEpochHidesChanges`,
  `Convergence.NothingMissingIff`.
- The ledger's generation never decreases, except when the store is emptied behind its back or
  a restore fails on a foreign name: `Ledger.WipeRevivesStaleHandle`,
  `Ledger.GenerationFallsIffErased`.
- `load` documents null as absent only; an authentic plaintext of another shape also reads as
  null: `Envelope.ForeignPlaintextReadsAsAbsent`, `Envelope.NullIff`, `Envelope.LoadReturnsLastSave`.
- `unlock` is outside the provider's single flight: `Passphrase.RacingProvisioningsDiverge`,
  `PassphraseCallers.ProvisioningReplacesIff`, `PassphraseCallers.GetKeyNeverReplaces`.
- "`decrypt` never invents a key" (packages/web/src/passphrase-envelope.ts, line 617): calls share a
  resolution whatever their purpose: `PassphraseCallers.JoinedCallsMixPurposes`,
  `PassphraseCallers.JoiningDecidesIff`.
- "An answer must never change under a caller that is holding it"
  (packages/web/src/shared-global-state.ts, line 30): an answer of undefined is looked up again:
  `Realm.UndefinedAnswerChanges`, `Realm.AnswerFixedIff`.

Flushing an expired device sets its changes aside but leaves their effects in its rows until the
store is replaced; the model tracks them as `stranded`, and a device does not count as caught up
while it has any.

What the model takes for granted: the default merge strategy; non-empty published upserts; one
compaction at a time; and the store lock, which keeps a device from writing during its own
compaction or restore.

`dafny verify dfyconfig.toml` checks the project.

## Model

| member | source | states |
|---|---|---|
| Hlc.ClockSafety | packages/core/src/core/hlc.ts:16-49 | Over any run of `hlcNow` ticks and `hlcReceive` receives under any wall clock, even one that runs backwards: (timestamp, counter) strictly increases, each receive passes every remote stamp within the drift window, and the timestamp never exceeds its start or the greatest wall time plus 300000. |
| Hlc.ReceivePassesRemoteIffWithinReach | packages/core/src/core/hlc.ts:32-49 | `hlcReceive` ends above the remote stamp if and only if that stamp is not past both the clock and five minutes from the wall clock. |
| Hlc.NextIsAhead | packages/core/src/core/hlc.ts:23-49 | Each single tick or receive moves the clock strictly forward and keeps its node id. |
| Hlc.ClockAdvancesLeast | packages/core/src/core/hlc.ts:23-49 | No stamp that would do comes before the one a tick or a receive gives; a remote stamp out of reach moves the clock to the end of the drift window, or by one if it is there already. |
| Hlc.ClockIncreases | packages/core/src/core/hlc.ts:23-49 | Any later clock of a run is strictly ahead of any earlier one. |
| Hlc.ClockIsBounded | packages/core/src/core/hlc.ts:16-49 | The clock stays within the drift allowance of the greatest wall time seen. |
| Hlc.TotalOrder | packages/core/src/core/hlc.ts:52-58 | `hlcCompare` is a strict total order on stamps, ties broken by node id. |
| HlcText.FormatMeans | packages/core/src/core/hlc.ts:84-89 | What `hlcSerialize` writes, read digit by digit: the timestamp in at least fifteen decimal digits, the counter in at least four lower-case hexadecimal ones, exactly so many while they fit, and the node id. |
| HlcText.ParseFormat | packages/core/src/core/hlc.ts:84-100 | `hlcParse(hlcSerialize(x)) = x` for every stamp, also when the node id contains dashes. |
| HlcText.DashesIffNarrow | packages/core/src/core/hlc.ts:71-81 | The dash test of `hlcCompareStr` recognises exactly the stamps of standard width (15 decimal, 4 hexadecimal digits). |
| HlcText.TextOrderIsClockOrder | packages/core/src/core/hlc.ts:62-79 | Within the standard widths, comparing stamp texts is comparing stamps. |
| HlcText.FastCompareRefines | packages/core/src/core/hlc.ts:52-100 | `hlcCompareStr(hlcSerialize(x), hlcSerialize(y))` has the sign of `hlcCompare(x, y)` for all stamps, past the standard widths included. |
| HlcText.RawCompareFailsWhenWide | packages/core/src/storage/memory-store.ts:160-170 | A concrete pair for which comparing stamp texts directly, as `commitLocalMutation` does, gives the wrong order: a counter of 65536. |
| HlcText.FileNameRoundTrip | packages/core/src/core/change-observation.ts:113-120 | `changeFileHlc(changeFileName(change))` gives the stamp back, even when the node id contains the marker `-chg_`. |
| HlcText.SortFollowsClock | packages/core/src/core/change-observation.ts:122-133 | `compareChangeFiles` on the names of two change files is negative, positive, or the comparison of the names, as the first stamp is older, newer, or the same. |
| Pull.BeforeIsCompareNames | packages/core/src/core/change-observation.ts:122-133 | The order in which a pull sorts change files is the sign of `compareChangeFiles` on their names. |
| Base58.AlphabetIff | packages/core/src/crypto/encryption.ts:32 | The alphabet holds exactly the digits and ASCII letters other than 0, O, I and l, in ascending order, 58 in all. |
| Base58.EncodeKey | packages/core/src/crypto/encryption.ts:34-55 | The loops of `base58Encode` produce the specified encoding. |
| Base58.EncodeMeans | packages/core/src/crypto/encryption.ts:34-55 | An encoding is one 1 for every zero byte the bytes begin with, and then the number of all the bytes in base 58 without a leading 1. |
| Base58.DecodeKey | packages/core/src/crypto/encryption.ts:68-91 | The loops of `base58Decode` over a fixed buffer produce the specified decoding: the unknown-character and the more-than-32-bytes error included. |
| Base58.DecodeFailsIff | packages/core/src/crypto/encryption.ts:68-91 | Decoding fails if and only if a character is outside the alphabet, or else the number needs more than 32 bytes, each with its own error. |
| Base58.ImportRefusesIff | packages/core/src/crypto/encryption.ts:303-318 | A text is refused with the error that fits: empty, a character outside the alphabet, too long, or decodable but not the encoding of any key. |
| Base58.DecodeEncode | packages/core/src/crypto/encryption.ts:34-91 | For every 32-byte key, `base58Decode(base58Encode(key)) = key`: leading zeros and the all-zero key included. |
| Base58.ImportAcceptsExactlyEncodings | packages/core/src/crypto/encryption.ts:303-318 | `passphraseToKey` accepts a trimmed text as a key if and only if the text is the encoding of that key. |
| Merge.ApplySettles | packages/core/src/core/crdt.ts:142-218 | Each op applied by `applyOp` turns a row that is a correct merge of a history into a correct merge of the history with that op, and never throws while one (row, field, stamp) carries one value. |
| Merge.ReplaySettles | packages/core/src/core/crdt.ts:142-236 | Replaying any sequence of ops from nothing gives a correct merge of their set. |
| Merge.OrderInsensitive | packages/core/src/core/crdt.ts:98-236 | Any two sequences over the same set of ops, with repeats, replay without throwing and agree on liveness, tombstone clock and every column that no delete has overtaken. |
| Merge.SettledAgree | packages/core/src/core/crdt.ts:142-218 | Two correct merges of one history agree. |
| Merge.DeleteDecides | packages/core/src/core/crdt.ts:142-218 | The closed form of the outcome: a tombstone at the newest delete iff that delete is at or above every column stamp; otherwise a live row in which every field whose newest cell beats the delete holds exactly that cell. |
| Merge.UpsertsConvergeExactly | packages/core/src/core/crdt.ts:180-218 | Histories without deletes give identical rows in every order. |
| Merge.NeverThrowsIffFunctional | packages/core/src/core/crdt.ts:98-122 | No order of a history throws if and only if each (row, field, stamp) carries one value. |
| Merge.StaleColumnsDependOnOrder | packages/core/src/core/crdt.ts:192-205 | A concrete history with a delete whose rows differ by arrival order, against the claim of deterministic convergence regardless of arrival order. |
| Exactness.OneOutcomeIff | packages/core/src/core/crdt.ts:142-218 | The exact condition: a history leaves one and the same row in every order and with every repetition iff no surviving row has a column whose newest cell is at or below the newest delete and is not carried by two upserts that also carry a newer column. |
| Exactness.AlwaysKept | packages/core/src/core/crdt.ts:192-215 | A cell carried by two such upserts is in the row whatever the order. |
| Exactness.KeptWhenDeletesComeLast | packages/core/src/core/crdt.ts:153-178 | With the deletes applied last, every field of a surviving row holds its newest cell. |
| Exactness.LostWhenCarriersComeEarly | packages/core/src/core/crdt.ts:192-205 | With the deletes and the carriers of a stale cell applied first, the cell is gone. |
| Tables.MergeFields | packages/core/src/core/crdt.ts:207-215 | The in-place loop of `mergeColumn`: merges exactly the newer cells, reports a change iff one happened, and stops iff a stamp carries two values. |
| Tables.Tables.Apply | packages/core/src/core/crdt.ts:142-218 | `applyOp` on the tables map, in place: the new map is the merge of the old one and the op, other rows untouched, and the row is reported iff it changed. |
| Tables.Tables.ApplyChange | packages/core/src/core/crdt.ts:224-236 | `applyChangeEntry`: all ops of a change in order, listing exactly the rows of the ops that changed one, in order. |
| WritePath.RowHlc | packages/core/src/core/sync-engine.ts:1420-1427 | `getRowHlc` returns the newest stamp of a row, and none exactly for a row without stamps. |
| WritePath.PutIsRead | packages/core/src/core/sync-engine.ts:524-552 | After a put every field put holds its value under the new stamp, and every other field is what the live row had, or absent if the row was deleted. |
| WritePath.PutRefinesMergeIff | packages/core/src/core/sync-engine.ts:513-566 | The row `putNow` keeps equals the row that `applyOp` makes of its published op, if and only if the new stamp supersedes what it overwrites. |
| WritePath.EmptyPutRefinesIff | packages/core/src/core/sync-engine.ts:554-561 | A put without fields keeps what others will hold if and only if the row exists and is live. |
| WritePath.EmptyPutForks | packages/core/src/core/sync-engine.ts:554-561 | A put without fields over a tombstone revives the row locally and publishes nothing. |
| WritePath.DeleteRefinesMergeIff | packages/core/src/core/sync-engine.ts:568-597 | The tombstone `deleteNow` keeps equals the merge of its own op if and only if no column is newer than the stamp. |
| WritePath.CommitKeepsBounded | packages/core/src/storage/memory-store.ts:160-170 | Every pending batch carries a stamp at or above every stamp in its ops; the order of its ops is in `Batch.QueueReplays`. |
| Batch.QueueReplays | packages/core/src/storage/memory-store.ts:160-183 | For any run of puts, deletes and batch ends of a device whose stamps supersede: replaying the queued changes in their order and then the open batch, over the rows from the beginning, gives exactly the rows the device now holds, overtaken columns included. |
| Batch.BatchReplays | packages/core/src/storage/memory-store.ts:160-170 | The same for one open batch over the rows from when it was opened, with one op for each write. |
| Batch.QueueTravels | packages/core/src/core/pull.ts:131-155 | A device that held the same rows and folds those changes in their order holds exactly the same rows again. |
| Batch.DeletedColumnStaysAway | packages/core/src/core/crdt.ts:192-205 | Put, delete and put again in one change: the deleted column is in nobody’s row. |
| WritePath.RefillRoundTripIff | packages/core/src/core/sync-engine.ts:1116-1134 | Turning every local row into an op and replaying those ops in any order, with repeats, rebuilds every payload, tombstone flag and tombstone clock, if and only if no live row is empty. |
| InvariantRemote.StepKeepsInv | packages/core/src/core/sync-engine.ts:3588-3814 | Every careful step of the system keeps the invariant of devices, mailbox and compaction. Careful asks four things the program does not check: a write supersedes its row under an unused stamp; a store is replaced only when nothing queued is lost; everything a compactor has queued or set aside is published, and it has seen what the current snapshot covers; a clean-up spares the current snapshot and a candidate. |
| InvariantRemote.RunKeepsInv | packages/core/src/core/sync-engine.ts:3588-3814 | Every interleaving of careful steps by any number of devices over one mailbox keeps that invariant: rows are a correct merge of exactly the folded files and the own pending ops, and nothing committed is lost. |
| Convergence.CaughtUpDevicesAgree | packages/core/src/core/sync-engine.ts:3588-3722 | In every state of every careful run, two devices with empty queues, at the current epoch, that have seen every listed file agree. |
| Convergence.CaughtUpDeviceIsReplay | packages/core/src/core/sync-engine.ts:3588-3722 | In every careful run, a caught-up device agrees with replaying every op ever published, in any order. |
| Convergence.NothingMissingIff | packages/core/src/core/sync-engine.ts:2700-2745 | In every careful run, a quiet device that has seen every listed file has folded everything ever published if and only if it has folded the files the current snapshot covers. |
| Convergence.PullNeverThrows | packages/core/src/core/pull.ts:131-183 | In every careful run, folding any listing of the mailbox never meets two values under one stamp. |
| Convergence.RecoveryLosesNothing | packages/core/src/core/compaction.ts:112-289 | In every careful run and at every crash point of a compaction, a fresh device that follows the pointer, restores the snapshot and folds the listed files agrees with folding every change ever published. |
| Convergence.CaptureStandsForAllIff | packages/core/src/core/compaction.ts:112-147 | `compact` does not compare epochs: its snapshot covers exactly the files in its ledger and those listed when it pulled, and these are, with the listed files, all that was published if and only if it has seen what the current snapshot covers. |
| CapturedRows.CaptureIsPublishedIff | packages/core/src/core/sync-engine.ts:3775-3814 | After any careful run, the rows a compaction captures are a correct merge of what it has folded, and that is published to the last op if and only if every change the compactor has queued or set aside is published. |
| CapturedRows.CapturedRowsStandIff | packages/core/src/core/sync-engine.ts:3775-3814 | The captured rows are a correct merge of the published changes among them if and only if a published change carries every stamp in the rows and no unpublished delete has removed a published cell. |
| CapturedRows.PartIsSettledIff | packages/core/src/core/crdt.ts:142-218 | For any ops and any part of them: rows that merge all of them correctly merge the part correctly if and only if the part carries every stamp in the rows and no delete outside it has removed a cell. |
| Convergence.SweepIsCarefulIff | packages/core/src/core/sync-engine.ts:3256-3300 | The clean-up `pruneSupersededSnapshots` by any device of a managed mesh spares the current snapshot and a candidate if and only if the manifest it loaded is still current and no candidate is waiting for the pointer. |
| Conservation.CommittedOpsAreKept | packages/core/src/core/sync-engine.ts:3588-3662 | In every careful run, each op ever committed is in the pending batch, the outbox, a mailbox file, under the current snapshot, or in the quarantine. |
| Conservation.RunKeepsOpsOnce | packages/core/src/core/sync-engine.ts:605-634 | In every careful run no op is committed twice: every change has ops, and no op is in two changes, two batches or both. |
| Conservation.LeavesOutboxUnsafelyIff | packages/core/src/core/sync-engine.ts:3588-3763 | In any state whatever, a change leaves the outbox without being published or quarantined if and only if the store is replaced under it. |
| Conservation.ReplacingStoreKeepsOpsIff | packages/core/src/core/sync-engine.ts:3731-3763 | After any careful run, replacing a store keeps every op the device ever committed if and only if no batch is open and every queued change is in the mailbox, covered, or quarantined. |
| CompactionRun.RemoteStore.Compact | packages/core/src/core/compaction.ts:149-192 | `compact` after its pull, with `pruneSupersededSnapshots`: stopped after any number of remote calls and with any clean-up deletions failing, the mailbox is what a run of protocol steps leaves; the pointer moves only after snapshot and manifest are written; and one that is not stopped leaves of the covered files and the other snapshots exactly those whose deletion failed. |
| CompactionRun.RemoteStore.Publish | packages/core/src/core/compaction.ts:149-181 | Snapshot, manifest and pointer are written in that order, and stopping between them leaves pointer and change files alone. |
| CompactionRun.RemoteStore.DropCovered | packages/core/src/core/compaction.ts:185-190 | The deletion of covered change files, each of which may fail: of the files attempted before the process stopped, exactly the others go. |
| CompactionRun.RemoteStore.CleanSnapshots | packages/core/src/core/compaction.ts:63-110 | The loops of `pruneSupersededSnapshots` for both its callers: of the listed snapshots other than the one its manifest names, those attempted and not failing go, and nothing else. |
| CompactionRun.DeviceCleans | packages/core/src/core/sync-engine.ts:3272-3290 | A check of snapshots by a device that does not compact is a run of the protocol that deletes exactly what its loaded manifest did not name. |
| CompactionRun.CurrentSurvivesCleanUpIff | packages/core/src/core/sync-engine.ts:3272-3290 | After such a check the current snapshot is still there if and only if the manifest the device had loaded is still the current one. |
| CompactionRun.StoppedCompactionIsCareful | packages/core/src/core/compaction.ts:149-192 | The steps of a compaction after its capture need no further care, so recovery, convergence and conservation apply wherever it stops. |
| ClockDominance.RunKeepsDominated | packages/core/src/core/sync-engine.ts:506-597 | In every disciplined run the clock that the next write starts from reaches everything in its device and every stamp the device ever issued, and puts and deletes meet the conditions of a careful run by themselves. Disciplined: received stamps are within the drift window; an interrupted pull folds nothing above that clock; and whenever that clock is replaced by a restart, by a restore, by an emptied store or by a pull that saves a lower one, the new one covers the device. |
| ClockDominance.DisciplinedIsCareful | packages/core/src/core/sync-engine.ts:506-597 | One step of that: nothing has to be asked of writes. |
| ClockDominance.DisciplinedDevicesConverge | packages/core/src/core/sync-engine.ts:3588-3763 | In every disciplined run, restores that bring files above the snapshot’s clock and crashes included, caught-up devices agree and no pull throws, with no condition on writes. |
| ClockDominance.PlainRunsAreDisciplined | packages/core/src/core/sync-engine.ts:1444-1458 | Where no store is replaced and every pull completes, the drift window is the only condition on clocks: crashes need none. |
| ClockDominance.CoversIff | packages/core/src/core/sync-engine.ts:506-511 | A clock covers a device with no open batch if and only if it reaches every stamp in its rows and every stamp the device ever issued. |
| ClockDominance.LocalWritesRefineMerge | packages/core/src/core/sync-engine.ts:513-597 | In every disciplined run the next put and delete of a device that is not in the middle of a restore leave exactly the row that merging their own op gives. After a restore the next write starts from the later of the snapshot’s clock and the saved one, and that is the clock which has to cover. |
| ClockDominance.RowsUpToIff | packages/core/src/core/crdt.ts:142-218 | A clock reaches every stamp in settled rows if and only if it reaches every op behind them. |
| ClockDominance.SnapshotClockCoversIff | packages/core/src/core/compaction.ts:112-147 | `compact` captures its clock before its own pull: that clock reaches the captured rows if and only if it reached the rows the device had and the pull brings nothing ahead of it. |
| ClockDominance.EmptiedStoreCoveredIff | packages/core/src/core/sync-engine.ts:1560-1573 | After any careful run, emptying a store clears the saved clock: the next write starts from the running clock, which covers the device if and only if it reaches every stamp the device ever issued; a process that restarts right then starts from the wall clock. |
| ClockDominance.RestoreEndsCoveredIff | packages/core/src/core/compaction.ts:226-289 | After any careful run, a restore with its own pull ends covered if and only if the clock the next write starts from reaches the rows of the snapshot; whatever the pull brought is covered, and a snapshot whose clock reaches its own rows always qualifies. |
| Limits.LaggingCaptured | packages/core/src/core/compaction.ts:112-147 | A concrete compaction whose snapshot clock is below its rows. |
| Limits.LaggingRestoreForksRow | packages/core/src/core/compaction.ts:250-289 | A concrete run in which a device restores such a snapshot and writes, and two caught-up devices disagree. |
| Limits.ReissuedStampMakesPullThrow | packages/core/src/core/compaction.ts:250-289 | A concrete run in which a restored device issues a stamp again and pulling its changes throws. |
| Limits.PausedRestoreDropsQueue | packages/core/src/core/sync-engine.ts:3588-3738 | A concrete run in which a write is queued, remote access is paused, the device restores a snapshot, and the committed op is nowhere any more. |
| Limits.StaleCompactorLosesChange | packages/core/src/core/compaction.ts:112-193 | A concrete run in which a device below the current epoch compacts and a published change is lost. |
| Limits.UnpublishedCaptureInventsRow | packages/core/src/core/sync-engine.ts:3775-3814 | Two concrete runs, one with an expired device and one with paused remote access, in which a device compacts with an unpublished change: nothing was ever published, and a fresh device recovers a row. |
| Limits.CleanUpLosesChange | packages/core/src/core/sync-engine.ts:3272-3290 | A concrete run in which a check of snapshots by another device deletes the candidate of a compaction and a published change is lost. |
| Limits.RestoredClockPassesIff | packages/core/src/core/compaction.ts:250-289 | The first write after a restore is always stamped above the old clock. After one more pull, whatever both pulls bring, that is so if and only if the wall clock passed the old clock or the clock the second pull ended with, which started from the snapshot’s, has reached it. |
| Limits.InterruptedPullOutrunsClock | packages/core/src/core/pull.ts:131-192 | A pull that stops halfway leaves rows above the clock it never saved. |
| Limits.StaleEpochHidesChanges | packages/core/src/core/sync-engine.ts:2386-2469 | A concrete run in which a device below the current epoch has seen every listed file and still misses a published change. |
| Engine.Engine.RefreshHlcFromLocal | packages/core/src/core/sync-engine.ts:506-511 | Before a write the engine adopts a later clock from the local store under its own node id. |
| Engine.Engine.PutNow | packages/core/src/core/sync-engine.ts:513-566 | `putNow` on the fields of engine and store is the write transition of the protocol, the case without an op included. |
| Engine.Engine.DeleteNow | packages/core/src/core/sync-engine.ts:568-597 | `deleteNow` is the erase transition on live rows and only refreshes the clock otherwise. |
| Engine.Engine.FlushPendingBatch | packages/core/src/core/sync-engine.ts:3081-3104 | `flushPendingBatch` queues the pending batch, if there is one, and nothing else. |
| Engine.Engine.QuarantineExpired | packages/core/src/core/sync-engine.ts:1464-1542 | `quarantineExpiredOfflineWrites` sets every queued change aside, the open batch included, if and only if the recorded sync time is unreadable or now is past it plus the limit. |
| Engine.Engine.ObserveBeforePublishing | packages/core/src/core/change-observation.ts:309-321 | `recordFlushedChanges` records every queued change as seen before any file is written. |
| Engine.Engine.Flush | packages/core/src/core/sync-engine.ts:3588-3662 | `doFlush`: nothing while remote access is paused or nothing is queued, and nothing when the manifest cannot be loaded; expired work is set aside; otherwise files are written up to the failure, entries leave the outbox only if all were written, the time is then recorded, and a denied write pauses remote access. On queue, quarantine and sync time it is the flush step of `Retention`. |
| Engine.Engine.MarkSuccessfulRemoteSync | packages/core/src/core/sync-engine.ts:1575-1578 | Records the time of a completed pull or flush. |
| Retention.FlushSetsAsideIff | packages/core/src/core/sync-engine.ts:1464-1542 | Over every run of writes, clock moves, pulls and flushes, with a recorded sync time and a limit of at least 0: a flush sets all that is queued aside, the open batch included, and sends nothing, if and only if now is past that time plus the limit; otherwise it sets nothing aside, and sends the queue and records the time if the mailbox takes it. |
| Retention.LastIsLatestSync | packages/core/src/core/sync-engine.ts:1575-1578 | Over every run the recorded time is that of the latest completed pull or publishing flush, or the first one if there was none. |
| Retention.JustSyncedIsNeverSetAside | packages/core/src/core/sync-engine.ts:1464-1479 | A device that has just synced is never set aside, nor one without a recorded time; one whose time is unreadable sends nothing. |
| Retention.ExpiredStaysSo | packages/core/src/core/sync-engine.ts:3614-3618 | An expired device sends nothing, whatever it writes and however often it flushes while the clock does not move back, until a pull completes. |
| Engine.Engine.Publish | packages/core/src/core/flush.ts:159-184 | `flushPrimary`: the queue is recorded as seen, written, and acknowledged only if all of it was written. |
| Engine.Engine.RestoreSnapshot | packages/core/src/core/compaction.ts:226-260 | The store replacement of `rehydrate`, stopped before any of its local writes: complete, it is the restore transition of the protocol; stopped after the clearing it leaves the tables written so far and neither ledger nor epoch, and no quarantine or no sync time if it stopped before putting that back; stopped before its last write it lacks the epoch only. |
| Engine.LocalStore.ReplaceRows | packages/core/src/core/compaction.ts:235-249 | Clearing, preserved records and rows table by table, with what each stopping point leaves. |
| Engine.Engine.FlushAndRehydrate | packages/core/src/core/sync-engine.ts:3731-3763 | `flushAndRehydrateNow`: a failing flush stops it with the queue intact; after one that ran, everything queued is in the mailbox or quarantined, unless the process dies right after the clearing; while remote access is paused the queue goes with the store and nothing is written anywhere. |
| Engine.Mailbox.WriteChanges | packages/core/src/core/flush.ts:34-156 | `flushToAdapter` writes a prefix when it fails, and on success leaves the head at or above every written stamp and never moves it back. |
| Engine.LocalStore.CommitLocalMutation | packages/core/src/storage/memory-store.ts:160-170 | `commitLocalMutation` changes row, batch and stored clock together and nothing else. |
| Engine.LocalStore.AcknowledgeOutbox | packages/core/src/storage/memory-store.ts:198-202 | `acknowledgeOutbox` removes exactly the entries with the given ids. |
| Engine.AcknowledgeDropsFlushed | packages/core/src/core/sync-engine.ts:3646 | Acknowledging a flush drops exactly the flushed changes, also when more were queued meanwhile. |
| Engine.FlushIsProtocolRun | packages/core/src/core/flush.ts:49-64 | A flush stopped after any number of files is a run of protocol steps with the same mailbox and device. |
| Engine.CompletedFlushMayAcknowledge | packages/core/src/core/sync-engine.ts:3628-3646 | Once all files are written the protocol permits the acknowledgement. |
| Ledger.Handle.Observe | packages/core/src/core/change-observation.ts:211-246 | `observe` on the fields of a handle, with its late-change report. |
| Ledger.Handle.Persist | packages/core/src/core/change-observation.ts:248-279 | `persist` writes the union of handle and record, and writes nothing when the generation moved on. |
| Ledger.Store.RestoreSnapshot | packages/core/src/core/change-observation.ts:281-306 | `restoreSnapshot` writes a new generation with the covered files, and leaves the store without a record when it meets a name it cannot read. |
| Ledger.RestoredRecordMeans | packages/core/src/core/change-observation.ts:281-306 | A restored record is of the next generation, has seen exactly the covered files, and its high water is the latest of the snapshot’s clock and their stamps. |
| Ledger.PersistUnitesIff | packages/core/src/core/change-observation.ts:248-279 | Persisting unites what the handle and the store have seen and keeps the later high water if and only if both are of one generation; otherwise it leaves the store alone. |
| Ledger.SaveThenLoad | packages/core/src/core/change-observation.ts:148-161 | A handle that was saved is loaded as it was, with exact history; without a record there is none. |
| Ledger.Store.Reset | packages/core/src/core/change-observation.ts:163-173 | `reset` starts the next generation with nothing seen. |
| Ledger.RunKeepsTracked | packages/core/src/core/change-observation.ts:139-306 | Over all interleavings of load, observe, persist, reset, clear, restore and raw wipes, each writer frontier in the store and in every handle is the greatest file-name stamp among that writer’s seen files. |
| Ledger.FrontiersAreDetermined | packages/core/src/core/change-observation.ts:238-245 | The seen files determine the frontiers. |
| Ledger.LateIffOvertaken | packages/core/src/core/change-observation.ts:211-236 | A file is reported behind its writer’s frontier iff a file of that writer that is not older was already seen, and behind the high water iff none was and the high water is not older. |
| Ledger.GenerationFallsIffErased | packages/core/src/core/change-observation.ts:163-186 | The generation decreases if and only if a step erases a record that had one. |
| Ledger.RunExtends | packages/core/src/core/change-observation.ts:163-306 | Without erasing steps the generation never decreases, and within a generation seen files only grow and frontiers only advance. |
| Ledger.StaleHandleNeverWrites | packages/core/src/core/change-observation.ts:248-251 | A handle that has fallen behind never writes again, however the run goes on. |
| Ledger.PersistedObservationsAreKept | packages/core/src/core/change-observation.ts:248-279 | No persisted observation is lost within its generation. |
| Ledger.RunKeepsNoneAhead | packages/core/src/core/change-observation.ts:148-161 | No handle is ever ahead of the store. |
| Ledger.RunKeepsBelowHigh | packages/core/src/core/change-observation.ts:241-269 | The high water never lags behind a seen file. |
| Ledger.WipeRevivesStaleHandle | packages/core/src/core/sync-engine.ts:1560-1573 | The raw `local.clearAll()` of `resetExpiredClientFromRemote` restarts the generations: a concrete run in which a stale handle then writes. |
| Pull.QueueExact | packages/core/src/core/pull.ts:109-120 | The queue of `pull` holds exactly the unseen change files of the listing, whatever its order and duplicates, each once and in clock order. |
| Pull.BuildQueue | packages/core/src/core/pull.ts:115-120 | The filter loop of `pull` with its set of names. |
| Pull.FoldAhead | packages/core/src/core/pull.ts:121-183 | The four-ahead loop of `pull` folds what reading one file after the other would, awaits only started reads, starts each read once, and has at most five outstanding and, if it completes, five at some point unless there are fewer files. |
| Pull.PullFiles | packages/core/src/core/pull.ts:70-192 | One pull reads no file twice and none that is foreign or seen, and reads all unseen ones if it completes. |
| Pull.FailureLeavesPrefix | packages/core/src/core/pull.ts:131-183 | A pull that fails leaves the rows of exactly the files before the one it failed on. |
| Pull.SecondPullChangesNothing | packages/core/src/core/pull.ts:115-192 | After a completed, persisted pull an immediate second one reads no file and changes neither rows nor clock nor ledger. |
| Pull.TryFastPath | packages/core/src/core/sync-engine.ts:2386-2469 | `tryConnectFastPath` is taken exactly under its guards (manifest identity and encryption, ledger, retention, queue, head) with no unseen change listed. |
| Pull.FastPathSkipsNothing | packages/core/src/core/sync-engine.ts:2428-2436 | Whenever the fast path is taken, a pull over the same listing would merge nothing. |
| Pull.FastPathLeavesNothingBehind | packages/core/src/core/sync-engine.ts:2408-2414 | Nor would a flush, with or without closing the batch, send or set aside anything, and the device was in touch within the offline limit. |
| Pull.FoldMeansReplay | packages/core/src/core/pull.ts:131-183 | Folding file by file gives the same rows and clock as folding all ops at once. |
| Pull.PullIsProtocolPull | packages/core/src/core/pull.ts:70-192 | A completed pull over a full listing is the pull step of the protocol, with the same rows, clock and ledger. |
| Lock.MutualExclusion | packages/core/src/storage/memory-store.ts:80-94 | `withLock` and `withObservationWrite`: at most one section per name runs, over all arrivals and completions. |
| Lock.ArrivalOrder | packages/core/src/storage/memory-store.ts:80-94 | A section begins only after every earlier one under its name has ended. |
| Lock.NextCanBegin | packages/core/src/storage/memory-store.ts:80-94 | The next call in line is running or can begin, whatever sections failed before it. |
| Lock.EndReleasesNext | packages/core/src/storage/memory-store.ts:87-93 | Ending a section, by returning or by throwing, lets the call behind it begin. |
| Lock.TailGoneIffNobodyWaits | packages/core/src/storage/memory-store.ts:80-94 | A tail entry is absent if and only if nobody holds or waits for the name. |
| Lock.LockTable.Enter | packages/core/src/storage/memory-store.ts:80-87 | `withLock` up to its first await. |
| Lock.LockTable.Proceed | packages/core/src/storage/memory-store.ts:87-89 | A waiting call enters iff the promise it awaits is resolved. |
| Lock.LockTable.Leave | packages/core/src/storage/memory-store.ts:90-93 | The `finally` block of `withLock`, the same for a failing section. |
| QueryCache.ReadyRowsAreFresh | packages/core/src/core/sync-engine.ts:796-887 | Over runs of commits, events, queries and completions in any order, a ready entry equals a fresh evaluation of its descriptor whenever no committed change to its table still awaits its event. |
| QueryCache.NewestQuerySettles | packages/core/src/core/sync-engine.ts:844-859 | Over every run: settling the newest query of a descriptor leaves a ready entry with exactly its answer, or an error entry that keeps the rows it had if the query failed. |
| QueryCache.SettledQueryIsFresh | packages/core/src/core/sync-engine.ts:812-862 | A query that is read and settled as the newest of its descriptor, with no commit to its table in between, leaves a ready entry that equals a fresh evaluation, whatever events are still due. |
| QueryCache.AskStartsQueryIff | packages/core/src/core/sync-engine.ts:796-810 | Over every run: asking starts a query if and only if the caller bypasses the cache, nothing is cached, or the last query failed. |
| QueryCache.RowsStayUntilAnswered | packages/core/src/core/sync-engine.ts:834-842 | Stale rows stay visible: what an entry shows changes only when its own query settles with an answer. |
| QueryCache.OlderNeverOverwrites | packages/core/src/core/sync-engine.ts:844-859 | Once a newer query of the descriptor has been started, an older completion changes nothing. |
| QueryCache.EventRestartsQueries | packages/core/src/core/sync-engine.ts:1897-1905 | After the event of a change every cached query of its table is pending on a query started later. |
| QueryCache.QueryTable.RunQuery | packages/core/src/core/sync-engine.ts:812-871 | `runQuery` with its index by table. |
| QueryCache.QueryTable.LoadQueryRows | packages/core/src/core/sync-engine.ts:796-810 | `loadQueryRows` returns the promise of the pending or ready entry, or of the query it starts. |
| QueryCache.QueryTable.InvalidateTable | packages/core/src/core/sync-engine.ts:877-887 | The loop of `invalidateQueryCacheForTable`. |
| Passphrase.KeysAreAuthenticated | packages/web/src/passphrase-envelope.ts:631-757 | Over all interleavings, and whatever other tabs do to the record: each cached or returned key opened or sealed the verifier of a record that was stored at some point of that run, with the salt it is filed under and at least the configured work factor, in an activity that read or wrote that record and returned the key. |
| Passphrase.CacheServedIff | packages/web/src/passphrase-envelope.ts:631-645 | Over every run: a resolution is served from the cache if and only if the record it read is acceptable, a key is filed under its salt, and the last touch plus the idle timeout is still to come; it gets that key, and serving touches it. |
| Passphrase.ProvedKeyIsCached | packages/web/src/passphrase-envelope.ts:677-718 | The step in which an activity returns a key of its own caches it under the record’s salt and starts its idle time. |
| Passphrase.LockedUntilDerived | packages/web/src/passphrase-envelope.ts:566-572 | After a lock, over every run in which nothing is derived, no key is cached and none is returned. |
| Passphrase.ResolutionsAreSingleFlight | packages/web/src/passphrase-envelope.ts:622-629 | Two unfinished resolutions are one. |
| Passphrase.RetiredStartsAnew | packages/web/src/passphrase-envelope.ts:622-629 | Once a resolution is over the next call starts another, for its own purpose. |
| Passphrase.DecryptNeverCreates | packages/web/src/passphrase-envelope.ts:672-690 | No step of a resolution that was started to decrypt changes the stored record; what a call that joins it or another one gets is in `PassphraseCallers.JoiningDecidesIff`. |
| Passphrase.DecryptingRunsChangeNothing | packages/web/src/passphrase-envelope.ts:631-690 | Over any run of decrypting resolutions the stored record stays as it was. |
| Passphrase.DecryptingWithoutRecordNeverSucceeds | packages/web/src/passphrase-envelope.ts:631-690 | Over any run of decrypting resolutions with no record stored, no key is ever cached or returned, and every resolution that ends has ended in the missing-record error. |
| Passphrase.ProvisionedRecordOpensIff | packages/web/src/passphrase-envelope.ts:672-751 | A provisioned record opens with a phrase if and only if the phrase normalizes alike; any other is reported as wrong. |
| Passphrase.LoadsIff | packages/web/src/passphrase-envelope.ts:362-395 | A stored text loads as a record if and only if it is of this version and derivation, with a namespace, a plausible work factor and decodable salt and nonce; only absence loads as none. |
| Passphrase.ProvisionedRecordLoads | packages/web/src/passphrase-envelope.ts:362-405 | What provisioning stores loads as it was stored: the version, derivation, verifier text and associated data it writes are those that loading and unwrapping expect. |
| Passphrase.StoredRecordReopensIff | packages/web/src/passphrase-envelope.ts:559-751 | From any state in which a provisioned record is the stored one, over every run that leaves it stored: a later activity that was given a phrase and has ended returned the very key of the provisioning if and only if the phrase normalizes alike, and otherwise reported it as wrong or empty. |
| Passphrase.Base64UrlIff | packages/web/src/passphrase-envelope.ts:360 | Salts and nonces are texts over the URL-safe base 64 alphabet. |
| Passphrase.RecordAadInjective | packages/web/src/passphrase-envelope.ts:403-405 | The associated data pins down namespace, salt and work factor, even if the namespace contains the delimiter. |
| Passphrase.EditedRecordRefusesEveryPhrase | packages/web/src/passphrase-envelope.ts:396-405 | A relabelled record, or one with edited parameters, refuses every phrase. |
| Passphrase.RacingProvisioningsDiverge | packages/web/src/passphrase-envelope.ts:559-563 | Single flight does not cover `unlock`: a concrete race after which a key was returned whose record is no longer stored. |
| PassphraseCallers.CallersShareOutcome | packages/web/src/passphrase-envelope.ts:614-659 | Over every run: a call of `getKey` ends with the missing-record error if and only if the call that started its resolution was to decrypt and no record was found, and is handed a newly made key if and only if none was found and a key was returned, which takes a starting call to encrypt. |
| PassphraseCallers.JoiningDecidesIff | packages/web/src/passphrase-envelope.ts:614-659 | So a decrypting call is handed a newly made key if and only if it joined an encrypting one whose resolution found no record and returned, and an encrypting call is refused for want of a record if and only if it joined a decrypting one whose resolution found none. |
| PassphraseCallers.JoinedCallsMixPurposes | packages/web/src/passphrase-envelope.ts:614-629 | Concrete runs of both kinds, against the promise that decrypting never invents a key. |
| PassphraseCallers.ProvisioningReplacesIff | packages/web/src/passphrase-envelope.ts:631-718 | Over every run: provisioning writes over another record if and only if one was written, and not deleted again, between the read of the activity that provisions and its derivation. |
| PassphraseCallers.GetKeyNeverReplaces | packages/web/src/passphrase-envelope.ts:622-659 | So it never does in runs without `unlock` and without other tabs. |
| Passphrase.KeyProvider.Peek | packages/web/src/passphrase-envelope.ts:759-767 | Reading the cache drops an expired key. |
| Passphrase.KeyProvider.Touch | packages/web/src/passphrase-envelope.ts:769-780 | A touch moves the expiry to now plus the idle timeout. |
| Passphrase.KeyProvider.Store | packages/web/src/passphrase-envelope.ts:753-756 | Storing a key starts its idle time. |
| Passphrase.KeyProvider.LockKey | packages/web/src/passphrase-envelope.ts:566-572 | Locking drops the key and nothing else. |
| Passphrase.KeyProvider.ResolveWith | packages/web/src/passphrase-envelope.ts:631-647 | Between the arrival of the record and the prompt, a resolution fails, serves the cache or locks and asks. |
| Envelope.LoadReturnsLastSave | packages/web/src/credential-store.ts:546-680 | Over any run of saves, loads, clears, rotations that keep old keys, outages and foreign writes: after a save a load returns the saved key, device id and mesh id, the mesh id none if and only if it was none or empty, or while the provider fails its own coded error or else unavailable; and null means absent if and only if what is stored is not a foreign plaintext of another shape under a key of the provider. |
| Envelope.SaveWrapsUnderCurrentId | packages/web/src/credential-store.ts:546-574 | Each save seals under the current key id, with the derivation and the associated data written out, and loads back as it was saved; a save without a key changes nothing. |
| Envelope.NullIff | packages/web/src/credential-store.ts:585-598 | A load is null if and only if nothing is stored, or the stored envelope was sealed, under a key the provider has and with the associated data the load recomputes, over a plaintext that is not a credential record. |
| Envelope.OpensIff | packages/web/src/credential-store.ts:601-668 | An envelope opens to a payload if and only if the provider answers and the envelope was sealed over that payload under the key and the associated data the load recomputes. |
| Envelope.NullMeansAbsentWithoutForeignWrites | packages/web/src/credential-store.ts:546-680 | Where nothing else writes the envelope record, null means that nothing is stored. |
| Envelope.ForeignPlaintextReadsAsAbsent | packages/web/src/credential-store.ts:238-247 | A concrete envelope that is stored, opens, and reads as null, against the documentation of `load`. |
| Envelope.LoadSucceedsIffKeyKept | packages/web/src/credential-store.ts:628-668 | An envelope loads if and only if the provider still has the key recorded in it; otherwise it is an error. |
| Envelope.LegacyOpensIffCurrentKey | packages/web/src/credential-store.ts:601-626 | A v1 envelope opens if and only if the current key sealed it. |
| Envelope.AadInjective | packages/web/src/credential-store.ts:503-507 | Within one database the associated data pins down key id and salt. |
| Envelope.EditedEnvelopeNeverOpens | packages/web/src/credential-store.ts:628-668 | An envelope with an edited key id or salt is an error whatever keys the provider has. |
| Envelope.EnvelopedStore.SaveCredentials | packages/web/src/credential-store.ts:546-574 | Saving replaces the envelope by one that loads back as saved, or leaves it alone and reports the provider’s error. |
| Envelope.EnvelopedStore.ClearCredentials | packages/web/src/credential-store.ts:677-680 | After a clear every load says absent, under any provider in any state, also when the provider failed to clear its own keys. |
| Realm.Copy.SharedGlobalState | packages/web/src/shared-global-state.ts:61-108 | One call on the maps it updates: the remembered answer, or the resolution against the host and its new state. An answer of undefined is not remembered. |
| Realm.AnswersNeverChange | packages/web/src/shared-global-state.ts:61-108 | Whatever happens to the host, lawful or not, a copy never changes an answer other than undefined. |
| Realm.AnswerFixedIff | packages/web/src/shared-global-state.ts:61-108 | An answer is the same after every continuation in which other scripts keep the property rules, if and only if it is not undefined, or undefined is usable and the key reads as undefined for good. |
| Realm.UndefinedAnswerChanges | packages/web/src/shared-global-state.ts:61-108 | A concrete run in which a copy answers undefined and then an object. |
| Realm.CopiesAgree | packages/web/src/shared-global-state.ts:61-108 | On a host that lets the property be defined, all copies hold the same store, for any interleaving of their calls with scripts that obey the property rules. |
| Realm.DefinableIff | packages/web/src/shared-global-state.ts:61-108 | Defining the property succeeds, on a host that is not hardened, if and only if the rules that bind other scripts allow it. |
| Realm.DefinedIsPermanent | packages/web/src/shared-global-state.ts:61-108 | What was defined is permanent, reads as the store, and leaves other keys alone. |
| Realm.FreshHostIsOpen | packages/web/src/shared-global-state.ts:61-108 | An empty extensible host is such a host. |
| Realm.SafeIffPermanent | packages/web/src/shared-global-state.ts:61-108 | What a key reads as is safe from every other script if and only if its property is neither writable nor configurable, or absent from a host that is not extensible. |
| Realm.ClosedHostGivesOwnStore | packages/web/src/shared-global-state.ts:61-108 | Over any run on a host that is frozen or hardened whenever the key is asked for, every copy answers with a store one of its own calls made. |
| Realm.ClosedHostNeverShares | packages/web/src/shared-global-state.ts:61-108 | On such a host no two copies ever share a store. |
| Realm.SquatterSplitsCopies | packages/web/src/shared-global-state.ts:61-108 | A usable store that others may replace is adopted, and copies asking before and after the replacement disagree. |

## Left out

- The bundled copies of the engine under docs/examples, the Python and Swift packages, and the workers: other forms or other ends of the same protocol.
- States a process leaves when it dies inside the store replacement of a restore: `Engine.Engine.RestoreSnapshot` says what each stopping point leaves and `Engine.RestoreRepairsTorn` that the next restore makes up for it, but they are not states of the protocol, so writes between the two are not covered.
- Cryptographic strength, compression, JSON and text encoders: an ideal cipher, a deterministic injective key derivation, and typed payloads stand for them. Salts are compared as texts, so two texts that decode to the same bytes count as different salts.
- Strings are ordered by Dafny characters, not by UTF-16 code units; node ids and file names are plain ASCII in practice.
- Stamps that do not parse: `hlcParse` yields not-a-number fields for them, the model none.
- Trimming of white space before a key import, and Unicode normalization of passphrases: their results are inputs.
- Row metadata other than the tombstone (owner, schema version), columns without a stamp, and custom merge strategies.
- Change ids are taken to be unique, as random ids are; a batch is closed only under an id not in use.
- Concurrent compactors: one compaction runs at a time, under its device's store lock from start to end.
- Puts without fields as steps of the protocol: they are modelled in the engine and the write path only.
- Replica adapters, device and head files (except the head stamp moved by a flush), retention timers, polling, events other than change events, and logging.
- `joinExistingMeshPolicy` and its reset, which discards local state by design.
- The listing is sorted by stamp and name with other files last; the program sorts those by name among the change files and then drops them.
- In-memory stores that share one object between a ledger handle and the stored record: handles are values here, as they are in a browser database.
- Query evaluation: any function of a table's rows. Cache key strings: the descriptor itself is the key.
- WebAuthn ceremonies and blob storage, plain credential stores, browser storage quotas.
- React hooks, the example user interfaces, the documentation site.
- HlcText.TextOrderIsClockOrder: one direction only; texts of non-standard width can happen to sort correctly, and the raw comparison in the store's commit is modelled as clock order (counters below 65536).
- ClockDominance.LocalWritesRefineMerge: asks of each clock that replaces the one the next write starts from that it covers the device, because the property is false otherwise; `ClockDominance.CoversIff` and `ClockDominance.RestoreEndsCoveredIff` say what that means, and `WritePath.PutRefinesMergeIff` gives the exact condition for each write in any state.
- Realm.CopiesAgree: takes the host to let the property be defined until the first call; `Realm.SafeIffPermanent` and `Realm.AnswerFixedIff` say what remains otherwise.
