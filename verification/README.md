# Verified core of the rental back end

The back end runs on Google Apps Script: many short executions, each of which can be killed, share one property map,
one script lock, a few spreadsheets and a clock. This project models two parts of it and proves what they promise.

**Stock arithmetic.** `StockSweep` is the event sweep over bookings (when is more of a model out than there is),
`SupplyPlan` the greedy allocator of own stock and approved upgrades, `SupplyNote` the printer and parser of the
supply lines in a booking's note, `SupplyRows` the hand-out of a plan to the rows of a reservation. They are proved
against the plain meaning of their results: the sum of what is out at an instant, the existence of any split that
fits, the list of allocations that was printed. `JsText` and `SupplyPolicy` hold the text operations and the one
approved upgrade they share, `Basics` a few definitions all modules use.

**Durable protocols.** `StockOutbox` (stock notices with two senders), `SupaQueue` (the dirty queue with its
lock-contended side channel), `RegenQueue` (contract regeneration with times as versions), `CancelQueue` (clean-up by
lease and token), `ContractFiles` (file replacement under an exclusion key), `TriggerCalls` (overlapping replacements
of one-shot triggers), the loads and saves of `MonitorState`, and `Receipts` (operation receipts) are state machines.
A `World` holds what is stored, the executions under way, the clock, and as history what can no longer be read
anywhere (edits made, notices accepted, steps done). `Enabled` and `Apply` give the steps; every section the source
holds a lock for is one step, everything else interleaves, and an execution can end at any point. One lemma per
invariant shows that every step keeps it, and the main results speak of every run (`Possible`, `After`) from an
initial world; concrete runs from start to end show that the steps go through. The code itself is a class in each
module; its methods are the locked sections and loops. They are proved to compute the functions that the steps use;
where a loop is several steps, one a write, a lemma shows that these steps come to the loop's function when nothing
happens in between (`SupaQueue.MergeUndisturbed`, `SupaQueue.CleanUndisturbed`, `ContractFiles.LinkUndisturbed`,
`ContractFiles.TrashUndisturbed`, `TriggerCalls.PruneUndisturbed`).

**Stores that must survive a crash anywhere.** `RecordStore` (two layers and their migration), `SemanticStore` (the
move of the AI review records), `MonitorState` (chunked generations) and `Triggers` (one-shot triggers under a quota)
keep a ghost list of all states, one per single write. Their methods prove that each of these states, not only the
last, has the promised meaning; since the methods ask for nothing more than that, a call after a crash starts from
any of them.

What the models assume about the platform:

- The clock is shared and does not run back. An execution lives at most 6 minutes (`StockOutbox`, `RegenQueue`,
  `ContractFiles`, `RecordStore.OldExecutionsReadRight`); the other modules need no such bound.
- A POST to Slack is accepted, if at all, before its timeout (60 s from the script, 20 s from the relay); it takes at
  least a millisecond, the call that makes it returns only after it has ended, and a complete history read shows every
  accepted notice. The relay's clock agrees with the script's. Given that, the 60-second waits of both senders are
  modelled, but the results do not rest on them; they rest on the lease, the claim times and the history reads.
- An edit mark of the regeneration queue is stored less than 2.8 s after it read the clock. It takes no lock, so that
  finishing a job is one step with respect to marks is an assumption as well.
- Triggers can be listed and deleted and tell their id (with an empty id, Code.js:1472-1473, the last prune would delete
  the new trigger too), and creating one fails exactly when 20 exist. `Triggers.Project` is one call that no other call
  interrupts; the source takes no lock that would ensure this, and `TriggerCalls` drops the assumption.
- While a run is linking a contract, ledger rows are only appended. A cancellation deletes rows (Code.js:2235-2255); one
  that does so between a run's reading of the rows and its writes is not modelled.
- Random ids and revisions are fresh, digests are equal only for equal texts (they are modelled by the text), and JSON
  values are read back as written. Quantities are natural numbers; 0.9 of a stock is exact.

Where the code does less than its comments or callers suggest, the code is modelled as it is, with a concrete case and
the condition under which the promise holds: a turnaround overlap that begins when a booking ends
(`StockSweep.TurnaroundMissed`), aliases in the allocator (`SupplyPlan.UpperLosesToAlias` with `UpperRefusedIff`,
`SupplyPlan.RenamedUpgradeOverbooks` and `ChainedNameIsUnsafe` with `NeverOverbooksIff`), an indented tag line
(`SupplyNote.IndentedTagComesAlive`), a reader without the document context during the clean-up
(`SemanticStore.HalfCleanedMisleads` and the run `WholeMigration`), the relink of the regeneration worker
(`ContractFiles.RelinkAfterAnotherRun`), and two places in the replacement of a trigger, which is said to end with
exactly one and never to pass through none (Code.js:1452-1457, 1551): overlapping calls can delete each other's
trigger (`TriggerCalls.OverlapLeavesNone`, with the condition in `OneLeftIffInTurn` and `TwoCalls`), and another
handler's clean-up can delete the trigger a call has just created (`TriggerCalls.SweepLeavesNone`, with the condition
in `LastCreationDecides` and `SweepListsAllButEldest`).

The comment at the head of each module names its source files. Check everything with `dafny verify dfyconfig.toml`.

## Model

| member | source | states |
|---|---|---|
| StockSweep.BuildEvents | inventoryRisk.js:66-75 | the event table holds exactly the clamped start and end of every row that reaches into the range, in row order |
| StockSweep.SortedTimes | inventoryRisk.js:76 | the event times in increasing order, each once |
| StockSweep.Advance | inventoryRisk.js:79-80 | at one time closing rows leave before opening rows enter, so a row that closes as another opens is not counted twice |
| StockSweep.Total | inventoryRisk.js:82-83 | the sum over the active table is the sum of the quantities of exactly those rows |
| StockSweep.Grow | inventoryRisk.js:86-98 | a breach extends the open window or opens a new one, and the window keeps its highest total with the rows that made it |
| StockSweep.Sweep | inventoryRisk.js:65-101 | exactness: an instant lies in a window iff it is in range and its verdict is a breach; windows are ordered and maximal; `booked` is the true maximum, reached in the peak interval |
| StockSweep.LiveInScope | inventoryRisk.js:72-74 | clamping to the range loses nothing inside it: the amount out is the sum over the unclamped bookings |
| StockSweep.TurnaroundSound | inventoryRisk.js:82-85 | wherever `turnaround` alerts, more is out with the buffer than there is stock, and without it there is not |
| StockSweep.TurnaroundExact | inventoryRisk.js:72-85 | exactly where it alerts: more is out than there is stock, and what is really out together with what has ended since the last event would fit |
| StockSweep.TurnaroundComplete | inventoryRisk.js:82-85 | hence it misses no instant before which no booking has ended since the last event |
| StockSweep.TurnaroundMissed | inventoryRisk.js:72-83 | two bookings for which it misses one, because a booking's end is not an event |
| StockSweep.SweepPool | inventoryRisk.js:255-258 | shortage windows are exactly the instants above stock, never overlap capacity_tight windows, and both together are exactly the instants at 90% of stock or more; turnaround windows are exactly the instants of `TurnaroundExact` |
| SupplyPlan.PeakNow | inventorySupply.js:101-103 | the sampled peak is the maximum of the sums at the window start and the later booking starts |
| SupplyPlan.FreeNow | inventorySupply.js:98-105 | what is free of a model: total minus maintenance, peak and reservations, never below zero, zero for an unknown model |
| SupplyPlan.GrabNow | inventorySupply.js:126-130 | one request takes from the exact model and then from its upgrade what is free, and records both |
| SupplyPlan.MakePlan | inventorySupply.js:87-136 | the loops over sorted requests produce the plan function about which the results below are proved; said of the tables alone: the refusals reported are each request's first reason (unreadable ledger, ambiguous identity, unreadable supply record, bare category), alone and in the order of service; nothing is allocated for a refused, excluded or unregistered request; `ok` implies that no request has any of these reasons |
| SupplyPlan.NotFromStock | inventorySupply.js:109-123 | such a request changes neither allocations nor reservations and leaves its own refusal, or the note that it is unregistered, and nothing else |
| SupplyPlan.ServedReport | inventorySupply.js:124-134 | a request from stock gets its own model first and then the upgrade; a shortage reports exactly what it got, a warning exactly the upgraded units |
| SupplyPlan.PeakIsTheMaximum | inventorySupply.js:98-105 | sampling only at starts is sound: the peak is reached and bounds what is out at every instant of the window |
| SupplyPlan.PlanNeverOverbooks | inventorySupply.js:125-130 | safety: bookings plus all allocations of a model stay within total minus maintenance at every instant, if each listed name resolves to itself or has nothing to give, and, where the replaced model is listed, the upgrade goes by its own name, stands for the replaced model, or has no stock |
| SupplyPlan.RenamedAlwaysOverbooks | inventorySupply.js:98-130 | where the upgrade meets none of the three and the replaced model can be asked for, two requests overbook the upgrade |
| SupplyPlan.RenamedUpperIsUnsafe | inventorySupply.js:89-92 | a concrete equipment table with such an upgrade |
| SupplyPlan.UnstableAlwaysOverbooks | inventorySupply.js:89-130 | where a listed name resolves further and there is stock, enough requests of one unit overbook it |
| SupplyPlan.ChainedNameIsUnsafe | inventorySupply.js:89-92 | a concrete equipment table with such a name |
| SupplyPlan.NeverOverbooksIff | inventorySupply.js:98-130 | so no list of requests overbooks any model iff every name that can be asked for meets those conditions |
| SupplyPlan.OnlyListedMatter | inventorySupply.js:108-123 | refused, excluded and unregistered requests change neither the allocations nor which models are short |
| SupplyPlan.FitsIffFeasible | inventorySupply.js:124-130 | the counting condition under the greedy rule holds iff some split of the requests over models and upgrade fits |
| SupplyPlan.NoConflictIffFeasible | inventorySupply.js:94-136 | completeness: no conflict iff no request is refused by the screening and some split of the listed ones over own models and approved upgrades fits the free stock |
| SupplyPlan.UpperRefusedIff | inventorySupply.js:94-134 | exactly when an exact request for the upgrade is refused: in the order of service one of them, with those before it and the overflow of the upgradable requests before it, exceeds the upgrade's stock |
| SupplyPlan.UpperNeverLosesToFlexible | inventorySupply.js:93-97 | where the replaced model is asked for by its own name, exact requests are refused only if they alone exceed the stock |
| SupplyPlan.UpperLosesToAlias | inventorySupply.js:94-97 | under an alias the sort serves the flexible request first and the exact one is refused |
| SupplyPlan.RenamedUpgradeOverbooks | inventorySupply.js:98-130 | if the upgrade's canonical name differs from its policy name, one unit is allocated twice |
| SupplyNote.ReadNote | inventorySupply.js:38-55 | reading is sound: an answer's printed lines, for this very item and period, are exactly the tagged lines of the note, and their total fits; and complete: tagged lines of acceptable allocations read back as those, or are refused as too much |
| SupplyNote.LineOfAnotherRow | inventorySupply.js:42-51 | a well-formed line printed for another period, another item or an unapproved model is refused, each by its own error |
| SupplyNote.PrintedLine | inventorySupply.js:42-63 | one printed allocation reads back iff it is acceptable, and then as itself |
| SupplyNote.PrintRefusals | inventorySupply.js:57-66 | why a decision cannot be recorded, each cause with its own error |
| SupplyNote.NoteSucceeds | inventorySupply.js:57-68 | a note is written iff every recorded allocation is acceptable and they do not exceed the booked quantity |
| SupplyNote.NoteRoundTrip | inventorySupply.js:57-68 | reading a written note gives exactly the external and upgraded allocations, in order and quantity, iff the text carried over does not begin with a tag |
| SupplyNote.IndentedTagComesAlive | inventorySupply.js:58 | an indented tag line in the previous note turns into a live allocation |
| SupplyNote.LeftoverOfNote | inventorySupply.js:58-65 | reprinting keeps every other line of the note |
| SupplyNote.ReprintIsIdempotent | inventorySupply.js:57-68 | reprinting the same allocations changes nothing iff the text carried over has no CR LF |
| SupplyNote.PhysicalRows | inventorySupply.js:70-75 | own remainder first, then the upgraded parts; their total is the booked quantity minus external supply |
| SupplyRows.DrawRow | inventorySupply.js:145-146 | one row draws in order from the allocations of its name, which shrink in place |
| SupplyRows.HandOut | inventorySupply.js:139-149 | all rows in order, each from what the earlier ones left |
| SupplyRows.NothingLost | inventorySupply.js:140-148 | what the rows took of an allocation plus what is left of it is its quantity |
| SupplyRows.DrawTotals | inventorySupply.js:145-146 | a row gets what it asked for minus what it still needs, in positive parts of allocations for its name |
| SupplyRows.DrawExhausts | inventorySupply.js:145-146 | a row goes short only if the allocations for its name are used up |
| SupplyRows.HandedOutAsWanted | inventorySupply.js:143-148 | the allocations of a name are used up to exactly what the rows of that name want |
| SupplyRows.NoteOfRowFits | inventorySupply.js:147 | the note of a row is never refused for quantity and reads back as the parts it was given |
| StockOutbox.Outbox.TakeLease | preRegistrationStockAlerts.js:318-325 | a flush starts iff no lease is active, and then holds one for seven minutes |
| StockOutbox.Outbox.ReleaseLease | preRegistrationStockAlerts.js:363-366 | a flush drops only its own lease |
| StockOutbox.Outbox.Claim | preRegistrationStockAlerts.js:446-457 | granted iff no lease is active, the request generation is the one verified and no claim runs; then token, two minutes and generation are recorded and nothing else changes |
| StockOutbox.Outbox.Authorize | preRegistrationStockAlerts.js:464-478 | authorized only the holder of a running claim, on the generation it claimed, for a notice that is still wanted; the attempt and 180 seconds are then on record; every refusal changes nothing |
| StockOutbox.Outbox.Acknowledge | preRegistrationStockAlerts.js:484-504 | only the holder of a running claim closes a notice, as delivered or, iff it is not wanted, as obsolete |
| StockOutbox.StepKeeps | preRegistrationStockAlerts.js:174-243 | every step of flush, relay, network and clock keeps the invariant the three results below rest on |
| StockOutbox.AcceptedAtMostOnce | preRegistrationStockAlerts.js:200-243 | over every run Slack accepts no notice id twice |
| StockOutbox.OneSenderAtATime | scripts/windows/inventory-stock-alert-relay.js:25-49 | no two senders are ever between authorization and the end of a POST for one notice |
| StockOutbox.GivenUpStaysSilent | preRegistrationStockAlerts.js:208-216 | a notice dropped as undelivered is never accepted later |
| StockOutbox.ChangedRequestIsNotPosted | preRegistrationStockAlerts.js:451-472 | once a request has changed, no claim made before is ever authorized to post its notice |
| StockOutbox.WithdrawnIsNotPosted | preRegistrationStockAlerts.js:471-472 | over every run: once a flush has flagged a notice as not wanted, no relay is authorized to post it until one flags it wanted again |
| StockOutbox.ObsoleteIsNotWanted | preRegistrationStockAlerts.js:484-504 | a relay closes a notice as obsolete only while it is not wanted, and then it is gone and counted as dropped |
| StockOutbox.FlushRecords | preRegistrationStockAlerts.js:200-243 | the flush records its attempt before it posts, so that no sender tries again for a minute; then the outcome it was told; a notice given up is gone |
| StockOutbox.EndDropsOwnLease | preRegistrationStockAlerts.js:363-366 | a flush that ends drops its own lease and nobody else's |
| StockOutbox.FlushDelivers | preRegistrationStockAlerts.js:223-236 | a run in which the flush delivers a notice and closes it |
| StockOutbox.RelayDelivers | scripts/windows/inventory-stock-alert-relay.js:25-49 | a run in which the relay delivers the notice of a killed flush |
| SupaQueue.MergeReport | supabaseSync.js:1351-1357 | merging one report keeps a trade standing iff it stood and the report passes it |
| SupaQueue.Outcomes | supabaseSync.js:1235-1299 | a trade is acknowledged iff it was staged and every report that covers it passed |
| SupaQueue.SyncStore.MarkDirty | supabaseSync.js:1033-1053 | under the lock a mark is a new revision, otherwise a pending mark, one a trade |
| SupaQueue.SyncStore.MergePending | supabaseSync.js:1338-1346 | the loop over the listed pending marks computes the merge function and deletes exactly these marks |
| SupaQueue.MergedIs | supabaseSync.js:1340-1345 | exactly the trades of those marks become dirty under new revisions |
| SupaQueue.MergeUndisturbed | supabaseSync.js:1338-1346 | the merge written key by key in the run model comes to the same when nothing happens in between |
| SupaQueue.SyncStore.TakeSnapshot | supabaseSync.js:1213-1226 | a flush starts iff no lease is active and a mark is due, with exactly the due marks: all but those whose retry time lies ahead by at most six hours |
| SupaQueue.SyncStore.CleanUp | supabaseSync.js:1305-1326 | for the lease owner, key by key: a listed, undeferred trade whose mark is as it was in the snapshot is cleared if it was pushed, and otherwise keeps its revision with one failure more (at most 16) and a wait that doubles from a minute to half an hour; every other mark stays |
| SupaQueue.CleanUndisturbed | supabaseSync.js:1309-1318 | the clean-up trade by trade in the run model comes to the loop's function |
| SupaQueue.AcceptedLeaves | supabaseSync.js:1201-1318 | over every run: a trade of the snapshot that nobody has marked since is out of the queue once its clean-up is done if every stage accepted it, and otherwise, unless deferred, waits under the same revision |
| SupaQueue.EndHoldsNothing | supabaseSync.js:1320-1325 | an execution that ends or is killed holds no lock, and a clean-up that ends no lease |
| SupaQueue.NoChangeLost | supabaseSync.js:1201-1346 | over every run a marked edit leaves its trade dirty or pending until a flush that read the sheet after it has had every stage accept the trade |
| SupaQueue.DueWithinHalfAnHour | supabaseSync.js:1216-1223 | however often a trade fails, it is due again within half an hour |
| SupaQueue.FlushedOnce | supabaseSync.js:1201-1346 | a run with a locked and a contended mark in which one flush clears the accepted trade and puts off the other |
| RegenQueue.RegenStore.Schedule | Code.js:1478-1481 | a mark overwrites the trade's version and nothing else |
| RegenQueue.RegenStore.ClaimOne | Code.js:1620-1683 | granted iff a version is stored, 2.8 s old, not put off and not leased; then leased for seven minutes; otherwise the answer names when to come again; a claim without a version is dropped |
| RegenQueue.RegenStore.Finish | Code.js:1713-1773 | a lost claim changes nothing; a new version only frees the claim; success clears the version and its retries; failure counts one more and backs off, half an hour from the fifth on |
| RegenQueue.NoEditLost | Code.js:1620-1741 | over every run a marked edit keeps its trade queued until a run that began after it ends it |
| RegenQueue.ClearedOnlyByLateRun | Code.js:1726-1749 | whoever takes a trade off the queue began after its last marked edit |
| RegenQueue.SuccessLeavesTheQueue | Code.js:1726-1749 | over every run: a run that ends on the version still stored takes the trade off the queue, one that fails or finds a new version keeps it queued, and the claim is free in every case |
| RegenQueue.OneWorkerPerTrade | Code.js:1647-1674 | no two live workers hold one trade, and a live worker's claim is never taken over |
| RegenQueue.GrantedWithinHalfAnHour | Code.js:1634-1652 | in every reachable state a claim is granted half an hour after the last step |
| RegenQueue.NewVersionNotDelayed | Code.js:1639-1645 | failures of older versions do not delay a new one |
| RegenQueue.RegeneratedInTwoAttempts | Code.js:1620-1773 | a run from an edit over a failed regeneration to one that ends the trade |
| CancelQueue.CancelStore.Schedule | Code.js:2138-2154 | a running item is left as it is; any other is due at once, keeps its recorded steps and, unless it had failed for good, its attempts |
| CancelQueue.CancelStore.NextDue | Code.js:2157-2182 | the unfailed, unleased item that has been due longest, and otherwise when the next one will be; failed items never |
| CancelQueue.CancelStore.Claim | Code.js:2185-2233 | that item gets a new token, one attempt more and a lease of seven minutes, or after five attempts rests for half an hour |
| CancelQueue.CancelStore.Finish | Code.js:2317-2346 | only the token's owner drops the item, or records its steps and puts it back with a doubling wait, half an hour after five attempts |
| CancelQueue.LeavesOnlyWhenCleanedUp | Code.js:2279-2330 | over every run a trade leaves the queue only after all three steps succeeded since it was queued |
| CancelQueue.RecordedStaysRecorded | Code.js:2138-2346 | no step forgets a recorded step of a queued trade |
| CancelQueue.TakenOverStaysHarmless | Code.js:2214-2346 | once another claim has taken the item, the old worker's finish never changes the queue |
| CancelQueue.NotClaimedBeforeItsTime | Code.js:2163-2214 | over every run: an item under work is not claimed again before its lease runs out, and one that waits not before its time, unless its worker finishes or it is queued again |
| CancelQueue.GrantedClaimHolds | Code.js:2209-2217 | a granted claim holds for seven minutes and starts with all three steps ahead and the recorded ones known |
| CancelQueue.ExhaustedRests | Code.js:2204-2212 | a claim after five attempts starts no work and rests the item for half an hour |
| CancelQueue.AvailableWithinHalfAnHour | Code.js:2163-2180 | an item is available again half an hour after the last step at the latest |
| CancelQueue.CleanedUpInTwoAttempts | Code.js:2185-2346 | a run in which one step fails and the second attempt, 15 seconds later, runs only that step and takes the trade off |
| CancelQueue.InterruptedWorkers | Code.js:2214-2346 | a run with a killed and a throwing worker, and a trade queued anew with nothing done |
| RecordStore.DecodeEncode | operationalPropertyStorage.js:34-66 | every value, the empty text and a deletion included, survives its cell encoding |
| RecordStore.OnlyEncodedDecode | operationalPropertyStorage.js:34-66 | and no other cell is accepted |
| RecordStore.WrittenRows | operationalPropertyStorage.js:65-75 | writing a row changes what the sheet says of its key alone and keeps one row a key |
| RecordStore.ReadIsTruth | operationalPropertyStorage.js:114-129 | a read gives the record, before and after `readyAt` alike |
| RecordStore.PhotoReadsUnlessExpired | operationalPropertyStorage.js:122-127 | a photo record reads as stored iff it is not a sheet row past its 24 hours |
| RecordStore.OldExecutionsReadRight | operationalPropertyStorage.js:178-198 | an execution that started before the preparation and reads only the legacy layer misses nothing |
| RecordStore.BulkIsSingle | operationalPropertyStorage.js:114-143 | the bulk read agrees with the single read on every key |
| RecordStore.Store.WriteRow | operationalPropertyStorage.js:65-75 | one row, over the given one or at the end |
| RecordStore.Store.Change | operationalPropertyStorage.js:96-112 | set and delete change exactly the named record; at every write it reads as before or after; a delete through another group's store only removes the legacy value |
| RecordStore.Store.GetProperties | operationalPropertyStorage.js:132-143 | the loop over the rows lists exactly the records of the legacy layer and the group |
| RecordStore.Store.SetProperties | operationalPropertyStorage.js:144-154 | exactly the named keys change, each reading old or new at every write |
| RecordStore.Store.Prepare | operationalPropertyStorage.js:179-201 | preparation changes no record; a second one changes nothing at all |
| RecordStore.Store.CopyExisting | operationalPropertyStorage.js:222-229 | rows that differ from the legacy value are overwritten, keys without a row are set aside |
| RecordStore.Store.AppendMissing | operationalPropertyStorage.js:230-234 | keys set aside get one row each |
| RecordStore.Store.RemoveEntries | operationalPropertyStorage.js:236-243 | a legacy value goes only after its copy has been read back |
| RecordStore.Store.Migrate | operationalPropertyStorage.js:205-248 | after every write all records read as before and each key has one row at most; a completed call moves min(150, remaining) |
| SemanticStore.FreshReadIsTruth | inventorySemanticStorage.js:42-75 | in every state the operations leave, a fresh read succeeds with exactly the records |
| SemanticStore.ReadWithoutDocument | inventorySemanticStorage.js:44-55 | exactly when a reader without the document context gets all records, and exactly when it refuses |
| SemanticStore.ReadIffVouched | inventorySemanticStorage.js:26-74 | of any state, sound or damaged: a fresh read gives exactly the records its one manifest vouches for by file, text, snapshot and count, and that agree with the script properties; everything else is refused |
| SemanticStore.HalfCleanedMisleads | inventorySemanticStorage.js:250-258 | once the clean-up has deleted a record and left another, such a reader gets exactly the part that is left |
| SemanticStore.WholeMigration | inventorySemanticStorage.js:216-316 | staging, observation and finalizing in one run reach phase active; a crash between the first and the last deletion leaves exactly such a state |
| SemanticStore.Store.Restage | inventorySemanticStorage.js:266-277 | a proof cut short before its last write is completed |
| SemanticStore.Store.StageNew | inventorySemanticStorage.js:278-315 | staging goes through unless it is unknown which file an earlier attempt created |
| SemanticStore.Store.Stage | inventorySemanticStorage.js:216-239 | when staging is accepted; no record and no legacy value changes at any write |
| SemanticStore.Store.Observe | inventorySemanticStorage.js:186-213 | a trigger records exactly the manifest and records it has read, in phase staged only |
| SemanticStore.Store.MayFinalize | inventorySemanticStorage.js:224-249 | the checks hold iff this very manifest and these records were observed by a trigger |
| SemanticStore.Store.Finalize | inventorySemanticStorage.js:240-261 | accepted iff they hold; each legacy record goes only while the file holds the same value, and every state in between can be the last |
| SemanticStore.Store.Commit | inventorySemanticStorage.js:141-161 | a new file first, then one switch of the manifest: each state has all old or all new records |
| SemanticStore.Store.Write | inventorySemanticStorage.js:164-183 | reviews are refused from the start of staging until phase active; otherwise each named key gets the text of its last review, no other key changes, and a write that changes nothing commits nothing |
| SemanticStore.MergedAt | inventorySemanticStorage.js:166-171 | merging stores under each named key the text of its last review and leaves the other keys |
| SemanticStore.SwitchSound | inventorySemanticStorage.js:158 | the manifest switch changes the records to those of the new file |
| ContractFiles.Drive.UpdateLink | generatecontract.js:899-914 | every row of the trade, and no other, gets the link |
| ContractFiles.Drive.TrashOthers | generatecontract.js:1079-1106 | the loop over the listed files computes the trash function |
| ContractFiles.TrashedOthersIs | generatecontract.js:1083-1101 | of the listed files exactly those of the trade, and never the kept one, end up trashed |
| ContractFiles.LinkUndisturbed | generatecontract.js:903-912 | linking row by row in the run model comes to the link loop |
| ContractFiles.TrashUndisturbed | generatecontract.js:1083-1101 | so does trashing file by file |
| ContractFiles.StepKeeps | generatecontract.js:1109-1153 | every step of overlapping, failing or killed runs keeps the invariant |
| ContractFiles.NeverADeadLink | generatecontract.js:1142-1148 | over every run no ledger row links to a trashed file |
| ContractFiles.OneRunPerTrade | generatecontract.js:1115-1126 | no two live runs work on one trade |
| ContractFiles.FinishedRunLeavesOneFile | generatecontract.js:917-922 | when trashing has ended, every matched row links the one live file of the trade |
| ContractFiles.RelinkSafeWhileLive | Code.js:1899-1902 | the relink outside the exclusion is safe exactly while its file is live |
| ContractFiles.RelinkAfterAnotherRun | Code.js:1885-1902 | a run after which it leaves a dead link |
| ContractFiles.KilledRunLetsGo | generatecontract.js:883-945 | a run in which a killed run's exclusion ends after nine minutes and another can start |
| MonitorState.JoinSplit | inventoryRiskDelivery.js:16-18 | joining the 1800-character pieces of a text gives the text |
| MonitorState.SavedLoads | inventoryRiskDelivery.js:6-18 | a saved text of any length loads as itself, from pieces of 1 to 1800 characters |
| MonitorState.Store.LoadState | inventoryRiskDelivery.js:2-12 | the loop reads the generation named by the head property, or reports a missing piece |
| MonitorState.Store.Save | inventoryRiskDelivery.js:14-22 | after every single write or delete a load gives the whole old or the whole new text |
| MonitorState.Store.DropGeneration | inventoryRiskDelivery.js:21 | deleting the old generation piece by piece never touches what loads |
| MonitorState.NeverAMixture | inventoryRiskDelivery.js:2-22 | however loads and saves interleave: a load gives the whole text the head property named when it began, or reports a missing piece, and that only after a later save has moved the head property; the head property always names a whole text |
| MonitorState.OvertakenLoad | inventoryRiskDelivery.js:2-22 | a run in which a load overtaken by a save finds a piece missing |
| Receipts.IssuedAtReadsTheTime | sheetAPI.js:251-256 | ids made of a time in milliseconds or seconds carry that time |
| Receipts.OtherIdsCarryNoTime | sheetAPI.js:251-256 | any other id carries no time |
| Receipts.ReceiptStore.Prune | sheetAPI.js:274-290 | at most daily, exactly the receipts older than 30 days go |
| Receipts.ReceiptStore.Claim | sheetAPI.js:333-362 | an id with a receipt never executes: a differing request is refused, an applied one replayed, any other left to reconciliation, and nothing is written; without one the receipt is stored before the request executes |
| Receipts.ReceiptStore.Finish | sheetAPI.js:373-386 | the outcome is recorded under the request's own digest |
| Receipts.ExecutedAtMostOnce | sheetAPI.js:292-389 | over every run two executions of one id are more than 30 days apart |
| Receipts.ExecutedAgainAfterRetention | sheetAPI.js:333-382 | the retention is no longer than it says: a run in which an id executes again once its receipt has been pruned |
| Receipts.NoExecutionPastAReceipt | sheetAPI.js:336-362 | once a receipt is there, over every run no request with its id, the same or a different one, executes within 30 days of its stamp |
| Receipts.AnswersFollowTheReceipt | sheetAPI.js:333-358 | what a submission is answered while the id has a receipt, exactly, and that it changes nothing |
| Receipts.RetrySafeMeansNeverStarted | sheetAPI.js:442-457 | `retrySafe` is answered only for an id that was never executed |
| Receipts.RetrySafeIff | sheetAPI.js:442-457 | the answer is given exactly for ids without a receipt whose time lies within a day, five minutes of skew allowed |
| Triggers.PrunedKeeps | Code.js:1421-1438 | pruning touches no trigger of another handler |
| Triggers.PrunedCount | Code.js:1421-1438 | it leaves `keep` triggers of the handler, or all if there are fewer |
| Triggers.CountsAddUp | Code.js:1405-1413 | every trigger is outside the seven-handler list or counted under one of its handlers |
| Triggers.Project.Prune | Code.js:1421-1438 | the loop with its kept counter deletes one by one what the prune function drops |
| Triggers.Project.PruneAll | Code.js:1441-1449 | one trigger is left to every other one-shot handler that had any, none to the excepted one |
| Triggers.RoomAfterPruneAll | Code.js:1441-1449 | then there are as many triggers as outside ones and other one-shot handlers present |
| Triggers.Project.Replace | Code.js:1459-1475 | for a call no other call interrupts: exactly one trigger of the handler is left, the new one; success iff outside triggers and other one-shot handlers are fewer than 20; after every deletion and creation at most 20 exist, recurring ones are untouched and no other handler has lost its last; nor is the handler itself ever without a trigger, if it had one and there is room at once |
| Triggers.RoomForThirteenOutside | Code.js:1405-1413 | with at most 13 triggers outside the list it always succeeds |
| TriggerCalls.PruneUndisturbed | Code.js:1421-1438 | listing and then deleting one by one comes, undisturbed, to the prune of `Project.Prune` |
| TriggerCalls.StepKeeps | Code.js:1421-1475 | every listing, deletion, creation, start and kill of overlapping calls keeps the invariant the results below rest on |
| TriggerCalls.OutsideUntouched | Code.js:1421-1475 | over every run recurring and outside triggers are untouched, and there are never more than 20 |
| TriggerCalls.CallsEnd | Code.js:1462-1470 | a creation refused by the quota starts the clean-up and, after it, throws; a call that has thrown or was killed does nothing more |
| TriggerCalls.LastCreationDecides | Code.js:1459-1475 | over every run, once the call that made a handler's last trigger has ended: that trigger is the only one left if nobody has listed it for deletion, and otherwise none is left |
| TriggerCalls.OneLeftIffInTurn | Code.js:1459-1475 | once all calls on a handler have ended, and no other handler's clean-up has listed it since its last creation: one trigger is left iff every other call had made its last listing before that creation, and otherwise none |
| TriggerCalls.TwoCalls | Code.js:1459-1475 | of two calls that both created, one is left iff one of them made its last listing before the other created |
| TriggerCalls.EldestSurvives | Code.js:1441-1449 | while no call replaces or clears a handler, its eldest trigger survives all clean-ups, however they overlap |
| TriggerCalls.SweepListsAllButEldest | Code.js:1421-1449 | a clean-up lists a trigger of another handler iff an older one of that handler stands |
| TriggerCalls.OverlapLeavesNone | Code.js:1459-1474 | from any triggers of other handlers, two calls that both return a new trigger and leave none |
| TriggerCalls.SweepLeavesNone | Code.js:1461-1473 | a run at the quota in which a handler that has a trigger and is replaced loses both to another handler's clean-up |

## Left out

- StockSweep.TurnaroundComplete: pointwise completeness only where no booking has ended since the last event; beyond that it is false, and StockSweep.TurnaroundExact says where.
- SupplyPlan.PlanNeverOverbooks: asks for conditions on the names; SupplyPlan.NeverOverbooksIff shows that without them it is false.
- SupplyPlan.NoConflictIffFeasible: asks that resolving the name of a listed request, and that of its upgrade, again changes nothing.
- SupplyPlan.UpperNeverLosesToFlexible: speaks of lists that name the replaced model by its own name; SupplyPlan.UpperRefusedIff covers all others.
- SupplyNote.NoteRoundTrip: the period is an opaque text without `|` or line breaks; date formatting is not modelled.
- SupplyRows.HandOut: which rows are set headers without a draw of their own is an input.
- RecordStore.ReadIsTruth: for the groups `inventory` and `receipts`; photos expire, see RecordStore.PhotoReadsUnlessExpired.
- ContractFiles.FinishedRunLeavesOneFile: an error while trashing is swallowed by the source and then leaves more than one live file; linking stays correct.
- SemanticStore.FreshReadIsTruth: the in-memory copy an execution may read instead is not modelled.
- Triggers.Project.Replace: speaks of a call that no other call interrupts; TriggerCalls has the others. A failure of the platform to list or delete triggers, or to tell an id, which the source ignores, is not modelled.
- TriggerCalls.OneLeftIffInTurn: a call killed before its end is covered only by TriggerCalls.LastCreationDecides and TriggerCalls.OutsideUntouched.
- The key patterns of the record groups, name normalisation, the rule for consumables, JSON text, gzip and hashing are parameters or typed keys.
- Which alerts a report groups, set expansion, alias candidates and wording: long case lists over business data.
- Flushes with a prepared evaluation (preRegistrationStockAlerts.js:315, 351), which run inside a registration that holds the script lock.
- The three pages of a message history are one answer, complete or not, and whether a notice is still wanted is one flag set by the flush.
- The relay's release of a claim (preRegistrationStockAlerts.js:501), which the relay never asks for.
- Cool-down after a quota error, the one-time move of old dirty marks and the single uploads of a Supabase flush: an upload stage is its report.
- The unconditional queue clears (generatecontract.js:1186-1189 and the menu path), `autoGenerateContract`, and the trashing of a cancelled trade's files work outside the protocols.
- Watchdog and worker triggers that wake the queues: the models prove that a claim is granted, not that a worker comes.
- Ledger amounts, template filling, sheet access and all other HTTP, Drive and Slack traffic.
- Requests without an operation id, from outside or for read-only capabilities, which receipts do not cover.
