# Offline-first courier: a verified model

This project models the part of a parcel-delivery system that must be right when the network is not: the driver app's
outbox, its telemetry queue and its session refresh, and the computations on manifests, money, motion, imported tables
and wall-clock times around them. `dafny verify dfyconfig.toml` checks everything.

**The outbox** (`OutboxModel`, `OutboxSteps`, `OutboxRuns`, `OutboxFlicker`, `OutboxDay`, `OutboxMeanwhile`,
`OutboxProof`, `OutboxOrder`, `OutboxSignOut`, `OutboxCalls`, `OutboxDevice`, `OutboxActions`, `OutboxFlush`).
`OutboxModel` is a system of steps over the device's tables, the server behind the ports and the answer being worked
through. Between any two steps the driver may record, dismiss or sign out, an answer may be lost, and the process may
die. Signing out is two steps: one counts what would be lost, a later one deletes everything, whatever has been
recorded since. A flush under way then goes on with the rows it has read, and its writes change no table.
`OutboxSteps` says of every step what it leaves in each row of each table. `OutboxRuns` proves what holds in every
state any run reaches. `OutboxDevice` is the device as a class: its tables, its queries, the ports with every
behaviour the server may show, and a pause at each await in which the screens do what they like. Its invariant `Valid`
says that its history is a legal run of the steps, so whatever `OutboxActions` and `OutboxFlush` do (the flush,
written as the app writes it) is covered by the theorems about runs. `OutboxCalls` is the log of the calls a flush
makes, each with its outcome; the contracts of the flush say which of them make it offline, stop it or make it defer a
subject. The server is assumed to apply an idempotency key at most once, to acknowledge only what it has applied, to
give one slot per media id, and to send a manifest for each listed route whose version the device did not report.

**The telemetry queue** (`TelemetryQueue`, `TelemetryFlush`, `TelemetryRuns`, `TelemetryTracker`). The table and `flush`
for one runtime, then any number of runtimes interleaved on one table, with a server that keeps the first batch under
an id.

**The session** (`SessionModel`, `SessionRequests`, `SessionClient`). Requests and the refresh they share, cut at every
await: no spent token presented again, and what each request gets of the refresh it waited for.

**Read models and conversions** (`Manifests`, `MoneyText`, `MoneySums`, `Sampling`, `Csv`, `ZonedTime`). Loops of the
source are methods proved against functions; what the functions mean is stated by lemmas.

Where a claim is false of the code, the project keeps the code, gives an input that shows it and states exactly when
the claim holds:

- A flush of the telemetry queue that asks to be called again need not have left work: a queue of exactly ten batches is
  empty by then (`TelemetryFlush.RetryIsNotWork`, `TelemetryFlush.EmptyYetRetried`; the comment on `retryInMs` says
  otherwise). The tracker counts such a flush as a failed attempt (`TelemetryTracker.FullFlushCountsAsFailure`).
- The motion classifier rebuilt from its motion, as the tracker does for every delivery of fixes, is not the one that was
  kept (`Sampling.RestartUnparks`, `Sampling.RebuiltAgrees`; the comment on the class suggests otherwise). Over a whole
  day the van counts as parked only by two minutes of standing within one delivery (`Sampling.ParkedWithinOneDelivery`).
- The refresh presents a spent token if an exchange's answer was lost, if the session was cleared, or if the renewed
  session expired before a request that still holds the old one (`SessionModel.LostAnswersReplay`,
  `SessionModel.ClearedSessionsReplay`, `SessionModel.OutlivedSessionsReplay`, `SessionModel.ReplayExactly`).
- Actions about one address or parcel are first sent in order but need not be accepted in order
  (`OutboxOrder.AcceptanceMayOvertake`). A later one is accepted while an earlier one waits exactly when one batch carried
  both and its answer took the later and not the earlier (`OutboxRuns.OvertakesExactly`,
  `OutboxRuns.AcceptedAheadOnlyInOneBatch`).
- Weekly housekeeping deletes the file rows of a delivery that still waits, which is then sent without the photos it
  cited (`OutboxProof.PruneStripsAWaitingDelivery`). An action's file rows are all there exactly unless a housekeeping has
  deleted a settled one (`OutboxRuns.FilesLeaveByHousekeeping`).
- Signing out can lose a delivery recorded after it counted what is unsafe
  (`OutboxSignOut.SignOutLosesADelivery`; the comment in the screen says recorded work never leaves with the session).
  A delivery or a return is lost exactly when a sign-out deleted it before it was settled and no flush under way had it
  accepted (`OutboxRuns.NothingPhysicalIsLost`, `OutboxRuns.LostExactly`), and only what was recorded after the count can
  be (`OutboxRuns.NothingOlderIsLost`, `OutboxRuns.WipeTakesOnlyTheNew`).
- The CSV reader takes a leading delimiter for a byte-order mark if the delimiter is that character, and a table of one
  empty header without a line end for no table (`Csv.ParseUndoesPrint`).
- One pass of the zone solver is not enough, and two are not if the offset changes twice nearby
  (`ZonedTime.OnePassIsNotEnough`, `ZonedTime.TwoChangesAreTooMany`).
- The cache of manifests need not be the server's after a save (`OutboxSignOut.SignOutEmptiesTheCache`). It is exactly
  when each listed route came with the answer or was in the table at the listed version (`OutboxRuns.CacheIsCoherent`),
  which only a sign-out can prevent (`OutboxRuns.OnlyWipesMatter`).
- The cash of a route the server no longer lists need not stay with the driver's day, which is what the comment in
  `saveRoutes` keeps the route for: the manifest held may be from before a delivery on it, and then the parcel leaves
  the cash when its acceptance is written (`OutboxDay.AcceptanceTakesTheCash`). The route itself stays, and the parcel
  is in the cash exactly if the manifest says it was delivered, or has it unsettled and the acceptance is not written
  (`OutboxDay.StaysForTheDay`, `OutboxDay.UnlistedInCashExactly`). Routes still listed have no such gap if the
  server's manifests show what it has applied (`OutboxFlicker.NeverLeavesTheCash`).

## Model

| member | source | states |
|---|---|---|
| OutboxRuns.RunsKeepInv | apps/driver/src/core/outbox.ts:195-387 | every legal run keeps the ten parts of the invariant, whatever is recorded, lost, interrupted or dismissed |
| OutboxSteps.ActionAfter | apps/driver/src/platform/outbox-store.ts:158-370 | which actions the table has after a step and with which fields: a new one waits with nothing yet, a write changes the fields it gives, a dismissal makes a refused or escalated one done, housekeeping takes the done ones of before, a sign-out all |
| OutboxSteps.FileAfter | apps/driver/src/platform/outbox-store.ts:183-370 | the same for the files of actions: housekeeping takes uploaded and given-up ones of before |
| OutboxSteps.SavedMeaning | apps/driver/src/platform/outbox-store.ts:198-230 | a save of the routes, by the last update and the last listing of each route: no row goes; one that was updated has the update's version, manifest and date; any other keeps its own; what was neither updated nor listed is the old row, inactive; what is listed is active with the listed status |
| OutboxSteps.RouteAfter | apps/driver/src/platform/outbox-store.ts:198-370 | besides, a row goes exactly with a sign-out or, inactive, when a later day is read, and nothing else changes it |
| OutboxSteps.SignOutAfter | apps/driver/src/app/(tabs)/profile.tsx:88-98 | a count marks the moment exactly if nothing waits, is escalated or is on its way; a sign-out loses exactly what waits or is escalated by then |
| OutboxSteps.TakenInOrder | apps/driver/src/core/outbox.ts:13-15 | what the server applies of a call are the taken items, all of them, each once, in the order they were sent |
| OutboxRuns.AppliedOnce | apps/driver/src/core/outbox.ts:13-15 | in every reachable state the server has applied each recorded action at most once, as it was recorded, and exactly once if it is done by acceptance |
| OutboxRuns.FirstSendingsInOrder | apps/driver/src/core/outbox.ts:229-347 | when an action is first put on the wire, every earlier action of its subject has been, but for those a sign-out lost |
| OutboxRuns.OvertakesExactly | apps/driver/src/core/outbox.ts:276-287 | the step that accepts an action while an earlier one of its subject waits is possible exactly when one batch has both, the earlier ahead, and its answer acknowledges only the later |
| OutboxRuns.AcceptedAheadOnlyInOneBatch | apps/driver/src/core/outbox.ts:229-287 | over every run, if an action is accepted and an earlier one of its subject still waits, some call of the run carried both and its answer took the later and left the earlier |
| OutboxRuns.NothingPhysicalIsLost | apps/driver/src/core/outbox.ts:17-21 | in every reachable state no action recorded as a delivery or as a completed return has been refused; it waits, is escalated, was accepted and applied once, or was dismissed after an escalation, exactly unless a sign-out deleted it unsettled and it was not accepted after that |
| OutboxRuns.LostExactly | apps/driver/src/platform/outbox-store.ts:363-370 | over every run, what is lost is exactly what some sign-out deleted while it waited or was escalated |
| OutboxRuns.NothingOlderIsLost | apps/driver/src/app/(tabs)/profile.tsx:88-98 | from any moment with nothing unsafe, over any stretch of any run, whatever is unsettled or lost was recorded after that moment |
| OutboxRuns.WipeTakesOnlyTheNew | apps/driver/src/app/(tabs)/profile.tsx:91-98 | a sign-out deletes unsettled actions and open files only if they were recorded after its count; with nothing recorded since, none |
| OutboxRuns.PhysicalEndsOnlyByAnswer | apps/driver/src/core/outbox.ts:389-412 | a waiting delivery or return ends only by an acknowledgement, a discard or an escalation of the saved answer in hand, or by a sign-out; an escalated one by a dismissal or a sign-out; a done one only by housekeeping or a sign-out; none is ever refused |
| OutboxRuns.MediaMoveForward | apps/driver/src/core/outbox.ts:208-224 | a file never goes back a stage, and its slot never changes |
| OutboxRuns.RunsGoForward | apps/driver/src/core/outbox.ts:208-384 | the same over any stretch of any run, for every file id ever minted |
| OutboxRuns.OpenMediaStay | apps/driver/src/platform/outbox-store.ts:354-370 | a file still on its way is forgotten exactly by a sign-out, and then it was captured after the count |
| OutboxRuns.FilesLeaveByHousekeeping | apps/driver/src/platform/outbox-store.ts:354-360 | over every run, the row of a file of an action in the table is missing exactly if a housekeeping deleted it once it was settled and older than the cutoff |
| OutboxRuns.DiscardedIsHeld | apps/driver/src/core/outbox.ts:374-383 | in every reachable state a discarded file is one whose artifact the server has completed |
| OutboxRuns.CacheIsCoherent | apps/driver/src/platform/outbox-store.ts:198-230 | after a save exactly the listed routes are active, each with its version, status and manifest, exactly when each was updated or in the table at the listed version |
| OutboxRuns.OnlyWipesMatter | apps/driver/src/platform/outbox-store.ts:190-197 | without a sign-out every route an answer lists was updated or in the table when the answer is saved |
| OutboxDay.RowStays | apps/driver/src/platform/outbox-store.ts:202-204 | one step: a route's row goes exactly with a sign-out or, inactive, when a later day is read, and keeps its version, date and manifest unless an answer brings the route anew |
| OutboxDay.StaysForTheDay | apps/driver/src/platform/outbox-store.ts:334-339 | over any stretch of any run a route stays in the table with its manifest for its day, listed by the server or not, if nobody signs out and no answer brings it anew |
| OutboxDay.UnlistedStaysInCash | apps/driver/src/platform/outbox-store.ts:202-204 | over any such stretch a parcel the manifest shows as delivered is in the cash of the day the screens show, whatever waits unconfirmed, if no other route of the day says something else of the parcel |
| OutboxDay.ReadsAsDeliveredExactly | apps/driver/src/core/manifest.ts:95-110 | in every reachable state a parcel this device delivered reads as delivered, on whatever manifest it holds, exactly if the manifest says so, or has it unsettled and the acceptance has not been written |
| OutboxDay.UnlistedInCashExactly | apps/driver/src/platform/outbox-store.ts:202-204 | so over such a stretch a parcel delivered by this device is in the cash of the day exactly if the manifests held say so, or have it unsettled and the acceptance has not been written |
| OutboxDay.AcceptanceTakesTheCash | apps/driver/src/platform/outbox-store.ts:202-204 | a legal run in which the server withdraws the route, then accepts a delivery recorded on it: in the cash while it waits, and not once it is accepted |
| OutboxFlicker.ReadsDelivered | apps/driver/src/services/field.ts:97-116 | at every moment of a run a parcel with one undismissed, unlost delivery reads as delivered on every active route, with the overlay read then or at any earlier moment |
| OutboxFlicker.NeverLeavesTheCash | apps/driver/src/core/manifest.ts:195-204 | and its cash on delivery stays in the day's cash |
| OutboxProof.CitedFilesChange | apps/driver/src/core/outbox.ts:415-446 | the photos and signatures a waiting delivery cites change exactly when one gets its key, is given up, is pruned or goes with a sign-out |
| OutboxProof.PruneStripsAWaitingDelivery | apps/driver/src/platform/outbox-store.ts:354-360 | a legal run of two flushes with housekeeping between them: the delivery is sent with its photo, and the second time it can only be sent without |
| OutboxOrder.AcceptanceMayOvertake | apps/driver/src/core/outbox.ts:277-287 | a legal run that accepts the later of two corrections of one address while the earlier one waits |
| OutboxSignOut.SignOutLosesADelivery | apps/driver/src/app/(tabs)/profile.tsx:88-98 | a legal run that counts nothing unsafe, records a delivery and deletes it unsent |
| OutboxSignOut.SignOutEmptiesTheCache | apps/driver/src/platform/outbox-store.ts:190-230 | a legal run with a sign-out between the report of the versions and the save, after which a listed route is missing |
| OutboxMeanwhile.ItemSurvives | apps/driver/src/core/outbox.ts:244-262 | what the screens do during an await leaves an item made from an action without an outcome correct |
| OutboxDevice.Device.PendingActions | apps/driver/src/platform/outbox-store.ts:152-157 | the waiting actions recorded by then, all of them, oldest first; after the await they still have no outcome |
| OutboxDevice.Device.UpdateAction | apps/driver/src/platform/outbox-store.ts:158-164 | writes the patch to the row if it is there, a step of the model |
| OutboxDevice.Device.UpdateMedia | apps/driver/src/platform/outbox-store.ts:183-189 | writes the patch to the row if it is there, a step of the model |
| OutboxDevice.Device.OpenMedia | apps/driver/src/platform/outbox-store.ts:165-172 | the captured and slotted files, each once, none missed, by the time they were captured |
| OutboxActions.SelectMedia | apps/driver/src/platform/outbox-store.ts:173-182 | the rows there are for the ids, each once |
| OutboxDevice.WriteRoutes | apps/driver/src/platform/outbox-store.ts:198-230 | the loops keep every id of the old table, give an updated row the update's version, manifest and date, keep them for any other, and leave active exactly what was listed or updated |
| OutboxDevice.Device.SaveRoutes | apps/driver/src/platform/outbox-store.ts:198-230 | the same of the table, as one step; until the next await nothing else |
| OutboxDevice.Device.Enqueue | apps/driver/src/platform/outbox-store.ts:244-276 | the action and its files are there together |
| OutboxDevice.Device.Dismiss | apps/driver/src/platform/outbox-store.ts:326-332 | a refused or escalated action is done; any other is left |
| OutboxDevice.Device.Prune | apps/driver/src/platform/outbox-store.ts:354-360 | done actions and settled files of before go |
| OutboxDevice.Device.CountUnsafe | apps/driver/src/platform/outbox-store.ts:377-385 | the number of actions that wait or are escalated plus that of the captured and slotted files; a count of zero is remembered |
| OutboxDevice.Device.SignOut | apps/driver/src/app/(tabs)/profile.tsx:88-98 | stops exactly if at the count some action waits or is escalated or a file is captured or slotted; otherwise everything is gone in the end, and what is lost was recorded after the count |
| OutboxDevice.Device.PendingOutcomes | apps/driver/src/platform/outbox-store.ts:288-301 | of every waiting or escalated delivery, failure and return, each once and in the order recorded, the parcel with what was done to it |
| OutboxDevice.SelectPending | apps/driver/src/platform/outbox-store.ts:152-157 | selects the waiting rows in order and misses none |
| OutboxDevice.SelectManifests | apps/driver/src/platform/outbox-store.ts:334-350 | the manifests of all active routes, and behind them those of all others, each once |
| OutboxDevice.Device.Sync | apps/driver/src/core/outbox.ts:156-159 | a sync call needs a batch that overtakes nothing; its answer in the model takes, discards and escalates exactly the keys whose first result says so |
| OutboxActions.TakeWhile | apps/driver/src/core/outbox.ts:448-455 | the longest prefix that satisfies the test, up to the maximum |
| OutboxActions.KeysFor | apps/driver/src/core/outbox.ts:421-424 | the object keys of exactly the files of the purpose that have one and were not given up, each once |
| OutboxActions.MakeItem | apps/driver/src/core/outbox.ts:415-446 | no item exactly while a file was still captured when the files were read; otherwise the action under its own key with its text, and a delivery with one signature if there is any and every photo once |
| OutboxActions.CollectItems | apps/driver/src/core/outbox.ts:242-253 | the items of a prefix of the batch, and the subject at which it stops deferred |
| OutboxActions.PrefixOvertakesNothing | apps/driver/src/core/outbox.ts:229-231 | a prefix of the queue contains every earlier waiting action of its subjects, further ahead |
| OutboxActions.Settle | apps/driver/src/core/outbox.ts:389-408 | the one write and the one count: a retry is one attempt more, an escalation escalates, a discard escalates a delivery and a completed return and refuses each of the five other kinds, always with code and detail |
| OutboxActions.SettleBatch | apps/driver/src/core/outbox.ts:276-288 | exactly the writes of the rulings in order, the subjects deferred that have an action without a result or with one to retry, and the tally equal to the actions moved |
| OutboxActions.WritesMeaning | apps/driver/src/core/outbox.ts:276-288 | those writes are one for each action with a result, in order: the patch of an acceptance, or what its verdict comes to for its kind |
| OutboxActions.CountAttempts | apps/driver/src/core/outbox.ts:263-273 | a refused envelope moves no action and ends no wait: each row of the batch is one attempt older |
| OutboxCalls.SyncRuling | apps/driver/src/core/outbox.ts:277-281 | by the first result under the key: done with its error cleared, or its verdict with code and detail; missing if there is none |
| OutboxCalls.ScanRuling | apps/driver/src/core/outbox.ts:316-325 | by the first result at the position: done, or its verdict with status and reason; missing if there is none |
| OutboxActions.TakeSync | apps/driver/src/core/outbox.ts:274-288 | the routes are saved before any action of the batch is written |
| OutboxActions.SendSync | apps/driver/src/core/outbox.ts:254-288 | one sync call, logged with its outcome: offline writes nothing, a refused envelope counts attempts, an answer writes exactly its rulings and settles or defers the head |
| OutboxActions.ScanBatch | apps/driver/src/core/outbox.ts:289-325 | the scans of one pickup in one call, and exactly the writes its outcome asks for |
| OutboxActions.PickupCall | apps/driver/src/core/outbox.ts:326-346 | a collection or completion, alone |
| OutboxActions.NextBatch | apps/driver/src/core/outbox.ts:233-346 | one turn makes the call the head's kind asks for: a sync for the four kinds of the sync call or none, one call with scans, one for a pickup, each with what the queue starts with |
| OutboxActions.QueueShrinks | apps/driver/src/core/outbox.ts:346-348 | with nothing new recorded, the queue read next is shorter: the loop ends |
| OutboxActions.ActionPhase | apps/driver/src/core/outbox.ts:226-348 | ends; the tally is right on every way out; offline exactly if a call of the loop was transient, stopped exactly if an envelope was refused; every deferred subject has an action without an outcome that a call left open, that has a file without a slot or that a sign-out took; at the end what still waits belongs to a deferred subject |
| OutboxFlush.SlotOne | apps/driver/src/core/outbox.ts:208-224 | one call for a slot: the file gets the artifact and key granted or is given up with the code, or the call was transient and nothing is written |
| OutboxFlush.SlotPhase | apps/driver/src/core/outbox.ts:208-224 | offline exactly if a call was transient; online, no file of before is left without a slot |
| OutboxFlush.RefreshPhase | apps/driver/src/core/outbox.ts:350-361 | one plain sync call: offline exactly if it was transient, its routes saved if it was answered |
| OutboxFlush.Deliver | apps/driver/src/core/outbox.ts:366-376 | if it succeeds its calls were, in order, a slot unless the flush had one, the upload if the slot names a place for it, and the completion |
| OutboxFlush.UploadOne | apps/driver/src/core/outbox.ts:363-384 | a file is written as uploaded, its error cleared, and discarded only after those calls succeeded and the server has completed its artifact; otherwise it is given up with the code, or the flush is offline |
| OutboxFlush.UploadPhase | apps/driver/src/core/outbox.ts:363-384 | online, every file that had its slot is settled |
| OutboxFlush.FlushOutbox | apps/driver/src/core/outbox.ts:195-387 | the flush ends, takes only steps of the model and reports the actions it moved; it is offline exactly if a call was transient; each deferred subject is accounted for by a call, a missing slot or a sign-out; online and with no envelope refused, what was recorded before and still waits was deferred; online, no file of before is on its way and a sync was saved or refused |
| OutboxFlush.RunSync | apps/driver/src/services/field.ts:131-161 | one housekeeping with a cutoff of 604800000 milliseconds back after an online flush, none after an offline one |
| Manifests.OverlayMeaning | apps/driver/src/core/manifest.ts:95-118 | while the status is unsettled the first pending outcome decides between delivered, failed and returned and marks the parcel as unsent; otherwise the status decides |
| Manifests.FirstPendingMeaning | apps/driver/src/core/manifest.ts:95-96 | the outcome recorded first for the parcel, none if there is none |
| Manifests.StopViewMeaning | apps/driver/src/core/manifest.ts:129-151 | a stop of the day is open exactly if it is pending or arrived and, on a delivery stop, some shipment is unsettled with nothing pending for it; it shows its shipments in order, and as cash still to collect the sum over those shipments in each currency, without zeros |
| Manifests.UniqueParcels | apps/driver/src/core/manifest.ts:259-272 | the nested loops give each parcel on a delivery stop once, as it is first listed |
| Manifests.ListedMeaning | apps/driver/src/core/manifest.ts:259-272 | a shipment is listed exactly if it is on a delivery stop of a manifest |
| Manifests.FirstsAreDistinct | apps/driver/src/core/manifest.ts:259-272 | no parcel twice, and all of them |
| Manifests.EachParcelCountsOnce | apps/driver/src/core/manifest.ts:259-272 | further routes that list the same parcels change neither the day, the cash nor the progress |
| Manifests.CashMeaning | apps/driver/src/core/manifest.ts:195-204 | the cash of a currency is the sum over the set of delivered parcels |
| Manifests.ProgressBounds | apps/driver/src/core/manifest.ts:178-189 | delivered and failed together are at most done, which is at most the total |
| Manifests.ProgressMeaning | apps/driver/src/core/manifest.ts:178-189 | the numbers are sizes of sets: all listed parcels, those not to do any more, those that read delivered and those that read failed |
| Manifests.ConfirmingKeepsTheDay | apps/driver/src/core/manifest.ts:95-110 | when the server confirms a sole pending delivery, cash and progress stay |
| Manifests.CanCompleteMeaning | apps/driver/src/core/manifest.ts:241-246 | a route may be completed exactly when it runs and each of its stops is neither pending nor arrived, or is a delivery stop none of whose shipments is unsettled with nothing pending; then it has no next stop |
| Manifests.NextStopMeaning | apps/driver/src/core/manifest.ts:154-168 | the next stop is missing exactly when no stop needs the driver in that sense; otherwise it does, no stop of a route ahead by status, planned date and code does, and on its own route none with a smaller number, or with the same number listed before it |
| Manifests.SortIsStable | apps/driver/src/core/manifest.ts:156-158 | the stops of a route by sequence number, each once, and with the same number in the order listed |
| Manifests.DeliveredEverywhereIsInCash | apps/driver/src/core/manifest.ts:195-204 | a parcel that reads delivered wherever it is listed is in the cash |
| MoneyText.UngroupFrom | apps/driver/src/core/money.ts:39 | taking the separators out undoes putting them in |
| MoneyText.GroupsOfThree | apps/driver/src/core/money.ts:39 | the separators stand before every third digit from the right, and nowhere else |
| MoneyText.SpacesAreWhite | apps/driver/src/core/money.ts:73-75 | white space is exactly the 25 characters of ECMAScript |
| MoneyText.RemoveSpacesMeaning | apps/driver/src/core/money.ts:73-75 | removing it keeps every other character, in order |
| MoneyText.FormatMeaning | apps/driver/src/core/money.ts:30-42 | what is no integer is shown unchanged; an integer with its sign, the whole part without leading zeros in groups behind U+202F, and exactly the exponent's decimals behind a comma in French and a point otherwise |
| MoneyText.ParseUndoesFormat | apps/driver/src/core/money.ts:30-42 | reading a formatted amount gives its digits without leading zeros, for every exponent and locale |
| MoneyText.ParseIsExact | apps/driver/src/core/money.ts:73-87 | an amount is refused exactly when it spells no decimal or one with too many decimals; else it is the spelled decimal times ten to the exponent in canonical digits |
| MoneyText.SpelledIsMatched | apps/driver/src/core/money.ts:73-78 | a text of digits, perhaps a mark and more digits is matched as exactly that decimal, so it spells one at most |
| MoneyText.MatchedIsSpelled | apps/driver/src/core/money.ts:73-78 | what is matched spells the text that was typed |
| MoneyText.MinorUnitsAreFloor | apps/web/src/lib/minor-units.ts:19-31 | the floor of the typed amount times ten to the exponent, in canonical digits, with or without digits before the mark |
| MoneyText.CommaMeaning | apps/web/src/lib/minor-units.ts:22 | only the first comma of a text becomes a full stop |
| MoneyText.PointsMeaning | apps/web/src/lib/minor-units.ts:22 | the whole part is what stands before the first full stop, and the decimals what stands between it and the second, whatever the text |
| MoneyText.MinorUnitsAgree | apps/web/src/lib/minor-units.ts:19-31 | the two apps agree wherever the driver app accepts the amount, and it refuses exactly the ones with too many decimals |
| MoneyText.FormattersAgree | apps/web/src/lib/format.ts:14-38 | dividing the integer and slicing its digits print the same text for every integer and exponent, with a comma between groups and a point in English, a space and a comma otherwise |
| MoneySums.SumLoop | apps/driver/src/core/money.ts:49-66 | the map, the sort and the list are the sum by currency |
| MoneySums.SumMeaning | apps/driver/src/core/money.ts:49-66 | one entry per currency that occurs, in order, with exactly its total and the exponent of its last readable amount |
| MoneySums.AscendingIsUnique | apps/driver/src/core/money.ts:59-60 | sorting the codes has one result |
| MoneySums.LessMeaning | apps/driver/src/core/money.ts:59-60 | codes are in the order of strings: the smaller character where they first differ, or the shorter one |
| MoneySums.RemainingMeaning | apps/driver/src/core/money.ts:94-104 | for any list, what is left in a currency is the sum over its entries of each amount minus all declared in it, never below zero, and only what is owed is listed |
| MoneySums.RemainingAt | apps/driver/src/core/money.ts:94-104 | entry by entry and in order: exactly the entries above what was declared in their currency, with that currency and exponent and the difference |
| MoneySums.RemainingOfTotals | apps/driver/src/core/money.ts:94-104 | with one entry per currency it is collected minus declared |
| TelemetryQueue.SealMeaning | apps/driver/src/platform/telemetry-store.ts:45-50 | sealing labels the oldest rows of the shift, up to the maximum, and changes nothing else |
| TelemetryQueue.SealingMeaning | apps/driver/src/platform/telemetry-store.ts:31-53 | the batch to send is one shift's oldest rows, at most a thousand, and there is none exactly when the queue is empty |
| TelemetryQueue.FirstSealedIsOldest | apps/driver/src/platform/telemetry-store.ts:33-39 | the open batch is the one of the oldest row that has any |
| TelemetryQueue.SealingChoice | apps/driver/src/platform/telemetry-store.ts:31-53 | an open batch is kept with the table as it is; without one the oldest row's shift is sealed under the new id, whole or a thousand of its rows |
| TelemetryQueue.BatchAt | apps/driver/src/platform/telemetry-store.ts:58-74 | the points read back are those of the batch's rows that have a body, every one, in the table's order |
| TelemetryQueue.Parted | apps/driver/src/platform/telemetry-store.ts:76-79 | a batch and what is left without it are the queue |
| TelemetryQueue.Queue.Append | apps/driver/src/platform/telemetry-store.ts:12-25 | behind the old rows one for each fix, in order, with its shift, time and body under the next numbers |
| TelemetryQueue.Queue.NextBatch | apps/driver/src/platform/telemetry-store.ts:27-74 | an open batch under its old id, else a new one; its points are as many as its rows with a body, and an increasing map takes each point to the row it came from and leaves out no such row |
| TelemetryQueue.Queue.Remove | apps/driver/src/platform/telemetry-store.ts:76-79 | exactly the rows of the batch go |
| TelemetryFlush.BackoffMeaning | apps/driver/src/core/telemetry.ts:99-102 | the ceilings of the backoff, and a delay below them |
| TelemetryFlush.Flush | apps/driver/src/core/telemetry.ts:130-202 | the loop leaves the queue and the report its rounds define |
| TelemetryFlush.PointsAreConserved | apps/driver/src/core/telemetry.ts:130-202 | every point queued before is queued still or went with a batch accepted or dropped, never both |
| TelemetryFlush.ShiftsLeaveInOrder | apps/driver/src/core/telemetry.ts:18-19 | the batches of a flush are of one shift each, within the cap, and a shift's leave in capture order |
| TelemetryFlush.CountsAreLegs | apps/driver/src/core/telemetry.ts:104-114 | the report's numbers are the batches and points accepted and the batches dropped |
| TelemetryFlush.ReportMeaning | apps/driver/src/core/telemetry.ts:130-202 | from the answers: only the last one stops it; the shift is closed exactly if that was outside the shift, a sign-in is needed exactly if it was unauthenticated, the delay is the server's or the backoff after a failure; unstopped, ten batches ask again in a second and fewer leave the queue empty |
| TelemetryFlush.DoneMeansEmpty | apps/driver/src/core/telemetry.ts:136-145 | no retry and neither flag: the queue is empty |
| TelemetryFlush.RetryIsNotWork | apps/driver/src/core/telemetry.ts:193-201 | unstopped, a flush asks to be called again exactly from ten batches on, and leaves work exactly from eleven |
| TelemetryFlush.EmptyYetRetried | apps/driver/src/core/telemetry.ts:193-201 | ten batches of one readable point each that empty the queue and still ask for a retry |
| TelemetryTracker.Tracker.Store | apps/driver/src/services/tracker.ts:71-92 | without an open shift nothing is stored; with one, behind the old rows one for each fix that is not mocked, in order, and the others are counted |
| TelemetryTracker.Tracker.UploadIfDue | apps/driver/src/services/tracker.ts:103-136 | flushes exactly when forced, or when the retry time has come and there are fifty rows or one old enough, and keeps the attempt, the retry time and the shift by the report |
| TelemetryTracker.FullFlushCountsAsFailure | apps/driver/src/services/tracker.ts:126-132 | an unstopped flush counts as a failed attempt exactly when it sent ten batches |
| TelemetryRuns.RunsKeepInv | apps/driver/src/platform/telemetry-store.ts:27-79 | every interleaving of appends, sealings, reads, uploads, removals and deaths keeps the invariant |
| TelemetryRuns.SameIdSamePoints | apps/driver/src/core/telemetry.ts:15-17 | all uploads under one id carry the same points: those captured, in capture order, that were sealed under it and can be read |
| TelemetryRuns.StoredOnce | apps/driver/src/core/telemetry.ts:15-17 | every stored batch is made of captured points, no number is in two of them, and each readable point sealed under an id settled as accepted is in the batch stored under that id |
| TelemetryRuns.CapturedIsKept | apps/driver/src/core/telemetry.ts:12-14 | every captured point is queued with the body it was captured with, or its batch was given up, or accepted, and then the point is among the positions stored under the batch's id |
| TelemetryRuns.ShiftsAreSealedInOrder | apps/driver/src/platform/telemetry-store.ts:40-51 | a shift's batches are sealed in capture order, within the cap, and one waits at a time |
| SessionModel.NoReplay | apps/driver/src/core/api.ts:7-11 | while answers arrive, the session is kept and renewed sessions outlive requests, no exchanged token is presented again, over every interleaving |
| SessionModel.ReplayExactly | apps/driver/src/core/api.ts:148-163 | while answers arrive, the session is kept and the driver signs in only while signed out, a refresh presents a spent token exactly when the stored session is another than the one it holds and has expired |
| SessionModel.ReplaysTheSpent | apps/driver/src/core/api.ts:148-163 | without the last assumption: exactly when the token it holds is spent and the stored session has expired |
| SessionModel.LostAnswersReplay | apps/driver/src/core/api.ts:148-163 | a run with a lost answer that replays |
| SessionModel.ClearedSessionsReplay | apps/driver/src/core/api.ts:148-163 | a run with a cleared session that replays |
| SessionModel.OutlivedSessionsReplay | apps/driver/src/core/api.ts:148-163 | a run with an expired renewal that replays |
| SessionRequests.RequestAfter | apps/driver/src/core/api.ts:92-140 | one step, for one request: sent at once with the stored session exactly if that is good for more than thirty seconds, else it waits; a first 401 makes it wait, a second ends it; resumed with a session it is sent with that access token, resumed with none it ends |
| SessionRequests.RefreshAfter | apps/driver/src/core/api.ts:141-171 | one step, for the refresh: started by the first who needs it and joined by the others, and settled once; the token is presented exactly unless another session is stored that is still good |
| SessionRequests.WaitersAreResumed | apps/driver/src/core/api.ts:141-171 | over every run, when a refresh is over each request that waited for it goes on with exactly the session it settled with: the tokens of the last exchange with the lifetime from the clock at arrival, or the stored one it found; with none exactly if the exchange failed, was refused, or lost its answer |
| SessionRequests.NextSending | apps/driver/src/core/api.ts:106-114 | over every run from there, the next sending of a resumed request carries the access token of that session, and there is none if there was no session |
| SessionRequests.WaitersSendWithIt | apps/driver/src/core/api.ts:92-114 | both together, for a request that waited |
| SessionRequests.SentAtMostTwice | apps/driver/src/core/api.ts:92-114 | over every run a request is sent at most twice, and one that waits has a refresh to wait for |
| SessionClient.ApiClient.JoinRefresh | apps/driver/src/core/api.ts:141-146 | one refresh in flight: a second caller joins it |
| SessionClient.ApiClient.SessionLoaded | apps/driver/src/core/api.ts:130-139 | not signed in it ends, with a session good for thirty seconds it is sent with its access token, otherwise it waits; a step of the model |
| SessionClient.ApiClient.Answered | apps/driver/src/core/api.ts:106-114 | a first 401 makes it wait for a refresh, anything else ends it; a step of the model |
| SessionClient.ApiClient.Refreshed | apps/driver/src/core/api.ts:108-113 | sent again with the access token of the session it was resumed with, or ended without one; a step of the model |
| SessionClient.ApiClient.LatestLoaded | apps/driver/src/core/api.ts:148-163 | a step of the model, and no spent token presented under the assumptions |
| SessionClient.ApiClient.DoRefresh | apps/driver/src/core/api.ts:148-150 | a step of the model: the session is loaded again before the token is presented |
| SessionClient.ApiClient.RefreshSettled | apps/driver/src/core/api.ts:142-144 | every waiting request, and no other, goes on with what the refresh settled with, traced to the step of the run that settled it; the next refresh is a new one; a step of the model |
| SessionClient.ApiClient.RefreshAnswered | apps/driver/src/core/api.ts:164-170 | a step of the model: adopted, refused and cleared, or lost |
| SessionClient.ApiClient.Interleave | apps/driver/src/core/api.ts:92-171 | any number of pieces of the client, the server and the app in any order are a run of the model; while answers arrive, the session is kept and renewals outlive requests, no spent token has been presented |
| Sampling.MotionClassifier.Take | apps/driver/src/core/sampling.ts:148-172 | one fix: a late one changes nothing, one of unknown speed only the last fix, 4 m/s or more is moving, 0.7 m/s or more slow, and 120000 milliseconds below that stationary |
| Sampling.MotionClassifier.Observe | apps/driver/src/core/sampling.ts:141-146 | the fixes in order |
| Sampling.FeedMeaning | apps/driver/src/core/sampling.ts:127-181 | parked if known speeds after the last brisk fix span two minutes, else the class of that fix, else the initial motion, over strictly later fixes only |
| Sampling.FeedComposes | apps/driver/src/core/sampling.ts:140-146 | on one instance a stream may be fed in pieces |
| Sampling.RebuiltAgrees | apps/driver/src/services/tracker.ts:139-153 | for any fixes so far and any delivery, exactly when a classifier rebuilt from its motion agrees with the one kept: on stale fixes if nothing later comes, else by a brisk fix behind the first later one or by what that fix makes of the two states |
| Sampling.RebuiltWithSpeed | apps/driver/src/services/tracker.ts:139-153 | for a delivery with nothing stale whose first fix carries its speed: it disagrees exactly if the van stood unparked, stayed so, and the two minutes are full only counting from before the break |
| Sampling.RebuiltWithoutSpeed | apps/driver/src/services/tracker.ts:139-153 | the same for a first fix without its speed |
| Sampling.ParkedWithinOneDelivery | apps/driver/src/services/tracker.ts:139-153 | over any list of deliveries, each on a rebuilt classifier, the van counts as parked exactly if the fixes of one delivery span two still minutes and no later one has a brisk fix, or it was parked before and none has |
| Sampling.RestartUnparks | apps/driver/src/services/tracker.ts:143-144 | two minutes of standing that only the kept classifier sees |
| Csv.ParseCsv | apps/web/src/lib/csv.ts:24-89 | the index loop reads what the reader's state machine reads |
| Csv.TrimMeaning | apps/web/src/lib/csv.ts:83-87 | trimming takes white space off both ends and nothing else |
| Csv.TableMeaning | apps/web/src/lib/csv.ts:75-88 | the first row without white space at the ends of its cells is the headers, and behind it every row is kept, in order, that has a cell with anything but white space |
| Csv.ParseUndoesPrint | apps/web/src/lib/csv.ts:24-89 | reading undoes printing for every choice section 2 of RFC 4180 leaves, every delimiter, with or without a mark and a last line end, exactly outside two corners |
| Csv.ReadParts | apps/web/src/lib/csv.ts:40-72 | quotes may open and close anywhere in a field, and carriage returns outside them are lost |
| Csv.ReadUnclosed | apps/web/src/lib/csv.ts:40-72 | a quote that is not closed takes the rest of the text |
| Csv.CleanTableIsMeant | apps/web/src/lib/csv.ts:82-88 | trimmed headers and rows that are not blank come back as they were |
| ZonedTime.FoundIfItExists | apps/web/src/lib/zoned-time.ts:73-78 | with one change nearby, the result shows the wall time exactly when some instant does |
| ZonedTime.OverlapPicksOne | apps/web/src/lib/zoned-time.ts:73-78 | in an overlap it is one of the only two instants, and which |
| ZonedTime.GapIsOffByTheChange | apps/web/src/lib/zoned-time.ts:73-78 | in a gap its clock is off by exactly the change, and in which direction |
| ZonedTime.OnePassExactly | apps/web/src/lib/zoned-time.ts:73-78 | one pass would do exactly if the naive time and the instant it leads to are on one side of the change, or nothing changes |
| ZonedTime.OnePassIsNotEnough | apps/web/src/lib/zoned-time.ts:73-78 | a spring night on which it does not |
| ZonedTime.TwoChangesAreTooMany | apps/web/src/lib/zoned-time.ts:73-78 | two changes of an hour, two hours apart, defeat two passes |

## Left out

- The HTTP layer, zod schemas, row decoding, SQL text and the encrypted database: tables are maps and sequences, a
  transaction is one step, and an answer that cannot be read is one that did not arrive.
- The server's own services: assumed as said above. `features`, `serverTime` and `resultingStatus` only pass through.
- Object ids, idempotency keys, tokens and versions are integers that are only compared; a version stands for the digest
  of its manifest.
- OutboxFlush.FlushOutbox: of `reachedServer` its contract says only that a call was answered; the converse fails, since a
  refused refresh or an answered slot before a transient upload does not set it.
- Device.SignOut: starts at the count. The sync before it is a flush like any other, the telemetry upload and the end of
  tracking in between are a pause, and the session and the screens' memory are not part of it.
- OutboxFlush.Deliver: the log has the calls, not the bytes that are put.
- OutboxSignOut.SignOutEmptiesTheCache: its version names its own manifest on the server, or none yet.
- Manifests.NextStopMeaning: the device's collation of route codes is any total and transitive order, and of two routes
  with the same status, date and code it does not say which is first.
- OutboxDay.UnlistedStaysInCash: of two manifests of the day that give one parcel different statuses the first listed
  counts, and of the rows that are alike in `active` the query gives any first.
- Tracker.UploadIfDue: the durable keys are those this call read and wrote; what another runtime writes to them in
  between is not in it (what runtimes do to the queue is, in `TelemetryRuns`).
- OutboxActions.SettleBatch: the rulings of a batch are looked up before its writes, not between them.
- The screens' reads (`recentActions`, `localScans`, `findParcel`, `findShipment`, `currentRoute`), the configuration and
  the shift refresh: easy beside what is here.
- Concurrent flushes: `syncNow` lets one run at a time, which the model takes as given.
- Another runtime's session refresh, which has its own client: outside what the code guarantees.
- Sampling: the haversine formula is a parameter, and `profileFor` is a table.
- ZonedTime: the pattern of the wall-clock string and the tz database are parameters; instants are whole milliseconds.
- Csv: the delimiter is one character, and strings are sequences of the characters Dafny has, which leaves lone
  surrogates out.
- Money labels, `formatDateTime` and everything about languages.
- Manifests: unknown statuses are one constructor each, planned dates are integers, and `localeCompare` is a parameter.
