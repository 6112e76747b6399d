# SimCash pending-SMS pipeline and client state, in Dafny

SimCash is a React Native app that turns an Android phone into an SMS relay.
This project models its core in Dafny and proves properties of that model.

**The native pending-SMS pipeline (Kotlin).**
- `SmsReceiver` turns each inbound SMS into one start request for `BackgroundService`.
- The service either emits the message straight to JavaScript or, with no React context or when the emit throws, parks it in the private `simcash_prefs` store. The key is `pending_sms_<millis>` and the value is `sender|body`.
- `BackgroundService.readAndClearPending` and `NativeSmsModule.emitPendingMessagesToJs` drain that store. The drain splits each value at its first `|`.
- `BootReceiver` re-arms the service after a reboot.
- `NativeSmsModule.isDefaultSmsApp` and `sendSms` are modelled as decisions over the outcome of the operating-system call.

**The JavaScript side (TypeScript).**
- The Redux reducers of the `sims`, `messages`, `payouts`, `dashboard` and `auth` slices.
- The storage layer of `services/smsService.ts`: a lazily created singleton that is either the native MMKV store or an in-memory fallback dictionary. Built on it are the received-messages log and two lookups with defaults.
- The permission aggregation of `hooks/usePermissions.ts`.

One Dafny module stands for each source file:

| Module | Source file |
|---|---|
| `BackgroundServer` | `BackgroundServer.kt` |
| `NativeSmsModule` | `NativeSmsModule.kt` |
| `SmsReceiver` | `SmsReciever.kt` |
| `BootReceiver` | `BootReciever.kt` |
| `SmsService` | `smsService.ts` |
| `Permissions` | `usePermissions.ts` |
| `SimSlice`, `MessageSlice`, `PayoutSlice`, `DashboardSlice`, `AuthSlice` | the slice files |

Helper modules:
- `Common`: nullable values, string prefixes, and the object-spread rule.
- `Decimal`: `Long.toString` for non-negative numbers.
- `AndroidPrefs`: `SharedPreferences` and its `Editor`.
- `AndroidOs`: the service intents and the start-request log.
- `ReactBridge`: the device event emitter.
- `PendingStore`: the key and value layout shared by the writer and the drain.
- `Records`: `findIndex`, replace-by-id and filter-by-id, shared by the reducers.
- `Pipeline`: properties that span several files.

The model keeps the source's own form:
- **objects that change state are classes.** The preferences store, its editor, the event emitter, the OS context, the service, the native module, every slice state, the storage instance, the service's module state and the permissions hook all update their fields. Their methods carry `modifies` clauses and state the whole new state.
- **loops are `while` loops with invariants.** These are the receiver's per-message loop, the drain's emit loop, the editor's `forEach { remove }` and the fallback's `clearAll`.
- **pure logic is functions and lemmas about them.**

Inputs from outside the model are parameters or oracles:
- the clock reading: `now` and `isoNow`;
- whether a React context exists and whether an emit throws: `Option<ReactContext>`, plus the `failing` key set for the drain;
- what the OS does with each start request: `StartOutcome`;
- what `getDefaultSmsPackage` and the SMS send do;
- whether `createMMKV` throws;
- the permission statuses.

The drain's `HashMap` iteration order is not fixed. The emit loop picks each next key nondeterministically and reports the order it used as a ghost out-parameter.

Points where the code behaves in ways a reader might not expect; the model follows the code in each:
- **Same-millisecond saves overwrite.** `savePendingSms` keys each entry by `System.currentTimeMillis()` (`BackgroundServer.kt:78-79`), so two saves in the same millisecond write the same key and only the later one survives (`BackgroundServer.SameMillisecondOverwrites`).
- **Empty senders are accepted.** `onStartCommand` checks only that `sender` and `body` are non-null (`BackgroundServer.kt:47`), so an empty sender or body is processed and stored like any other.
- **The drain is at most once.** A message whose emit fails during the drain is still removed and never re-persisted, so delivery is at most once (`Pipeline.DrainIsAtMostOnce`), not exactly once.
- **One start request per PDU.** A multipart SMS arrives as several `SmsMessage` parts. The receiver forwards one start request per part, so a long text reaches the service as several messages.
- **`requestPermissions` cannot answer yes as things stand.** It reads `NativeModules.DefaultSmsModule`, but no module named `DefaultSmsModule` is registered: the Kotlin class the repository shows names itself `SmsModule` (`NativeSmsModule.kt:20`). Its `requestDefaultSmsApp` also returns nothing. The model takes that call's outcome as an input (`None` when it throws).

## Model

| member | source | states |
|---|---|---|
| `PendingStore.PendingKey` | android/app/src/main/java/com/simcash/BackgroundServer.kt:78 | the key written at millisecond `now` always starts with `pending_sms_` |
| `PendingStore.PendingKeyInjective` | android/app/src/main/java/com/simcash/BackgroundServer.kt:78 | two saves share a key if and only if they read the same millisecond |
| `Decimal.ToDecimal` | android/app/src/main/java/com/simcash/BackgroundServer.kt:78 | `toString()` of a millisecond count is a non-empty digit string without leading zero |
| `Decimal.DecimalRoundTrip` | android/app/src/main/java/com/simcash/BackgroundServer.kt:78 | reading the decimal text back gives the number |
| `Decimal.ToDecimalInjective` | android/app/src/main/java/com/simcash/BackgroundServer.kt:78 | distinct numbers have distinct decimal texts, both directions |
| `PendingStore.FirstIndexOf` | android/app/src/main/java/com/simcash/NativeSmsModule.kt:74 | the index of the first separator bar, or -1 exactly when there is none |
| `PendingStore.Decode` | android/app/src/main/java/com/simcash/NativeSmsModule.kt:74-77 | a value without a bar decodes to (value, ""); otherwise the sender has no bar and re-encoding gives the value back |
| `PendingStore.Encode` | android/app/src/main/java/com/simcash/BackgroundServer.kt:79 | the value is the sender, one bar, then the body, at fixed positions |
| `PendingStore.DecodeEncode` | android/app/src/main/java/com/simcash/NativeSmsModule.kt:74-77 | for a sender without a bar, decoding the stored pair gives back (sender, body), even when the body contains bars |
| `PendingStore.DecodeSplitsBarredSender` | android/app/src/main/java/com/simcash/NativeSmsModule.kt:74 | a sender containing a bar does not round-trip: the sender "a" bar "b" with body "c" comes back split after "a" |
| `PendingStore.PendingEntries` | android/app/src/main/java/com/simcash/BackgroundServer.kt:85 | the drained batch is exactly the entries whose key has the prefix, with their values |
| `PendingStore.OtherEntries` | android/app/src/main/java/com/simcash/BackgroundServer.kt:88-90 | what a drain leaves is exactly the entries without the prefix, untouched |
| `PendingStore.DrainPartitions` | android/app/src/main/java/com/simcash/BackgroundServer.kt:85-91 | the batch and the remainder are disjoint and together make up the store |
| `PendingStore.DrainLeavesNothingPending` | android/app/src/main/java/com/simcash/BackgroundServer.kt:85-91 | a second drain with no save in between finds nothing and changes nothing |
| `PendingStore.SaveIsPending` | android/app/src/main/java/com/simcash/BackgroundServer.kt:78-79 | a save adds its entry to the pending batch and leaves the other entries unchanged |
| `AndroidPrefs.Commit` | android/app/src/main/java/com/simcash/BackgroundServer.kt:88-90 | `apply()` gives put keys their value, removes removed keys, and keeps every untouched key |
| `AndroidPrefs.CommitRemovals` | android/app/src/main/java/com/simcash/BackgroundServer.kt:89-90 | an editor that only removed a key set leaves the store minus those keys |
| `AndroidPrefs.CommitPut` | android/app/src/main/java/com/simcash/BackgroundServer.kt:79 | an editor holding one `putString` changes that key only |
| `AndroidPrefs.SharedPreferences.Edit` | android/app/src/main/java/com/simcash/BackgroundServer.kt:79 | `edit()` yields a fresh editor with no recorded change |
| `AndroidPrefs.Editor.PutString` | android/app/src/main/java/com/simcash/BackgroundServer.kt:79 | records the put of one key |
| `AndroidPrefs.Editor.Remove` | android/app/src/main/java/com/simcash/BackgroundServer.kt:89 | records the removal of one key |
| `AndroidPrefs.Editor.Apply` | android/app/src/main/java/com/simcash/BackgroundServer.kt:90 | the store becomes the commit of the recorded edits over the old store |
| `AndroidPrefs.Editor.RemoveEach` | android/app/src/main/java/com/simcash/BackgroundServer.kt:89 | the `forEach { remove }` loop records a removal of exactly every key of the set |
| `ReactBridge.IncomingSms` | android/app/src/main/java/com/simcash/BackgroundServer.kt:54-60 | the emitted event is `SimCashIncomingSms` with the given sender and body |
| `ReactBridge.DeviceEventEmitter.Emit` | android/app/src/main/java/com/simcash/BackgroundServer.kt:58-60 | a successful emit appends the event; a throwing one delivers nothing |
| `AndroidOs.Context.StartForegroundService` | android/app/src/main/java/com/simcash/SmsReciever.kt:26 | an accepted foreground start logs one foreground request; a refused one logs nothing |
| `AndroidOs.Context.StartService` | android/app/src/main/java/com/simcash/SmsReciever.kt:29 | an accepted plain start logs one plain request; a refused one logs nothing |
| `AndroidOs.StartWithFallback` | android/app/src/main/java/com/simcash/SmsReciever.kt:25-30 | the plain start is tried only when the foreground start throws; it returns normally unless both throw |
| `AndroidOs.StartsFor` | android/app/src/main/java/com/simcash/SmsReciever.kt:25-30 | at most one start request, none exactly when both starts throw, carrying the intent and plain exactly when the foreground start threw |
| `BackgroundServer.BackgroundService.OnStartCommand` | android/app/src/main/java/com/simcash/BackgroundServer.kt:43-73 | returns `START_STICKY` on every path; the store and the emitted events are as the deliver-or-persist rule says |
| `BackgroundServer.BackgroundService.SavePendingSms` | android/app/src/main/java/com/simcash/BackgroundServer.kt:75-80 | the store gains the encoded sender and body under the millisecond key, overwriting any value already there |
| `BackgroundServer.BackgroundService.ReadAndClearPending` | android/app/src/main/java/com/simcash/BackgroundServer.kt:83-92 | returns exactly the prefixed entries and removes exactly them |
| `BackgroundServer.StartWithoutMessageIsInert` | android/app/src/main/java/com/simcash/BackgroundServer.kt:44-47 | with either extra null, nothing is emitted and nothing is written |
| `BackgroundServer.StartTouchesOnlyItsKey` | android/app/src/main/java/com/simcash/BackgroundServer.kt:43-79 | a start writes at most the key of its own clock reading, with the encoded message when it persists, and leaves every other entry |
| `BackgroundServer.DeliveredOnStart` | android/app/src/main/java/com/simcash/BackgroundServer.kt:47-65 | at most one event, carrying the intent's sender and body; for a message, no event exactly when it is persisted |
| `BackgroundServer.StartWithoutContextSavesOne` | android/app/src/main/java/com/simcash/BackgroundServer.kt:66-69 | with no React context, exactly one entry is written (key `pending_sms_`+now, value sender, bar, body) and nothing is emitted |
| `BackgroundServer.StartDeliveredLeavesStore` | android/app/src/main/java/com/simcash/BackgroundServer.kt:53-61 | a successful emit delivers the message once and leaves the store unchanged |
| `BackgroundServer.StartNeverDrops` | android/app/src/main/java/com/simcash/BackgroundServer.kt:53-69 | for a sender without a bar: a message is delivered to JavaScript or can be read back from the store under its key, exactly one of the two |
| `BackgroundServer.SameMillisecondOverwrites` | android/app/src/main/java/com/simcash/BackgroundServer.kt:78-79 | two saves in one millisecond leave only the later value, and the batch grows by that one key |
| `BackgroundServer.DistinctMillisecondsKeepBoth` | android/app/src/main/java/com/simcash/BackgroundServer.kt:78-79 | saves at different milliseconds keep both values |
| `NativeSmsModule.IsDefaultSmsApp` | android/app/src/main/java/com/simcash/NativeSmsModule.kt:22-31 | resolves true if and only if the default SMS package equals the app's own package; a throwing lookup rejects with `ERR` |
| `NativeSmsModule.SendSms` | android/app/src/main/java/com/simcash/NativeSmsModule.kt:45-63 | uses the default manager if and only if there is no subscription id; resolves true if and only if the send returns; `PERMISSION_DENIED` exactly on a `SecurityException`, `SEND_FAILED` otherwise |
| `NativeSmsModule.EventOf` | android/app/src/main/java/com/simcash/NativeSmsModule.kt:74-80 | the drain's event for a stored value carries the decoded sender and body |
| `NativeSmsModule.NativeSmsModule.EmitPendingMessagesToJs` | android/app/src/main/java/com/simcash/NativeSmsModule.kt:66-92 | one emit attempt per pending key, each exactly once, in some order; then no prefixed key remains and every other entry is unchanged |
| `NativeSmsModule.NativeSmsModule.EmitEach` | android/app/src/main/java/com/simcash/NativeSmsModule.kt:73-84 | the loop visits every key of the batch exactly once and the event log grows by the replay of that order, failed emits skipped |
| `NativeSmsModule.NativeSmsModule.RemoveKeys` | android/app/src/main/java/com/simcash/NativeSmsModule.kt:86-88 | one editor removing each key, then `apply()`, deletes exactly those keys from the store |
| `NativeSmsModule.ReplaySnoc` | android/app/src/main/java/com/simcash/NativeSmsModule.kt:73-84 | visiting one more key adds its decoded event, or nothing when its emit throws |
| `NativeSmsModule.ReplayDeliversAll` | android/app/src/main/java/com/simcash/NativeSmsModule.kt:73-84 | with no failing emit, each pending entry is delivered once, in iteration order, decoded |
| `NativeSmsModule.ReplayFromSucceeded` | android/app/src/main/java/com/simcash/NativeSmsModule.kt:78-83 | every delivered event comes from an entry whose emit did not fail |
| `NativeSmsModule.ReplayAllFail` | android/app/src/main/java/com/simcash/NativeSmsModule.kt:78-83 | when every emit throws, nothing is delivered |
| `SmsReceiver.IntentFor` | android/app/src/main/java/com/simcash/SmsReciever.kt:19-22 | the service intent carries the message's sender and body |
| `SmsReceiver.FirstAbort` | android/app/src/main/java/com/simcash/SmsReciever.kt:13-31 | the first message whose two starts both throw, which ends the loop |
| `SmsReceiver.Forwarded` | android/app/src/main/java/com/simcash/SmsReciever.kt:13-30 | at most one accepted start request per message handled, and none when every start is refused twice |
| `SmsReceiver.OnReceive` | android/app/src/main/java/com/simcash/SmsReciever.kt:10-33 | a wrong action logs no start request; otherwise the log gains the accepted requests for the messages up to the first escaping exception |
| `SmsReceiver.ForwardedOnePerMessage` | android/app/src/main/java/com/simcash/SmsReciever.kt:12-30 | one start request per message, in message order, carrying its sender and body, started plainly if and only if the foreground start threw |
| `BootReceiver.OnReceive` | android/app/src/main/java/com/simcash/BootReciever.kt:9-19 | only `BOOT_COMPLETED` starts the service, with the extra-less intent and the fallback |
| `BootReceiver.BootStartsAtMostOnce` | android/app/src/main/java/com/simcash/BootReciever.kt:12-17 | a boot logs at most one start request, plain if and only if the foreground start threw |
| `Pipeline.KeysOfPending` | android/app/src/main/java/com/simcash/BackgroundServer.kt:78 | every key a detached delivery writes is a pending key |
| `Pipeline.KeysOfContains` | android/app/src/main/java/com/simcash/BackgroundServer.kt:78 | each detached delivery's key is among the keys written |
| `Pipeline.KeysOfAvoids` | android/app/src/main/java/com/simcash/BackgroundServer.kt:78 | a millisecond no delivery used has a key no delivery wrote |
| `Pipeline.KeysOfSize` | android/app/src/main/java/com/simcash/BackgroundServer.kt:78 | deliveries at distinct milliseconds write that many distinct keys |
| `Pipeline.DetachedStore` | android/app/src/main/java/com/simcash/BackgroundServer.kt:66-80 | after detached deliveries, each delivery's entry holds its own encoded message and older entries are kept |
| `Pipeline.DetachedDeliversNothing` | android/app/src/main/java/com/simcash/BackgroundServer.kt:66-69 | detached deliveries emit nothing |
| `Pipeline.DetachedKeepsOthers` | android/app/src/main/java/com/simcash/BackgroundServer.kt:75-80 | detached deliveries change no entry outside the pending prefix |
| `Pipeline.DetachedAddsPending` | android/app/src/main/java/com/simcash/BackgroundServer.kt:75-80 | N detached deliveries at N distinct milliseconds add exactly N pending entries |
| `Pipeline.DetachedNoLoss` | android/app/src/main/java/com/simcash/BackgroundServer.kt:66-80 | while detached, nothing is lost: N more pending entries, nothing else changed, nothing emitted |
| `Pipeline.ReceivedWhileDetachedAreDrained` | android/app/src/main/java/com/simcash/SmsReciever.kt:12-30 | when no pending entry exists beforehand, no start is refused twice, every message has both extras and a sender without a bar, and the service reads a different millisecond for each message: a broadcast received while the app is closed becomes exactly the next drain's batch, each entry decoding to its original sender and body (`SameMillisecondOverwrites` covers the shared-millisecond case) |
| `Pipeline.BootRequestsAreInert` | android/app/src/main/java/com/simcash/BackgroundServer.kt:44-47 | any number of boot starts add no pending entry and emit nothing |
| `Pipeline.LiveBypass` | android/app/src/main/java/com/simcash/BackgroundServer.kt:53-61 | a message emitted successfully never appears in a later drain |
| `Pipeline.FailedEmitIsDrainedLater` | android/app/src/main/java/com/simcash/BackgroundServer.kt:62-65 | a message whose emit threw is in the next drain's batch and decodes back to itself |
| `Pipeline.DrainIsAtMostOnce` | android/app/src/main/java/com/simcash/NativeSmsModule.kt:78-88 | each failed emit during a drain loses one message, and nothing remains pending to retry from |
| `Pipeline.CaptureThenDrainTwice` | android/app/src/main/java/com/simcash/BackgroundServer.kt:66-69 | any message whose sender holds no separator, captured while detached: the first drain delivers exactly that sender and body once and leaves nothing, so the second drain finds nothing |
| `Records.FindIndex` | store/simSlice.ts:161 | the first position whose id matches, or -1 exactly when none does |
| `Records.ReplaceFirst` | store/simSlice.ts:161-164 | the length is kept; only the first match is replaced; nothing changes when no id matches |
| `Records.RemoveAll` | store/simSlice.ts:180 | keeps exactly the records whose id differs, and is never longer |
| `Records.ReplaceFirstKeepsIds` | store/messageSlice.ts:159-162 | replacing by id never changes which ids are listed, nor where |
| `Records.ReplaceFirstIdempotent` | store/payoutSlice.ts:142-145 | replacing the same record twice is replacing it once |
| `Records.ReplaceFirstElsewhere` | store/simSlice.ts:161-164 | every position other than the first match keeps its record |
| `Records.RemoveAllConcat` | store/simSlice.ts:180 | filtering distributes over concatenation, so the kept records keep their order |
| `Records.RemoveAllAbsent` | store/simSlice.ts:180 | filtering by an id nobody has changes nothing |
| `Records.RemoveAllIdempotent` | store/simSlice.ts:180 | filtering twice is filtering once |
| `Records.RemoveAllCount` | store/simSlice.ts:180 | filtering removes exactly as many records as carry the id |
| `SimSlice.UpdatedSelection` | store/simSlice.ts:165-167 | the selection is replaced if and only if it is a SIM with the payload's id |
| `SimSlice.SelectionAfterDelete` | store/simSlice.ts:181-183 | the selection is cleared if and only if it had the deleted id, and is otherwise kept |
| `SimSlice.DeleteLeavesNoTrace` | store/simSlice.ts:178-183 | after a delete neither the list nor the selection holds the deleted id |
| `SimSlice.UpdateKeepsSelectionListed` | store/simSlice.ts:159-167 | a selection drawn from a list with unique ids is still in the list after an update |
| `SimSlice.SimState.constructor` | store/simSlice.ts:107-112 | the initial state is an empty list, no selection, not loading, no error |
| `SimSlice.SimState.SetSelectedSim` | store/simSlice.ts:119-121 | sets the selection and nothing else |
| `SimSlice.SimState.ClearSims` | store/simSlice.ts:122-124 | empties the list and keeps the selection |
| `SimSlice.SimState.Pending` | store/simSlice.ts:129-132 | each pending case sets loading and clears the error |
| `SimSlice.SimState.Rejected` | store/simSlice.ts:137-140 | each rejected case clears loading and stores the payload as the error |
| `SimSlice.SimState.FetchSimsFulfilled` | store/simSlice.ts:133-136 | the list becomes the payload |
| `SimSlice.SimState.CreateSimFulfilled` | store/simSlice.ts:146-149 | appends the payload at the end, one longer, the old list a prefix |
| `SimSlice.SimState.UpdateSimFulfilled` | store/simSlice.ts:159-168 | replaces the first SIM with the id, and the selection if it has that id |
| `SimSlice.SimState.DeleteSimFulfilled` | store/simSlice.ts:178-184 | removes every SIM with the id and clears a selection with that id |
| `MessageSlice.MergeFilters` | store/messageSlice.ts:114-116 | a filter field given in the payload is overwritten; every other field is kept |
| `MessageSlice.MergeFiltersTwice` | store/messageSlice.ts:114-116 | two `setFilter` dispatches equal one with the combined patch |
| `MessageSlice.MergeFiltersIdempotent` | store/messageSlice.ts:114-116 | dispatching the same patch again changes nothing |
| `MessageSlice.Prepend` | store/messageSlice.ts:120-122 | the new message is at index 0 and the old list follows unchanged |
| `MessageSlice.MessageState.constructor` | store/messageSlice.ts:98-107 | the initial state is an empty list, not loading, no error, and every filter null |
| `MessageSlice.MessageState.SetFilter` | store/messageSlice.ts:114-116 | merges the patch into the filters, nothing else |
| `MessageSlice.MessageState.ClearMessages` | store/messageSlice.ts:117-119 | empties the list and keeps the filters |
| `MessageSlice.MessageState.AddMessage` | store/messageSlice.ts:120-122 | prepends the message |
| `MessageSlice.MessageState.Pending` | store/messageSlice.ts:127-130 | each pending case sets loading and clears the error |
| `MessageSlice.MessageState.Rejected` | store/messageSlice.ts:135-138 | each rejected case clears loading and stores the error |
| `MessageSlice.MessageState.FetchMessagesFulfilled` | store/messageSlice.ts:131-134 | the list becomes the payload |
| `MessageSlice.MessageState.CreateMessageFulfilled` | store/messageSlice.ts:144-147 | prepends the created message |
| `MessageSlice.MessageState.UpdateMessageStatusFulfilled` | store/messageSlice.ts:157-163 | replaces the first message with the id |
| `PayoutSlice.CompletedOnly` | store/payoutSlice.ts:115 | every kept payout is completed and from the list, every completed payout of the list is kept, and the result is never longer |
| `PayoutSlice.CompletedOnlyConcat` | store/payoutSlice.ts:115 | filtering a concatenation filters each part and keeps them in order |
| `PayoutSlice.CompletedOnlySingle` | store/payoutSlice.ts:115 | a single payout is kept exactly when it is completed |
| `PayoutSlice.SumAmounts` | store/payoutSlice.ts:116 | the fold from 0 of non-negative amounts is non-negative |
| `PayoutSlice.SumAmountsConcat` | store/payoutSlice.ts:116 | the fold of a concatenation is the sum of the two folds |
| `PayoutSlice.CompletedBalance` | store/payoutSlice.ts:114-116 | a list without a completed payout has balance 0, and non-negative amounts give a non-negative balance |
| `PayoutSlice.CompletedBalanceIsContributions` | store/payoutSlice.ts:114-116 | the filter-then-reduce balance equals the sum of each payout's contribution (its amount if completed, else 0) |
| `PayoutSlice.BalanceOfSnoc` | store/payoutSlice.ts:116 | adding one payout at the end adds its contribution |
| `PayoutSlice.BalanceOfConcat` | store/payoutSlice.ts:116 | the contribution sum of two lists is the sum of theirs |
| `PayoutSlice.CompletedBalanceConcat` | store/payoutSlice.ts:114-116 | the balance of two lists together is the sum of their balances |
| `PayoutSlice.UnfinishedAddsNothing` | store/payoutSlice.ts:114-116 | a pending or processing payout adds nothing to the balance |
| `PayoutSlice.UpdateLeavesBalanceStale` | store/payoutSlice.ts:140-146 | a payout updated to completed changes the list's balance, which the reducer does not refold |
| `PayoutSlice.PayoutState.constructor` | store/payoutSlice.ts:86-91 | the initial state is an empty list, not loading, no error, and a balance of 0 |
| `PayoutSlice.PayoutState.SetCurrentBalance` | store/payoutSlice.ts:98-100 | sets the balance and leaves the payouts |
| `PayoutSlice.PayoutState.Pending` | store/payoutSlice.ts:105-108 | each pending case sets loading and clears the error |
| `PayoutSlice.PayoutState.Rejected` | store/payoutSlice.ts:118-121 | each rejected case clears loading and stores the error |
| `PayoutSlice.PayoutState.FetchPayoutsFulfilled` | store/payoutSlice.ts:109-117 | the list becomes the payload and the balance the total of its completed payouts |
| `PayoutSlice.PayoutState.CreatePayoutFulfilled` | store/payoutSlice.ts:127-130 | prepends the payout and leaves the balance |
| `PayoutSlice.PayoutState.UpdatePayoutStatusFulfilled` | store/payoutSlice.ts:140-146 | replaces the first payout with the id and leaves the balance |
| `DashboardSlice.MergeMetrics` | store/dashboardSlice.ts:60 | each metric given in the payload is overwritten and every other one kept |
| `DashboardSlice.UpdatedMetrics` | store/dashboardSlice.ts:58-62 | a no-op while metrics are null; otherwise the merge |
| `DashboardSlice.EmptyPatchIsIdentity` | store/dashboardSlice.ts:58-62 | an empty payload changes nothing |
| `DashboardSlice.FullPatchReplaces` | store/dashboardSlice.ts:60 | a payload giving every field replaces the metrics outright |
| `DashboardSlice.DashboardState.constructor` | store/dashboardSlice.ts:47-51 | the initial state has no metrics, is not loading and has no error |
| `DashboardSlice.DashboardState.UpdateMetric` | store/dashboardSlice.ts:58-62 | metrics become their update; the lifecycle flags are kept |
| `DashboardSlice.DashboardState.FetchPending` | store/dashboardSlice.ts:67-70 | sets loading, clears the error, keeps the metrics |
| `DashboardSlice.DashboardState.FetchFulfilled` | store/dashboardSlice.ts:71-74 | replaces the metrics with the payload and clears loading |
| `DashboardSlice.DashboardState.FetchRejected` | store/dashboardSlice.ts:75-78 | clears loading, stores the error, keeps the metrics |
| `AuthSlice.AuthState.constructor` | store/authSlice.ts:66-71 | the initial state has no user and no token, so it is signed out, not loading, with no error |
| `AuthSlice.AuthState.Logout` | store/authSlice.ts:78-83 | clears user and token and leaves loading and error |
| `AuthSlice.AuthState.SetCredentials` | store/authSlice.ts:84-87 | sets user and token from the payload |
| `AuthSlice.AuthState.Pending` | store/authSlice.ts:92-95 | login and register pending set loading and clear the error |
| `AuthSlice.AuthState.Fulfilled` | store/authSlice.ts:96-100 | login and register fulfilled set user and token and clear loading |
| `AuthSlice.AuthState.Rejected` | store/authSlice.ts:101-104 | login and register rejected store the error, clear loading, and keep user and token |
| `SmsService.StringLookup` | services/smsService.ts:27 | the native store answers only for strings; the fallback returns the stored value exactly when it is truthy, otherwise null |
| `SmsService.BooleanLookup` | services/smsService.ts:31 | the native store answers only for booleans; the fallback returns the stored value when truthy, otherwise `false` |
| `SmsService.SetThenGetString` | services/smsService.ts:27-30 | after `set(k, v)` with a non-empty string, `getString(k)` returns `v` |
| `SmsService.FallbackHidesEmptyString` | services/smsService.ts:27 | the fallback reads a stored empty string as null, exactly like an absent key |
| `SmsService.FallbackBooleanDefaultsFalse` | services/smsService.ts:31 | the fallback's `getBoolean` of an absent key is `false` |
| `SmsService.DeleteKeepsOthers` | services/smsService.ts:32-34 | `delete(k)` makes `k` read null and changes no other key's reading |
| `SmsService.Storage.Set` | services/smsService.ts:28-30 | stores the value under the key |
| `SmsService.Storage.GetString` | services/smsService.ts:27 | never returns a value not stored under the key, and always returns a stored non-empty string |
| `SmsService.Storage.GetBoolean` | services/smsService.ts:31 | a stored `true` reads back as `true`; any answer other than `false` is the stored value |
| `SmsService.Storage.GetAllKeys` | services/smsService.ts:40 | exactly the keys the instance holds |
| `SmsService.Storage.Delete` | services/smsService.ts:32-34 | removes that key only |
| `SmsService.Storage.ClearAll` | services/smsService.ts:35-39 | the delete loop leaves the store empty, so `getAllKeys` is empty |
| `SmsService.SmsServiceState.GetStorage` | services/smsService.ts:18-45 | creates the instance on the first call only and returns that same instance on every call |
| `SmsService.ReadLog` | services/smsService.ts:183-185 | an absent or falsy value reads as the empty list; a list reads as itself; any other value throws |
| `SmsService.NewReceived` | services/smsService.ts:186-192 | the new entry carries the number and message, status `received`, and an id starting `received_` |
| `SmsService.AfterSave` | services/smsService.ts:181-195 | saving fails exactly when reading the log throws; otherwise only `received_messages` changes |
| `SmsService.SaveAppendsOne` | services/smsService.ts:193-194 | the log gains exactly one entry at the end with status `received`, earlier entries unchanged |
| `SmsService.SaveStartsLog` | services/smsService.ts:183-194 | an absent log is treated as empty and becomes a one-entry log |
| `SmsService.SmsServiceState.SaveReceivedSms` | services/smsService.ts:181-195 | creates the instance on a first call (fresh, with the backend `createMMKV` decides) and keeps an existing one; its store becomes the saved store, or is unchanged when parsing throws |
| `SmsService.PhoneOrDefault` | services/smsService.ts:110 | the stored number when truthy, otherwise `+1 (555) 000-0000`; never falsy |
| `SmsService.SmsServiceState.GetDevicePhoneNumber` | services/smsService.ts:105-111 | returns the stored `device_phone_number` or the placeholder; creates the instance on a first call (fresh, with the backend `createMMKV` decides), keeps an existing one, and leaves its store unchanged |
| `SmsService.FlagOrFalse` | services/smsService.ts:119 | the stored flag when truthy, otherwise `false` |
| `SmsService.SmsServiceState.IsDefaultSmsApp` | services/smsService.ts:114-120 | returns the stored `is_default_sms_app` flag or `false`; creates the instance on a first call (fresh, with the backend `createMMKV` decides), keeps an existing one, and leaves its store unchanged |
| `Permissions.Every` | hooks/usePermissions.ts:38-40 | holds if and only if every status is GRANTED or LIMITED |
| `Permissions.Aggregate` | hooks/usePermissions.ts:38-51 | `sms` holds if and only if all three SMS statuses are granted; `phone` and `contacts` each hold if and only if their status is granted; `isDefault` is passed through |
| `Permissions.AggregateVerdict` | hooks/usePermissions.ts:54 | the answer is yes if and only if all five statuses are granted and the app is the SMS default |
| `Permissions.OneSmsRefusalSuffices` | hooks/usePermissions.ts:38-40 | one refused SMS permission makes `sms` and the answer false |
| `Permissions.PermissionsHook.CheckPermissions` | hooks/usePermissions.ts:26-60 | always answers false, since `isDefault` is hard-coded false; records the aggregate when the checks succeed; clears loading on every path |
| `Permissions.PermissionsHook.RequestPermissions` | hooks/usePermissions.ts:63-98 | records the aggregate and answers the verdict when nothing throws; otherwise answers false and keeps the permissions; clears loading on every path |
| `Common.Overwrite` | store/messageSlice.ts:115 | one field of an object spread: a field present in the patch wins, an absent one keeps the current value |

## Left out

- Operating-system and Android APIs are replaced by oracles and logs: `Telephony`, `SmsManager.divideMessage` / `sendMultipartTextMessage`, `SubscriptionManager`, `getActiveSubscriptions` and `requestDefaultSmsApp`, which starts an activity.
- The notification channel and `startForeground` in `BackgroundService.onCreate` are not modelled. They are side effects with no state the core reads.
- `flags` and `startId` of `onStartCommand` are not modelled; the code does not use them.
- The `Log` calls are not modelled; they only write to the log.
- Concurrency is not modelled. The broadcast thread, the service, the JS thread and the asynchronous commit of `apply()` are treated as sequential, atomic steps.
- The clock is a parameter: `System.currentTimeMillis`, `Date.now` and `new Date().toISOString()`. Negative clock readings are not modelled (milliseconds are `nat`).
- Non-string values in `simcash_prefs` are not modelled. The app never writes one, and the `as String` cast that would throw for one is therefore not modelled.
- `NativeSmsModule.NativeSmsModule.EmitPendingMessagesToJs` does not model its outer `try`. That `try` only matters for the cast above or for a failing `getSharedPreferences`.
- `SmsService.SmsServiceState.GetStorage` does not model the native MMKV store beyond its typed getters. Its entries are an input, and its own persistence and encoding are not modelled.
- `SmsService.ReadLog` abstracts `JSON.parse` / `JSON.stringify`. The stored text of the log is kept as the list it encodes. Any other truthy stored value is taken to make `JSON.parse` or `push` throw, so a stored JSON array of some other shape is not modelled.
- `SmsService.Storage.GetAllKeys` returns a set. The insertion order of `Object.keys` is not modelled.
- `sendSMS` in `smsService.ts` is not modelled; it only draws `Math.random`, waits on `setTimeout` and emits events.
- Also not modelled from `smsService.ts`: `handleSMSStatusUpdate`, `initializeSMSService` and `cleanupSMSService` (they only emit or log), and `requestToBeDefaultSMSApp` and `getSIMInfo` (they return constants).
- Every `createAsyncThunk` body (HTTP, bearer tokens, URLs, query strings) is not modelled. The reducers receive each thunk's payload as an input.
- Payout amounts are whole integers, for example cents. JavaScript floating-point addition is not modelled.
- The `react-native-permissions` calls, `Alert` and the `useEffect` start-up call are not modelled. The hook's React state is modelled as the fields of `Permissions.PermissionsHook`.
- `Permissions.PermissionsHook.RequestPermissions` takes `isDefault` as a boolean input. The code uses whatever `requestDefaultSmsApp` resolves to, which need not be a boolean.
- The React context glue, the WebSocket clients, UI screens, package registration and store setup are not part of the core.
