# Verified model of the message eraser and of three text codecs

This project models, in Dafny 4.11, the parts of the repository whose correctness depends on more than one
function.

**The eraser (`apps/eraser`).** A PostgreSQL-backed worker deletes chat messages that are older than a chat's
retention period, through an HTTP API whose answers can be lost.

- `EraserTypes` holds the rows of one chat. `FutureMinutes` holds the bitmap of minutes that are not due yet,
  `Shielding` the exclusions and the protection snapshot, `QueryPages` what `ORDER BY … LIMIT` returns, and
  `Transactions` every store transaction as a function from rows to rows. `Steps` turns those into a state machine.
- `EraserStore` is the store itself: a class whose fields are the rows and whose methods update them in place,
  each proved to leave exactly what its function in `Transactions` says. `Housekeeping`, `CleanupRuntime` and
  `VisitOutcome` are the callers: the purge pass, a worker's visit with every possible answer and with store
  calls that fail, and the verdict on one DELETE.
- `ScanWorld` adds the clock, the server's messages, webhooks and any number of visits in flight; `Coverage`,
  `NoLostWake`, `DueProgress`, `LostWakes` and `PagedScan` prove what the three scan lanes owe, and `Shortfalls`
  has the two runs in which they do less. `AtMostOnce`, `Ledger`, `ProtectionRuns`, `Saves` and `HoldFence`
  prove the journal, the counters, protection, settings and the hold fence over all runs.
- `AdmissionGate` and `DurableCooldown` are the HTTP limiter: the two Redis scripts shared by all processes,
  and the persisted cooldown that the asynchronous calls of one process race on.

**Canonical JSON (`packages/contracts/src/karavan-marketplace.ts`).** `Json` has the printer and a parser of
the whole JSON grammar that inverts it; `CanonicalJson` proves the printer canonical and injective.

**Poll list cursor (`packages/contracts/src/poll.ts`).** `Utf8`, `Base64Url` and `PollCursor`.

**Preview sanitizer (`apps/admin/src/safety-desk-preview-security.ts`).** `PreviewSanitizer`.

`dafny verify dfyconfig.toml` checks everything.

## Assumptions

- One clock, in milliseconds, never going back. Where the source reads it more than once and that matters, the
  readings are separate arguments: the mark of a dispatch (`begin`, `now`, `mark`), the opening of a window (`at`, `now`),
  and the three bounds of an activation (`lowAt`, `historyAt`, `safetyAt`).
- Identifiers and tokens are numbers that are only compared; a fresh one is an argument. A page's signature is the list
  it is computed from, and a request's hash is the request: both digests are taken to be injective.
- A worker opens a due window with the first tracked minute that it read after its snapshot; `DueProgress` and
  `LostWakes` are about runs in which it does (`HonestRun`).
- The far end of time, where a schedule rests, is not reached: in the runs of `NoLostWake` and `LostWakes` the clock
  stays eight days short of it, and waits and retry deadlines stay before it (`TimelyRun`).
- Each lease token belongs to one visit. Each transaction is atomic, except in `HoldFence`, where locks, queries, writes
  and commits are separate steps.
- A new journal row has the defaults of the schema (pending, no dispatch id, no attempt), and database triggers do not
  change the modelled columns.
- A message appears with an old time only as a late one, and a late one counts from its webhook on.

## Where the code falls short of a claim

- **Activation reads the clock more than once** (`apps/eraser/src/store.ts:845-850`). The history cursor and the safety
  floor come from different readings. The two lanes together reach every time exactly when the floor is at most one past
  the cursor (`DueProgress.ActivationTilesIff`); `Shortfalls.LateReadingLeavesHole` is a run from a new chat in which an owed
  message falls into the hole. A settings save uses one cutoff and always tiles. The runs of `Coverage` admit every
  activation but those that leave a hole.
- **A crashed safety visit can lose the ordinary wake** (`apps/eraser/src/store.ts:1096-1105`,
  `apps/eraser/src/store.ts:1379-1393`). The page commits, the visit dies before `finishVisit`, and the ordinary schedule
  still rests at the far end of time while a candidate waits: `Shortfalls.CrashedSafetyVisitLosesWake` is such a run from a
  new chat. `NoLostWake.CrashLosesWakeIff` says for which pages it happens, `LostWakes.OversleptSincePage` that nothing else
  in a run can cause it, and `NoLostWake.NoWakeIsLost` that it needs a recorded lease. An expired lease does not keep a
  safety visit out, and the next visit that ends restores the wake (`LostWakes.EndedVisitRestores`).
- **A deadline that is not persisted when the last durable check reads the row is not waited for**
  (`apps/eraser/src/limiter.ts:71-75`). A call returns exactly when that row was over (`DurableCooldown.ReturnIffRowWasOver`):
  every deadline persisted by then has passed, and one that is only observed by then, with its write outstanding, can be
  missed (`DurableCooldown.MissedIff`, `DurableCooldown.LateDeadlineIsMissed`). Deadlines observed by the time the gate
  admitted the call are always waited for (`DurableCooldown.ReturnMeansPassed`).

## Model

| member | source | states |
|---|---|---|
| Coverage.CoverageFrontier | apps/eraser/src/store.ts:1181-1244 | In every run, each visible message an enabled policy is owed is ahead of the safety or due floor, behind the cursor of an unfinished history, deferred, journaled or excluded |
| Coverage.NothingSlipsThrough | apps/eraser/src/store.ts:1256-1425 | Once history is finished, no due range is open, the safety floor has passed and nothing is deferred, every owed message was journaled or is excluded |
| Coverage.AcceptedPageMatches | apps/eraser/src/store.ts:1262-1277 | Whenever a page takes effect, its window ends at the cursor the lane stores at that moment and starts at the stored floor (in the due lane, at or below it), and the page accounts for every owed message in it: optimistic scans refine a sequential one |
| Coverage.ClosedSafetyWindowIsListed | apps/eraser/src/store.ts:1359-1378 | A safety window that closes moves its floor past its upper end only after every owed message inside is kept or left to history |
| Coverage.ClosedDueWindowIsListed | apps/eraser/src/store.ts:1394-1411 | A due window that closes gives its floor up only after every owed message between floor and upper end is kept, left to history or ahead of the safety floor |
| Coverage.TakeInAllAbsorbs | apps/eraser/src/store.ts:1319-1352 | Each listed message is young, excluded, inside a deferred range or in the journal afterwards; existing rows stay, new rows copy a due listed message |
| Coverage.CommitKeepsInv | apps/eraser/src/store.ts:1353-1423 | Committing any page, accepted or stale, keeps the coverage invariant |
| Coverage.SaveKeeps | apps/eraser/src/store.ts:663-717 | A settings save, with or without a restart of the lanes and parking, keeps the coverage invariant |
| Coverage.ConnectKeeps | apps/eraser/src/store.ts:842-866 | An activation keeps the coverage invariant whatever its clock readings are, as long as the safety floor it computes is at most one past its history cursor |
| Coverage.ProtectKeeps | apps/eraser/src/store.ts:289-305 | Releasing deferred ranges sends history back far enough that nothing deferred is lost |
| Coverage.WebhookKeeps | apps/eraser/src/store.ts:1654-1745 | A webhook keeps coverage: a late message lowers the due floor and invalidates the pages in flight it could escape |
| Coverage.AwaitKeeps | apps/eraser/src/store.ts:1618-1653 | A candidate deferred for protection is inside the deferred range that replaces its row |
| NoLostWake.NoWakeIsLost | apps/eraser/src/store.ts:1033-1082 | In every run, with no lease recorded and the ordinary schedule at rest, nothing is pending, no tracked minute is outside a blocked gap, history is finished or blocked, no due window can run |
| NoLostWake.RescheduleRests | apps/eraser/src/store.ts:1054-1067 | A reschedule rests only an idle chat |
| NoLostWake.CrashLosesWakeIff | apps/eraser/src/store.ts:1379-1393 | A safety visit that dies after its page loses the wake of an idle chat exactly when the page admitted a new row or settled a gap that held work back |
| LostWakes.OversleptSincePage | apps/eraser/src/store.ts:1379-1393 | In every run, a chat whose ordinary schedule rests over waiting work was put to sleep by such a page, and a lease has been recorded at every moment since |
| LostWakes.EndedVisitRestores | apps/eraser/src/store.ts:1110-1132 | In every run, a visit that ends, for safety or not, leaves no work behind a resting schedule |
| Shortfalls.CrashedSafetyVisitLosesWake | apps/eraser/src/store.ts:1096-1105 | A run from a new chat in which an expired lease leaves a pending candidate that no ordinary reservation ever takes |
| DueProgress.ClosingTakesSpannedMinutes | apps/eraser/src/store.ts:1394-1411 | In every run, a due window that closes takes off the bitmap the minutes it spans: each that ends by its upper end and is in the rows one page may clear, and always the first; nothing is added |
| DueProgress.ClosingConsumesFirstMinute | apps/eraser/src/store.ts:966-986 | Clearing a closed window takes the first tracked minute inside it off the bitmap and adds none |
| DueProgress.DueMinuteIsConsumed | apps/eraser/src/store.ts:1212-1243 | In every run, once a ripe minute has opened a due window and a due window has closed after that, the minute is off the bitmap and stays off it while the settings stay: the same bit cannot reopen the scan |
| DueProgress.ActivationTilesIff | apps/eraser/src/store.ts:842-857 | An activation leaves no time between history and safety exactly when the safety floor is at most one past the history cursor |
| DueProgress.EqualReadingsTile | apps/eraser/src/store.ts:845-850 | Equal clock readings always tile |
| Shortfalls.LateReadingLeavesHole | apps/eraser/src/store.ts:845-850 | A run from a new chat whose activation reads the clock later for the safety floor: an owed message lies in the hole and nothing covers it |
| DueProgress.SaveTiles | apps/eraser/src/store.ts:663-696 | A settings save always tiles, since it uses one cutoff |
| PagedScan.ScanHistory | apps/eraser/src/store.ts:1353-1358 | The page loop on a stable server ends; it stops with a gap exactly when at least a hundred messages share a millisecond, and otherwise has listed everything |
| PagedScan.ScanSafety | apps/eraser/src/store.ts:1359-1393 | The page loop of a safety window ends: closed, with everything in it listed and the floor one past its upper end, or in a gap recorded inside it exactly when a hundred of its messages share a millisecond |
| PagedScan.ScanDue | apps/eraser/src/store.ts:1394-1419 | The same for a due window, which gives its floor up when it closes |
| PagedScan.RepeatIsCrowded | apps/eraser/src/store.ts:1285-1294 | A repeated full page lies in one millisecond |
| PagedScan.FullPageMoves | apps/eraser/src/max.ts:205-236 | A full page moves the inclusive cursor without leaving a message unlisted above it |
| PagedScan.ShortPageEnds | apps/eraser/src/max.ts:205-236 | A short page lists all that is left |
| AtMostOnce.AtMostOneEffect | apps/eraser/src/store.ts:1426-1569 | In every run with crashes, lost answers, failed store calls, stale visits, receipts and purges, one lifetime of a journal row has at most one DELETE on the wire that is not a known rejection |
| AtMostOnce.PendingMeansNoEffect | apps/eraser/src/store.ts:1459-1506 | A row that is pending, so may be dispatched, has no earlier DELETE that could have had an effect |
| AtMostOnce.OnlyItsOwnAnswerResolves | apps/eraser/src/store.ts:1524-1544 | A dispatching or uncertain row is resolved only by the acknowledgement or 429 of its own dispatch id or by a removal receipt, and is never parked or purged |
| AtMostOnce.TransactMoves | apps/eraser/src/store.ts:989-1031 | No other transaction moves a row out of dispatching or uncertain except to deleted |
| VisitOutcome.VerdictFollowsWire | apps/eraser/src/runtime.ts:426-455 | A sent DELETE is called deleted exactly on an acknowledgement, pending exactly on a 429 and uncertain otherwise; without one only a pending row is touched |
| Ledger.CountsFollowJournal | apps/eraser/src/store.ts:1563-1567 | Over every run deleted_count and skipped_count grow by exactly the rows that arrived there, and deleted_count stays the sum of its three parts |
| Ledger.TerminalIsFinal | apps/eraser/src/store.ts:1715-1727 | A terminal row keeps its state, so no row is counted twice |
| Ledger.StepIsBooked | apps/eraser/src/store.ts:1524-1567 | Every transaction books exactly the rows it finishes |
| ProtectionRuns.RunProtectsMore | apps/eraser/src/store.ts:213-288 | Over every run exclusions and the revision only grow, the anchor never rises and the certified floor stays at or above it |
| ProtectionRuns.LowerAnchorNeedsCertificate | apps/eraser/src/store.ts:246-260 | An anchor that ended lower was lowered by a write with matching evidence |
| ProtectionRuns.ExcludedIsNeverMarked | apps/eraser/src/store.ts:1467-1478 | Once a message id is protected or held, no later run marks it for dispatch |
| ProtectionRuns.HeldAuthorIsNeverMarked | apps/eraser/src/store.ts:1467-1478 | The same for every message of a held author |
| ProtectionRuns.MarkedIsCertified | apps/eraser/src/store.ts:105-125 | A possibly automatic publication is marked only inside the interval the snapshot certifies |
| Saves.RepeatChangesNothing | apps/eraser/src/store.ts:626-640 | A repeated operation id changes nothing and answers with the stored response |
| Saves.SaveCommitsOnce | apps/eraser/src/store.ts:605-741 | An operation id commits at most once in a run, and its stored response never changes |
| Saves.OnlyLastSaveActivates | apps/eraser/src/store.ts:823-859 | In every run, if one step committed an opt-in and a later one enables the policy for it, no step between them committed a save |
| Saves.OptInActivatesOnce | apps/eraser/src/store.ts:861-866 | An opt-in enables the policy at most once |
| HoldFence.HoldFenceStands | apps/eraser/src/store.ts:160-200 | Once a hold request has succeeded, in every interleaving of locks, queries and commits no covered row has an outstanding DELETE and none has passed its guard |
| HoldFence.SuccessIsFinal | apps/eraser/src/store.ts:180-199 | A success stands in every continuation, so the fence does too |
| HoldFence.RefusalKeepsHolds | apps/eraser/src/store.ts:180-182 | A refused request still keeps its holds: nothing covered is marked again |
| FutureMinutes.PutAddsMinute | apps/eraser/src/store.ts:869-882 | Putting a time adds exactly its minute and keeps every hour row non-zero |
| FutureMinutes.FirstAfterIsLeast | apps/eraser/src/store.ts:884-908 | The first minute found is the least one of the set that ends after the given time |
| FutureMinutes.LimitSuffices | apps/eraser/src/store.ts:892-895 | Reading a bounded number of rows from the hour of the given time finds the same minute |
| FutureMinutes.FirstFutureMinute | apps/eraser/src/store.ts:897-907 | The loop over rows and bits returns that minute |
| FutureMinutes.ClearRemovesInside | apps/eraser/src/store.ts:954-987 | Clearing a window adds nothing and keeps every minute not wholly inside it |
| FutureMinutes.ClearReaches | apps/eraser/src/store.ts:960-965 | A minute inside the window is cleared whenever its row is within the row limit |
| FutureMinutes.ClearCoveredMinutes | apps/eraser/src/store.ts:966-986 | The loops over rows and bits compute the cleared table |
| FutureMinutes.CompactionIsCovered | apps/eraser/src/store.ts:910-952 | Compaction drops only minutes at or above the new due floor and older than the retention age |
| FutureMinutes.ReachesPastMeans | apps/eraser/src/store.ts:926-933 | The wake test on rows says that some expired minute ends past the blocked window |
| FutureMinutes.PutAllAddsMinutes | apps/eraser/src/store.ts:989-1031 | Parking adds exactly the minutes of the parked candidates |
| FutureMinutes.ParkMinutes | apps/eraser/src/store.ts:1004-1024 | Grouping by hour first gives the same rows |
| FutureMinutes.SameMinutesSameRows | apps/eraser/src/store.ts:873-881 | Two valid tables with the same minutes are the same rows |
| QueryPages.Select | apps/eraser/src/housekeeping.ts:13-30 | The selection loop returns the first page by key and then by id |
| QueryPages.FirstPageIsUnique | apps/eraser/src/store.ts:995-1003 | Order and limit leave one possible page only |
| EraserStore.Store.Protect | apps/eraser/src/store.ts:213-306 | Refuses or installs a snapshot, adds exclusions and releases what it covers, as one state change |
| EraserStore.Store.Update | apps/eraser/src/store.ts:605-742 | Replays, refuses or commits a settings save; the candidates it parks are the first two hundred by age that a longer period makes too young, the ones it wakes those a shorter period makes due |
| EraserStore.Store.LiveRequest | apps/eraser/src/store.ts:783-795 | Says yes exactly when an activation at that moment would succeed but for the proofs and the protection snapshot; with the snapshot ready, exactly when some proof would let it succeed |
| EraserStore.Store.ActivateConnection | apps/eraser/src/store.ts:811-868 | Enables the chat and restarts every lane exactly when the opt-in, its lease, the proof and protection allow |
| EraserStore.Store.CompactExpiredHours | apps/eraser/src/store.ts:910-952 | Hands expired rows over to the due lane |
| EraserStore.Store.ParkYoungCandidates | apps/eraser/src/store.ts:989-1031 | Selects the first page of candidates that became too young and moves exactly those to the bitmap |
| EraserStore.Store.PendingHead | apps/eraser/src/store.ts:1040-1047 | The loop over the journal finds the earliest due time of a pending candidate |
| EraserStore.Store.Reschedule | apps/eraser/src/store.ts:1033-1082 | Sets both wakes from the stored state |
| EraserStore.Store.OpenScan | apps/eraser/src/store.ts:1181-1244 | Chooses and stores the window of a lane, or none |
| EraserStore.Store.SortMessages | apps/eraser/src/store.ts:1318-1343 | The loop over a page yields the admitted rows and both deferred ranges of the recursive intake |
| EraserStore.Store.SavePage | apps/eraser/src/store.ts:1256-1425 | Ignores a stale page, and otherwise journals it and moves its lane |
| EraserStore.Store.MoveLane | apps/eraser/src/store.ts:1353-1423 | Cursor, gap, end of window and generation of the lane |
| EraserStore.Store.AssertAndMarkDispatch | apps/eraser/src/store.ts:1426-1507 | Every refusal of the final guard, and the mark |
| EraserStore.Store.Settle | apps/eraser/src/store.ts:1508-1569 | Settles only the exact attempt and books it |
| EraserStore.Store.Ingest | apps/eraser/src/store.ts:1654-1745 | One webhook, applied once |
| EraserStore.Store.PurgePage | apps/eraser/src/housekeeping.ts:13-30 | Deletes the first page, by age, of the old terminal rows and of the old receipts that nobody else holds, and counts both |
| Housekeeping.Maintenance.Run | apps/eraser/src/housekeeping.ts:90-145 | A pass removes only terminal rows and receipts older than seven days, at most a batch per page, and counts exactly what left; a pass that was not cut short leaves nothing that was old when it began, except what others held |
| Housekeeping.Maintenance.Adapt | apps/eraser/src/housekeeping.ts:137-143 | The page budget stays between one and sixteen |
| CleanupRuntime.Visit | apps/eraser/src/runtime.ts:364-471 | A whole visit, in which any store call may fail before or after it took effect, is a run of the store that sends at most five DELETEs, reports each in the very next transactions as the wire shows or as uncertain, dispatches nothing once an outcome is open, and if it finishes ends its own lease |
| CleanupRuntime.DispatchAll | apps/eraser/src/runtime.ts:403-456 | The loop over candidates keeps that discipline |
| CleanupRuntime.ScanAll | apps/eraser/src/runtime.ts:379-401 | The loop over lanes sends nothing and keeps the store sound |
| CleanupRuntime.Remove | apps/eraser/src/max.ts:46-116 | Admission, guard, request, report: nothing is sent without admission or while stopping |
| CleanupRuntime.DeedsAreARun | apps/eraser/src/runtime.ts:364-471 | What a visit does is a run of the state machine |
| CleanupRuntime.DeedIsJournalled | apps/eraser/src/runtime.ts:403-456 | Every deed of a visit is a sequence of events of the journal world of `AtMostOnce` with the same rows left, so its guarantees hold of visits |
| CleanupRuntime.Connect | apps/eraser/src/runtime.ts:240-303 | Whichever store calls fail, an opt-in enables the chat only with both proofs, the older less than fifteen seconds old; otherwise the request is handed back or untouched |
| AdmissionGate.RateBound | apps/eraser/src/limiter.ts:12-25 | In every run, any half-open second holds at most maxRps admissions of all processes together |
| AdmissionGate.SpacingBound | apps/eraser/src/limiter.ts:12-30 | Two DELETEs of a chat, or two safety probes, are a second apart, and nothing is admitted before a cooldown the gate had heard of |
| AdmissionGate.WaitIsExact | apps/eraser/src/limiter.ts:20-21 | Waiting as long as told passes, any shorter wait does not |
| AdmissionGate.SlowerGapIsWider | apps/eraser/src/limiter.ts:55-65 | A process that halves its rate only widens the spacing |
| AdmissionGate.Redis.AdmitHttp | apps/eraser/src/limiter.ts:12-25 | The admission script on the stored keys |
| AdmissionGate.Redis.Cooldown | apps/eraser/src/limiter.ts:26-30 | The cooldown script only moves the deadline later |
| DurableCooldown.NothingPendingMeansSaved | apps/eraser/src/limiter.ts:79-92 | Under every interleaving and failed write, a deadline is persisted or still pending |
| DurableCooldown.ReturnMeansPassed | apps/eraser/src/limiter.ts:51-78 | When an acquire returns, every deadline observed by the time the gate admitted it is persisted and over |
| DurableCooldown.ReturnIffRowWasOver | apps/eraser/src/limiter.ts:51-78 | In every run, a call returns from its last check exactly when the row it read there was over at that moment |
| DurableCooldown.ReturnWaitsForWhatWasPersisted | apps/eraser/src/limiter.ts:51-78 | In every run, every returned call has such a read, and any deadline still ahead was not persisted, or not observed, by that read |
| DurableCooldown.MissedIff | apps/eraser/src/limiter.ts:71-75 | A call about to read goes on to return with a deadline ahead of it exactly when the persisted row is over and the deadline is not |
| DurableCooldown.PersistedDeadlineIsAwaited | apps/eraser/src/limiter.ts:71-75 | A run in which a deadline observed after the gate answered is waited for, because it was persisted before the last read |
| DurableCooldown.LateDeadlineIsMissed | apps/eraser/src/limiter.ts:71-75 | A run in which a deadline whose write is still under way when the row is read is not waited for |
| DurableCooldown.HttpLimiter.CheckStarts | apps/eraser/src/limiter.ts:40-47 | What a check must write so that the pending deadline is reached |
| DurableCooldown.HttpLimiter.WriteReturned | apps/eraser/src/limiter.ts:84-87 | A successful write settles only deadlines up to its own |
| DurableCooldown.HttpLimiter.CooldownStarts | apps/eraser/src/limiter.ts:79-83 | The new deadline is recorded before any await |
| DurableCooldown.DurableRateLimit.Extend | apps/eraser/src/rate-limit.ts:25-34 | The persisted deadline only moves later; an invalid duration changes nothing |
| DurableCooldown.DurableRateLimit.RemainingMs | apps/eraser/src/rate-limit.ts:16-23 | Zero exactly when the deadline is over |
| CanonicalJson.CanonicalAndInjective | packages/contracts/src/karavan-marketplace.ts:151-170 | Two values print the same exactly when they are equal up to the order of members |
| CanonicalJson.PrintParses | packages/contracts/src/karavan-marketplace.ts:151-170 | A parser reads a print back as the same value up to order, and printing that again changes nothing |
| CanonicalJson.RefusesForeign | packages/contracts/src/karavan-marketplace.ts:169 | The printer throws exactly for values that hold something JSON has no form for |
| CanonicalJson.PrintsOrdered | packages/contracts/src/karavan-marketplace.ts:161-168 | The print is the compact text of the value with its keys in order |
| CanonicalJson.SortedIsUnique | packages/contracts/src/karavan-marketplace.ts:162-163 | A list of members in key order is determined by what is found under each key |
| CanonicalJson.SameIffCanon | packages/contracts/src/karavan-marketplace.ts:157-168 | Equality up to order is equality of the ordered forms |
| Json.ParseInvertsStringify | packages/contracts/src/karavan-marketplace.ts:153-155 | The parser of the whole grammar inverts the compact printer |
| Json.EscapeIsLegal | packages/contracts/src/karavan-marketplace.ts:165 | Printed strings are legal under section 7 of RFC 8259, with no unpaired surrogate |
| PollCursor.CursorRoundTrip | packages/contracts/src/poll.ts:185-218 | Every payload the encoder accepts decodes to the parsed payload, never to null, within the length cap |
| PollCursor.DecodedEncodesAgain | packages/contracts/src/poll.ts:196-218 | Whatever decodes has passed the schema and encodes to an equivalent cursor |
| PollCursor.BinaryString | packages/contracts/src/poll.ts:188-192 | The chunk loop does not change the bytes |
| PollCursor.EncodeManagedPollListCursor | packages/contracts/src/poll.ts:185-194 | Fails exactly for payloads the schema refuses, and otherwise returns the cursor text |
| Base64Url.Base64RoundTrip | packages/contracts/src/poll.ts:193-211 | Every byte sequence comes back from its unpadded url text, whose length and alphabet are as section 5 of RFC 4648 says |
| Base64Url.PaddingRestored | packages/contracts/src/poll.ts:207-210 | The padding arithmetic restores exactly the padded standard text |
| Utf8.DecodeInvertsEncode | packages/contracts/src/poll.ts:187 | Text without unpaired surrogates or a leading mark survives UTF-8 (RFC 3629) |
| PreviewSanitizer.SanitizeSafetyDeskPreviewHtml | apps/admin/src/safety-desk-preview-security.ts:87-134 | The cursor loop ends for every input and computes the recursive form |
| PreviewSanitizer.OutputInGrammar | apps/admin/src/safety-desk-preview-security.ts:87-144 | Every output has brackets only in bare allowed tags and ampersands only in allowed references |
| PreviewSanitizer.UnchangedIffInGrammar | apps/admin/src/safety-desk-preview-security.ts:87-144 | The scanner leaves a string alone exactly when it is in that grammar |
| PreviewSanitizer.SanitizeIsIdempotent | apps/admin/src/safety-desk-preview-security.ts:87-134 | Sanitizing twice is sanitizing once |
| PreviewSanitizer.EscapeIsOnePass | apps/admin/src/safety-desk-preview-security.ts:142-144 | The three replacements are one pass over the text |
| PreviewSanitizer.EntitySurvives | apps/admin/src/safety-desk-preview-security.ts:18-19 | An allowed reference is still one after the text behind it has been escaped |
| PreviewSanitizer.ParseBare | apps/admin/src/safety-desk-preview-security.ts:112-129 | Each bare tag the scanner writes is read back as itself |

## Left out

- Migrations, triggers, SQL text, pooling, BullMQ, Redis and Nest wiring, HTTP routing, secrets and configuration: only the atomic effect of each transaction or script is modelled.
- `next_run_at`, `live_scan_purpose`, `live_scan_had_messages`, `enabled_at`, `first_enabled_at`, `last_error` and other columns nothing in the modelled code decides by.
- Diagnostic pages, snapshots, telemetry, progress logs, worker health and the expired-head observation of housekeeping: reporting.
- The scheduler's `tick`, reservation limits and the order in which chats are reserved: one chat is modelled, and a reservation takes it or not.
- MAX response parsing (rights, actor, subscription, message fields) and the validation of protection evidence beyond the comparison with the snapshot: an answer is a value.
- Request validation before a save or a protection write: bodies are taken as already valid.
- CleanupRuntime.Connect: a read of the request that fails is not told apart from one that says no; neither changes anything.
- Coverage.CoverageFrontier: its runs leave out activations whose readings leave a hole, for which the claim is false (`Shortfalls.LateReadingLeavesHole`).
- CleanupRuntime.Visit: the visit's own transactions run one after another here; interleaving with other visits and webhooks is proved over `Steps`, in `Coverage` and `AtMostOnce`.
- AdmissionGate.RateBound: assumes that Redis keeps a key until its expiry and that its clock does not go back; a restart of Redis is what the durable cooldown is for. The gate's own deadlines are capped at a day, as the source caps them.
- DurableCooldown.ReturnMeansPassed: durations are whole milliseconds and a persistent store is configured; a cooldown that is not a number is not modelled.
- CanonicalJson.CanonicalAndInjective: a number is its printed token, so `-0`, which prints as `0`, is not told apart; arrays with holes and objects with inherited or non-enumerable members are outside the value type.
- PollCursor.DecodeManagedPollListCursor: accepts the version only in the spelling `1`, not in other spellings of the same number; the date check of the schema is an argument, of which only plain characters are assumed.
- PollCursor.CursorRoundTrip: for payloads the schema accepts; the schema library itself is not part of this model.
- PreviewSanitizer.OutputInGrammar: strings are code points, so unpaired surrogates are not representable.
- The URL helpers of the preview file, the React code, API clients and the remaining schemas: shallow case checks.
