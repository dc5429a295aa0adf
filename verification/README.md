# GTrade: price alerts, scheduler lock, accounts and importers in Dafny

A model of the parts of the GTrade backend whose promises concern whole runs rather than single calls, with proofs of
those promises.

* **Price alerts** (user-asset-service). `Grouping`, `PriceTable` and `Detection` model an item's price history, the
  catalog's window on it and the comparison of each (source, game mode) pair with its watermark. `AlertTables`
  describes what a run does as a list of events: watermark writes, digest writes and emails. `Dispatch`, `Schedule`,
  `AlertCycle` and `Snapshot` specify one dispatch, one user's schedule and one whole run; `CycleFacts`,
  `CycleTheorems`, `RunGuarantees`, `RunPerUser`, `Served`, `Isolation`, `LostChanges` and `Redetection` prove what one
  run guarantees; `AlertRuns`, `Mailings` and `CatchUp` what any serialised run of price upserts, cycles, manual diffs
  and snapshots guarantees. `Witnesses` and `Repeats` hold runs in which the guarantees that need a condition fail
  without it. `UserAssetTables` and `AlertService` are the repository and the service as classes that update their tables in
  place; every method performs exactly the events of its specification, reading live tables and visiting maps in an
  arbitrary order (`LiveReads` and `Readings` show why what is read live agrees with the specification's tables).
* **Scheduler lock** (both services). `SchedulerLock` is a state machine of the lock protocol at the granularity of
  SQL statements: any number of processes, pooled connections, a session-level lock that is granted again to its own
  session, failing statements, crashes and sessions ended by the server. `SchedulerStore` is the sequential code that
  the tickers and the admin jobs run, tied to the protocol's steps.
* **Accounts** (auth-service). `Accounts` gives each operation as a transition of the five tables, `AccountTerms` what
  decides it on the columns, `AccountFacts` what it keeps, `AccountRuns` what any serialised run keeps; `AuthService`
  is the service statement by statement.
* **Importers and synchronisation**. `Tarkov` (paging with a shrinking batch limit), `EveSlug`, and `PriceSync` (the
  two-pass price-history collection with its observers, admin job and job manager).
* `Options`, `GoStrings` and `Calendar` hold what Go and PostgreSQL provide: optional values, string order, trimming,
  decimal numbers, UTC days and the date text format.

Calls into other systems (catalog, integration, auth, mail, the database) are oracles that each run receives: they may
answer anything and fail at any point. A table write that fails leaves its table unchanged. Values are integers in
units of 10^-6, as both value columns are `NUMERIC(20,6)`; instants are nanoseconds and days are day numbers since
0000-01-01 in UTC. The range over a Go map is an arbitrary choice at each step.

## What the code does not promise

Several natural statements hold only under a condition. Each is proved with the condition, and where it can be read
off the input, in both directions.

* Text keys: two different sources can give one text key, for some modes, exactly when one of them followed by `|`
  begins the other (`Grouping.StateKeyCollidesIff`). The engine reads a key's own watermark exactly when all rows with
  its text agree (`Detection.TextLookupExactIff`); otherwise it can send what is already on record
  (`Detection.CollidedKeyRepeats`, `Repeats.CollidedPairIsMailedAgain`). The methods of the alert service are specified
  for every answer: they act on what was read (`Readings.ActsOn`). The theorems about serialised runs ask that no two
  pairs of one item share a text; prices and watermarks then stay that way (`AlertRuns.RunsStayClear`), and what is
  read is what is stored.
* A change can be lost: a user who cannot be mailed, be it for a failing contact lookup, has the watermarks advanced
  without an email, exactly when a write gets through (`Dispatch.LostWithoutMailIff`, `LostChanges.LostInRunIff`,
  `Witnesses.ChangeIsLost`).
* One user's failures can silence everybody: a failing read of states, initial write or read of a digest row ends the
  run before any email (`Isolation.CollectFailsIff`, `Isolation.StopEndsRun`, `Witnesses.SilencedByAnother`), and a
  failing empty mark ends the digest loop (`Isolation.RunFailsIff`). All other failures stay with their user
  (`Isolation.FailureStaysWithUser`).
* Two digest emails on one day are possible when a table write fails after the first went out, and only then
  (`AlertRuns.DueAgainTodayIff`, `AlertRuns.SecondDigestIff`, `Witnesses.TwoDigestsInOneDay`).
* An email can repeat the day and value of an earlier one: a run mails them exactly when they are newest and move the
  watermark as it then stands (`Mailings.SaysIff`). After an email whose write succeeded that means that the watermark
  has come to hold another value of the same day, mailed or not (`Mailings.EmailRepeatsIff`,
  `Repeats.ReturningPriceIsMailedAgain`); with no write in between, that the first email's write was not reached
  (`Mailings.EmailResentIff`, `Witnesses.TwoDigestsInOneDay`).
* The order in which due users are visited matters when an empty mark fails, because the cycle returns there
  (`RunGuarantees.OrderFreeIff`).
* The number of emails a manual diff reports can fall short of the emails sent (`AlertService.ManualReportsMail`,
  `Repeats.MailIsNotReported`).
* Mutual exclusion needs the server not to end the session of a process inside its section, and only that
  (`SchedulerLock.OthersCanEnterIff`, `SchedulerLock.LostSessionLetsTwoIn`); a failed unlock on a connection that
  returns to the pool leaves the lock held (`SchedulerLock.HeldIff`, `SchedulerLock.FailedUnlockLeaks`).
* A blocked user keeps a live refresh token exactly when the revocation call after the blocking fails
  (`AccountFacts.BlockedStayRevokedIff`), and a reset token can be used again exactly when recording its use fails
  (`AccountRuns.ResetTokenReusableIff`).
* Progress can pass 100 percent when items are added between the two passes, and a list error does not keep a
  price-history job from completing (`PriceSync.JobProgressIff`, `PriceSync.StartPriceHistorySync`).

## Model

| member | source | states |
|---|---|---|
| Grouping.StateKeyInjective | services/user-asset-service/internal/service/price_alert.go:908-910 | for sources that do not collide, equal text keys mean equal (source, game mode) pairs |
| Grouping.StateKeyCollidesIff | services/user-asset-service/internal/service/price_alert.go:908-910 | two different sources can share a text key, for some modes, exactly when one followed by the separator begins the other |
| Grouping.PlainSourcesNeverCollide | services/user-asset-service/internal/service/price_alert.go:908-910 | sources without the separator never collide |
| Grouping.StateKeyCollides | services/user-asset-service/internal/service/price_alert.go:908-910 | two different pairs with one text key |
| Grouping.GroupPriceHistory | services/user-asset-service/internal/service/price_alert.go:750-774 | the two loops return a partition of the history: nonempty groups, strictly increasing keys, each group newest first and holding exactly its key's rows |
| Grouping.GroupingConserves | services/user-asset-service/internal/service/price_alert.go:750-774 | no row is dropped or repeated: the groups together are the history as a bag |
| Grouping.GroupingUnique | services/user-asset-service/internal/service/price_alert.go:750-774 | with one row per key and day every permutation of a history has one and the same grouping |
| Grouping.GroupingOfSomeOrder | services/user-asset-service/internal/service/price_alert.go:750-774 | however the unstable sort lets ties fall, the groups are those of the definition for the same rows in some order |
| Calendar.DateReadsBack | services/catalog-service/internal/repository/catalog_repository.go:424 | the text the catalog writes for a date column is parsed back to the same day |
| Calendar.ParseDateIff | services/user-asset-service/internal/service/price_alert.go:694-697 | a text names a day exactly when it is the text written for that day, from 0000-01-01 to 9999-12-31 |
| Calendar.StringOrderIsCalendarOrder | services/user-asset-service/internal/service/price_alert.go:764-769 | on well-formed dates string order is calendar order, and two texts never name one day |
| Calendar.SameDayIsSameIndex | services/user-asset-service/internal/service/price_alert.go:899-906 | two instants have the same day start exactly when they fall on the same UTC day |
| PriceTable.CatalogRepository.UpsertPriceHistory | services/catalog-service/internal/repository/catalog_repository.go:360-388 | the upsert replaces exactly the row of its item, source, mode and day, the day falling back to the time of collection |
| PriceTable.CatalogRepository.GetPriceHistory | services/catalog-service/internal/repository/catalog_repository.go:390-432 | as many rows as the limit (30 when not positive), or all selected ones when there are no more; each a stored row under another key of the item and mode, newest first, ties falling either way, and none left out newer than one returned |
| PriceTable.ListingHasOneRowPerDay | services/catalog-service/internal/repository/catalog_repository.go:366-382 | rows read back hold at most one row per key and day |
| PriceTable.ListingIsNewestFirst | services/catalog-service/internal/repository/catalog_repository.go:401 | the query's order is the order the alert engine sorts by |
| PriceTable.SameRowsInEveryListing | services/catalog-service/internal/repository/catalog_repository.go:396-403 | however ties fall, a key's rows come in the same order in every listing |
| PriceTable.WindowShowsPrefixes | services/catalog-service/internal/repository/catalog_repository.go:396-403 | for any limit and any fall of ties, each group inside the window is a prefix of that key's group in the full history |
| AlertRuns.WindowIsNewestTen | services/user-asset-service/internal/service/price_alert.go:138 | the history an entry is shown is its item's ten newest rows, or all when there are no more |
| Detection.DecisionAdvances | services/user-asset-service/internal/service/price_alert.go:709-728 | a decision to write always advances the watermark, and once written nothing is left to decide |
| Detection.SkipMeans | services/user-asset-service/internal/service/price_alert.go:691-716 | a key is skipped exactly when its date is unreadable, its watermark is on a later day, or on the same day with no other value known |
| Detection.PrefixDecides | services/user-asset-service/internal/service/price_alert.go:686-728 | deciding on a visible prefix gives the verdict, day and value of the full history; the previous value differs exactly when a new day's row is the only one visible and the hidden second row is not what the fallback reports |
| Detection.DetectPriceAlertChanges | services/user-asset-service/internal/service/price_alert.go:669-748 | the changes, initial and send states are those of some grouping of the history against the states by text key |
| Detection.TextKeysSuffice | services/user-asset-service/internal/service/price_alert.go:676-690 | when no other stored pair of the entry has its text, looking a key up by text finds exactly its table row |
| Detection.TextLookupExactIff | services/user-asset-service/internal/service/price_alert.go:676-690 | the text finds a key's own row in every listing order exactly when all the entry's rows with that text hold the same watermark |
| Detection.CollidedKeyRepeats | services/user-asset-service/internal/service/price_alert.go:676-728 | what goes wrong otherwise: a key that is already at the newest day and value is sent, and written, with that day and value again |
| Detection.DetectionIgnoresOrder | services/user-asset-service/internal/service/price_alert.go:669-748 | any permutation of a one-row-per-day history yields the same findings |
| Detection.FindingsSound | services/user-asset-service/internal/service/price_alert.go:684-748 | every update advances its watermark, no key is updated twice, initial and send keys are disjoint, and each change is paired with the update of its own key, day and value |
| Detection.DetectedExactly | services/user-asset-service/internal/service/price_alert.go:669-748 | a detection records exactly the dated first sights of keys, without a time of sending, and tells exactly the changes: of a later day, from the row before or the recorded value, or of the recorded day, from another recorded value; each with the item's and the newest row's own fields, beside the update of its key |
| Detection.DetectAgain | services/user-asset-service/internal/service/price_alert.go:684-748 | after some keys have caught up and the others have not moved, the same history yields exactly the findings about the others, unaltered |
| CatchUp.WindowDecidesAsFullHistory | services/catalog-service/internal/repository/catalog_repository.go:396-403 | the window and the full history lead to the same init, send or skip verdict with the same day and value, and to the same previous value unless the window holds one row of the key |
| AlertTables.PlanSteps | services/user-asset-service/internal/repository/user_asset_repository.go:334-354 | a list of writes that touches no row twice and advances each row from its start advances each row as it is written |
| AlertTables.WritesOfOneKey | services/user-asset-service/internal/repository/user_asset_repository.go:334-354 | of two writes of one key in a stepwise run the later never goes back, and consecutive ones differ in (day, value) |
| AlertTables.BagDecidesTables | services/user-asset-service/internal/repository/user_asset_repository.go:334-390 | when no row is written twice the order of the writes does not matter |
| Dispatch.SortedChangesOrdered | services/user-asset-service/internal/service/price_alert.go:596-601 | the changes of an email are the pending ones, latest collection first and then by item name |
| Dispatch.EmailOrder | services/user-asset-service/internal/service/price_alert.go:596-601 | in an email every change collected later comes first, and of two collected at one instant the one whose item name is smaller |
| Dispatch.MarksOfDispatch | services/user-asset-service/internal/service/price_alert.go:624-660 | the watermark writes of a dispatch are exactly the first updates of its list, up to the first failing write |
| Dispatch.DispatchStaysInside | services/user-asset-service/internal/service/price_alert.go:591-667 | beyond those a dispatch writes only its user's digest row, with today, and mails only its user |
| Dispatch.FailedSendChangesNothing | services/user-asset-service/internal/service/price_alert.go:638-651 | a failed rendering or send writes nothing and mails nothing |
| Dispatch.DigestMarkedIff | services/user-asset-service/internal/service/price_alert.go:629-665 | the digest row becomes today's exactly when no call failed; with an email out, exactly when every later write succeeded |
| Dispatch.PartialDispatch | services/user-asset-service/internal/service/price_alert.go:624-660 | after a partial dispatch each of its keys is at exactly its old or its new watermark, the new ones being the first of the list |
| Dispatch.DispatchWritesOnce | services/user-asset-service/internal/service/price_alert.go:591-667 | one dispatch writes no row twice and mails at most once |
| Dispatch.EmailGoesOutIff | services/user-asset-service/internal/service/price_alert.go:603-651 | an email goes out exactly when the lookup found a verified address with a character that is no space, a change is pending, and rendering and sending succeed; it is the user's, with exactly the pending changes |
| Dispatch.StampedIff | services/user-asset-service/internal/service/price_alert.go:624-660 | everything a dispatch writes carries the time of sending when the contact is such an address, and none otherwise |
| Dispatch.ReachedIff | services/user-asset-service/internal/service/price_alert.go:624-660 | the write of an update is reached exactly when every write up to it succeeds and no email was due and failed |
| Dispatch.ReportedIff | services/user-asset-service/internal/service/price_alert.go:603-667 | an email is reported exactly when one went out and every write after it succeeded, none exactly when none was due and every write succeeded, a failure otherwise |
| Dispatch.LostWithoutMailIff | services/user-asset-service/internal/service/price_alert.go:603-660 | a dispatch writes watermarks and sends no email exactly when the contact cannot be mailed and a write gets through |
| Dispatch.ContactErrorLosesAll | services/user-asset-service/internal/service/price_alert.go:603-635 | a failing contact lookup, with working writes, advances every watermark, mails nobody and reports success |
| Redetection.DetectAfterWrites | services/user-asset-service/internal/service/price_alert.go:669-748 | after any findings have been written, detecting again finds exactly the ones whose keys were not written, with the same current and previous values |
| Redetection.NothingAfterAllWrites | services/user-asset-service/internal/service/price_alert.go:669-748 | once every init and send state is written, detecting again on the same history finds nothing |
| Redetection.DetectAfterDispatch | services/user-asset-service/internal/service/price_alert.go:591-667 | after a dispatch that stops part way, detecting again returns exactly the changes whose watermark write was not reached; after a failed send, all of them |
| Schedule.NineOClock | services/user-asset-service/internal/service/user_asset.go:97-99 | the default time and mode are accepted ones |
| Schedule.AcceptedIsValid | services/user-asset-service/internal/service/user_asset.go:103-127 | whatever is accepted is one of the two modes and a readable time |
| Schedule.AcceptedAsGiven | services/user-asset-service/internal/service/user_asset.go:103-127 | rejected are exactly an id that is not positive, a mode that is neither of the two nor blank and a time that is neither readable nor blank; the rest is stored as given, trimmed, with the defaults for blanks |
| Schedule.ClockIff | services/user-asset-service/internal/service/user_asset.go:120-124 | a text is a time exactly when it is an hour below 24 in one or two digits, a colon and a minute below 60 in two, and its value is that minute of the day |
| Schedule.AcceptedTimeIsToday | services/user-asset-service/internal/service/price_alert.go:882-897 | every accepted time is parsed to its minute of the current UTC day, at any moment |
| Schedule.PaddedTimeIsToday | services/user-asset-service/internal/service/price_alert.go:882-897 | a stored time with spaces around it is parsed like the time itself |
| Schedule.DueWindow | services/user-asset-service/internal/service/price_alert.go:572-589 | a user with an accepted time is due exactly from that minute to the end of the day, until processed |
| CycleFacts.CollectIsGood | services/user-asset-service/internal/service/price_alert.go:119-193 | whatever fails, the queues hold only findings of their own user's subscriptions on the initial tables, no key twice, changes paired with updates, and the initial writes touch no row twice |
| CycleFacts.TurnsAnyOrder | services/user-asset-service/internal/service/price_alert.go:195-220 | visiting the same users in another order produces the same bag of events |
| CycleTheorems.RunOnce | services/user-asset-service/internal/service/price_alert.go:105-223 | no run writes a row twice, and with one mode per user it mails no user twice |
| RunGuarantees.RunIsPlanned | services/user-asset-service/internal/service/price_alert.go:105-329 | whatever fails, each watermark written by a run advances the row as it stood at the start |
| RunGuarantees.OneEmailPerUser | services/user-asset-service/internal/service/price_alert.go:195-220 | at most one email per user and cycle |
| RunGuarantees.AllTurnsTakenIff | services/user-asset-service/internal/service/price_alert.go:205-220 | the digest loop completes exactly when no due user's empty mark fails |
| RunGuarantees.OrderDoesNotMatter | services/user-asset-service/internal/service/price_alert.go:195-220 | when no empty mark fails, every order of visiting the maps gives the same tables and the same bag of emails |
| RunGuarantees.OrderFreeIff | services/user-asset-service/internal/service/price_alert.go:205-220 | the digest loop is independent of the order exactly when no empty mark fails or no due user's turn would produce anything |
| RunPerUser.QueuesHoldRoutedFindings | services/user-asset-service/internal/service/price_alert.go:160-192 | every change found for an immediate or due subscription is in exactly its user's pending list beside the update of its own key, in listing order, and nothing else is queued |
| RunPerUser.RunWritesDigestIff | services/user-asset-service/internal/service/price_alert.go:205-220 | a run writes a user's digest row exactly when the digest loop reaches the user and the dispatch or empty mark succeeds, and always with today |
| RunPerUser.DigestAfterRun | services/user-asset-service/internal/service/price_alert.go:205-220 | after a run such a user is processed for today and every other user's digest row is unchanged |
| Served.IneligibleIsPassedOver | services/user-asset-service/internal/service/price_alert.go:119-146 | an entry whose user has notifications off or is not the target, or whose item is gone, inactive or without a readable history, changes nothing whatever else is answered for it |
| Served.RunServesEligible | services/user-asset-service/internal/service/price_alert.go:105-223 | every watermark, digest row and email of a run is about an entry with notifications on, of the target if there is one, with an active item and a readable history |
| Isolation.CollectFailsIff | services/user-asset-service/internal/service/price_alert.go:119-178 | the first loop returns an error exactly when a considered entry's states cannot be read, one of its initial watermarks cannot be written, or its user's digest row cannot be read |
| Isolation.StopEndsRun | services/user-asset-service/internal/service/price_alert.go:119-178 | such an error of one entry ends the run for everybody: no email, no digest row, and no watermark beyond the initial ones of the entries up to it |
| Isolation.OneReadSilencesAll | services/user-asset-service/internal/service/price_alert.go:148-151 | making one considered entry's states unreadable silences any run, whatever else happens in it |
| Isolation.RunFailsIff | services/user-asset-service/internal/service/price_alert.go:119-220 | a run returns an error exactly when collecting does, or the empty mark of a due user without changes fails |
| Isolation.DueIff | services/user-asset-service/internal/service/price_alert.go:174-181 | a user is due exactly when one of their considered digest entries says so |
| Isolation.FailureStaysWithUser | services/user-asset-service/internal/service/price_alert.go:105-223 | as long as neither of two runs returns an error, whatever differs in the calls for one user's entries, contact, mail and writes, and in the visiting orders: the other users' watermarks, digest rows and emails come out the same |
| LostChanges.LostInRunIff | services/user-asset-service/internal/service/price_alert.go:603-635 | a run advances a queued user's watermarks without mailing that user exactly when the user's turn comes, the contact cannot be mailed and a write gets through |
| UserAssetTables.UserAssetRepository.ListNotificationSubscriptions | services/user-asset-service/internal/repository/user_asset_repository.go:258-301 | the enabled entries, each once, ordered by owner and id, with the owner's stored currency, switch, mode and time, and the column defaults only when no row exists |
| UserAssetTables.UserAssetRepository.ListWatchlistNotificationStates | services/user-asset-service/internal/repository/user_asset_repository.go:303-332 | exactly the rows of one watchlist entry |
| UserAssetTables.UserAssetRepository.UpsertWatchlistNotificationState | services/user-asset-service/internal/repository/user_asset_repository.go:334-354 | replaces exactly the row of its key, or nothing when the write fails |
| UserAssetTables.UserAssetRepository.UpsertUserNotificationDispatchState | services/user-asset-service/internal/repository/user_asset_repository.go:376-390 | replaces exactly the user's digest row, or nothing when the write fails |
| UserAssetTables.UserAssetService.GetPreferences | services/user-asset-service/internal/service/user_asset.go:92-101 | a missing row is created with the defaults; a failing read or write is an error that changes nothing; stored preferences stay valid |
| UserAssetTables.UserAssetService.UpdatePreferences | services/user-asset-service/internal/service/user_asset.go:103-127 | stores what was accepted unless the write fails, changes nothing otherwise; stored preferences stay valid |
| UserAssetTables.ListingIsUniform | services/user-asset-service/internal/repository/user_asset_repository.go:259-273 | a listing names each entry once and gives each user one mode |
| Readings.DetectedAsRead | services/user-asset-service/internal/service/price_alert.go:148-153 | whatever is listed or tied, what the engine detects through text keys is the finding on the watermarks its texts lead to and on the same rows in some order; with nothing ambiguous, on the table and the answer themselves |
| LiveReads.EarlierWritesElsewhere | services/user-asset-service/internal/service/price_alert.go:119-158 | when a subscription's turn comes, its own watermarks and all digest rows are still as at the start of the run |
| Readings.CollectReads | services/user-asset-service/internal/service/price_alert.go:119-193 | collecting depends on the listed entries' watermarks and on the digest rows, on nothing else in the tables |
| LiveReads.RunWritesShownPairs | services/user-asset-service/internal/service/price_alert.go:105-329 | a run gives new watermarks only to pairs it was shown for their entry |
| AlertService.PriceAlertService.DispatchUserNotification | services/user-asset-service/internal/service/price_alert.go:591-667 | performs exactly the specified writes; delivers one email exactly to a verified address that is not blank, for pending changes, when rendering and sending succeed, and reports it as sent only then |
| AlertService.PriceAlertService.CollectChanges | services/user-asset-service/internal/service/price_alert.go:119-193 | for every answer of the catalog the first loop leaves the tables and queues of the specified collection on what it read, and the users checked; what it read is the table itself when no text is shared |
| AlertService.PriceAlertService.DispatchPending | services/user-asset-service/internal/service/price_alert.go:306-327 | visits each pending user once in some order; tables, mail and counters are those of the turns in that order |
| AlertService.PriceAlertService.DispatchDue | services/user-asset-service/internal/service/price_alert.go:205-220 | visits due users in some order up to the first failed empty mark |
| AlertService.PriceAlertService.RunCycle | services/user-asset-service/internal/service/price_alert.go:105-223 | for every answer of the catalog and some order of each map, a cycle does exactly the events of the specification on what it read, and fails exactly when that does; entries that are disabled, whose owner has notifications off or whose item is gone or inactive keep their watermarks, and only owners of others are marked or mailed |
| AlertService.PriceAlertService.SendManualPriceAlerts | services/user-asset-service/internal/service/price_alert.go:225-329 | the same for a manual diff and its target, with every counter of its result; users with a diff are those mailed plus those skipped, and the changes found are all those queued |
| AlertService.PriceAlertService.SendForcedSnapshot | services/user-asset-service/internal/service/price_alert.go:331-514 | leaves both tables as they were; each user with a contributing entry and a verified address is mailed, when rendering and sending succeed, exactly the current values of those entries |
| AlertService.TallyTotals | services/user-asset-service/internal/service/price_alert.go:306-327 | every queued user is counted once, as sent or as skipped, whatever the order |
| AlertService.TallyFound | services/user-asset-service/internal/service/price_alert.go:306-311 | the changes found are all those queued for the users visited |
| AlertService.CheckedIff | services/user-asset-service/internal/service/price_alert.go:237-247 | the users checked are exactly the owners of listed entries with notifications on, of the target if there is one |
| AlertService.ManualReportsMail | services/user-asset-service/internal/service/price_alert.go:306-327 | the reported emails are the accepted ones less the users for whom a watermark write failed after the email went out |
| Snapshot.SnapshotQueueHolds | services/user-asset-service/internal/service/price_alert.go:350-468 | a user's snapshot holds one change for each contributing subscription, in listing order |
| Snapshot.SnapshotChangeShows | services/user-asset-service/internal/service/price_alert.go:350-465 | an entry contributes exactly when its notifications are on, its user is the target, if any, its item is active and its history readable; its change shows no difference and carries the newest stored row, else the live price of an item with an external id and a game, else the marker of a missing price with value 0 |
| Snapshot.SnapshotMails | services/user-asset-service/internal/service/price_alert.go:350-514 | a user is mailed exactly when some entry contributes, the address is verified and not blank, and rendering and sending succeed; the email lists exactly the contributing entries |
| Snapshot.SnapshotOnlyMails | services/user-asset-service/internal/service/price_alert.go:330-334 | whatever happens to its dispatches, a snapshot writes no row |
| AlertRuns.RunsStayClear | services/user-asset-service/internal/service/price_alert.go:105-329 | with prices that never bring two pairs of an item under one text, text keys stay unambiguous over any run |
| AlertRuns.ShownRepliesAreClear | services/user-asset-service/internal/service/price_alert.go:105-158 | in such a state the catalog's answers are unambiguous beside the watermarks, so what a run reads is the table itself |
| AlertRuns.WatermarksOnlyAdvance | services/user-asset-service/internal/service/price_alert.go:105-329 | over any serialised run of upserts, cycles, diffs and snapshots with any failures, text keys unambiguous: no watermark's day moves back, and consecutive writes of a key never carry the same (day, value) |
| AlertRuns.RowsNeverGoBack | services/user-asset-service/internal/service/price_alert.go:105-329 | no watermark row is at an earlier day after such a run than before it |
| AlertRuns.OneDigestPerDay | services/user-asset-service/internal/service/price_alert.go:174-220 | at most one digest email per user and UTC day over any serialised run with a nondecreasing clock in which no table write of a reached dispatch fails after its digest email went out |
| AlertRuns.DueAgainTodayIff | services/user-asset-service/internal/service/price_alert.go:572-667 | without that condition it fails exactly there: a mailed user is due again the same day if and only if a write after the email failed |
| AlertRuns.DigestMailedIff | services/user-asset-service/internal/service/price_alert.go:205-220 | a run mails a user a digest exactly when one is queued, the turn is reached, and contact, rendering and sending work |
| AlertRuns.SecondDigestIff | services/user-asset-service/internal/service/price_alert.go:205-220 | after a run that mailed a user a digest, a later run of the same day mails another exactly when a write failed after the first email and the second run's digest for the user goes out |
| Mailings.MailedIsTold | services/user-asset-service/internal/service/price_alert.go:637-651 | each update of a mailed queue is told by an email of the run: a change of the entry's item with the update's pair, day and value |
| Mailings.ToldIsMailed | services/user-asset-service/internal/service/price_alert.go:637-651 | and an email of a run tells nothing but such updates of its user |
| Mailings.FoundIff | services/user-asset-service/internal/service/price_alert.go:684-748 | a detection sends a key with a given day and value exactly when the newest row shown for it has them and they move a watermark that names a day |
| Mailings.SaysIff | services/user-asset-service/internal/service/price_alert.go:105-329 | a run mails a user a key with a given day and value exactly when the user's email goes out, the key's entry is routed to it, its newest row shows them, and they move a watermark that names a day |
| Mailings.SaysExactly | services/user-asset-service/internal/service/price_alert.go:105-329 | the same on the fields themselves: eligible entry, queue by kind and mode, newest row, watermark on an earlier day or on that day with another value, turn, verified address, rendering and sending |
| Mailings.EmailRepeatsIff | services/user-asset-service/internal/service/price_alert.go:637-660 | over any serialised run: after an email whose watermark write succeeded, a later email carries the key with the same day and value exactly when it would say so and the watermark has meanwhile come to hold another value of that day |
| Mailings.EmailResentIff | services/user-asset-service/internal/service/price_alert.go:637-660 | when nothing writes the watermark in between, a later email carries the first one's day and value exactly when it would say so and the write after the first email was not reached |
| Mailings.EmailsNeverGoBack | services/user-asset-service/internal/service/price_alert.go:637-660 | of two emails that carry one key, the first followed by its write, the later never carries an earlier day |
| Mailings.FoundAgainIff | services/user-asset-service/internal/service/price_alert.go:105-223 | a change found by a run is found again on the same history, with the same day and value, exactly when the run did not write its watermark |
| Witnesses.ChangeIsLost | services/user-asset-service/internal/service/price_alert.go:603-635 | for every entry whose price moved on: with a failing contact lookup the run succeeds, writes the watermark and mails nobody |
| Witnesses.SilencedByAnother | services/user-asset-service/internal/service/price_alert.go:148-151 | for every such item and two users: one failing read for the first decides whether the second is mailed |
| Witnesses.TwoDigestsInOneDay | services/user-asset-service/internal/service/price_alert.go:624-665 | for every such entry and any two due instants of one day: a valid run of two cycles whose trace is two digests to the user with one and the same change |
| Witnesses.ScenesExist | services/user-asset-service/internal/service/price_alert.go:572-589 | such entries and instants exist for every active item, price day and watermark on an earlier day |
| Repeats.ReturningPriceIsMailedAgain | services/user-asset-service/internal/service/price_alert.go:709-728 | for every such entry: a valid run of three cycles without any failure in which the price changes and comes back, the change in between being mailed or noted without an email, and the last email repeats the first one's day and value |
| Repeats.CollidedPairIsMailedAgain | services/user-asset-service/internal/service/price_alert.go:676-728 | for every entry whose watermark is at the newest day and value and which has another pair of the same text behind: a run the service may perform mails and writes that day and value again |
| Repeats.MailIsNotReported | services/user-asset-service/internal/service/price_alert.go:306-327 | for every such entry: a manual diff after which the provider has accepted one email and the result counts none |
| CatchUp.RunsStayAnchored | services/catalog-service/internal/repository/catalog_repository.go:360-388 | with prices that only grow, every watermark names a stored price day of its key, over any run |
| CatchUp.SkipIsCaughtUp | services/user-asset-service/internal/service/price_alert.go:691-716 | then a skipped key's watermark equals the newest stored day and value |
| CatchUp.RunCatchesUp | services/user-asset-service/internal/service/price_alert.go:105-329 | a run that reaches the end of a subscription's writes leaves every key of its window at the newest stored day and value, and detecting again at any time finds nothing |
| SchedulerLock.MutualExclusion | services/user-asset-service/internal/repository/schedule_state.go:36-59 | for any number of processes interleaved statement by statement, with any failures and crashes: at most one process between acquire and release still has its session, and at most one at all unless the server ended a session inside |
| SchedulerLock.RunningMeansLocked | services/user-asset-service/internal/repository/schedule_state.go:61-101 | the row says running exactly while a process holding the lock is between its marks, unless a final mark failed, a process crashed before it, or a session was lost inside |
| SchedulerLock.RunsTotalCounts | services/user-asset-service/internal/repository/schedule_state.go:77-101 | runs_total grows by exactly the sections that passed their final mark less the final marks that failed; with nobody inside and no trouble, by the sections entered |
| SchedulerLock.HeldIff | services/user-asset-service/internal/repository/schedule_state.go:52-58 | a session holds the lock exactly when it has not ended and a process is inside on it or an unlock has failed on it, once for each of these |
| SchedulerLock.LostSessionLetsTwoIn | services/user-asset-service/internal/repository/schedule_state.go:36-59 | the condition on lost sessions is needed: a run that puts two processes inside |
| SchedulerLock.OthersCanEnterIff | services/user-asset-service/internal/repository/schedule_state.go:36-59 | with a process inside: in a continuation in which it takes no step and its session is not ended, another process can enter exactly when its session had ended before |
| SchedulerLock.FailedUnlockLeaks | services/user-asset-service/internal/repository/schedule_state.go:52-58 | the condition on unlocks is needed: a run that leaves the lock held with nobody inside |
| SchedulerStore.Store.AcquireSchedulerLock | services/user-asset-service/internal/repository/schedule_state.go:36-59 | an error without any statement when the pool hands out no connection; otherwise takes one and tries the lock; when refused or failed the connection is given back |
| SchedulerStore.Store.RunLocked | services/user-asset-service/internal/scheduler/price_alert.go:66-94 | the run's statements are exactly the protocol's, in its order, each one enabled |
| SchedulerStore.LockedRunRestores | services/catalog-service/internal/adminjobs/catalog_import_runner.go:81-100 | an undisturbed locked run leaves its process outside, a free lock free unless the unlock failed on a kept connection, and counts one run exactly when granted and marked |
| AccountFacts.ExecKeepsShape | services/auth-service/internal/repository/auth_repository.go:61-78 | addresses stay unique, ids below the sequence, and every token row belongs to an existing user |
| AccountFacts.RefreshTableAfter | services/auth-service/internal/service/auth.go:140-172 | all any operation does to the refresh table: its revocations, then at most one new row, never over an existing one |
| AccountFacts.UserTableAfter | services/auth-service/internal/repository/auth_repository.go:134-165 | all any operation does to the user table: one new row, or one column of one row |
| AccountFacts.OneTimeTokensChange | services/auth-service/internal/repository/auth_repository.go:200-250 | an operation adds at most one unused, unexpired token under a new text, or marks one unused, unexpired token used, in one of the two tables |
| AccountFacts.RefreshRowsStay | services/auth-service/internal/repository/auth_repository.go:167-198 | refresh rows keep owner and expiry, and a revoked row never changes again |
| AccountFacts.OneTimeRowsStay | services/auth-service/internal/repository/auth_repository.go:200-250 | one-time rows keep owner and expiry, and a used row never changes again |
| AccountFacts.ExecKeepsOwners | services/auth-service/internal/service/auth.go:412-469 | each stored refresh row belongs to the subject inside its token |
| AccountFacts.RefreshServesOwner | services/auth-service/internal/service/auth.go:140-172 | a successful Refresh issues the new pair to the owner of the old row and revokes that row |
| AccountFacts.LiveTokensChange | services/auth-service/internal/service/auth.go:140-172 | a user's unrevoked tokens change only by those surrendered and the one issued |
| AccountFacts.LiveTokensCounted | services/auth-service/internal/service/auth.go:140-172 | Refresh keeps the number of unrevoked tokens or lowers it by one; only registering and logging in raise it, by one |
| AccountFacts.BlockedGetNothing | services/auth-service/internal/service/auth.go:412-426 | no operation issues a token to a blocked user |
| AccountFacts.BlockedStayRevokedIff | services/auth-service/internal/service/auth.go:383-401 | one operation keeps blocked users without unrevoked tokens unless it blocks a holder of one and the revocation call fails, and only then |
| AccountRuns.RevokedForever | services/auth-service/internal/repository/auth_repository.go:192-198 | over any run a revocation is never undone and keeps its moment |
| AccountRuns.ExchangedAtMostOnce | services/auth-service/internal/service/auth.go:140-172 | over any run a refresh token yields at most one new pair |
| AccountRuns.LiveTokensBounded | services/auth-service/internal/service/auth.go:90-172 | a user's unrevoked tokens never exceed those at the start plus the registrations and logins since |
| AccountRuns.BlockedNeverLive | services/auth-service/internal/service/auth.go:383-410 | over any run in which blocking always got to revoke, a blocked user never has an unrevoked token |
| AccountRuns.HashChangesBy | services/auth-service/internal/service/auth.go:209-234 | a hash changes exactly when an unused, unexpired reset token of that user is confirmed, to the new password's |
| AccountRuns.HashHasProvenance | services/auth-service/internal/service/auth.go:209-234 | over any run a user's hash is the one at the start or was set through a reset token of that user |
| AccountRuns.ResetTokenReusableIff | services/auth-service/internal/service/auth.go:228-232 | within its lifetime a confirmed token can be used again exactly when recording its use failed |
| AccountRuns.ResetAtMostOnce | services/auth-service/internal/service/auth.go:209-234 | otherwise it changes a password at most once in any run |
| AccountRuns.TokensAreRequested | services/auth-service/internal/service/auth.go:174-272 | one-time tokens appear only for the owner of the requested address, verification tokens only for unverified ones |
| AccountRuns.VerifiedOverRun | services/auth-service/internal/service/auth.go:274-294 | over any run a verified address stays verified, and when uses are recorded every verified user has consumed a verification token |
| AccountRuns.VerifiedIff | services/auth-service/internal/service/auth.go:274-294 | whatever fails, a user is verified after a run exactly when verified before it or set so in it by a usable verification token of that user |
| AccountTerms.LoginIff | services/auth-service/internal/service/auth.go:116-138 | a login yields a token exactly for the address and password of an unblocked user, when the calls succeed and the token is new; it is that user's, and its row lasts seven days |
| AccountTerms.RegisterIff | services/auth-service/internal/service/auth.go:90-114 | a registration adds the user exactly for a free nonempty address and a nonempty password, and yields a token exactly when the further calls succeed |
| AccountTerms.RefreshIff | services/auth-service/internal/service/auth.go:140-172 | refreshing yields a token exactly for a signed token whose claim and unrevoked row have not expired and whose user is not blocked; the row is revoked, and nothing else changes, as soon as the first two calls succeed |
| AccountTerms.ConfirmIff | services/auth-service/internal/service/auth.go:209-234 | a confirmed reset sets the hash exactly for an unused, unexpired token and a nonempty password, and uses the token up when that write succeeds |
| AccountTerms.VerifyEmailIff | services/auth-service/internal/service/auth.go:274-294 | an address is verified exactly for an unused, unexpired token, which is used up when that write succeeds |
| AccountTerms.RequestResetIff | services/auth-service/internal/service/auth.go:174-207 | a reset token is stored exactly for an address that a user has, under a new text, for an hour |
| AccountTerms.RequestVerificationIff | services/auth-service/internal/service/auth.go:236-272 | a verification token is stored exactly for an address that an unverified user has, under a new text, for a day |
| AccountTerms.RoleIff | services/auth-service/internal/service/auth.go:357-381 | a role is written exactly when it is one of the two, for an existing user with a positive id |
| AccountTerms.BlockIff | services/auth-service/internal/service/auth.go:383-410 | blocking stamps the user and, when the second call succeeds, revokes exactly the user's unrevoked tokens; unblocking leaves tokens alone |
| AuthService.AuthRepository.CreateUser | services/auth-service/internal/repository/auth_repository.go:61-78 | inserts under the next id unless the address is taken |
| AuthService.AuthRepository.RevokeAllUserRefreshTokens | services/auth-service/internal/repository/auth_repository.go:286-295 | revokes exactly the user's unrevoked rows |
| AuthService.AuthService.IssueTokenPair | services/auth-service/internal/service/auth.go:412-469 | saves one new refresh row for an existing, unblocked user, unless a call fails or the token exists |
| AuthService.AuthService.Register | services/auth-service/internal/service/auth.go:90-114 | performs the specified transition and returns the specified token |
| AuthService.AuthService.Login | services/auth-service/internal/service/auth.go:116-138 | performs the specified transition; returns a token exactly for the address and password of an unblocked user, when the calls succeed and the token is new |
| AuthService.AuthService.Refresh | services/auth-service/internal/service/auth.go:140-172 | performs the specified transition and returns the specified token, only for a token in force of an unblocked user |
| AuthService.AuthService.RequestPasswordReset | services/auth-service/internal/service/auth.go:174-207 | performs the specified transition; returns the generated token when it is stored and mailed, the empty text for an unknown address, an error otherwise |
| AuthService.AuthService.ConfirmPasswordReset | services/auth-service/internal/service/auth.go:209-234 | performs the specified transition and succeeds exactly when both writes do |
| AuthService.AuthService.RequestEmailVerification | services/auth-service/internal/service/auth.go:236-272 | performs the specified transition; returns the generated token when it is stored and mailed, the empty text for a verified user, an error otherwise |
| AuthService.AuthService.VerifyEmail | services/auth-service/internal/service/auth.go:274-294 | performs the specified transition and succeeds exactly when both writes do |
| AuthService.AuthService.UpdateUserRole | services/auth-service/internal/service/auth.go:357-381 | performs the specified transition; only the two roles are accepted |
| AuthService.AuthService.SetUserBlocked | services/auth-service/internal/service/auth.go:383-410 | performs the specified transition; blocking succeeds only when the revocation does |
| Tarkov.TarkovHasPrice | shared/catalogimport/source/tarkov.go:214-222 | true exactly when one of the five prices is present and positive |
| Tarkov.Stream | shared/catalogimport/source/tarkov.go:34-116 | terminates; without failures consumes exactly the first `limit` priced items (all when not positive), in order, each once and with the translation found by its id; a failing stream has consumed a prefix of them |
| Tarkov.LastById | shared/catalogimport/source/tarkov.go:60-69 | an id leads to the last item of the localized page that has it |
| Tarkov.ConsumedShows | shared/catalogimport/source/tarkov.go:60-95 | whatever is consumed shows an item with a known positive price: its id, trimmed name and description, its large picture or icon, and over parallel lists the translation of the localized item in the same place |
| Tarkov.CompleteCount | shared/catalogimport/source/tarkov.go:34-116 | a stream without failures takes as many items as are priced, or as the limit allows |
| Tarkov.TotalHint | shared/catalogimport/source/tarkov.go:118-138 | the limit when positive, otherwise the number of upstream items, priced or not |
| Tarkov.HintCovers | shared/catalogimport/source/tarkov.go:118-138 | a stream never takes more than the hint, and without a limit takes as many exactly when every item is priced |
| Tarkov.PricedAt | shared/catalogimport/source/tarkov.go:70-73 | each priced item has its place in the wanted list, after the priced items before it, with its own translation |
| EveSlug.BuildEVESlug | shared/catalogimport/source/eve.go:195-214 | the builder loop computes the squeezed, trimmed name followed by the type id |
| EveSlug.SlugShape | shared/catalogimport/source/eve.go:195-214 | no slug starts with a hyphen, and a slug has two adjacent hyphens exactly when the type id is negative |
| EveSlug.StemKeepsWords | shared/catalogimport/source/eve.go:195-214 | the slug keeps the runs of letters and digits of the name, in order, and nothing else but hyphens; a name without any becomes `type` |
| EveSlug.SlugsDiffer | shared/catalogimport/source/eve.go:195-214 | different type ids, of either sign, give different slugs whatever the names |
| PriceSync.Manager.StartWithMeta | services/catalog-service/internal/adminjobs/manager.go:64-97 | registers a running job under its id and hands out a separate copy |
| PriceSync.Manager.Finish | services/catalog-service/internal/adminjobs/manager.go:77-94 | the final status and error text follow the runner's outcome; only a completed job is set to 100 |
| PriceSync.Manager.Get | services/catalog-service/internal/adminjobs/manager.go:99-107 | a separate copy of the job, nothing for an unknown id |
| PriceSync.Manager.UpdateProgress | services/catalog-service/internal/adminjobs/manager.go:119-131 | records the counts and, when the total is known, the truncated percentage |
| PriceSync.CountingObserver.OnItemProcessed | services/catalog-service/internal/scheduler/price_history.go:159-164 | counts the item and passes it on, so both observers agree |
| PriceSync.UpsertPriceHistory | services/catalog-service/internal/service/service.go:140-157 | rejects blank fields and a missing collection time, otherwise stores the trimmed row on the day of collectedOn, or of the collection when that is missing |
| PriceSync.CollectItem | services/catalog-service/internal/scheduler/price_history.go:223-298 | under each key the table holds the answer of the last of the item's game modes stored there: complete, not blank, trimmed, on the day it was fetched; other rows stay, and the modes stored are counted |
| PriceSync.CountItems | services/catalog-service/internal/scheduler/price_history.go:178-192 | the counting pass terminates with exactly the number of items |
| PriceSync.RunOnce | services/catalog-service/internal/scheduler/price_history.go:172-221 | the collecting pass visits each item exactly once, in order; after a list error it has visited a prefix and shown exactly that progress |
| PriceSync.RunWithLockHeld | services/catalog-service/internal/scheduler/price_history.go:118-144 | with the lock held the job shows exactly the percentages of the items visited, and without list errors all of them are visited |
| PriceSync.StartPriceHistorySync | services/catalog-service/internal/adminjobs/price_history_runner.go:21-33 | the job ends completed, skipped or failed as the lock decides; with no list error both passes complete; a list error goes unreported and the job still completes |
| PriceSync.JobProgressIff | services/catalog-service/internal/adminjobs/price_history_runner.go:50-62 | the percentage stays in 0..100, never falls and ends at 100 exactly as long as the collecting pass does not exceed the count by a full percent, in particular whenever both passes see the same items |

## Left out

- Concurrency of manual alert runs with a scheduled cycle, and of auth requests with each other: the code takes no lock there, so those properties are about serialised runs.
- Order among rows that compare equal: `sort.Slice` is not stable. Grouping leaves it open; the order of an email's changes is modelled by a stable sort, so which of two changes with the same time and item name comes first is not captured.
- Floating-point rounding and NaN: values are the fixed-point numbers the columns store.
- A send that the mail client reports as failed is taken as not delivered: a provider that accepts the mail and then times out can deliver a digest again the same day, as no write follows.
- Rendering of emails, prices and HTML, and the subject line: a rendering either succeeds or fails.
- Dates outside the years 0 to 9999, and Go's normalisation of hours and minutes beyond the range of its time type: a stored time that was not accepted by the preferences is laid over the day in unbounded arithmetic.
- Schedule.ParseTodaySchedule: does not model the overflow of `time.Date` for hours or minutes near the limits of int64; accepted times never come near them.
- Deleting a watchlist entry, which also deletes its watermarks, and adding entries during a run.
- A window of ten rows can hide a key altogether when an item has many sources; nothing is claimed about keys outside the window.
- The admin broadcast message, contact listing and user listing: single calls or one filter.
- SchedulerLock: the hash that turns a job name into a lock key; jobs whose names collide would exclude each other.
- SchedulerStore.Store.RunLocked: the ten- and fifteen-minute timeouts and the panic path of the deferred release; last_processed, last_total and the times in the row are not part of the row.
- PriceSync.Manager.StartWithMeta: the goroutine is run to its end by its caller, so the unlocked read of the job after the goroutine starts is not modelled, and ids are assumed unused.
- Signing and random generation: a refresh token is the value of its claims, forged text is a token that does not parse, and password hashing is injective. A write reported as failed is taken as not done.
- AuthService.AuthService.RequestPasswordReset: the content of the email; a failed email is an error after the token is stored.
- The Warframe and EVE importers apart from the slug, HTML stripping, and the retry loop of the upstream clients.
- EveSlug.BuildEVESlug: lower-casing and the Unicode classes are parameters; the hyphen is assumed to be no letter or digit and the decimal digits to be digits.
- Items that share a creation time may change places between pages of the active-item listing; each pass is over one fixed list.
- Catalog and user CRUD, search, localisation, the outbox, the gateway and all HTTP handlers.
