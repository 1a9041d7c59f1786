# GharobaCabs: duty tracking, dispatch, money and driver records in Dafny

This project models the logic inside the pages of a Next.js + Supabase app for a cab fleet, and proves properties of that model. Every store call, realtime subscription and platform callback is replaced by a plain input: the row a query returns, whether an insert failed, the id a position watch hands out, the next position sample.

- **Journey** (`journey.dfy`): the driver's live-tracking state machine. It holds a watch handle, the last recorded point, an append-only route and a running distance. It writes this driver's entry in the shared live-location table (`live.dfy`).
- **Tracking context** (`tracking_context.dfy`): a second, reconciling version of that machine. On every duty-change notification it arms or disarms the watch to match today's duty row.
- **Dispatcher** (`dispatcher.dfy`): the admin map's join of the live snapshot with the driver, profile and vehicle rows, with default labels and the map centre.
- **Reports** (`reports.dfy`): monthly totals as field-wise sums, and the unquoted CSV export.
- **Expenses** (`expenses.dfy`): validation, receipt naming, the insert payload and totals.
- **History** (`history.dfy`): list labels, expense totals and duty profit.
- **Documents** (`documents.dfy`): upload naming, the key-prefix match that fills each document slot, and the image-extension test.
- **Vehicles** (`vehicles.dfy`): form normalisation, error mapping, and the edit/save/reset cycle.
- **Profile** (`profile.dfy`): the change-diff that decides which updates a save queues.
- **Driver home and dashboard** (`driver_home.dfy`, `dashboard.dfy`): the duty-status classification, the fallback labels and the role redirect.
- **Shared pieces**: `wrappers.dfy` holds `Option`, `Result` and `Outcome` (`null` and `{ data, error }`). `text.dfy` holds the string operations the pages use: split/join, `split('.').pop()`, trim, case mapping and decimal digits. `geo.dfy` holds coordinates and the accumulated distance, and `duties.dfy` the duty row and `isActive`.

Where the source updates state in place, the model is a class. Journey, tracking context, dispatcher view, reports, expenses, history, documents, vehicles and profile each have one. Each class method is proved equal to a pure transition function on a value of the page's state, such as `ensures State() == StopSpec(old(State()))`. The lemmas about those functions state what the page promises: idempotent teardown, at most one armed watch, only this driver's entry changes, round trips, iff conditions. The driver home and dashboard pages are pure conditional expressions and are modelled as functions. Where the code departs from what it evidently intends (see "## Findings"), the document slots and the vehicle save follow the code as written, with the corrected version proved beside them; the dispatcher takes its driver rows as an input, and `AsSelected` gives the rows the query as written returns; the live-location deletes are stated in corrected form, with an as-written stop method beside each.

Money: report amounts are whole paise (`int`), so that `toFixed(2)` has an exact definition and an exact inverse. Expense and collection amounts are `real`; the value `parseFloat` produced is passed in.

## Model

| member | source | states |
|---|---|---|
| Journey.AtMostOneWatch | src/app/driver/journey/page.tsx:63-102 | in a well-formed session the platform has at most one watch, and one exactly when the handle is held |
| Journey.StartTrackingSpec | src/app/driver/journey/page.tsx:63-102 | while a handle is held or without geolocation nothing changes; otherwise the new watch becomes the handle and the status asks for permission; only handle, platform watches and status change; the one-watch invariant is kept |
| Journey.SampleSpec | src/app/driver/journey/page.tsx:69-86 | a sample becomes the position and the recorded point, is appended to the route, and adds the travelled distance from the previous recorded point (nothing when there is none); the distance never decreases |
| Journey.WatchErrorSpec | src/app/driver/journey/page.tsx:91-93 | a watch error changes only the status line |
| Journey.StopSpec | src/app/driver/journey/page.tsx:104-111 | stopping clears the handle, the platform watch and the recorded point, and keeps route, distance, position, duty and status |
| Journey.StartDutySpec | src/app/driver/journey/page.tsx:128-160 | starting a duty keeps the one-watch invariant on every path |
| Journey.EndDutySpec | src/app/driver/journey/page.tsx:162-186 | ending a duty always leaves tracking stopped and the invariant kept, whatever the location or update outcome |
| Journey.EndDutyRequest | src/app/driver/journey/page.tsx:166-175 | the end update is sent exactly when geolocation exists, a position was obtained and a duty is current, and it carries that duty's id and the end point |
| Journey.ResumeSpec | src/app/driver/journey/page.tsx:39-61 | on load no row changes nothing; a row becomes the current duty; the invariant is kept |
| Journey.StartTrackingTwice | src/app/driver/journey/page.tsx:64 | a second start is refused, so starting twice equals starting once |
| Journey.StopIdempotent | src/app/driver/journey/page.tsx:104-111 | stopping twice equals stopping once |
| Journey.FirstSampleAfterStop | src/app/driver/journey/page.tsx:77-80 | the first sample after a stop adds no distance and becomes the recorded point |
| Journey.RepeatedPointAddsNothing | src/app/driver/journey/page.tsx:113-126 | repeating the recorded point adds nothing to the distance |
| Journey.ReplayEffect | src/app/driver/journey/page.tsx:74-80 | a run of samples extends the route by exactly those samples, adds their travelled distance, ends at the last sample, and keeps the handle and duty |
| Journey.DistanceNeverDecreases | src/app/driver/journey/page.tsx:113-125 | the running distance never decreases while samples arrive |
| Journey.StartThenSamples | src/app/driver/journey/page.tsx:148-157 | after a successful start at p0 and samples ps, the route is p0 followed by ps and the distance is that path's length |
| Journey.StartDutySucceeds | src/app/driver/journey/page.tsx:150-157 | a successful start sets the route to [p], the distance to 0, position and recorded point to p, the duty, and arms the watch |
| Journey.StartDutyInsertError | src/app/driver/journey/page.tsx:148-149 | an insert error changes only the status message |
| Journey.EndDutyUpdateError | src/app/driver/journey/page.tsx:162-177 | a failed end update leaves the duty current and active, but tracking already stopped, with route and distance kept |
| Journey.EndDutySucceeds | src/app/driver/journey/page.tsx:178-184 | a successful end clears the duty, route, distance, position and recorded point |
| Journey.ResumeActive | src/app/driver/journey/page.tsx:51-58 | an active row with a start location seeds position, route and recorded point from it and arms the watch |
| Journey.ResumeInactive | src/app/driver/journey/page.tsx:49-51 | a row that is not active only becomes the current duty |
| Journey.JourneySession.constructor | src/app/driver/journey/page.tsx:25-31 | the page starts with no handle, no position, an empty route, distance 0 and no duty |
| Journey.JourneySession.StartTracking | src/app/driver/journey/page.tsx:63-102 | the fields change exactly as `StartTrackingSpec` says |
| Journey.JourneySession.OnSample | src/app/driver/journey/page.tsx:69-86 | the fields change as `SampleSpec` says, and the table changes only at this driver's entry |
| Journey.JourneySession.OnWatchError | src/app/driver/journey/page.tsx:91-93 | the fields change as `WatchErrorSpec` says |
| Journey.JourneySession.StopTracking | src/app/driver/journey/page.tsx:104-111 | corrected (the delete at line 109 is sent): the fields change as `StopSpec` says and this driver's entry is removed, nothing else in the table |
| Journey.JourneySession.StopTrackingAsWritten | src/app/driver/journey/page.tsx:109 | as written, the unawaited delete is never sent, so the table is unchanged |
| Journey.JourneySession.StartDuty | src/app/driver/journey/page.tsx:128-160 | the fields change as `StartDutySpec` says |
| Journey.JourneySession.EndDuty | src/app/driver/journey/page.tsx:162-186 | corrected (the delete inside `stopTracking`, line 109, is sent): the fields change as `EndDutySpec` says, the request is `EndDutyRequest`, and the driver's entry is removed |
| Journey.JourneySession.Resume | src/app/driver/journey/page.tsx:49-60 | the fields change as `ResumeSpec` says |
| Journey.StopLeavesEntryAsWritten | src/app/driver/journey/page.tsx:109 | with the stop as written, a tracked driver is still listed after stopping |
| Journey.TwoDriversTracked | src/app/driver/journey/page.tsx:82-85 | two drivers sharing one table keep separate entries and totals; after one stops only the other is listed |
| Geo.TravelledNonNegative | src/app/driver/journey/page.tsx:113-125 | for a distance that is never negative, the accumulated distance is never negative |
| Geo.TravelledFrom | src/app/driver/journey/page.tsx:77-80 | from a recorded point p0, the accumulated distance is the length of the path p0 followed by the samples |
| Geo.TravelledFromNothing | src/app/driver/journey/page.tsx:77-80 | with no recorded point, the first sample adds nothing and the total is the length of the sampled path |
| Geo.StandingStillAddsNothing | src/app/driver/journey/page.tsx:117-124 | a run of identical samples adds no distance |
| Live.LiveLocations.Upsert | src/app/driver/journey/page.tsx:82-85 | the upsert writes this driver's entry and no other |
| Live.LiveLocations.Delete | src/context/TrackingContext.tsx:68 | the delete removes this driver's entry and no other |
| TrackingContext.StartWatchSpec | src/context/TrackingContext.tsx:43-61 | starting the watch is a no-op while a handle is held or without geolocation; otherwise it arms one watch and sets `isTracking` |
| TrackingContext.StopWatchSpec | src/context/TrackingContext.tsx:63-70 | stopping the watch clears the handle and the platform watch, sets `isTracking` false, and keeps the duty |
| TrackingContext.ReconcileSpec | src/context/TrackingContext.tsx:22-41 | an active row becomes the current duty; any other outcome clears the duty, the handle and `isTracking`; the invariant is kept |
| TrackingContext.ReconcileTable | src/context/TrackingContext.tsx:37-40 | corrected (the delete at line 68 is sent): an inactive outcome removes this driver's live entry and keeps every other entry; an active one keeps the table |
| TrackingContext.StopTrackingSpec | src/context/TrackingContext.tsx:97-100 | stopping tracking stops the watch and forgets the duty |
| TrackingContext.AtMostOneWatch | src/context/TrackingContext.tsx:43-61 | at most one watch is armed, and `isTracking` holds exactly when one is |
| TrackingContext.StartWatchTwice | src/context/TrackingContext.tsx:44 | once armed, further starts change nothing |
| TrackingContext.StopWatchIdempotent | src/context/TrackingContext.tsx:63-70 | stopping the watch twice equals stopping it once |
| TrackingContext.StopTrackingIdempotent | src/context/TrackingContext.tsx:97-100 | stopping tracking twice equals stopping it once |
| TrackingContext.ReconcileActiveArms | src/context/TrackingContext.tsx:32-36 | with an active row and geolocation, the watch ends up armed whether the closure saw the current or an older `isTracking` |
| TrackingContext.ReconcileSettles | src/context/TrackingContext.tsx:32-40 | a repeated notification with the same row changes nothing more |
| TrackingContext.TrackingProvider.constructor | src/context/TrackingContext.tsx:18-20 | the provider starts not tracking, with no handle and no duty |
| TrackingContext.TrackingProvider.StartLocationWatch | src/context/TrackingContext.tsx:43-61 | the fields change as `StartWatchSpec` says |
| TrackingContext.TrackingProvider.OnSample | src/context/TrackingContext.tsx:47-55 | a sample only upserts this driver's live entry |
| TrackingContext.TrackingProvider.StopLocationWatch | src/context/TrackingContext.tsx:63-70 | corrected (the delete at line 68 is sent): the fields change as `StopWatchSpec` says and this driver's entry is removed |
| TrackingContext.TrackingProvider.StopLocationWatchAsWritten | src/context/TrackingContext.tsx:68 | as written, the unawaited delete is never sent, so the table is unchanged |
| TrackingContext.TrackingProvider.FetchCurrentDuty | src/context/TrackingContext.tsx:22-41 | corrected (the delete at line 68 is sent): the fields change as `ReconcileSpec` says and the table as `ReconcileTable` says |
| TrackingContext.TrackingProvider.OnDutyChange | src/context/TrackingContext.tsx:76-84 | corrected (the delete at line 68 is sent): every duty-change notification re-runs the reconcile step, fields and table |
| TrackingContext.TrackingProvider.StartTracking | src/context/TrackingContext.tsx:92-95 | the exported `startTracking` changes nothing |
| TrackingContext.TrackingProvider.StopTracking | src/context/TrackingContext.tsx:97-100 | corrected (the delete at line 68 is sent): the fields change as `StopTrackingSpec` says and this driver's entry is removed |
| TrackingContext.EndedDutyLeavesEntryAsWritten | src/context/TrackingContext.tsx:68 | with the stop as written, a driver whose duty ended is still listed |
| Dispatcher.FindAt | src/app/admin/tracking/page.tsx:86-88 | the position found holds a row with the key, and no earlier row has it; an absent key finds nothing |
| Dispatcher.Find | src/app/admin/tracking/page.tsx:86-88 | `find` returns the first row with the key, nothing for an absent key, and nothing only when no row has it; one lookup serves drivers, profiles and vehicles |
| Dispatcher.Join | src/app/admin/tracking/page.tsx:85-96 | the list has the snapshot's length and order, with driver id and location copied unchanged |
| Dispatcher.AsSelected | src/app/admin/tracking/page.tsx:69-72 | the driver rows as queried carry no `user_id` |
| Dispatcher.VehicleLabel | src/app/admin/tracking/page.tsx:82-88 | the vehicle label is 'Not Assigned' when the driver or its assignment is missing or no vehicle row has the assigned id, and otherwise the registration of the first vehicle row with that id |
| Dispatcher.ProfileFound | src/app/admin/tracking/page.tsx:87 | a profile whose id is unique in the list is what the lookup returns |
| Dispatcher.NameFromProfile | src/app/admin/tracking/page.tsx:86-87 | with `user_id` selected, a driver whose profile exists is shown under that profile's name |
| Dispatcher.AsWrittenEveryNameUnknown | src/app/admin/tracking/page.tsx:69-87 | as written, every entry is labelled 'Unknown' |
| Dispatcher.AsWrittenHidesKnownDriver | src/app/admin/tracking/page.tsx:71-87 | a driver with a profile shows as 'Unknown' as written and under their name when `user_id` is selected |
| Dispatcher.TrackingView.constructor | src/app/admin/tracking/page.tsx:28-29 | the view starts with no drivers and the default centre |
| Dispatcher.TrackingView.FetchActiveDrivers | src/app/admin/tracking/page.tsx:55-104 | an error or empty snapshot empties the list and keeps the centre; otherwise the list is the join and the centre is the first entry's location |
| Dispatcher.TrackingView.OnLiveChange | src/app/admin/tracking/page.tsx:42-44 | every live-table change re-fetches the whole snapshot, with the same result as a fresh fetch |
| Reports.ColumnSumAppend | src/app/admin/reports/page.tsx:60-65 | a column's sum over two parts is the sum of the parts' sums |
| Reports.FoldIsColumnSums | src/app/admin/reports/page.tsx:60-65 | the `reduce` adds each column's sum (earnings, CNG, other, profit) to the starting totals |
| Reports.TotalsSplit | src/app/admin/reports/page.tsx:60-65 | the totals of a report are the field-wise sums of the totals of its parts |
| Reports.ReportsPage.constructor | src/app/admin/reports/page.tsx:21-29 | no month, an empty report, zero totals, not loading |
| Reports.ReportsPage.SelectMonth | src/app/admin/reports/page.tsx:107 | picking a month changes only the month |
| Reports.ReportsPage.GenerateReport | src/app/admin/reports/page.tsx:37-69 | without a month nothing is requested and nothing changes; otherwise the range starts at month-01; an error keeps report and totals; a reply replaces the report, with the totals as the fold, or kept when the reply is `null` |
| Reports.TwoDigits | src/app/admin/reports/page.tsx:78-81 | a value below 100 renders as exactly two digits |
| Reports.TwoDigitsValue | src/app/admin/reports/page.tsx:78-81 | the two digits read back as the value |
| Reports.Unsigned2 | src/app/admin/reports/page.tsx:78-81 | a non-negative amount renders as digits, a point and exactly two decimals |
| Reports.Fixed2 | src/app/admin/reports/page.tsx:78-81 | an amount renders with only digits, '-' and '.', with the point before exactly two decimals |
| Reports.Unsigned2RoundTrip | src/app/admin/reports/page.tsx:78-81 | a non-negative rendering parses back to the same paise |
| Reports.NegativeRoundTrip | src/app/admin/reports/page.tsx:78-81 | a negative rendering parses back to the same paise |
| Reports.NonNegativeRoundTrip | src/app/admin/reports/page.tsx:78-81 | a non-negative signed rendering parses back to the same paise |
| Reports.Fixed2RoundTrip | src/app/admin/reports/page.tsx:78-81 | `toFixed(2)` loses nothing: it parses back to the same number of paise |
| Reports.Lines | src/app/admin/reports/page.tsx:75-85 | one line per report row |
| Reports.ExportCsv | src/app/admin/reports/page.tsx:71-85 | nothing is exported exactly when the report is empty; an export starts with the header line |
| Reports.CellsWithout | src/app/admin/reports/page.tsx:78-82 | the rendered amounts and days contain no comma and no newline |
| Reports.LineWithoutNewline | src/app/admin/reports/page.tsx:85 | a row without newlines in name and plate gives a line without newlines |
| Reports.CsvLines | src/app/admin/reports/page.tsx:74-85 | without newlines in names and plates, the text splits back into the header and one line per row, i.e. report length + 1 lines |
| Reports.LineColumns | src/app/admin/reports/page.tsx:75-85 | a line has 7 columns plus one for every comma in the name and the plate |
| Reports.LineRoundTrip | src/app/admin/reports/page.tsx:85 | without commas in name and plate, a line splits back into exactly its seven cells |
| Reports.CommaShiftsColumns | src/app/admin/reports/page.tsx:76-85 | a driver named "Rao, K" exports as eight columns |
| Expenses.TotalFromSum | src/app/driver/expenses/page.tsx:110 | the left fold from a start value is that value plus the sum of the amounts |
| Expenses.TotalAppend | src/app/driver/expenses/page.tsx:110 | adding an expense adds its amount to the total |
| Expenses.TotalNonNegative | src/app/driver/expenses/page.tsx:110 | a list of positive expenses totals at least 0, and more than 0 when non-empty |
| Expenses.ReceiptKeepsExtension | src/app/driver/expenses/page.tsx:74-75 | the stored receipt keeps the chosen file's extension |
| Expenses.ReceiptNameIsLastSegment | src/app/driver/expenses/page.tsx:74-76 | the path's last segment is 'receipt_' + timestamp + '.' + extension |
| Expenses.NoDutyNoExpense | src/app/driver/expenses/page.tsx:60-63 | without a duty nothing is uploaded, inserted or read again, and the message says so |
| Expenses.InsertedRow | src/app/driver/expenses/page.tsx:64-106 | a row is inserted exactly when there is a duty, a positive amount, and any receipt uploaded; it carries the duty, kind, amount, description (empty as null) and the uploaded path (null without a receipt); the current duty's expenses are read again exactly when the insert succeeds |
| Expenses.FailureKeepsInputs | src/app/driver/expenses/page.tsx:82-107 | only a successful insert clears amount, description and receipt and reads the list again; every failure keeps them |
| Expenses.ExpensesPage.constructor | src/app/driver/expenses/page.tsx:16-23 | no duty, no expenses, kind 'cng', empty inputs |
| Expenses.ExpensesPage.FetchCurrentDuty | src/app/driver/expenses/page.tsx:31-48 | today's row becomes the current duty and its expenses are requested; without one, duty and expenses are emptied |
| Expenses.ExpensesPage.ReceiveExpenses | src/app/driver/expenses/page.tsx:50-57 | the fetched list replaces the expenses, `null` as empty |
| Expenses.ExpensesPage.AddExpense | src/app/driver/expenses/page.tsx:59-108 | the fields, the upload path, the inserted row and the duty whose expenses are read again are exactly `AddExpenseSpec`'s |
| History.LabelsShowActive | src/app/driver/history/page.tsx:84-86 | an entry shows a start time and 'Active' exactly when the duty is active |
| History.ProfitAfterExpense | src/app/driver/history/page.tsx:53-54 | each expense lowers the profit by its amount |
| History.ProfitWithoutExpenses | src/app/driver/history/page.tsx:54 | without expenses the profit is the collection, 0 when it is missing |
| History.ProfitBelowCollection | src/app/driver/history/page.tsx:53-54 | positive expenses put the profit below the collection |
| History.HistoryPage.constructor | src/app/driver/history/page.tsx:9-12 | no duties, nothing selected, no expenses, not loading |
| History.HistoryPage.FetchHistory | src/app/driver/history/page.tsx:20-33 | an error keeps the list; a reply replaces it, `null` as empty |
| History.HistoryPage.ViewDutyDetails | src/app/driver/history/page.tsx:35-51 | the duty is selected, its expenses are requested, an error gives an empty list, and loading ends false |
| Documents.EveryKeyListed | src/app/driver/documents/page.tsx:8-16 | every document key is among the listed types |
| Documents.KeysDistinct | src/app/driver/documents/page.tsx:8-16 | keys are distinct and contain no '_' |
| Documents.NameMatchesOnlyItsKey | src/app/driver/documents/page.tsx:55 | a name built for key k is matched by k and by no other key |
| Documents.DocPathExtension | src/app/driver/documents/page.tsx:72-74 | the stored path has a dot and keeps the chosen file's extension |
| Documents.FirstMatchAt | src/app/driver/documents/page.tsx:55 | the position found matches and no earlier name does |
| Documents.LastMatchAt | src/app/driver/documents/page.tsx:55 | the position found matches and no later name does |
| Documents.FirstMatchSmallest | src/app/driver/documents/page.tsx:46-55 | in a name-ascending listing the first match is the smallest matching name |
| Documents.LastMatchLargest | src/app/driver/documents/page.tsx:46-55 | in a name-ascending listing the last match is the largest matching name |
| Documents.MissingFileEmptiesSlot | src/app/driver/documents/page.tsx:61-63 | a listing without a file for a key empties that slot |
| Documents.StampsOrdered | src/app/driver/documents/page.tsx:73 | a later timestamp of the same width first differs from an earlier one by a larger digit |
| Documents.LaterUploadSortsAfter | src/app/driver/documents/page.tsx:73 | a later upload's name sorts after an earlier one's for the same key |
| Documents.AsWrittenShowsOldest | src/app/driver/documents/page.tsx:46-55 | as written, a slot with an earlier and a later upload never shows the later one |
| Documents.SlotShowsNewer | src/app/driver/documents/page.tsx:53-64 | the corrected slot never shows the earlier of two uploads |
| Documents.IsImageByExtension | src/app/driver/documents/page.tsx:89 | a URL is an image exactly when it has a dot and the text after the last dot is jpg, jpeg, png, gif or webp, ignoring case |
| Documents.UploadShownAsImage | src/app/driver/documents/page.tsx:89 | an uploaded document shows as an image exactly when the chosen file had an image extension |
| Documents.CollectSlots | src/app/driver/documents/page.tsx:53-64 | after the loop every document key holds the first listed file matching it, as `find` picks it, or nothing; the keys are the old keys plus every document key |
| Documents.DocumentsPage.constructor | src/app/driver/documents/page.tsx:23-33 | every slot starts empty, nothing uploading, no message |
| Documents.DocumentsPage.ListDocuments | src/app/driver/documents/page.tsx:43-66 | a listing error changes nothing; otherwise every slot is rewritten with the first listed file matching its key |
| Documents.DocumentsPage.UploadDocument | src/app/driver/documents/page.tsx:68-87 | the file goes to userId/key_timestamp.ext, the message names the slot's label, success lists again, and `uploading` ends empty either way |
| Vehicles.NormaliseIdempotent | src/app/admin/vehicles/page.tsx:74 | normalising the registration number twice equals normalising it once |
| Vehicles.NormalisedShape | src/app/admin/vehicles/page.tsx:74 | a normalised registration has no surrounding blanks and no lower-case letter |
| Vehicles.DataIsNormalised | src/app/admin/vehicles/page.tsx:73-79 | the record sent is normalised, the model is trimmed, and an expiry is null exactly when left empty |
| Vehicles.RequestOf | src/app/admin/vehicles/page.tsx:83-92 | an edited vehicle is updated by its id; otherwise the record is inserted |
| Vehicles.ErrorText | src/app/admin/vehicles/page.tsx:94-99 | code '23505' gives 'Registration number already exists.'; any other error its own message |
| Vehicles.ResetIsBlank | src/app/admin/vehicles/page.tsx:53-62 | a reset gives empty fields, CNG fitted, not editing, form hidden, no message, the list kept; resetting again changes nothing |
| Vehicles.AddFormInserts | src/app/admin/vehicles/page.tsx:64-67 | the add form opens blank and its submit is an insert |
| Vehicles.EditSaveRoundTrip | src/app/admin/vehicles/page.tsx:107-116 | editing a normalised vehicle and saving unchanged sends back exactly its fields, as an update of it |
| Vehicles.EditSaveStable | src/app/admin/vehicles/page.tsx:73-116 | saving an edited vehicle a second time without changes sends the same record |
| Vehicles.SubmitOutcomes | src/app/admin/vehicles/page.tsx:69-105 | a failed save keeps the form and shows the mapped error; a successful one resets the form, shows the success message and lists again |
| Vehicles.AsWrittenSuccessUnseen | src/app/admin/vehicles/page.tsx:101-102 | as written, a successful save ends with no message |
| Vehicles.VehiclesPage.constructor | src/app/admin/vehicles/page.tsx:20-30 | an empty list, hidden form, nothing edited, no message, blank fields with CNG fitted |
| Vehicles.VehiclesPage.FetchVehicles | src/app/admin/vehicles/page.tsx:40-51 | an error is reported and keeps the list; a reply replaces it, `null` as empty |
| Vehicles.VehiclesPage.ResetForm | src/app/admin/vehicles/page.tsx:53-62 | the fields change as `ResetSpec` says |
| Vehicles.VehiclesPage.OpenAddForm | src/app/admin/vehicles/page.tsx:64-67 | a reset, then the form is shown |
| Vehicles.VehiclesPage.HandleEdit | src/app/admin/vehicles/page.tsx:107-116 | the vehicle's fields are loaded, null dates as '', and the form is shown |
| Vehicles.VehiclesPage.HandleSubmit | src/app/admin/vehicles/page.tsx:69-105 | as written: the fields, request and refetch are `SubmitAsWritten`'s, so a success message set before `resetForm` is cleared by it |
| Vehicles.AsWrittenDiffersOnlyInMessage | src/app/admin/vehicles/page.tsx:100-103 | the save as written and the corrected save send the same request and refetch, agree on failure, and after a success differ only in the cleared message |
| Vehicles.VehiclesPage.HandleDelete | src/app/admin/vehicles/page.tsx:118-129 | nothing happens unless confirmed; then the row is deleted by id and the outcome reported, success listing again |
| Profile.DriverChangesExact | src/app/driver/profile/page.tsx:70-73 | `driverUpdates` holds exactly the columns whose typed value differs from the stored one, with the typed value |
| Profile.PlanIsDiff | src/app/driver/profile/page.tsx:60-79 | at most two updates: the profile's exactly when the name differs, the drivers' (with exactly the changed columns) exactly when some column differs; nothing is queued exactly when nothing differs |
| Profile.SaveOutcomes | src/app/driver/profile/page.tsx:81-96 | 'No changes to save' exactly when nothing is sent; 'Error saving profile' exactly when something sent fails; a reload exactly on success; what is sent is the plan; the typed fields are kept and `saving` ends false |
| Profile.LoadedNullsQueued | src/app/driver/profile/page.tsx:43-73 | after loading, saving without edits queues exactly the columns that are null in the store |
| Profile.NullPhoneRewritten | src/app/driver/profile/page.tsx:45-73 | a driver without a phone on file saving unchanged still sends phone '' |
| Profile.ProfilePage.constructor | src/app/driver/profile/page.tsx:11-18 | no rows, empty fields, not saving, no message |
| Profile.ProfilePage.FetchProfileData | src/app/driver/profile/page.tsx:28-54 | each row found replaces the stored row and loads its fields, null as '' |
| Profile.ProfilePage.HandleSave | src/app/driver/profile/page.tsx:56-97 | the queued updates, the fields and the reload are `SaveSpec`'s |
| DriverHome.StatusOf | src/app/driver/page.tsx:56-64 | 'Not Started' exactly without a row, 'Completed ✓' exactly with an end time, 'Active' otherwise |
| DriverHome.OrDefault | src/app/driver/page.tsx:35-38 | the stored text when present and non-empty, else the fallback; never empty with a non-empty fallback |
| DriverHome.DocumentCard | src/app/driver/page.tsx:45-50 | 'Approved ✓' exactly when approved; the upload hint appears exactly with 'Pending Approval' |
| DriverHome.StatusLabelsDistinct | src/app/driver/page.tsx:56-64 | the three status labels are distinct |
| DriverHome.ActiveDutyShownActive | src/app/driver/page.tsx:56-60 | an active duty shows 'Active' and an ended one 'Completed ✓' |
| DriverHome.ActiveWithoutStart | src/app/driver/page.tsx:59-60 | a row never started still shows 'Active' |
| DriverHome.FallbackLabels | src/app/driver/page.tsx:35-38 | a missing name shows 'Driver', a missing registration 'Not Assigned', and neither line is ever empty |
| Dashboard.Redirect | src/app/dashboard/page.tsx:11-24 | no redirect while loading; '/' without a user; '/admin' for an admin; '/driver' for any other role |
| Dashboard.OneTarget | src/app/dashboard/page.tsx:19-23 | once loaded, exactly one of the three routes is chosen, and '/admin' only for a signed-in admin |
| Wrappers.OrNull | src/app/admin/vehicles/page.tsx:77-78 | an empty string is stored as null, any other string as itself |
| Text.Trim | src/app/admin/vehicles/page.tsx:74-75 | the trimmed text neither starts nor ends with a blank |
| Text.TrimTwice | src/app/admin/vehicles/page.tsx:75 | trimming twice equals trimming once |
| Text.UpperTrim | src/app/admin/vehicles/page.tsx:74 | upper-casing and trimming commute |
| Text.AfterLastIsLastPart | src/app/driver/documents/page.tsx:72 | the text after the last '.' is the last part of the split |
| Text.SplitJoin | src/app/admin/reports/page.tsx:85 | joining parts that do not contain the separator and splitting again gives the parts back |
| Text.ColumnCount | src/app/admin/reports/page.tsx:85 | a joined line splits into one part per cell plus one per separator inside the cells |
| Text.NatToStringValue | src/app/driver/documents/page.tsx:73 | the decimal text of a timestamp reads back as the timestamp |
| Text.LexLessAsymmetric | src/app/driver/documents/page.tsx:46 | name order is asymmetric |

## Left out

- Store and network I/O: queries, inserts, updates, storage uploads and the report procedure are inputs (the rows or errors they return). The role guards that push non-admins or non-drivers to '/' are also left out; the dashboard redirect is modelled.
- Realtime channels and the position watch are sequential events: `OnSample`, `OnDutyChange` and `OnLiveChange`. Subscribing, unsubscribing and interleaving are not modelled.
- Geo: the haversine formula is not computed. The distance is a function value assumed to be never negative and 0 between a point and itself.
- Float numerics are left out: `toFixed`, `parseFloat` and `Number`. Expense amounts come in as the `real` that `parseFloat` produced, so a NaN amount cannot be expressed.
- Reports: report amounts are whole paise, so `toFixed(2)` is exact. The floating-point rounding of `toFixed` is not modelled.
- The "lat,lng" location text in both directions: the live table, the start location and the map centre hold coordinates.
- Dates and clocks: `Date.now`, today's ISO date, the end-of-month computation, and time formatting in the history list. Timestamps are `nat` inputs.
- Journey.SampleSpec: does not model the status update at src/app/driver/journey/page.tsx:87-89. It reads the status captured when the watch was armed, so its effect depends on render timing.
- Expenses.ReceiptPath: the folder is an input. As written, line 76 of the expenses page interpolates an unresolved promise into the path.
- Documents.Slot: paths are stored instead of public URLs (the URL prefix is a parameter of `UploadShownAsImage`). The listing's limit of 100 names and the store's collation are not modelled. `Sorted` uses code-point order, which agrees with the store's order for the ASCII names the page builds.
- Documents.LaterUploadSortsAfter: requires timestamps of the same number of digits, as millisecond timestamps have between 2001 and 2286.
- Text.Lower, Text.Upper: only ASCII letters change case; the Unicode case mapping of `toLowerCase`/`toUpperCase` is not modelled.
- Text.Trim: the blanks are the ASCII white space and line terminators plus the Unicode space separators, no-break space and byte-order mark; a character set added to Unicode later is not tracked.
- History: out-of-order replies, when a second duty is opened before the first one's expenses arrive, are not modelled.
- Journey.JourneySession.StartDuty: there is no "already active" check, so a second start inserts another duty row. The live table is written only on the first sample, not at start. Both follow the code.
- Journey.JourneySession.OnSample: requires a held watch, since the platform delivers samples only to an armed watch. Samples still in flight after a stop are not modelled.
- Journey.JourneySession.StopTracking: states the corrected stop, in which the delete is sent. As written, the unawaited delete at src/app/driver/journey/page.tsx:109 is never sent and the table is unchanged; `StopTrackingAsWritten` models that.
- Journey.JourneySession.EndDuty: states the corrected stop it begins with, so the driver's entry is removed. As written the entry stays, as for `StopTrackingAsWritten`.
- TrackingContext.ReconcileTable: states the corrected table, in which an inactive outcome removes the driver's entry. As written, the unawaited delete at src/context/TrackingContext.tsx:68 is never sent and the table is unchanged; `StopLocationWatchAsWritten` models that.
- TrackingContext.TrackingProvider.StopLocationWatch: states the corrected delete; as written the table is unchanged (`StopLocationWatchAsWritten`).
- TrackingContext.TrackingProvider.FetchCurrentDuty: states the table through the corrected `ReconcileTable`; as written an inactive outcome leaves the table unchanged.
- TrackingContext.TrackingProvider.OnDutyChange: states the table through the corrected `ReconcileTable`; as written an inactive outcome leaves the table unchanged.
- TrackingContext.TrackingProvider.StopTracking: states the corrected delete; as written the table is unchanged.
- Leaflet, map rendering, JSX markup and the static layouts are not part of this model.
- The invalid `->` in the tracking context's type alias is not modelled; only the runtime logic is.

## Findings

| source | as written | input that shows it | evidently intended | confidence | as-written member | corrected member |
|---|---|---|---|---|---|---|
| src/app/driver/journey/page.tsx:109 | the live-location delete is built but never awaited or chained, and the store's query builder sends its request only when awaited, so the entry is never removed | start tracking, receive one sample, stop: the driver is still listed | stopping removes this driver's live entry | medium, not executed | Journey.StopLeavesEntryAsWritten | Journey.JourneySession.StopTracking |
| src/context/TrackingContext.tsx:68 | the same unawaited delete in `stopLocationWatch` | arm, receive one sample, end the duty: the driver is still listed | the ended driver disappears from the dispatcher's map | medium, not executed | TrackingContext.EndedDutyLeavesEntryAsWritten | TrackingContext.TrackingProvider.StopLocationWatch |
| src/app/admin/tracking/page.tsx:71 | the driver rows are selected without `user_id`, yet line 87 looks profiles up by `user_id` | driver d1 with user u1 and profile u1 "Asha": shown as 'Unknown' | each driver is shown under their profile's name | high, not executed | Dispatcher.AsWrittenEveryNameUnknown | Dispatcher.NameFromProfile |
| src/app/driver/documents/page.tsx:55 | the listing is name-ascending (line 46) and names are key_timestamp (line 73), so `find` returns the oldest upload for a key | upload license at t1, replace it at t2 > t1: the slot still shows the t1 file | "Replace" shows the newest upload | high, not executed | Documents.AsWrittenShowsOldest | Documents.SlotShowsNewer |
| src/app/admin/vehicles/page.tsx:101-102 | the success message is set and `resetForm` immediately sets it back to null | any successful add or update: no message is shown | the success message is shown after the form resets | high, not executed | Vehicles.AsWrittenSuccessUnseen | Vehicles.SubmitOutcomes |
