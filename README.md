# Smart-Queue core, modelled in Dafny

Smart-Queue is a campus crowd-and-queue web application. Places such as canteens, libraries, offices and cafes
report their occupancy. Users see each place's crowd level, join virtual queues and check in at a place's door
by scanning an entry QR code. Administrators create places and print those codes. The application is a React
front end over a hosted document database. This project models the rules inside those pages and contexts:

- **Queue context** (`QueueContext`): the occupancy classifier (safe below 50 %, busy below 80 %, crowded from
  80 %); the demo-mode random walk of occupancy and waiting time; the ticket list (`joinQueue` appends, `cancelTicket`
  filters); and the suggestion of a better place, made of two first-maximum `reduce` passes and a five-minute threshold.
- **QR check-in** (`QrScannerPage`): the unanchored regular expression that reads
  `smartqueue://scan/{id}/entry/{code}`, and `handleScan`'s sequence of guards and three writes:
  - the guards are format, already somewhere, place exists, token equal, and no active check-in;
  - the writes are add check-in, occupancy + 1, and the user's current place;
  - a failure at any store call leaves the earlier writes in place.
- **Admin QR page** (`AdminQrCodes`): the entry url, the image table rebuilt on each snapshot, the `location`
  parameter, the filtered list, the download file name (`\s+` runs become `_`) and the print sheet.
- **Admin locations page** (`AdminLocations`): token generation, `parseInt(...) || 0` on the number inputs, and the
  form and dialog state. It also covers create, update and delete on the `locations` collection.
- **Seeding** (`SeedLocations`): the fixed table of five places and the loop that overwrites one whole document per entry.
- **Smaller rules**:
  - the join drawer's guards, button and `isJoining` flag (`JoinQueueDrawer`);
  - the ticket countdown and `MM:SS` formatting (`VirtualTicket`);
  - admin determination and the first-time profile (`AuthContext`);
  - the admin route guard (`AdminRoute`);
  - the two preference pages (`NotificationsPage`, `PrivacyPage`);
  - the list filters and reductions of `MyTickets`, `Dashboard` and `MapView`.

The document database is the class `DocumentStore.Database`. Its `locations`, `users` and `admins` collections
are maps from document key to document, and `checkins` is a sequence. Pages that update their own state are
classes whose methods change their fields and the database and say so in `modifies`. Pure expressions are
functions, and the properties that relate several calls are lemmas.

Whatever the program reads from the outside world is a parameter:

- `Math.random()` draws are reals in [0, 1), with the source's floor arithmetic applied to them;
- `Math.random().toString(36).substr(2, 9)` is a string of at most nine base-36 digits;
- `Date.now()` and `Timestamp.now()` are natural numbers;
- whether a store call throws is a parameter (`failing`, `fails`, `readFails`, `writeFails`, `genFails`);
- whether the user confirms or a print window opens is a parameter;
- the identity provider's user is `Option<AuthUser>`.

`userLocation` and `isUserAtLocation` are used by the scanner and the drawer but are not provided by the queue
context's type, so both are inputs.

The code behaves as follows where a reader might expect otherwise; the model follows the code:

- Statuses are stored, not recomputed. The starting list keeps its own statuses, and the last of them disagrees
  with the classifier (`QueueContext.InitialStatusDisagrees`). The suggestion and the dashboard read the stored
  status.
- `joinQueue` only changes the in-memory ticket list. `positionInLine` is a random number in 1..10. No
  user counter is incremented and no time saved is credited.
- The scanner's pattern is not anchored. Text before the payload is ignored, and the code runs to the end of
  the line, slashes included.
- There is no exit or check-out flow, and nothing decrements occupancy.

## Model

| member | source | states |
|---|---|---|
| QueueContext.InitialLocations | frontend/src/contexts/QueueContext.tsx:36-87 | the starting list holds five places with distinct ids, positive capacities and waits of at least one minute |
| QueueContext.StatusFromOccupancy | frontend/src/contexts/QueueContext.tsx:96-100 | the status is safe exactly below 50 %, crowded exactly from 80 %, and busy in between |
| QueueContext.OccupancyPercent | frontend/src/contexts/QueueContext.tsx:111 | the percentage times the capacity is 100 times the occupancy, and an occupancy within the capacity gives a percentage in [0, 100] |
| QueueContext.StatusMonotone | frontend/src/contexts/QueueContext.tsx:96-100 | a higher occupancy percentage never gives a lower tier (safe < busy < crowded) |
| QueueContext.StatusIntegerThresholds | frontend/src/contexts/QueueContext.tsx:96-100 | on a place, the status is safe exactly when 2·occupancy < capacity and crowded exactly when 5·occupancy ≥ 4·capacity |
| QueueContext.PercentBelow | frontend/src/contexts/QueueContext.tsx:111 | the percentage `occupancy / maxCapacity * 100` is below t exactly when 100·occupancy < t·capacity |
| QueueContext.InitialStatusDisagrees | frontend/src/contexts/QueueContext.tsx:78-86 | the starting list stores "Science Block Cafeteria" (65 of 80) as busy although the classifier calls it crowded |
| QueueContext.OccupancyChange | frontend/src/contexts/QueueContext.tsx:109 | a tick's occupancy step lies in [-15, 14] |
| QueueContext.JitteredWait | frontend/src/contexts/QueueContext.tsx:112 | before the lower bound of 1, the new wait lies within [old - 5, old + 4] |
| QueueContext.TickedLocation | frontend/src/contexts/QueueContext.tsx:107-120 | after a tick: occupancy in [10, 98] whatever the capacity, the step is taken unclamped when it stays in range, saturates at 98 above and at 10 below, the wait is exactly max(1, jittered wait) and so ≥ 1, status is the classifier of the new percentage, and id, name, type, capacity and position are unchanged |
| QueueContext.TickCanExceedCapacity | frontend/src/contexts/QueueContext.tsx:110 | the clamp is not to the capacity: a capacity-50 place can be driven to 95 |
| QueueContext.TickAll | frontend/src/contexts/QueueContext.tsx:107-120 | the ticked list has the same length and order, each place ticked with its own draws |
| QueueContext.ScoreOrder | frontend/src/contexts/QueueContext.tsx:154-155 | a place no fuller and waiting no longer scores at least as high, and strictly higher when it is emptier or waits less |
| QueueContext.BestIndex | frontend/src/contexts/QueueContext.tsx:153-157 | the best-score `reduce` ends on a place whose score nothing beats and that every earlier place scores strictly below |
| QueueContext.WorstIndex | frontend/src/contexts/QueueContext.tsx:159-163 | the highest-percent `reduce` ends on a place whose percentage nothing exceeds and that every earlier place is strictly below |
| QueueContext.AISuggestion | frontend/src/contexts/QueueContext.tsx:152-174 | a suggestion names a listed place that waits more than five minutes less than some listed place |
| QueueContext.SuggestionFacts | frontend/src/contexts/QueueContext.tsx:152-174 | the suggestion is the first place of maximal score, is offered exactly when the first most-crowded place waits more than 5 minutes longer, is then a different place from it, and its message is "<best name> is currently <empty when safe, otherwise less crowded>. Head there to save <wait difference> mins!" |
| QueueContext.SingleLocationNoSuggestion | frontend/src/contexts/QueueContext.tsx:152-174 | with one place, the best and the most crowded coincide, so nothing is suggested |
| QueueContext.SuggestionScenario | frontend/src/contexts/QueueContext.tsx:152-174 | a quiet place (10 %, 2 min) against a crowded one (95 %, 25 min) yields the 23-minute suggestion of the quiet one with the exact message |
| QueueContext.WithoutTicket | frontend/src/contexts/QueueContext.tsx:149 | the filtered tickets are exactly those with another id, each at most as often as in the list |
| QueueContext.CancelRemovesExactly | frontend/src/contexts/QueueContext.tsx:148-150 | cancelling keeps exactly the tickets with another id, and filtering distributes over concatenation, so order is kept |
| QueueContext.CancelAbsentIsNoop | frontend/src/contexts/QueueContext.tsx:148-150 | cancelling an id no ticket has leaves the list unchanged |
| QueueContext.CancelIdempotent | frontend/src/contexts/QueueContext.tsx:148-150 | cancelling twice equals cancelling once |
| QueueContext.FindLocation | frontend/src/contexts/QueueContext.tsx:128 | `find` gives the position of the first place with that id, or nothing when no place has it |
| QueueContext.PositionInLine | frontend/src/contexts/QueueContext.tsx:138 | the line position drawn for a ticket is in 1..10 |
| QueueContext.QueueProvider.constructor | frontend/src/contexts/QueueContext.tsx:92-94 | the provider starts with the fixed list, no tickets and demo mode off, and its list is valid |
| QueueContext.QueueProvider.GetAISuggestion | frontend/src/contexts/QueueContext.tsx:152-174 | a suggestion from the provider names one of its places, which waits more than five minutes less than some other of its places |
| QueueContext.QueueProvider.SetDemoMode | frontend/src/contexts/QueueContext.tsx:94 | switching demo mode changes only the flag |
| QueueContext.QueueProvider.DemoTick | frontend/src/contexts/QueueContext.tsx:103-125 | with demo mode off nothing changes; with it on the list becomes the ticked list; tickets are untouched and capacities and waits stay positive |
| QueueContext.QueueProvider.JoinQueue | frontend/src/contexts/QueueContext.tsx:127-146 | an unknown id fails with "Location not found" and adds nothing; otherwise exactly one active ticket is appended for the first place with that id, carrying its name and wait, a position in 1..10, the id "TKT-" + the first clock reading in decimal, and the second clock reading as its creation time |
| QueueContext.QueueProvider.CancelTicket | frontend/src/contexts/QueueContext.tsx:148-150 | the ticket list becomes the list without that id; places and demo mode are unchanged |
| Seqs.ArgMaxFirst | frontend/src/contexts/QueueContext.tsx:153-163 | `reduce` that replaces only on a strictly larger score ends on the first maximal element: nothing is larger, everything before it is smaller |
| Seqs.ArgMaxFirstUnique | frontend/src/contexts/QueueContext.tsx:153-163 | the first maximal index is determined by the values alone |
| Seqs.Filter | frontend/src/contexts/QueueContext.tsx:149 | `filter` keeps exactly the elements passing the test, each taken from the list |
| Seqs.FilterSubMultiset | frontend/src/contexts/QueueContext.tsx:149 | `filter` keeps each element at most as often as the list holds it |
| Seqs.FilterAppend | frontend/src/contexts/QueueContext.tsx:149 | filtering distributes over concatenation, so the kept elements stay in their original order |
| Seqs.FirstIndex | frontend/src/contexts/QueueContext.tsx:128 | `find` returns the first element that passes, or nothing when none does |
| Text.Decimal | frontend/src/contexts/QueueContext.tsx:135 | a non-negative integer's `toString` is a non-empty digit string without a leading zero |
| Text.DecimalRoundTrip | frontend/src/contexts/QueueContext.tsx:135 | reading the decimal numeral back gives the number |
| Text.PadStart | frontend/src/components/VirtualTicket.tsx:25 | `padStart` fills on the left up to the width, never truncates, and ends with the original string |
| QrScannerPage.NonSlashRun | frontend/src/pages/QRScannerPage.tsx:93 | `[^\/]+` spans exactly up to the next '/' or the end |
| QrScannerPage.LineRun | frontend/src/pages/QRScannerPage.tsx:93 | `.+` spans exactly up to the next line terminator or the end |
| QrScannerPage.MatchAt | frontend/src/pages/QRScannerPage.tsx:93 | a match at a position is the scheme there, a non-empty id without '/', the "/entry/" segment, and a non-empty one-line code that runs to the end of its line; without the scheme there is no match |
| QrScannerPage.FirstMatch | frontend/src/pages/QRScannerPage.tsx:93 | the search finds the leftmost position where the pattern matches, or reports that none does |
| QrScannerPage.ParseIsLeftmostMatch | frontend/src/pages/QRScannerPage.tsx:93-101 | the parsed payload is absent exactly when no position matches, and otherwise is the match at a position before which none starts |
| QrScannerPage.ParseEmbeddedUrl | frontend/src/pages/QRScannerPage.tsx:93-101 | `prefix + smartqueue://scan/{id}/entry/{code} + rest` parses to (id, code) when the prefix has no 's', the id has no '/', the code is one non-empty line and the rest starts a new line |
| QrScannerPage.NoEntrySegmentNoMatch | frontend/src/pages/QRScannerPage.tsx:93-99 | a payload without "/entry/" does not match, so it is rejected as malformed |
| QrScannerPage.ParsedCodeIsOneLine | frontend/src/pages/QRScannerPage.tsx:93-101 | a parsed id is non-empty without '/', and a parsed code is non-empty without line terminators |
| QrScannerPage.ScannerPage.constructor | frontend/src/pages/QRScannerPage.tsx:41-43 | the page starts neither scanning nor processing, with no result |
| QrScannerPage.ScannerPage.HandleScan | frontend/src/pages/QRScannerPage.tsx:87-185 | the guards in order: a bad format or a user already somewhere stops before any store call; an unknown place, an unequal token, a signed-out user or an active check-in stops with its message and no write; an admitted scan runs the three writes; processing ends false every time |
| QrScannerPage.ScannerPage.RecordCheckin | frontend/src/pages/QRScannerPage.tsx:150-181 | the three writes in order: one active check-in without exit time is appended, then only that place's occupancy rises by 1, then only that user's current place is set; a throw at any step reports "Failed to process scan" and keeps the earlier writes |
| AdminQrCodes.EntryUrl | frontend/src/pages/admin/AdminQRCodes.tsx:44 | the url is the scheme, the id, "/entry/" and the token, with no other characters |
| AdminQrCodes.EntryUrlRoundTrip | frontend/src/pages/admin/AdminQRCodes.tsx:44 | the scanner reads a printed url back as the id and token it was built from, when the id has no '/' and the token has no line break |
| AdminQrCodes.ListingOf | frontend/src/pages/admin/AdminQRCodes.tsx:34-37 | a listed place's id is the stored `id` field when present (spread after the key) and the document key otherwise |
| AdminQrCodes.Listings | frontend/src/pages/admin/AdminQRCodes.tsx:34-37 | every document is listed once, in snapshot order |
| AdminQrCodes.QrTableKeys | frontend/src/pages/admin/AdminQRCodes.tsx:41-53 | an id gets an image exactly when some listing with that id has a truthy token and its image generation does not throw |
| AdminQrCodes.QrTableValue | frontend/src/pages/admin/AdminQRCodes.tsx:41-53 | an id's image encodes the entry url of the last rendered listing with that id |
| AdminQrCodes.QrTableScannable | frontend/src/pages/admin/AdminQRCodes.tsx:41-53 | every image on the page scans back to its own id and a token of that id |
| AdminQrCodes.DropWhitespace | frontend/src/pages/admin/AdminQRCodes.tsx:66 | the rest of a name after its leading whitespace run |
| AdminQrCodes.CollapseWhitespace | frontend/src/pages/admin/AdminQRCodes.tsx:66 | `replace(/\s+/g, '_')` leaves no whitespace and never lengthens the name |
| AdminQrCodes.CollapseWithoutWhitespace | frontend/src/pages/admin/AdminQRCodes.tsx:66 | a name without whitespace is used unchanged |
| AdminQrCodes.CollapseIdempotent | frontend/src/pages/admin/AdminQRCodes.tsx:66 | replacing twice is replacing once |
| AdminQrCodes.CollapseRun | frontend/src/pages/admin/AdminQRCodes.tsx:66 | a whole whitespace run, however long, becomes exactly one '_' |
| AdminQrCodes.CollapseKeepsNonWhitespace | frontend/src/pages/admin/AdminQRCodes.tsx:66 | a character other than whitespace is kept unchanged in its place, so with CollapseRun each run becomes one '_' and everything else is kept |
| AdminQrCodes.QrCodesPage.constructor | frontend/src/pages/admin/AdminQRCodes.tsx:20-22 | the page starts with no places, no selection and no images |
| AdminQrCodes.QrCodesPage.OnSearchParams | frontend/src/pages/admin/AdminQRCodes.tsx:24-29 | a truthy `location` parameter becomes the selection; otherwise the selection is kept |
| AdminQrCodes.QrCodesPage.OnSnapshot | frontend/src/pages/admin/AdminQRCodes.tsx:31-58 | the listed places are the snapshot's, and the loop leaves the image table of that list, a listing whose image generation throws being skipped by its own position; the selection is kept |
| AdminQrCodes.ListingsWithId | frontend/src/pages/admin/AdminQRCodes.tsx:112-114 | the selection holds exactly the listings with that id, each at most as often as in the list |
| AdminQrCodes.ListingsWithIdKeepOrder | frontend/src/pages/admin/AdminQRCodes.tsx:112-114 | selecting from a list in two parts is selecting from each part, and one listing is kept exactly when it has the id, so the list's order is kept |
| AdminQrCodes.QrCodesPage.FilteredLocations | frontend/src/pages/admin/AdminQRCodes.tsx:112-114 | with a selection, exactly the places with that id are shown, at most as often as listed and in list order (it is `ListingsWithId`); without one, all places are shown |
| AdminQrCodes.QrCodesPage.Find | frontend/src/pages/admin/AdminQRCodes.tsx:61 | `find` gives the first listed place with that id, every earlier place having another id, or nothing when none has it |
| AdminQrCodes.QrCodesPage.HandleDownload | frontend/src/pages/admin/AdminQRCodes.tsx:60-69 | a file is offered exactly when both the image and the place exist; its link is the image and its name is the collapsed name + "_Entry_QR.png", which contains no whitespace |
| AdminQrCodes.QrCodesPage.HandlePrint | frontend/src/pages/admin/AdminQRCodes.tsx:71-110 | a sheet is written exactly when the image and the place exist and the window opens; it shows that image under the place's name |
| AdminLocations.GenerateQRCode | frontend/src/pages/admin/AdminLocations.tsx:83-85 | a token starts with "smartqueue-" and contains no '/', no line terminator and no whitespace, so it is printable and scannable |
| AdminLocations.TokenClock | frontend/src/pages/admin/AdminLocations.tsx:83-85 | the clock reading is recoverable from the digit run after the prefix |
| AdminLocations.TokensEqualIff | frontend/src/pages/admin/AdminLocations.tsx:83-85 | two generated tokens are equal exactly when their clock readings and their random digits are both equal |
| AdminLocations.DigitRun | frontend/src/pages/admin/AdminLocations.tsx:235 | the digits `parseInt` consumes: the longest run of decimal digits at that point |
| AdminLocations.SkipWhitespace | frontend/src/pages/admin/AdminLocations.tsx:235 | `parseInt` skips exactly the leading whitespace |
| AdminLocations.ParseIntDecimal | frontend/src/pages/admin/AdminLocations.tsx:235 | a number the field shows reads back as itself |
| AdminLocations.ParseIntNegativeDecimal | frontend/src/pages/admin/AdminLocations.tsx:247 | a negative number reads back as itself: the position inputs are not bounded |
| AdminLocations.NonNumericIsZero | frontend/src/pages/admin/AdminLocations.tsx:235 | input without digits becomes 0, so a capacity of 0 can be saved |
| AdminLocations.FormOf | frontend/src/pages/admin/AdminLocations.tsx:139-145 | the form takes the place's name, type, capacity and position x and y |
| AdminLocations.Edited | frontend/src/pages/admin/AdminLocations.tsx:97-104 | an update sets name, type, capacity, position and update time, and leaves every other field as it was |
| AdminLocations.Created | frontend/src/pages/admin/AdminLocations.tsx:108-122 | a created place has the form's fields, occupancy 0, wait 5, both tokens, and one time for creation and update |
| AdminLocations.CreatedLocationAdmitsEntryCode | frontend/src/pages/admin/AdminLocations.tsx:107-122 | a place created here is usable end to end: its printed entry url scans back to its id and entry token, and that token is accepted |
| AdminLocations.CreatedLocationRefusesExitCode | frontend/src/pages/admin/AdminLocations.tsx:107-122 | the created place's exit token is refused at the entry exactly when it differs from the entry token, that is when the clock readings or the random digits of the two calls differ |
| AdminLocations.LocationsPage.constructor | frontend/src/pages/admin/AdminLocations.tsx:56-67 | the page starts loading, with the blank form ("", canteen, 100, 50, 50) and the dialog closed |
| AdminLocations.LocationsPage.OnSnapshot | frontend/src/pages/admin/AdminLocations.tsx:70-80 | the listed places become the snapshot's and loading ends; the form is kept |
| AdminLocations.LocationsPage.HandleSave | frontend/src/pages/admin/AdminLocations.tsx:87-135 | an empty name is refused with nothing written; otherwise the update or create is written, closing the dialog and resetting the form on success or keeping them on failure; saving is false either way |
| AdminLocations.LocationsPage.HandleEdit | frontend/src/pages/admin/AdminLocations.tsx:137-147 | the row is remembered, the form filled from it and the dialog opened |
| AdminLocations.LocationsPage.HandleDelete | frontend/src/pages/admin/AdminLocations.tsx:149-159 | without confirmation nothing happens; with it, exactly that key is removed, unless the delete throws |
| AdminLocations.LocationsPage.OnDialogOpenChange | frontend/src/pages/admin/AdminLocations.tsx:189-195 | closing the dialog drops the edit and resets the form; opening it keeps both |
| AdminLocations.LocationsPage.SetName | frontend/src/pages/admin/AdminLocations.tsx:212 | only the form's name changes |
| AdminLocations.LocationsPage.SetKind | frontend/src/pages/admin/AdminLocations.tsx:218 | only the form's type changes |
| AdminLocations.LocationsPage.SetMaxCapacity | frontend/src/pages/admin/AdminLocations.tsx:235 | only the form's capacity changes, to `parseInt(input) \|\| 0` |
| AdminLocations.LocationsPage.SetPositionX | frontend/src/pages/admin/AdminLocations.tsx:247 | only the form's x changes, to `parseInt(input) \|\| 0` |
| AdminLocations.LocationsPage.SetPositionY | frontend/src/pages/admin/AdminLocations.tsx:258 | only the form's y changes, to `parseInt(input) \|\| 0` |
| SeedLocations.SeedTableFacts | frontend/src/lib/seedLocations.ts:14-60 | the five seed ids are distinct, every capacity is positive and every occupancy lies within its capacity |
| SeedLocations.SeedDoc | frontend/src/lib/seedLocations.ts:67-70 | a seeded document is the entry's fields, its id as a field and the write time, and nothing else: no tokens |
| SeedLocations.SeedPrefixContents | frontend/src/lib/seedLocations.ts:65-72 | after k writes, each of the first k ids holds its seed document, and every other key is as before |
| SeedLocations.SeedTwice | frontend/src/lib/seedLocations.ts:65-72 | seeding twice leaves what seeding once with the second run's times leaves |
| SeedLocations.SeededRejectsEveryCode | frontend/src/lib/seedLocations.ts:67-70 | a seeded place has no entry token, so the scanner refuses every code there |
| SeedLocations.Seed | frontend/src/lib/seedLocations.ts:62-75 | the loop leaves all five documents written, or, when write i throws, exactly the first i; other collections are untouched |
| JoinQueueDrawer.JoinGuard | frontend/src/components/JoinQueueDrawer.tsx:63-70 | the join goes ahead exactly when the user is neither here nor anywhere; being here is reported before being elsewhere |
| JoinQueueDrawer.ButtonMatchesGuard | frontend/src/components/JoinQueueDrawer.tsx:180-193 | when idle, the button is enabled exactly when the handler's guards pass, and it then reads "Join Virtual Queue" |
| JoinQueueDrawer.JoiningDisables | frontend/src/components/JoinQueueDrawer.tsx:180-186 | while joining, the button is disabled and reads "Joining..." |
| JoinQueueDrawer.LabelReflectsPlace | frontend/src/components/JoinQueueDrawer.tsx:108-191 | the idle label asks to exit exactly when the warning about another place is shown |
| JoinQueueDrawer.FailureMessage | frontend/src/components/JoinQueueDrawer.tsx:80 | the error toast is never empty, and it is the error's own message when that is non-empty |
| JoinQueueDrawer.JoinDrawer.constructor | frontend/src/components/JoinQueueDrawer.tsx:50-51 | the drawer starts not joining |
| JoinQueueDrawer.JoinDrawer.HandleJoinQueue | frontend/src/components/JoinQueueDrawer.tsx:55-84 | no place: nothing happens; a guard: its error and no join; otherwise one ticket is appended for this place, the drawer closes and "/tickets" is opened, or the failure is shown; `isJoining` ends false |
| VirtualTicket.NextRemaining | frontend/src/components/VirtualTicket.tsx:17 | a tick never goes below zero and otherwise takes one second off |
| VirtualTicket.CountdownReachesZero | frontend/src/components/VirtualTicket.tsx:15-20 | after k ticks the countdown reads start - k until it reaches 0, and 0 from then on |
| VirtualTicket.CountdownNonIncreasing | frontend/src/components/VirtualTicket.tsx:15-20 | the countdown is never negative and never increases |
| VirtualTicket.JsRem60 | frontend/src/components/VirtualTicket.tsx:24 | JavaScript's `% 60`: the dividend minus the result is a multiple of 60, and the result is in [0, 60) for non-negative input and in (-60, 0] otherwise, which fixes it for every input |
| VirtualTicket.MinutesSeconds | frontend/src/components/VirtualTicket.tsx:23-24 | minutes·60 + seconds recombine to the total, seconds < 60, and minutes < 100 exactly below 6000 seconds |
| VirtualTicket.TwoDigitField | frontend/src/components/VirtualTicket.tsx:25 | a padded number below 100 is two digits that read back as the number |
| VirtualTicket.FormatTimeShort | frontend/src/components/VirtualTicket.tsx:22-26 | below 6000 seconds the text is exactly `MM:SS`, the seconds field is below 60 and both fields read back to the total |
| VirtualTicket.FormatTimeLong | frontend/src/components/VirtualTicket.tsx:22-26 | from 6000 seconds on, the minute field keeps all its digits and reads back as the whole minutes, the seconds field reads back as the remaining seconds, and the text is longer than five characters |
| VirtualTicket.TicketCountdown.constructor | frontend/src/components/VirtualTicket.tsx:13 | the countdown starts at the ticket's estimate times 60 |
| VirtualTicket.TicketCountdown.Tick | frontend/src/components/VirtualTicket.tsx:16-18 | one interval firing applies one countdown tick |
| AuthContext.NewProfile | frontend/src/contexts/AuthContext.tsx:63-72 | a first profile has zero time saved and zero queues joined, notifications on, no current place, and the user's e-mail, name and photo |
| AuthContext.AuthProvider.constructor | frontend/src/contexts/AuthContext.tsx:25-27 | the provider starts loading, with no user and no admin flag |
| AuthContext.AuthProvider.OnAuthStateChanged | frontend/src/contexts/AuthContext.tsx:30-82 | admin is set exactly when an admin record with role "admin" exists for the e-mail, is false after a failed lookup, and is kept when there is no e-mail; a profile is created only when none exists and never overwritten; sign-out clears user and admin; loading ends every time |
| AdminRoute.Decide | frontend/src/components/AdminRoute.tsx:9-32 | spinner exactly while loading, then "/admin/login" exactly without a user, then "/" exactly for a non-admin, and the page exactly for a signed-in admin |
| AdminRoute.RedirectTargets | frontend/src/components/AdminRoute.tsx:23-29 | only two destinations are ever redirected to, and a signed-out visitor never sees the page whatever the admin flag says |
| NotificationsPage.With | frontend/src/pages/NotificationsPage.tsx:61 | setting one switch changes that switch only |
| NotificationsPage.FieldNameInjective | frontend/src/pages/NotificationsPage.tsx:66-73 | distinct switches are stored in distinct profile fields |
| NotificationsPage.FromStored | frontend/src/pages/NotificationsPage.tsx:40-49 | each switch loads as its stored field, or as on when that field is missing or null |
| NotificationsPage.EmptyProfileLoadsDefaults | frontend/src/pages/NotificationsPage.tsx:24-48 | a profile without any of the fields loads as all switches on, the same as before loading |
| NotificationsPage.WriteThenFetch | frontend/src/pages/NotificationsPage.tsx:61-74 | writing one field and fetching again gives what the page shows after its local update |
| NotificationsPage.SettingsPage.constructor | frontend/src/pages/NotificationsPage.tsx:24-32 | the page starts loading, with all six switches on |
| NotificationsPage.SettingsPage.FetchSettings | frontend/src/pages/NotificationsPage.tsx:34-58 | an existing profile sets the switches from its fields; no user, a missing profile or a failed read keeps them; loading ends every time |
| NotificationsPage.SettingsPage.UpdateSetting | frontend/src/pages/NotificationsPage.tsx:60-81 | the local switch changes and is kept whatever the write does; a signed-in user's profile gets exactly the mapped field; a failed write is reported and changes nothing stored |
| PrivacyPage.Default | frontend/src/pages/PrivacyPage.tsx:22-27 | every switch defaults to on except anonymous mode |
| PrivacyPage.DefaultsAgree | frontend/src/pages/PrivacyPage.tsx:22-42 | the initial settings and the missing-field defaults agree |
| PrivacyPage.With | frontend/src/pages/PrivacyPage.tsx:55 | setting one switch changes that switch only |
| PrivacyPage.FieldNameInjective | frontend/src/pages/PrivacyPage.tsx:60 | distinct switches are stored in distinct profile fields |
| PrivacyPage.FromStored | frontend/src/pages/PrivacyPage.tsx:36-43 | each switch loads as its stored field, or as its default when that field is missing or null |
| PrivacyPage.EmptyProfileLoadsDefaults | frontend/src/pages/PrivacyPage.tsx:22-43 | a profile without any of the fields loads as the initial settings |
| PrivacyPage.WriteThenFetch | frontend/src/pages/PrivacyPage.tsx:55-60 | writing one field and fetching again gives what the page shows after its local update |
| PrivacyPage.SettingsPage.constructor | frontend/src/pages/PrivacyPage.tsx:22-28 | the page starts loading, with the default switches |
| PrivacyPage.SettingsPage.FetchSettings | frontend/src/pages/PrivacyPage.tsx:30-52 | an existing profile sets the switches from its fields; otherwise they are kept; loading ends every time |
| PrivacyPage.SettingsPage.UpdateSetting | frontend/src/pages/PrivacyPage.tsx:54-67 | the local switch changes and is kept whatever the write does; a signed-in user's profile gets exactly the field of that name; a failed write is reported and changes nothing stored |
| MyTickets.ActiveTickets | frontend/src/pages/MyTickets.tsx:9 | the active list holds exactly the active tickets |
| MyTickets.PastTickets | frontend/src/pages/MyTickets.tsx:87-88 | the past list holds exactly the tickets that are not active |
| MyTickets.ActivePastPartition | frontend/src/pages/MyTickets.tsx:9-88 | every ticket is in exactly one of the two lists, as often as it occurs |
| MyTickets.ListsKeepOrder | frontend/src/pages/MyTickets.tsx:9-88 | both lists keep the original order |
| MyTickets.ShowPastIffSomePast | frontend/src/pages/MyTickets.tsx:78 | the past section is shown exactly when some ticket is not active |
| MyTickets.HeaderSingularIffOne | frontend/src/pages/MyTickets.tsx:22 | the header ends in "ticket" exactly when one ticket is active, and in "tickets" otherwise |
| MyTickets.CancelTargets | frontend/src/pages/MyTickets.tsx:43 | each active card's cancel button passes that card's ticket id |
| MyTickets.CancelButtonRemovesItsTicket | frontend/src/pages/MyTickets.tsx:43 | pressing a card's cancel button removes that ticket and keeps every ticket with another id |
| Dashboard.TotalIsSumOfSafeWaits | frontend/src/pages/Dashboard.tsx:15-18 | the time-saved total is the sum of the waits of the safe places; the others contribute nothing |
| Dashboard.DisplayedSavings | frontend/src/pages/Dashboard.tsx:74 | the headline is at least 15 and at least the total, and is one of the two |
| Dashboard.NoPlacesShowsFifteen | frontend/src/pages/Dashboard.tsx:74 | with no places the headline is 15 |
| Dashboard.FirstCards | frontend/src/pages/Dashboard.tsx:95 | the cards are the first min(3, n) places, in order |
| Dashboard.DashboardPage.HandleCardClick | frontend/src/pages/Dashboard.tsx:20-23 | a card click selects its place and opens the drawer |
| MapView.SearchResults | frontend/src/pages/MapView.tsx:21-23 | the results are exactly the places whose lower-cased name contains the lower-cased query, each at most as often as listed |
| MapView.SearchKeepsOrder | frontend/src/pages/MapView.tsx:21-23 | searching a list in two parts is searching each part, and one place is shown exactly when it matches, so the results keep the list's order |
| MapView.EmptyQueryShowsAll | frontend/src/pages/MapView.tsx:21-23 | an empty query shows every place, in order |
| MapView.QueryCaseIrrelevant | frontend/src/pages/MapView.tsx:22 | changing the query's letter case does not change the results |
| MapView.MapPage.HandleMarkerClick | frontend/src/pages/MapView.tsx:16-19 | a marker click selects its place and opens the drawer, keeping the query |
| MapView.MapPage.SetSearchQuery | frontend/src/pages/MapView.tsx:40 | typing changes only the query |

## Left out

- Store calls: the document database's subscriptions, reads and writes are modelled as synchronous map and sequence updates. Concurrent writers, snapshot interleaving and the atomicity of the server-side `increment(1)` are concurrency in a remote service and are not modelled.
- Failures are modelled as a parameter naming which call throws. The error objects themselves and the `console` logging are not modelled.
- Timers: the demo interval (3 s), the join delay (1.5 s) and the ticket countdown (1 s) are one method call per firing. Interval set-up and tear-down are not modelled.
- Randomness and clocks are parameters. Two tokens are proved equal exactly when both their clock readings and their random digits are equal; how likely two draws of random digits are to coincide is not modelled.
- `HandleScan` uses a single clock reading as the entry time.
- `HandleSave` uses one clock reading for both `createdAt` and `updatedAt`.
- `Seed` takes each write's time from the `times` parameter.
- The camera scanner (`Html5Qrcode`), QR image generation and the DOM work of download and print are foreign calls. The entry url stands for the image that encodes it, and an image failure is the `genFails` set of listing positions whose generation throws.
- Identity-provider sign-in and sign-out and the login pages only forward to the identity provider and are not modelled. Only the state-change callback is.
- Rounded floating-point percentages shown on cards, markers and the drawer are not modelled. The suggestion's scores use exact rationals, so JavaScript's rounding ties may differ.
- The admin dashboard, navigation, presentation-only components, the profile page, help and app-settings pages are not modelled. They hold no rule beyond display.
- The seed-data status inconsistency is stated as a lemma, not corrected.
- QueueContext.AISuggestion: requires a non-empty list with positive capacities. An empty list makes `reduce` throw, and a zero capacity divides by zero. The provider keeps both conditions as its invariant.
- QrScannerPage.ScannerPage.HandleScan: a signed-out user passes `undefined` to the check-in query's filter, which the document database rejects. The model therefore ends that scan at the query with "Failed to process scan".
- QrScannerPage.ScannerPage.RecordCheckin: the profile update of a user whose profile does not exist throws as well. The check-in and the occupancy increment stay written.
- Text.Lower: case folding covers ASCII letters only. Unicode case mapping is not modelled.
- AdminLocations.ParseInt: numbers are unbounded, so `parseInt`'s loss of precision above 2^53 is not modelled. Also, called without a radix, `parseInt` reads a "0x" or "0X" prefix as hexadecimal ("0x1A" is 26), where the model reads 0. A `type="number"` input cannot deliver such a string, so the model takes every input as decimal.
- AdminLocations.IsRandomSuffix: `Math.random().toString(36)` is taken as any string of at most nine base-36 digits. Which strings it can actually produce is not modelled.
- AdminLocations.LocationsPage.HandleSave: the key the store assigns to a new document is the parameter `newId`, required to be unused.
- The exit or check-out flow is absent from the code, so it is not modelled. Neither are occupancy decrements or time-saved credits.
