# Cinema client: verified model of its decision and state logic

This project models the client-side logic of a cinema booking web client written in React. It models:

- **The seat map of a screening.** It builds the grid, derives the taken seats from the ticket list, merges them in, toggles a seat through an availability probe, and clears the selection.
- **Ticket cancellation.** A `DELETE` request falls back to a `PUT` and then to a local simulation. The dialog turns a thrown error into one line of text.
- **The admin screens.** Halls, users, cinemas and screenings each have an ordered form validator, a request body and dialog state.
- **Smaller pure functions.** These are the catalogue search, the schedule URL and response normalisation, the booking guards and the Russian plural label, the sign-in store transitions, and the movie card's chips and fallbacks.

## How it is modelled

**Layout.** Each source file is one Dafny module. Two shared modules support them:
- `JsText` gives the JavaScript string and number operations the code relies on: `trim`, `includes`, `split`, `parseInt`, and integer-to-string conversion.
- `FormChecks` gives the reference "first failing check" reading of the admin validators.

**State and I/O.**
- A component whose handlers update state is a class, and its fields are the state. Each handler is a method whose `ensures` states the whole new state on every path. Most do it through the class's `View()`, the state as one value: the new `View()` is a step function of the old one, or the old one with named fields replaced.
- Where the logic is worth reasoning about, the same step is also a pure function. Examples are the seat map's `Clicked`, `FetchedBooked`, `Refreshed` and `Cleared`, and ticket cancellation's `Decide` and `Run`.
- The lemmas about those functions carry the properties.
- HTTP replies, the browser's storage, confirmation dialogs, the clock and JSON parsing are all method parameters.

**Behaviour the model keeps as the code has it:**

- **Non-positive hall dimensions.** The seat grid is not rejected: it comes out empty, or with empty rows.
- **No commit sequencer.** The booking page makes no request at all. It assembles the booking, shows it in an alert, and navigates to the profile page. There is therefore no per-seat ticket creation, rollback or commit sequencer to model.
- **Stale `error` read.** After the availability probe, `handleSeatClick` reads `error` from the render in which the click happened. The model keeps this: the value the guard reads is the error shown at click time, not the one the probe may just have set. The lemma `SeatSelector.ClickFailureCanBeSilent` shows the consequence: a refused seat can end with no message at all.
- **`handleDeleteClick` in the user screen.** Its parameter shadows the signed-in user, so its guard always holds. It always reports the self-delete error and never arms the delete dialog.
- **`NaN` in the hall validator.** It compares `parseInt` results, and every comparison with `NaN` is false. When either number field does not start with a number, the total is `NaN` and neither bound on it applies: such a form is accepted whenever the fields are filled in and neither number is 0 or less (`AdminHalls.NotANumberAccepted`; "abc" in both fields is the example `AdminHalls.LettersAccepted`).
- **A booked key can stay selected.** A successful fetch of booked seats replaces the booked list and marks those cells booked, but does not touch the selection list. A key selected earlier and booked meanwhile stays in the list while the grid shows no selected cell (`SeatSelector.FetchShowsBooked` leaves the list as it was, so "no selected key is booked" is not kept by a plain fetch).
- **A failed refresh leaves cells selected.** A positive refresh trigger empties the selection list before the fetch. When the fetch fails, the grid is not merged again, so cells stay marked selected that the list no longer holds (`SeatSelector.RefreshFailureKeepsSelectedCells`).
- **Simulated success.** `cancelTicket` stores a local cancellation record and resolves as a success when the `DELETE` answers 404, or when the `PUT` fallback answers 403 or 404 (`TicketApi.SimulateExactly`).
- **Id 0 counts as not chosen.** The cinema, movie and hall selects hold the picked option's numeric id, and the forms test them for truthiness. An option of id 0 is therefore refused as "not chosen" (`AdminHalls.CinemaZeroRefused`, `AdminSessions.MissingField`). The edit dialog of the hall screen puts the cinema id in as text, and the text "0" passes.
- **Unreachable dialog branches.** `cancelTicket` never lets an error with status 403 or 404 escape. The cancellation dialog's 404 and 403 branches are therefore never reached through it (`CancelBookingDialog.CancelErrorsSkipStatusBranches`).

## Model

| member | source | states |
|---|---|---|
| SeatSelector.ParseSeatKeyRoundTrip | src/components/SeatSelector.tsx:75 | a `row-seat` key reads back as the row and seat it was built from |
| SeatSelector.SeatKeyInjective | src/components/SeatSelector.tsx:82 | two seats share a key only if they are the same seat, so string keys compare seats by value |
| SeatSelector.ParseSeatKey | src/components/SeatSelector.tsx:75 | the left inverse of the key built at line 75, used to prove keys injective: a key with no "-" after its first character is refused, and an accepted key splits at its first such "-" into the texts `parseInt` reads as the row and the seat |
| SeatSelector.SeatKey | src/components/SeatSelector.tsx:75 | the key `${row}-${seat}`: the first dash after the first character sits right after the row's numeral, which is what lets the key be read back |
| SeatSelector.BuildGrid | src/components/SeatSelector.tsx:44-56 | exactly `hallRows` rows of `hallSeatsPerRow` cells; cell [r-1][s-1] is seat (r, s), available; non-positive sizes give no rows or empty rows |
| SeatSelector.SetStatus | src/components/SeatSelector.tsx:176-185 | only the clicked cell changes status; the grid keeps its shape and every other cell |
| SeatSelector.MergeBooked | src/components/SeatSelector.tsx:79-89 | the grid keeps its shape and positions; a booked key becomes booked, a selected cell that is not booked becomes available, every other cell is unchanged |
| SeatSelector.MergeKeepsBooked | src/components/SeatSelector.tsx:85 | a booked cell never reverts through a merge |
| SeatSelector.MergeLeavesNoneSelected | src/components/SeatSelector.tsx:85 | after a merge no cell is selected |
| SeatSelector.MergeIdempotent | src/components/SeatSelector.tsx:79-89 | merging the same booked list twice is merging it once |
| SeatSelector.ClearGrid | src/components/SeatSelector.tsx:227-234 | selected cells become available; every other cell is unchanged |
| SeatSelector.BookedKeys | src/components/SeatSelector.tsx:71-75 | the booked list is never longer than the ticket list |
| SeatSelector.BookedKeysAppend | src/components/SeatSelector.tsx:71-75 | keys come in response order: the list of a concatenated response is the concatenation of the lists |
| SeatSelector.BookedKeysExact | src/components/SeatSelector.tsx:71-75 | a seat's key is in the list exactly when some CONFIRMED or PENDING ticket is for that row and seat |
| SeatSelector.Without | src/components/SeatSelector.tsx:175 | the key is gone, every other key is still present, and the list never grows |
| SeatSelector.WithoutCounts | src/components/SeatSelector.tsx:175 | every occurrence of the key is dropped and every other key keeps its number of occurrences |
| SeatSelector.WithoutAbsent | src/components/SeatSelector.tsx:175 | filtering out a key that is not in the list gives the list back |
| SeatSelector.WithoutAppend | src/components/SeatSelector.tsx:175 | filtering keeps the remaining keys in their order: filtering a concatenation concatenates the filtered parts |
| SeatSelector.WithoutAppended | src/components/SeatSelector.tsx:174-212 | appending a key and filtering it out again gives back a list that lacked it |
| SeatSelector.CheckSeat | src/components/SeatSelector.tsx:111-159 | the probe fails closed: it allows a seat exactly when a user is signed in, a token is stored and the server answered true; an allowed seat stores no message |
| SeatSelector.Clicked | src/components/SeatSelector.tsx:161-213 | a click never changes the booked list, and the selection changes only for a signed-in user clicking a seat that is not booked |
| SeatSelector.ClickRejected | src/components/SeatSelector.tsx:162-172 | with nobody signed in, or on a booked key, the selection, grid and booked list stay as they were and the reason is shown |
| SeatSelector.ClickFree | src/components/SeatSelector.tsx:190-212 | on a free seat, a yes from the probe appends the key at the end and marks only that seat selected; any other answer changes neither the list nor the grid; checking ends |
| SeatSelector.ClickFailureCanBeSilent | src/components/SeatSelector.tsx:190-198 | when an error was shown at click time, a probe refused without a status message ends with no message, because the handler's closure sees the old error |
| SeatSelector.ToggleRoundTrip | src/components/SeatSelector.tsx:174-212 | selecting a free seat and clicking it again restores the selection and the grid |
| SeatSelector.DeselectConsistent | src/components/SeatSelector.tsx:174-187 | deselecting keeps the grid and both lists consistent |
| SeatSelector.SelectConsistent | src/components/SeatSelector.tsx:201-212 | selecting an unbooked seat keeps the grid and both lists consistent |
| SeatSelector.ClickPreservesConsistent | src/components/SeatSelector.tsx:161-213 | every click keeps the state consistent: booked keys show booked, selected cells are listed, no selected key is booked |
| SeatSelector.FetchedBooked | src/components/SeatSelector.tsx:61-93 | the grid keeps its shape and the selection, error and probe flag stay; a successful fetch makes the booked list the keys of the response; a failed one changes nothing |
| SeatSelector.FetchShowsBooked | src/components/SeatSelector.tsx:61-93 | a successful fetch shows every booked seat booked and leaves none selected; a failed fetch changes nothing |
| SeatSelector.Refreshed | src/components/SeatSelector.tsx:100-105 | a trigger of 0 or less changes nothing; a positive one empties the selection and refetches, and when that fetch fails nothing else changes |
| SeatSelector.RefreshConsistent | src/components/SeatSelector.tsx:100-105 | a positive trigger with a successful fetch leaves a consistent state and an empty selection |
| SeatSelector.RefreshFailureKeepsSelectedCells | src/components/SeatSelector.tsx:90-105 | a refresh whose fetch fails empties the list but leaves the cells marked selected |
| SeatSelector.Cleared | src/components/SeatSelector.tsx:225-235 | the selection is empty and no cell is selected; the grid shape, the booked list, the error and the flags stay |
| SeatSelector.ClearConsistent | src/components/SeatSelector.tsx:225-235 | clearing empties the selection, frees every selected cell, keeps the booked list and stays consistent |
| SeatSelector.EnabledSeatNotBooked | src/components/SeatSelector.tsx:314 | in a consistent state an enabled seat button is a seat that is not booked, with a user signed in and no probe running |
| SeatSelector.SeatMap.constructor | src/components/SeatSelector.tsx:37-42 | no grid yet, the initial selection, no booked seats or error, loading |
| SeatSelector.SeatMap.InitializeSeats | src/components/SeatSelector.tsx:44-59 | the grid is the fresh grid of available seats, loading ends, and nothing else changes |
| SeatSelector.SeatMap.FetchBookedSeats | src/components/SeatSelector.tsx:61-93 | the new state is the fetch step applied to the old one |
| SeatSelector.SeatMap.Mount | src/components/SeatSelector.tsx:95-98 | the new state is the fetch step applied to the fresh grid with loading over: the fresh grid's shape and positions, and the old selection, error and probe flag; a successful fetch makes the booked list the response's keys, shows every booked seat booked and leaves no cell selected; a failed fetch leaves the fresh grid and the old booked list |
| SeatSelector.SeatMap.Refresh | src/components/SeatSelector.tsx:100-105 | the new state is the refresh step applied to the old one |
| SeatSelector.SeatMap.CheckSeatAvailability | src/components/SeatSelector.tsx:111-159 | the answer and the new state are those of the probe step |
| SeatSelector.SeatMap.HandleSeatClick | src/components/SeatSelector.tsx:161-213 | the new state is the click step applied to the old one |
| SeatSelector.SeatMap.ClearSelection | src/components/SeatSelector.tsx:225-235 | the new state is the clear step applied to the old one |
| TicketApi.Decide | src/api/ticketApi.ts:6-64 | no token means no request; the first request is the authorised DELETE; a PUT follows exactly when the DELETE failed with 405; a resolved reply reports success without simulation |
| TicketApi.TicketUrl | src/api/ticketApi.ts:14 | the tickets path followed by the id's numeral |
| TicketApi.CancelUrl | src/api/ticketApi.ts:29-30 | the ticket's own URL followed by "/cancel" |
| TicketApi.Bearer | src/api/ticketApi.ts:15-17 | the header is the "Bearer " scheme followed by the token itself |
| TicketApi.UrlsNameTheTicket | src/api/ticketApi.ts:14-30 | the id reads back with `parseInt` from what follows the tickets path in both URLs |
| TicketApi.TicketUrlInjective | src/api/ticketApi.ts:14-30 | distinct tickets get distinct DELETE and PUT URLs |
| TicketApi.NoTokenNoRequest | src/api/ticketApi.ts:7-11 | without a token the call throws the authorisation message before any request |
| TicketApi.DeleteSucceeds | src/api/ticketApi.ts:13-24 | a successful DELETE resolves with the success message after one request |
| TicketApi.MethodNotAllowedFallsBack | src/api/ticketApi.ts:27-51 | after a 405 exactly one PUT is sent; its success resolves, 404 or 403 simulates, any other failure is rethrown |
| TicketApi.DeleteFailsOtherwise | src/api/ticketApi.ts:54-63 | other DELETE failures send nothing more: 403 throws the ownership message, 404 simulates, the rest is rethrown |
| TicketApi.SimulateExactly | src/api/ticketApi.ts:27-63 | the simulation runs exactly for DELETE 404, or for 405 followed by PUT 404 or 403 |
| TicketApi.ThrownStatusNeverForbiddenOrMissing | src/api/ticketApi.ts:45-63 | no error thrown with a response carries status 403 or 404 |
| TicketApi.Simulated | src/api/ticketApi.ts:78-95 | a readable list (a missing one counts as empty) gets exactly one record for the ticket appended at the end, earlier entries kept; an unreadable one makes the call fail |
| TicketApi.ReadList | src/api/ticketApi.ts:81-83 | a missing or empty entry reads as the empty list, a stored list as itself; only unreadable text fails |
| TicketApi.SimulatedTwice | src/api/ticketApi.ts:81-88 | two simulations store their records in call order after the earlier entries |
| TicketApi.Run | src/api/ticketApi.ts:6-95 | the stored list changes only when the decision is to simulate |
| TicketApi.ResolvedMeansSuccess | src/api/ticketApi.ts:20-94 | every resolved call reports success, and it reports a simulation exactly when it simulated |
| TicketApi.CancellationStore.constructor | src/api/ticketApi.ts:7-11 | the store holds the given token and stored list |
| TicketApi.CancellationStore.SimulateCancellation | src/api/ticketApi.ts:78-95 | the stored list becomes the appended list, or an unreadable list leaves it and the call fails |
| TicketApi.CancellationStore.CancelTicket | src/api/ticketApi.ts:6-65 | the requests sent and the result are those of the decision tree, and the stored list is what that outcome leaves |
| CancelBookingDialog.TicketIdToCancel | src/components/booking/CancelBookingDialog.tsx:45 | a truthy ticket id is used, otherwise the booking id, so 0 or a missing ticket id falls back |
| CancelBookingDialog.Classify | src/components/booking/CancelBookingDialog.tsx:66-92 | the response branches apply exactly when a response exists; 404 and 403 are recognised by status; "no answer" means a request without a response |
| CancelBookingDialog.ErrorMessage | src/components/booking/CancelBookingDialog.tsx:66-94 | the message is never empty and is the server's `message`, then `error`, or the error's own message when that branch decides |
| CancelBookingDialog.StatusBeatsBody | src/components/booking/CancelBookingDialog.tsx:74-84 | statuses 404, 403 and 401 have fixed messages in that precedence, whatever the body says |
| CancelBookingDialog.NoResponseMessage | src/components/booking/CancelBookingDialog.tsx:85-92 | without a response the body plays no part: a sent request means the server did not answer, otherwise the error's own message or the default |
| CancelBookingDialog.CancelErrorsSkipStatusBranches | src/components/booking/CancelBookingDialog.tsx:74-77 | nothing `cancelTicket` throws reaches the 404 or 403 branch; a refused DELETE shows the ownership text, a missing token the authorisation text |
| CancelBookingDialog.CancelDialog.constructor | src/components/booking/CancelBookingDialog.tsx:36-37 | not loading, no error, no callback called |
| CancelBookingDialog.CancelDialog.Begin | src/components/booking/CancelBookingDialog.tsx:41-42 | loading starts and the error is cleared |
| CancelBookingDialog.CancelDialog.Settle | src/components/booking/CancelBookingDialog.tsx:60-101 | success calls `onSuccess` then `onClose`; failure stores the message; loading ends either way |
| CancelBookingDialog.CancelDialog.HandleCancelBooking | src/components/booking/CancelBookingDialog.tsx:39-102 | sends the decision tree's requests for the chosen id; on success the two callbacks in order and no error, on failure the classified message; loading is false afterwards; the stored token is left as it was |
| CancelBookingDialog.CancelDialog.ClickConfirm | src/components/booking/CancelBookingDialog.tsx:319-321 | while loading the button sends nothing and changes nothing; otherwise the handler's outcome: the requests of the decision tree, the stored list it leaves, `onSuccess` then `onClose` with no error on success, the classified message on failure, and loading over; the stored token is never changed |
| CancelBookingDialog.CancelDialog.ClickBack | src/components/booking/CancelBookingDialog.tsx:297-299 | closes the dialog only when not loading |
| FormChecks.FirstFailure | src/pages/AdminHalls.tsx:126-137 | the validator result is empty exactly when no check fails |
| FormChecks.FirstFailureIsFirst | src/pages/AdminUsers.tsx:128-145 | a non-empty result is the message of a failing check before which every check passed |
| AdminHalls.Times | src/pages/AdminHalls.tsx:132 | the product is NaN exactly when a factor is |
| AdminHalls.TotalSeats | src/pages/AdminHalls.tsx:208 | the product rows × seats per row that the hall table shows and the form checks against the seat limits; with positive rows and seats it is at least each of them, and a zero factor gives 0 |
| AdminHalls.ValidateHall | src/pages/AdminHalls.tsx:126-137 | the result is one of the seven messages, empty meaning valid |
| AdminHalls.ValidateParsed | src/pages/AdminHalls.tsx:126-137 | once `parseInt` has read the numbers, the result is one of the seven messages, empty meaning valid |
| AdminHalls.ValidateHallIsFirstFailure | src/pages/AdminHalls.tsx:126-137 | the validator returns the first failing check in the order name, rows, seats per row, cinema, total above 300, total below 10 |
| AdminHalls.ParsedIsFirstFailure | src/pages/AdminHalls.tsx:126-137 | the same order holds whatever `parseInt` made of the two numbers |
| AdminHalls.EmptyIsNaN | src/pages/AdminHalls.tsx:128-129 | `parseInt("")` is NaN |
| AdminHalls.AcceptedNumericBounds | src/pages/AdminHalls.tsx:128-135 | with numeric fields, a form is accepted exactly when its name is not blank, a cinema is chosen, both numbers are positive and the total is 10 to 300 |
| AdminHalls.LettersAreNaN | src/pages/AdminHalls.tsx:128 | `parseInt("abc")` is NaN |
| AdminHalls.NotANumberAccepted | src/pages/AdminHalls.tsx:126-137 | when `parseInt` reads the rows or the seats as NaN, the form is accepted exactly when the name is not blank, both number fields and the cinema are filled in and neither number is 0 or less: no bound on the total applies |
| AdminHalls.ParsedNotANumberAccepted | src/pages/AdminHalls.tsx:126-137 | the same, whatever `parseInt` made of the two fields, as long as one of them is NaN |
| AdminHalls.LettersAccepted | src/pages/AdminHalls.tsx:128-134 | a form whose rows and seats are "abc" is accepted |
| AdminHalls.CinemaZeroRefused | src/pages/AdminHalls.tsx:130 | a cinema of id 0 picked from the select is falsy, so the form is refused; the same id as text, as the edit dialog puts it, passes the cinema check |
| AdminHalls.ParsedCinemaCheck | src/pages/AdminHalls.tsx:126-137 | a form with no cinema picked is refused, and the cinema message is reported only when none is picked |
| AdminHalls.EditedPayloadRoundTrip | src/pages/AdminHalls.tsx:148-153 | saving an unchanged edited hall sends the hall's own numbers and its cinema nested as `{id}` |
| AdminHalls.Payload | src/pages/AdminHalls.tsx:148-153 | the name goes out as typed; a picked cinema's id reaches `cinema.id` unchanged; rows and seats per row are NaN exactly when their text is not a number |
| AdminHalls.AcceptedPayload | src/pages/AdminHalls.tsx:148-153 | a form that passed validation with numeric fields sends positive rows and seats whose product is within 10–300 |
| AdminHalls.EditedHallValid | src/pages/AdminHalls.tsx:126-137 | a hall with a visible name and 10 to 300 seats in positive rows validates when opened for editing |
| AdminHalls.HallsPage.constructor | src/pages/AdminHalls.tsx:37-48 | closed dialog, no hall being edited, empty form, no messages |
| AdminHalls.HallsPage.OpenDialog | src/pages/AdminHalls.tsx:80-99 | the hall's values as text, or the empty form; the dialog opens |
| AdminHalls.HallsPage.CloseDialog | src/pages/AdminHalls.tsx:101-110 | dialog closed, nothing edited, form empty |
| AdminHalls.HallsPage.HandleSubmit | src/pages/AdminHalls.tsx:139-178 | a validation failure sets the error and sends nothing; otherwise PUT or POST of the parsed body, then close and a success message, or the server's text or the default error |
| AdminUsers.EmailMatchesIffShape | src/pages/AdminUsers.tsx:132 | the pattern accepts exactly: no whitespace, one '@' with text before it, and a domain with a '.' that is neither its first nor its last character |
| AdminUsers.EmailMatches | src/pages/AdminUsers.tsx:132 | an accepted address has at least five characters, an "@" and a "." |
| AdminUsers.EmailExamples | src/pages/AdminUsers.tsx:132 | "a@b.c" is accepted and "a@b" is refused |
| AdminUsers.ValidateUser | src/pages/AdminUsers.tsx:128-145 | the result is one of the nine messages, empty meaning valid |
| AdminUsers.PasswordMessage | src/pages/AdminUsers.tsx:134-143 | the password part yields only its four messages or nothing |
| AdminUsers.ValidateUserIsFirstFailure | src/pages/AdminUsers.tsx:128-145 | the validator returns the first failing check: blank name, name under 3 characters untrimmed, blank e-mail, e-mail pattern, password rules, mismatch |
| AdminUsers.AcceptedIff | src/pages/AdminUsers.tsx:128-145 | accepted exactly when the name is not blank and at least 3 long, the pattern accepts the e-mail, only an edit leaves the password empty, and a typed password has 6 or more characters and matches its confirmation |
| AdminUsers.Payload | src/pages/AdminUsers.tsx:156-165 | the body carries the password exactly when one is typed or the user is new |
| AdminUsers.AcceptedPayloadPassword | src/pages/AdminUsers.tsx:134-165 | an accepted new user always sends a password of 6 or more characters; an accepted edit sends one only when typed |
| AdminUsers.LocalBlock | src/pages/AdminUsers.tsx:275-280 | same length and order; users with the id get the new flag, every other user is unchanged |
| AdminUsers.ActiveUsers | src/pages/AdminUsers.tsx:306 | only users that are not blocked |
| AdminUsers.BlockedUsers | src/pages/AdminUsers.tsx:307 | only blocked users |
| AdminUsers.IsBlocked | src/pages/AdminUsers.tsx:306-307 | the flag read as a condition: a user is blocked unless the flag is absent or false |
| AdminUsers.CurrentUsers | src/pages/AdminUsers.tsx:308 | tab 0 shows the whole list, tab 1 only active users, any other tab only blocked users |
| AdminUsers.TabsShowEachUserOnce | src/pages/AdminUsers.tsx:306-308 | a user is on tab 1 iff listed and not blocked, and on tab 2 iff listed and blocked |
| AdminUsers.TabsPartition | src/pages/AdminUsers.tsx:306-307 | the two tabs together hold every user exactly once |
| AdminUsers.LocalBlockMovesOnlyThatUser | src/pages/AdminUsers.tsx:275-281 | after a local block the user with that id is in the matching tab and nobody else moves |
| AdminUsers.Reloaded | src/pages/AdminUsers.tsx:58-73 | on success the list is the response and the error is cleared; on failure the list stays and the load message is shown; nothing else changes |
| AdminUsers.Closed | src/pages/AdminUsers.tsx:102-112 | the dialog is closed, nothing is edited and the form is empty; nothing else changes |
| AdminUsers.LocalMessage | src/pages/AdminUsers.tsx:281 | the blocked or unblocked message followed by " (локально)" |
| AdminUsers.SaveRequest | src/pages/AdminUsers.tsx:166-182 | a PUT to the edited user's id when editing, a POST otherwise, carrying the body built from the form |
| AdminUsers.UsersPage.constructor | src/pages/AdminUsers.tsx:33-48 | empty list, no messages, closed dialog, empty form, delete dialog not armed |
| AdminUsers.UsersPage.FetchUsers | src/pages/AdminUsers.tsx:58-73 | the new state is the reload step: the response with the error cleared, or the old list with the load message; nothing else changes |
| AdminUsers.UsersPage.OpenDialog | src/pages/AdminUsers.tsx:79-100 | the user's fields with empty passwords, or the empty form with role USER |
| AdminUsers.UsersPage.CloseDialog | src/pages/AdminUsers.tsx:102-112 | the new state is the close step: dialog closed, nothing edited, form empty, everything else unchanged |
| AdminUsers.UsersPage.HandleSubmit | src/pages/AdminUsers.tsx:147-191 | a validation failure sets only the error and sends nothing; otherwise exactly the save step's request and new state |
| AdminUsers.UsersPage.Reject | src/pages/AdminUsers.tsx:149-152 | a rejected form only shows its message: no request, and the form, dialog, list and success message stay |
| AdminUsers.UsersPage.SubmitValid | src/pages/AdminUsers.tsx:154-190 | a form that passed validation gets exactly the save step's request and new state |
| AdminUsers.UsersPage.Save | src/pages/AdminUsers.tsx:154-190 | sends the PUT or POST for the form; on success a reload, the created or updated message, the dialog closed and the error cleared; on failure only the error changes, to `data.error`, `data.message` or the default, so the dialog and success message stay |
| AdminUsers.UsersPage.HandleDeleteClick | src/pages/AdminUsers.tsx:193-200 | every click sets only the self-delete error, and the delete dialog stays unarmed |
| AdminUsers.UsersPage.HandleDeleteConfirm | src/pages/AdminUsers.tsx:202-219 | nothing without an armed user; otherwise the DELETE for that user; success reloads, shows the deleted message and disarms the dialog; failure sets only the error, to the server's text or the default |
| AdminUsers.UsersPage.HandleLocalBlock | src/pages/AdminUsers.tsx:275-282 | the list becomes the local block of the old list and the message ends in "(локально)"; nothing else changes |
| AdminUsers.UsersPage.HandleBlockUser | src/pages/AdminUsers.tsx:221-248 | one's own id sets only an error and sends nothing; an unconfirmed block does nothing; otherwise the PUT, and then a reload with the blocked message on success, the local block with its "(локально)" message on 404, or only the error otherwise |
| AdminUsers.UsersPage.HandleUnblockUser | src/pages/AdminUsers.tsx:250-272 | an unconfirmed unblock does nothing; otherwise the PUT, and then a reload with the unblocked message on success, the local unblock with its "(локально)" message on 404, or only the error otherwise |
| AdminCinemas.ValidateCinema | src/pages/AdminCinemas.tsx:101-106 | valid exactly when name, city and address are all non-blank |
| AdminCinemas.ValidateCinemaIsFirstFailure | src/pages/AdminCinemas.tsx:101-104 | the first blank field decides, in the order name, city, address |
| AdminCinemas.EditedCinemaValid | src/pages/AdminCinemas.tsx:101-106 | a cinema with visible text in every field validates when opened for editing |
| AdminCinemas.EmptyFormRejected | src/pages/AdminCinemas.tsx:101-106 | the empty form of a new cinema is refused with the name message |
| AdminCinemas.CinemasPage.constructor | src/pages/AdminCinemas.tsx:26-38 | closed dialog, nothing edited, empty form, no messages |
| AdminCinemas.CinemasPage.OpenDialog | src/pages/AdminCinemas.tsx:65-82 | the cinema's name, city and address, or empty fields and no editing target; the dialog opens |
| AdminCinemas.CinemasPage.CloseDialog | src/pages/AdminCinemas.tsx:84-92 | dialog closed, nothing edited, form empty |
| AdminCinemas.CinemasPage.HandleSubmit | src/pages/AdminCinemas.tsx:108-146 | a validation failure sets the error and sends nothing; otherwise the save step |
| AdminCinemas.CinemasPage.Reject | src/pages/AdminCinemas.tsx:109-113 | a rejected form only shows its message: no request, and the form, dialog and success message stay |
| AdminCinemas.CinemasPage.Save | src/pages/AdminCinemas.tsx:115-145 | PUT or POST of the form's name, city and address; on success the dialog closes with the update or create message; on failure the response text or the default, with the form and dialog kept |
| AdminSessions.Insert | src/pages/AdminSessions.tsx:76 | the result holds the old movies and the new one, nothing else |
| AdminSessions.SortById | src/pages/AdminSessions.tsx:76 | the sorted list is a permutation of the response |
| AdminSessions.SortByIdSorted | src/pages/AdminSessions.tsx:76 | the movies come out in ascending order of id |
| AdminSessions.SortByIdStable | src/pages/AdminSessions.tsx:76 | movies sharing an id keep their relative order |
| AdminSessions.Payload | src/pages/AdminSessions.tsx:98-104 | the start time is the input followed by ":00"; format and price text are kept |
| AdminSessions.PayloadIds | src/pages/AdminSessions.tsx:99-100 | ids picked from the selects, which hold the options' numeric ids, reach the body as those ids |
| AdminSessions.MissingField | src/pages/AdminSessions.tsx:91 | with ids picked from the selects, the form is refused exactly when an id is 0 or the start time or price is empty; the format is never required |
| AdminSessions.Loaded | src/pages/AdminSessions.tsx:63-88 | on success the three lists, the movies as a permutation of the response sorted by id with equal ids in response order, and the error cleared; on failure only the load message; form and success message stay |
| AdminSessions.SessionsAdminPage.constructor | src/pages/AdminSessions.tsx:40-53 | empty lists, the default form with format "2D", no messages |
| AdminSessions.SessionsAdminPage.FetchData | src/pages/AdminSessions.tsx:63-88 | the new state is the load step applied to the old one |
| AdminSessions.SessionsAdminPage.HandleCreateSession | src/pages/AdminSessions.tsx:90-116 | an empty field sets only "Заполните все поля" and sends nothing; otherwise the POST of the body, then on success the reset form, the created message and the load step, on failure only the error, to the server's text or the default |
| AdminSessions.SessionsAdminPage.HandleDelete | src/pages/AdminSessions.tsx:118-132 | nothing is sent or changed unless confirmed; otherwise the DELETE, then the deleted message and the load step on success, or only the error on failure |
| Movies.Keep | src/pages/Movies.tsx:45-49 | a movie is kept exactly when it is in the list and its lower-cased title, genre or description contains the lower-cased term |
| Movies.EmptyTermKeepsAll | src/pages/Movies.tsx:46-48 | filtering by the empty term keeps every movie in order, since "" occurs in every title |
| Movies.Search | src/pages/Movies.tsx:41-52 | a blank term gives the list unchanged; otherwise the kept movies |
| Movies.KeepIsSubsequence | src/pages/Movies.tsx:45 | the filtered list keeps the movies in their original order |
| Movies.SearchIsSubsequence | src/pages/Movies.tsx:41-52 | the result is always an order-preserving subsequence of the list |
| Movies.NoDescriptionMatchesTitleOrGenre | src/pages/Movies.tsx:48 | a movie without a description is found only through its title or genre |
| Movies.UntrimmedTerm | src/pages/Movies.tsx:42-46 | the term is matched untrimmed: " Dune" misses the movie "Dune" that "Dune" finds |
| Movies.ShortDescription | src/pages/Movies.tsx:143-145 | more than 100 characters gives the first 100 and "..."; otherwise the text whole |
| Movies.ShortDescriptionIdempotent | src/pages/Movies.tsx:143-145 | shortening twice is shortening once, and at most 103 characters are shown |
| Sessions.FormEncodeUnreserved | src/pages/Sessions.tsx:86-93 | text made of unreserved characters serializes unchanged |
| Sessions.EncodeCharChanges | src/pages/Sessions.tsx:86-93 | a character is kept exactly when it is unreserved |
| Sessions.FormEncode | src/pages/Sessions.tsx:95-96 | the serialized text is never shorter than the input and uses only unreserved characters, "+" and "%" |
| Sessions.SerializeRoundTrip | src/pages/Sessions.tsx:95-96 | the serialization is empty exactly when there are no parameters, and splitting it at "&" gives the `name=value` pieces in order |
| Sessions.Serialize | src/pages/Sessions.tsx:95-96 | the serialization is empty exactly when there are no parameters |
| Sessions.QueryParams | src/pages/Sessions.tsx:88-93 | `movie` before `date`, each only when its filter is non-empty |
| Sessions.RequestUrlShape | src/pages/Sessions.tsx:85-97 | "?" and a query are added exactly when a filter is set, listing `movie=` before `date=` |
| Sessions.RequestUrl | src/pages/Sessions.tsx:85-97 | the URL always starts with the sessions endpoint and is exactly that endpoint when neither filter is set |
| Sessions.BuildUrl | src/pages/Sessions.tsx:85-97 | the URL the appending steps build is the request URL for the filters |
| Sessions.Normalise | src/pages/Sessions.tsx:102-108 | a list body is used as is, else a truthy `sessions` field, else the empty list |
| Sessions.FindMovie | src/pages/Sessions.tsx:137 | the index of the first movie with the id, or none exactly when no movie has it |
| Sessions.MovieTitle | src/pages/Sessions.tsx:136-139 | the title of the first movie with the id, or "Фильм" when there is none or its title is empty |
| Sessions.FirstMovieWins | src/pages/Sessions.tsx:137 | a later movie with the same id never supplies the title |
| Sessions.SchedulePage.constructor | src/pages/Sessions.tsx:50-57 | the movie filter starts from the `movie` parameter or "", the date filter empty, loading |
| Sessions.SchedulePage.FetchSessions | src/pages/Sessions.tsx:80-119 | requests the URL for the filters; stores the normalised body, or the empty list and the load message on failure; loading ends |
| Sessions.SchedulePage.FetchMovies | src/pages/Sessions.tsx:68-78 | the list on success; a failure leaves it as it was |
| Sessions.SchedulePage.ResetFilters | src/pages/Sessions.tsx:192-195 | both filters become "", so the next request has no query |
| Booking.TicketWord | src/pages/Booking.tsx:142 | "билет" exactly for 1, "билета" exactly for other counts below 5, otherwise "билетов" |
| Booking.TicketWordAgrees | src/pages/Booking.tsx:140-142 | for every count from 1 to 20, including the offered 1 to 6, the label is the grammatical Russian plural |
| Booking.TicketWordDiffersAt21 | src/pages/Booking.tsx:142 | at 21, which is not offered, the shortcut would give the wrong form |
| Booking.CountOptionsExact | src/pages/Booking.tsx:140 | the offered counts are exactly 1 to 6, in order |
| Booking.TotalPrice | src/pages/Booking.tsx:69 | a missing screening or price gives a total of 0 |
| Booking.TotalPriceBounds | src/pages/Booking.tsx:69 | the total grows with the count and lies between one and six times the price for an offered count |
| Booking.SuccessText | src/pages/Booking.tsx:75 | the alert has exactly three lines: the success line, the ticket count and the total in roubles |
| Booking.SessionIdOf | src/pages/Booking.tsx:66 | a missing or empty route parameter gives session id 0 |
| Booking.BookingPage.constructor | src/pages/Booking.tsx:29-31 | one ticket, no seats, not booking |
| Booking.BookingPage.SelectCount | src/pages/Booking.tsx:138-140 | the count becomes the chosen option |
| Booking.BookingPage.HandleBooking | src/pages/Booking.tsx:50-84 | no user: alert and go to /login; a count below 1: alert, before booking starts; otherwise the booking data with the total, the success alert and /profile, and booking ends |
| Booking.BookingGoesThrough | src/pages/Booking.tsx:50-84 | a signed-in booking with an offered count always goes through and re-enables the button |
| AuthContext.Username | src/contexts/AuthContext.tsx:56 | the prefix of the e-mail before its first '@', or all of it |
| AuthContext.LoggedOut | src/contexts/AuthContext.tsx:72-76 | both keys are gone and every other key is unchanged |
| AuthContext.LoggedIn | src/contexts/AuthContext.tsx:59-60 | the token and the serialised user are stored under their keys and every other key is unchanged |
| AuthContext.Restored | src/contexts/AuthContext.tsx:30-43 | a user is restored only when both keys hold a value; otherwise nothing changes |
| AuthContext.CorruptUserCleared | src/contexts/AuthContext.tsx:37-40 | a stored user that does not parse removes both keys, after which start-up finds nothing |
| AuthContext.RestoreAfterLogin | src/contexts/AuthContext.tsx:30-61 | reloading after a login restores the logged-in user |
| AuthContext.RestoreAfterLogout | src/contexts/AuthContext.tsx:30-76 | reloading after logout restores nobody, and logging out twice is logging out once |
| AuthContext.UserFor | src/contexts/AuthContext.tsx:52-57 | the id is always 1, e-mail and role come from the reply, and the username is the e-mail prefix before '@' |
| AuthContext.AuthProvider.constructor | src/contexts/AuthContext.tsx:27-28 | no user, loading |
| AuthContext.AuthProvider.Restore | src/contexts/AuthContext.tsx:30-43 | user and store are those of the restore step; loading is false in every case |
| AuthContext.AuthProvider.Login | src/contexts/AuthContext.tsx:45-70 | success writes both keys and sets the user; failure returns the server error or "Ошибка входа" and leaves the store |
| AuthContext.AuthProvider.Logout | src/contexts/AuthContext.tsx:72-76 | both keys removed and the user cleared |
| MovieCard.Toggle | src/components/common/MovieCard.tsx:44-48 | the flag is negated |
| MovieCard.AfterClicksParity | src/components/common/MovieCard.tsx:44-48 | the flag depends only on the parity of the clicks; two clicks restore it |
| MovieCard.GenreChips | src/components/common/MovieCard.tsx:328-331 | one chip more than there are commas, no chip holds a comma, and every chip is trimmed |
| MovieCard.GenreChipsOfJoin | src/components/common/MovieCard.tsx:328-331 | comma-separated names give back the trimmed names |
| MovieCard.PosterImage | src/components/common/MovieCard.tsx:159 | the poster URL when truthy, otherwise the placeholder |
| MovieCard.AgeChip | src/components/common/MovieCard.tsx:276-278 | a chip exactly for a truthy rating, labelled with a trailing "+" |
| MovieCard.AgeChipReadsBack | src/components/common/MovieCard.tsx:278 | reading the label as a number gives the rating back |
| JsText.Trim | src/pages/AdminCinemas.tsx:102-104 | the piece of the text left once the whitespace before and after it is removed: only whitespace precedes and follows it, and it neither starts nor ends with whitespace |
| JsText.TrimStart | src/pages/Movies.tsx:42 | the suffix left after the leading whitespace, which starts with a visible character or is empty |
| JsText.BlankIffAllSpace | src/pages/AdminCinemas.tsx:102 | a text is blank after trimming exactly when it is all whitespace |
| JsText.OrElse | src/pages/AdminHalls.tsx:175 | `a || b` on optional text: `a` when truthy, otherwise `b` |
| JsText.IncludesIffOccurs | src/pages/Movies.tsx:46-48 | `includes` finds a text exactly when it occurs somewhere |
| JsText.Split | src/components/common/MovieCard.tsx:328 | one piece more than there are separators, and no piece holds the separator |
| JsText.JoinSplit | src/components/common/MovieCard.tsx:328 | joining the pieces back gives the original text |
| JsText.SplitJoin | src/components/common/MovieCard.tsx:328 | splitting joined separator-free pieces gives them back |
| JsText.FirstPiece | src/contexts/AuthContext.tsx:56 | the first piece is the prefix before the first separator |
| JsText.IntToString | src/pages/AdminHalls.tsx:85-87 | an optional minus sign and decimal digits |
| JsText.ParseInt | src/pages/AdminHalls.tsx:128-132 | blank text is NaN, and a negative result needs a leading minus sign |
| JsText.ParseSelect | src/pages/AdminHalls.tsx:152 | `parseInt` of a select value: a picked number reads back as itself, text is read as `parseInt` reads it |
| JsText.ZeroNotChosen | src/pages/AdminSessions.tsx:91 | the option of id 0 is falsy, while the text "0" is truthy |
| JsText.ParseIntOfIntToString | src/pages/AdminHalls.tsx:148-153 | `parseInt` of a rendered integer gives the integer back |
| JsText.ParseIntOfIntToStringThen | src/components/common/MovieCard.tsx:278 | `parseInt` stops at the first non-digit, so a rendered integer followed by other text reads back |
| JsText.IntToStringInjective | src/components/SeatSelector.tsx:75 | different integers render differently |
| JsText.MapChars | src/pages/Movies.tsx:46-48 | a per-character case map keeps the length and maps each character |

## Left out

- HTTP requests, `localStorage`, `window.confirm`, `alert`, navigation and the clock are not performed. Their results are parameters, and their effects are recorded as returned requests or effect lists.
- JSON parsing and serialising are function parameters. A stored user is whatever the `parse` parameter returns; a parsed value that is not a user object is not modelled.
- `SeatSelector.CheckSeat`: the probe's reply body is read as a boolean. A truthy non-boolean body is not modelled.
- React scheduling is not modelled: effects, re-renders, batched updates and updater functions. Each handler is one atomic step, except the stale read of `error` in `handleSeatClick`, which is kept.
- The `onSeatsChange` callback of the seat map is not modelled, because it only passes the selection to the parent.
- The hall and cinema screens reload their lists after saving; those reloads are not modelled. The user and screening screens' reloads are parameters.
- Deleting halls and cinemas (`handleDeleteConfirm` in those screens) is not modelled. It is a request followed by a reload, with no checks.
- `Authorization` header contents are kept only in `TicketApi` requests. Elsewhere only the request is kept.
- The cancellation reply's `data` and the ticket list's other fields are not modelled.
- `TicketApi.Run`: an error thrown while reading an unreadable stored list is represented by its message only.
- Floating point is not modelled. The screening price is kept as the text given to `parseFloat`, and booking prices are integers. `toFixed` and the rating halving in the movie card are out.
- Locale date formatting (`toLocaleString`) and ISO time text are not modelled. The time text is a parameter.
- `Movies.Search`: `toLowerCase` is a per-character map parameter, because Unicode case mapping, which can change length, is not modelled.
- Strings are sequences of code points. JavaScript measures `length` and `substring` in UTF-16 code units, so `Movies.ShortDescription` and the username length check differ from the browser on characters outside the Basic Multilingual Plane.
- `JsText.SelectText`: a picked id is rendered as a decimal numeral. JavaScript writes integers of 10^21 and above in exponent form, which `parseInt` then reads differently; such ids are not modelled.
- `Sessions.FormEncode`: lone surrogates, which the browser replaces before encoding, are not modelled.
- The user's `getUserTickets` call, the booking page's `fetchSession`, the profile and admin dashboard pages, and the pure layout pages are not part of this model.
